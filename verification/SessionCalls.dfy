/** Every sequence of calls on one session. */
module SessionCalls {
  import opened Wrappers
  import opened SessionTrace
  import opened HarnessSession

  datatype ItemCall =
    | AppendText(text: string)
    | StartReasoning(text: string)
    | AppendReasoning(id: Id, text: string)
    | StartCommandExecution(command: string, cwd: Option<string>)
    | AppendCommandOutput(id: Id, text: string)
    | StartToolExecution(toolName: string, arguments: string)
    | ReplaceToolOutput(id: Id, output: string)
    | StartSubagentDelegation(subagent: string)
    | ReplaceSubagents(id: Id, subagents: seq<string>)
    | CompleteItem(id: Id, outcome: ItemOutcome)
    | EmitFileChange(changes: seq<string>)

  datatype TalkCall =
    | AskQuestion
    | RequestApproval
    | ExpireQuestion(id: Id)
    | Respond(id: Id, isQuestion: bool, dismissed: bool, valid: bool)
    | PublishUsage(usage: Option<string>)
    | NotifyOfSubagent(id: Id)

  datatype TurnCall =
    | StartTurn(turnId: Id, input: seq<string>)
    | Cancel(turnId: Id)
    | SucceedTurn
    | CompleteCancellation(reason: string)
    | FailTurn(error: string)
    | PublishAutonomousTurn(turnId: Id, input: seq<string>)
    | PublishEphemeralCommand(turnId: Id, item: Item)

  datatype SessionCall =
    | Fault(error: string)
    | Close
    | SelectModel(name: string)
    | ReadSnapshot
    | Arrange(plan: Plan)

  datatype Call =
    | OnItem(item: ItemCall)
    | OnTalk(talk: TalkCall)
    | OnTurn(turn: TurnCall)
    | OnSession(session: SessionCall)

  /** What every call does to a session: outputs and stored turns are only ever added to, and a session
      that is closed stays closed, says nothing more and stores nothing more. */
  twostate predicate Onward(s: FakeHarnessSession)
    reads s, s.snapshot
  {
    && old(s.trace) <= s.trace && old(s.snapshot.turns) <= s.snapshot.turns
    && (old(s.closed) ==> s.closed && s.trace == old(s.trace) && s.snapshot.turns == old(s.snapshot.turns))
  }

  method PerformOnItem(s: FakeHarnessSession, c: ItemCall)
    requires s.Valid()
    modifies s, s.channel
    ensures s.Valid() && Onward(s)
  {
    hide Accept, Scan, Coupled, Kept, Fold, Find, Put, Drop;
    match c {
      case AppendText(text) => var thrown := s.AppendText(text);
      case StartReasoning(text) => var id, thrown := s.StartReasoning(text);
      case AppendReasoning(id, text) => var thrown := s.AppendReasoning(id, text);
      case StartCommandExecution(command, cwd) => var id, thrown := s.StartCommandExecution(command, cwd);
      case AppendCommandOutput(id, text) => var thrown := s.AppendCommandOutput(id, text);
      case StartToolExecution(toolName, arguments) => var id, thrown := s.StartToolExecution(toolName, arguments);
      case ReplaceToolOutput(id, output) => var thrown := s.ReplaceToolOutput(id, output);
      case StartSubagentDelegation(subagent) => var id, thrown := s.StartSubagentDelegation(subagent);
      case ReplaceSubagents(id, subagents) => var thrown := s.ReplaceSubagents(id, subagents);
      case CompleteItem(id, outcome) => var thrown := s.CompleteItem(id, outcome);
      case EmitFileChange(changes) => var id, thrown := s.EmitFileChange(changes);
    }
  }

  method PerformOnTalk(s: FakeHarnessSession, c: TalkCall)
    requires s.Valid()
    modifies s, s.channel
    ensures s.Valid() && Onward(s)
  {
    hide Accept, Scan, Coupled, Kept;
    match c {
      case AskQuestion => var id, thrown := s.AskQuestion();
      case RequestApproval => var id, thrown := s.RequestApproval();
      case ExpireQuestion(id) => var thrown := s.ExpireQuestion(id);
      case Respond(id, isQuestion, dismissed, valid) => var r := s.Respond(id, isQuestion, dismissed, valid);
      case PublishUsage(usage) => var thrown := s.PublishUsage(usage);
      case NotifyOfSubagent(id) => s.Report(SubagentNotice(id));
    }
  }

  /** An ephemeral command during a turn is the one call left out. */
  predicate LeftOut(active: bool, c: TurnCall) {
    c.PublishEphemeralCommand? && active
  }

  method PerformOnTurn(s: FakeHarnessSession, c: TurnCall)
    requires s.Valid()
    modifies s, s.channel, s.snapshot
    ensures s.Valid() && Onward(s)
  {
    hide Accept, Scan, Coupled, Kept, RecordOf, EndingOf, PlannedOutputs, PlannedInteractions;
    match c {
      case StartTurn(turnId, input) => var r := s.StartTurn(turnId, input);
      case Cancel(turnId) => var r := s.Cancel(turnId);
      case SucceedTurn => var thrown := s.SucceedTurn();
      case CompleteCancellation(reason) => var thrown := s.CompleteCancellation(reason);
      case FailTurn(error) => var thrown := s.FailTurn(error);
      case PublishAutonomousTurn(turnId, input) => var thrown := s.PublishAutonomousTurn(turnId, input);
      case PublishEphemeralCommand(turnId, item) =>
        if !LeftOut(s.active.Some?, c) {
          var thrown := s.PublishEphemeralCommand(turnId, item);
        }
    }
  }

  method PerformOnSession(s: FakeHarnessSession, c: SessionCall)
    requires s.Valid()
    modifies s, s.channel, s.snapshot
    ensures s.Valid() && Onward(s)
  {
    hide Accept, Scan, Coupled, Kept, RecordOf, EndingOf;
    match c {
      case Fault(error) => s.Fault(error);
      case Close => s.Close();
      case SelectModel(name) => var r := s.SelectModel(name);
      case ReadSnapshot => var r := s.ReadSnapshot();
      case Arrange(plan) => s.Arrange(plan);
    }
  }

  method Perform(s: FakeHarnessSession, c: Call)
    requires s.Valid()
    modifies s, s.channel, s.snapshot
    ensures s.Valid() && Onward(s)
  {
    match c {
      case OnItem(item) => PerformOnItem(s, item);
      case OnTalk(talk) => PerformOnTalk(s, talk);
      case OnTurn(turn) => PerformOnTurn(s, turn);
      case OnSession(session) => PerformOnSession(s, session);
    }
  }

  /** Whatever is called on a session, and in whatever order: its outputs follow the grammar, its stored
      turns are what they announced, both only grow, and after a fault or a close nothing is added. */
  method PerformAll(s: FakeHarnessSession, calls: seq<Call>)
    requires s.Valid()
    modifies s, s.channel, s.snapshot
    ensures s.Valid() && Onward(s)
  {
    hide FakeHarnessSession.Valid;
    for k := 0 to |calls|
      invariant s.Valid() && Onward(s)
    {
      Perform(s, calls[k]);
    }
  }
}
