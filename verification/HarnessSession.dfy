/** The in-process Harness session: turns, items, interactions, cancellation, fault and history. */
module HarnessSession {
  import opened Wrappers
  import opened Sequences
  import opened SessionTrace
  import opened TraceLaws
  import Decimal
  import Channel = OutputChannel

  function ItemId(n: nat): Id {
    "fake-item-" + Decimal.Render(n)
  }

  function InteractionId(n: nat): Id {
    "fake-interaction-" + Decimal.Render(n)
  }

  function CheckpointId(n: nat): string {
    "fake-checkpoint-" + Decimal.Render(n)
  }

  function TurnKey(n: nat): string {
    "fake-turn-" + Decimal.Render(n)
  }

  datatype Checkpoint = Checkpoint(sessionId: string, id: string)

  datatype TurnRecord = TurnRecord(
    sessionId: string,
    key: string,
    checkpoint: Option<Checkpoint>,
    input: seq<string>,
    items: seq<ItemSnapshot>,
    outcome: ItemOutcome,
    model: Option<string>)

  datatype ActiveTurn = ActiveTurn(
    turnId: Id,
    input: seq<string>,
    items: seq<Item>,
    completed: seq<ItemSnapshot>,
    interactions: seq<Interaction>,
    cancelling: bool)

  /** With forking, turn i carries checkpoint i of this session; without it no turn carries any. */
  ghost predicate Numbered(turns: seq<TurnRecord>, sessionId: string, fork: bool) {
    forall i :: 0 <= i < |turns| ==>
      turns[i].checkpoint == if fork then Some(Checkpoint(sessionId, CheckpointId(i + 1))) else None
  }

  /** Identities the session has handed out so far. */
  ghost predicate IssuedItem(id: Id, n: nat) {
    exists k: nat :: k <= n && id == ItemId(k)
  }

  ghost predicate IssuedInteraction(id: Id, n: nat) {
    exists k: nat :: k <= n && id == InteractionId(k)
  }

  lemma ItemsDiffer(a: ActiveTurn, g: Grammar, n: nat, m: nat)
    requires Coupled(Some(a), g, n, m)
    ensures DistinctItems(a.items)
  {
  }

  lemma OpenMessage(a: ActiveTurn, g: Grammar, n: nat, m: nat, item: Item)
    requires Coupled(Some(a), g, n, m) && item in a.items
    ensures Find(a.items, item.id) == Some(item)
  {
    FindMember(a.items, item);
  }

  lemma NextItemFresh(n: nat)
    ensures !IssuedItem(ItemId(n + 1), n)
  {
    forall k: nat | k <= n ensures ItemId(n + 1) != ItemId(k) {
      if ItemId(n + 1) == ItemId(k) { Decimal.NumberedNames("fake-item-", n + 1, k); }
    }
  }

  lemma NextInteractionFresh(n: nat)
    ensures !IssuedInteraction(InteractionId(n + 1), n)
  {
    forall k: nat | k <= n ensures InteractionId(n + 1) != InteractionId(k) {
      if InteractionId(n + 1) == InteractionId(k) { Decimal.NumberedNames("fake-interaction-", n + 1, k); }
    }
  }

  function Delivered(trace: seq<Output>): (r: seq<Channel.Item<Output>>)
    ensures |r| == |trace|
  {
    seq(|trace|, i requires 0 <= i < |trace| => Channel.Defined(trace[i]))
  }

  lemma DeliveredMore(trace: seq<Output>, e: Output)
    ensures Delivered(trace + [e]) == Delivered(trace) + [Channel.Defined(e)]
  {
  }

  /** Open items end in the reverse of the order they were started in. */
  function Closing(items: seq<Item>, outcome: ItemOutcome): seq<ItemSnapshot> {
    if items == [] then []
    else [ItemSnapshot(items[|items| - 1], outcome)] + Closing(items[..|items| - 1], outcome)
  }

  function Completed(turnId: Id, snapshots: seq<ItemSnapshot>): (r: seq<Output>)
    ensures |r| == |snapshots|
  {
    seq(|snapshots|, i requires 0 <= i < |snapshots| => ItemCompleted(turnId, snapshots[i]))
  }

  function Closed(turnId: Id, open: seq<Interaction>, reason: CloseReason): (r: seq<Output>)
    ensures |r| == |open|
  {
    seq(|open|, i requires 0 <= i < |open| => InteractionClosed(turnId, open[i].id, reason))
  }

  lemma ClosedNone(before: seq<Output>, turnId: Id, open: seq<Interaction>, reason: CloseReason)
    ensures before + Closed(turnId, open[..0], reason) == before && open[0..] == open && open[..|open|] == open
  {
  }

  lemma ClosedMore(before: seq<Output>, turnId: Id, open: seq<Interaction>, k: nat, reason: CloseReason)
    requires k < |open|
    ensures FindInteraction(open[k..], open[k].id) == Some(open[k])
            && DropInteraction(open[k..], open[k].id) == open[k + 1..]
    ensures before + Closed(turnId, open[..k], reason) + [InteractionClosed(turnId, open[k].id, reason)]
            == before + Closed(turnId, open[..k + 1], reason)
  {
    assert open[k..][1..] == open[k + 1..];
    assert Closed(turnId, open[..k + 1], reason)
           == Closed(turnId, open[..k], reason) + [InteractionClosed(turnId, open[k].id, reason)];
  }

  /** Completing the open items reverses them. */
  lemma {:induction false} ClosingReverses(items: seq<Item>, outcome: ItemOutcome, k: nat)
    requires k < |items|
    ensures |Closing(items, outcome)| == |items|
    ensures Closing(items, outcome)[k] == ItemSnapshot(items[|items| - 1 - k], outcome)
  {
    if |items| > 1 {
      ClosingReverses(items[..|items| - 1], outcome, if k == 0 then 0 else k - 1);
    }
  }

  lemma {:induction false} DropLast(items: seq<Item>)
    requires items != [] && DistinctItems(items)
    ensures Drop(items, items[|items| - 1].id) == items[..|items| - 1]
    ensures Find(items, items[|items| - 1].id) == Some(items[|items| - 1])
  {
    if |items| > 1 {
      assert items[0].id != items[|items| - 1].id;
      DropLast(items[1..]);
      assert items[1..][..|items| - 2] == items[..|items| - 1][1..];
    }
  }

  lemma {:induction false} FindMember(items: seq<Item>, item: Item)
    requires DistinctItems(items) && item in items
    ensures Find(items, item.id) == Some(item)
  {
    if items[0] != item {
      var k :| 0 <= k < |items| && items[k] == item;
      assert items[0].id != items[k].id && items[1..][k - 1] == item;
      FindMember(items[1..], item);
    }
  }

  lemma {:induction false} PutLast(items: seq<Item>, last: Item, item: Item)
    requires last.id == item.id && forall k :: 0 <= k < |items| ==> items[k].id != item.id
    ensures Put(items + [last], item) == items + [item]
  {
    var all := items + [last];
    if items == [] {
      assert all == [last] && all[1..] == [];
    } else {
      assert all[0] == items[0] && all[1..] == items[1..] + [last];
      PutLast(items[1..], last, item);
      Associates([items[0]], items[1..], [item]);
    }
  }

  lemma FirstText(items: seq<Item>, id: Id, text: string)
    requires DistinctItems(items + [Reasoning(id, "")])
    ensures var all := items + [Reasoning(id, "")];
            && Find(all, id) == Some(Reasoning(id, ""))
            && Fold(Reasoning(id, ""), TextAppend(text)) == Some(Reasoning(id, text))
            && Put(all, Reasoning(id, text)) == items + [Reasoning(id, text)]
  {
    FindMember(items + [Reasoning(id, "")], Reasoning(id, ""));
    forall k | 0 <= k < |items| ensures items[k].id != id {
      assert (items + [Reasoning(id, "")])[k].id != (items + [Reasoning(id, "")])[|items|].id;
    }
    PutLast(items, Reasoning(id, ""), Reasoning(id, text));
    assert "" + text == text;
  }

  /** What a command has printed so far. */
  function Printed(item: Item): string
    requires item.CommandExecution?
  {
    if item.printed.Some? then item.printed.value else ""
  }

  function FirstMessage(items: seq<Item>): (r: Option<Item>)
    ensures r.None? ==> forall k :: 0 <= k < |items| ==> !items[k].AgentMessage?
    ensures r.Some? ==> exists k :: 0 <= k < |items| && items[k] == r.value && items[k].AgentMessage?
                                    && forall j :: 0 <= j < k ==> !items[j].AgentMessage?
  {
    if items == [] then None
    else if items[0].AgentMessage? then Some(items[0])
    else FirstMessage(items[1..])
  }

  lemma {:induction false} PutAt(items: seq<Item>, item: Item)
    requires DistinctItems(items)
    ensures var r := Put(items, item);
            |r| == |items| && forall k :: 0 <= k < |items| ==> r[k] == if items[k].id == item.id then item else items[k]
  {
    if items != [] {
      if items[0].id != item.id {
        PutAt(items[1..], item);
      } else {
        forall k | 0 < k < |items| ensures items[k].id != item.id {
          assert items[0].id != items[k].id;
        }
      }
    }
  }

  lemma Concatenates(a: seq<Output>, b: seq<Output>, c: seq<Output>, d: seq<Output>)
    ensures a + b + c + d == a + (b + c + d)
  {
  }

  /** How far completing the open items has come, last-started first. */
  ghost predicate Completing(a: ActiveTurn, now: ActiveTurn, emitted: seq<Output>, done: seq<ItemSnapshot>,
                             outcome: ItemOutcome) {
    && now == a.(items := now.items, completed := a.completed + done)
    && done + Closing(now.items, outcome) == Closing(a.items, outcome)
    && emitted == Completed(a.turnId, done)
  }

  lemma CompletingStarts(a: ActiveTurn, outcome: ItemOutcome)
    ensures Completing(a, a, [], [], outcome)
  {
    assert a.completed + [] == a.completed;
  }

  lemma CompletingStep(a: ActiveTurn, now: ActiveTurn, emitted: seq<Output>, done: seq<ItemSnapshot>,
                       outcome: ItemOutcome)
    requires Completing(a, now, emitted, done, outcome) && now.items != []
    ensures var snapshot := ItemSnapshot(now.items[|now.items| - 1], outcome);
            Completing(a, now.(items := now.items[..|now.items| - 1], completed := now.completed + [snapshot]),
                       emitted + [ItemCompleted(a.turnId, snapshot)], done + [snapshot], outcome)
  {
    var n := |now.items| - 1;
    var snapshot := ItemSnapshot(now.items[n], outcome);
    Associates(a.completed, done, [snapshot]);
    Associates(done, [snapshot], Closing(now.items[..n], outcome));
    CompletedMore(a.turnId, done, snapshot);
  }

  lemma CompletedMore(turnId: Id, done: seq<ItemSnapshot>, snapshot: ItemSnapshot)
    ensures Completed(turnId, done + [snapshot]) == Completed(turnId, done) + [ItemCompleted(turnId, snapshot)]
  {
  }

  lemma CompletingEnds(a: ActiveTurn, now: ActiveTurn, emitted: seq<Output>, done: seq<ItemSnapshot>,
                       outcome: ItemOutcome)
    requires Completing(a, now, emitted, done, outcome) && now.items == []
    ensures now == a.(items := [], completed := a.completed + Closing(a.items, outcome))
    ensures emitted == Completed(a.turnId, Closing(a.items, outcome))
  {
    assert done + [] == done;
  }

  /** Tools must be done before a turn may succeed; messages and reasoning need not be. */
  predicate Finished(items: seq<Item>) {
    forall i :: i in items ==> i.AgentMessage? || i.Reasoning?
  }

  function RecordOf(sessionId: string, fork: bool, ordinal: nat, a: ActiveTurn, outcome: ItemOutcome,
                    model: Option<string>): TurnRecord {
    TurnRecord(sessionId, TurnKey(ordinal),
               if fork then Some(Checkpoint(sessionId, CheckpointId(ordinal))) else None,
               a.input, a.completed, outcome, model)
  }

  function CompletionOf(a: ActiveTurn, record: TurnRecord): Output {
    TurnCompleted(a.turnId, true, record.outcome,
                  if record.checkpoint.Some? then Some(record.checkpoint.value.id) else None)
  }

  function EndedTurn(a: ActiveTurn, outcome: ItemOutcome): ActiveTurn {
    a.(items := [], completed := a.completed + Closing(a.items, outcome), interactions := [])
  }

  function EndingOf(a: ActiveTurn, record: TurnRecord): seq<Output> {
    Closed(a.turnId, a.interactions, Dismissed)
    + Completed(a.turnId, Closing(a.items, record.outcome))
    + [CompletionOf(a, record)]
  }

  /** What an accepted turn emits after its first item, in this order. */
  function PlannedOutputs(turnId: Id, usage: Option<Option<string>>, question: bool, approval: bool,
                          asked: nat): seq<Output> {
    (if usage.Some? then [UsageChanged(usage.value)] else []) + PlannedAsks(turnId, question, approval, asked)
  }

  function PlannedInteractions(turnId: Id, question: bool, approval: bool, asked: nat): seq<Interaction> {
    (if question then [Question(InteractionId(asked + 1), turnId)] else [])
    + (if approval then [Approval(InteractionId(asked + (if question then 2 else 1)), turnId)] else [])
  }

  function PlannedAsks(turnId: Id, question: bool, approval: bool, asked: nat): seq<Output> {
    (if question then [InteractionOpened(Question(InteractionId(asked + 1), turnId))] else [])
    + (if approval then [InteractionOpened(Approval(InteractionId(asked + (if question then 2 else 1)), turnId))]
      else [])
  }

  lemma AsksCompose(before: seq<Output>, turnId: Id, question: bool, approval: bool, asked: nat)
    ensures var asks := PlannedAsks(turnId, question, approval, asked);
            var first := Question(InteractionId(asked + 1), turnId);
            var second := Approval(InteractionId(asked + (if question then 2 else 1)), turnId);
            && (question && approval ==>
               before + [InteractionOpened(first)] + [InteractionOpened(second)] == before + asks)
            && (question && !approval ==> before + [InteractionOpened(first)] == before + asks)
            && (!question && approval ==> before + [InteractionOpened(second)] == before + asks)
            && (!question && !approval ==> before == before + asks)
  {
  }

  lemma AloneInTurn(item: Item)
    ensures [] + [item] == [item]
  {
  }

  lemma InteractionsCompose(turnId: Id, question: bool, approval: bool, asked: nat)
    ensures var all := PlannedInteractions(turnId, question, approval, asked);
            var first := Question(InteractionId(asked + 1), turnId);
            var second := Approval(InteractionId(asked + (if question then 2 else 1)), turnId);
            && (question && approval ==> [] + [first] + [second] == all)
            && (question && !approval ==> [] + [first] == all)
            && (!question && approval ==> [] + [second] == all)
            && (!question && !approval ==> [] == all)
  {
  }

  datatype ErrorCode =
    | InvalidState | InvalidRequest | SessionBusy | Rejected(error: string)
    | Unsupported | SessionNotFound | CheckpointNotFound

  /** What a test arranges for later calls. */
  datatype Plan =
    | RejectNextTurn(error: string)
    | RejectNextModelSelection(error: string)
    | CompleteCancellationOnRequest
    | RequestApprovalOnNextTurn
    | AskQuestionOnNextTurn
    | PublishUsageOnNextTurn(usage: Option<string>)

  datatype Response = Accepted | Refused(code: ErrorCode)

  /** The texts of a turn's input, one to a line. */
  function JoinedText(input: seq<string>): string {
    if input == [] then ""
    else if |input| == 1 then input[0]
    else input[0] + ("\n" + JoinedText(input[1..]))
  }

  /** There is no text exactly in no input and in one empty input. */
  lemma EmptyTextExactly(input: seq<string>)
    ensures JoinedText(input) == "" <==> input == [] || input == [""]
  {
  }

  /** The turn the session works on is the turn the grammar has open, and every identity that turn has
      used is one the session handed out. */
  ghost predicate Coupled(active: Option<ActiveTurn>, g: Grammar, itemOrdinal: nat, interactionOrdinal: nat) {
    match active
    case None => g.open.None?
    case Some(a) =>
      && !g.faulted && g.open.Some?
      && var o := g.open.value;
      && o.id == a.turnId && o.items == a.items && o.completed == a.completed && o.interactions == a.interactions
      && Keyed(o)
      && (forall id :: id in o.seen ==> IssuedItem(id, itemOrdinal))
      && (forall id :: id in o.asked ==> IssuedInteraction(id, interactionOrdinal))
  }

  /** A stored turn holds the items, the outcome and the checkpoint its outputs announced, under the key of
      its place. */
  predicate Records(turn: TurnRecord, place: nat, finished: FinishedTurn, sessionId: string) {
    && turn.sessionId == sessionId && turn.key == TurnKey(place + 1)
    && turn.items == finished.items && turn.outcome == finished.outcome
    && finished.checkpoint == if turn.checkpoint.Some? then Some(turn.checkpoint.value.id) else None
  }

  /** The turns added to what the session started from hold what the trace shows as completed. */
  ghost predicate Kept(turns: seq<TurnRecord>, history: seq<FinishedTurn>, inherited: nat, numbered: bool,
                       sessionId: string, fork: bool) {
    && |turns| == inherited + |history|
    && (forall i :: 0 <= i < |history| ==> Records(turns[inherited + i], inherited + i, history[i], sessionId))
    && (numbered ==> Numbered(turns, sessionId, fork))
  }

  /** How a turn's record says it ended. */
  function EndOf(a: ActiveTurn, record: TurnRecord): FinishedTurn {
    FinishedTurn(a.completed, record.outcome, if record.checkpoint.Some? then Some(record.checkpoint.value.id)
      else None)
  }

  lemma TurnFinishes(a: ActiveTurn, g: Grammar, n: nat, m: nat, record: TurnRecord)
    requires Coupled(Some(a), g, n, m) && a.items == [] && a.interactions == []
    ensures var g' := Accept(g, CompletionOf(a, record));
            && g' == Some(Grammar(None, false, g.history + [EndOf(a, record)]))
            && Coupled(None, g'.value, n, m)
  {
  }

  lemma KeepsMore(turns: seq<TurnRecord>, history: seq<FinishedTurn>, inherited: nat, numbered: bool,
                  sessionId: string, fork: bool, a: ActiveTurn, outcome: ItemOutcome, model: Option<string>)
    requires Kept(turns, history, inherited, numbered, sessionId, fork)
    ensures var record := RecordOf(sessionId, fork, |turns| + 1, a, outcome, model);
            Kept(turns + [record], history + [EndOf(a, record)], inherited, numbered, sessionId, fork)
  {
  }

  /** An output that the grammar accepts inside the turn, leading from one state of the turn to another. */
  ghost predicate Leads(g: Grammar, e: Output, next: Option<ActiveTurn>, itemOrdinal: nat, interactionOrdinal: nat) {
    && Accept(g, e).Some?
    && var g' := Accept(g, e).value;
    && Coupled(next, g', itemOrdinal, interactionOrdinal)
    && g'.history == g.history && g'.faulted == g.faulted
  }

  lemma ItemStarts(a: ActiveTurn, g: Grammar, n: nat, m: nat, item: Item)
    requires Coupled(Some(a), g, n, m) && item.id == ItemId(n + 1)
    ensures Leads(g, ItemStarted(a.turnId, item), Some(a.(items := a.items + [item])), n + 1, m)
  {
    NextItemFresh(n);
    AcceptKeepsKeys(g, ItemStarted(a.turnId, item));
    assert IssuedItem(item.id, n + 1);
    forall id | id in g.open.value.seen ensures IssuedItem(id, n + 1) {
      assert IssuedItem(id, n);
    }
  }

  lemma ItemUpdates(a: ActiveTurn, g: Grammar, n: nat, m: nat, itemId: Id, update: Update)
    requires Coupled(Some(a), g, n, m) && Find(a.items, itemId).Some?
    requires Fold(Find(a.items, itemId).value, update).Some?
    ensures var folded := Fold(Find(a.items, itemId).value, update).value;
            Leads(g, ItemUpdated(a.turnId, itemId, update), Some(a.(items := Put(a.items, folded))), n, m)
  {
    AcceptKeepsKeys(g, ItemUpdated(a.turnId, itemId, update));
  }

  lemma ItemCompletes(a: ActiveTurn, g: Grammar, n: nat, m: nat, item: Item, outcome: ItemOutcome)
    requires Coupled(Some(a), g, n, m) && Find(a.items, item.id) == Some(item)
    ensures var snapshot := ItemSnapshot(item, outcome);
            Leads(g, ItemCompleted(a.turnId, snapshot),
                  Some(a.(items := Drop(a.items, item.id), completed := a.completed + [snapshot])), n, m)
  {
    AcceptKeepsKeys(g, ItemCompleted(a.turnId, ItemSnapshot(item, outcome)));
  }

  lemma InteractionOpens(a: ActiveTurn, g: Grammar, n: nat, m: nat, i: Interaction)
    requires Coupled(Some(a), g, n, m) && i.id == InteractionId(m + 1) && i.turnId == a.turnId
    ensures Leads(g, InteractionOpened(i), Some(a.(interactions := a.interactions + [i])), n, m + 1)
  {
    NextInteractionFresh(m);
    AcceptKeepsKeys(g, InteractionOpened(i));
    assert IssuedInteraction(i.id, m + 1);
    forall id | id in g.open.value.asked ensures IssuedInteraction(id, m + 1) {
      assert IssuedInteraction(id, m);
    }
  }

  lemma InteractionCloses(a: ActiveTurn, g: Grammar, n: nat, m: nat, id: Id, reason: CloseReason)
    requires Coupled(Some(a), g, n, m) && FindInteraction(a.interactions, id).Some?
    ensures Leads(g, InteractionClosed(a.turnId, id, reason),
                  Some(a.(interactions := DropInteraction(a.interactions, id))), n, m)
  {
    AcceptKeepsKeys(g, InteractionClosed(a.turnId, id, reason));
  }

  lemma IdleGrammar(g: Grammar, n: nat, m: nat)
    requires Coupled(None, g, n, m)
    ensures g.open.None?
  {
  }

  lemma FaultAccepted(g: Grammar, error: string, n: nat, m: nat)
    requires Coupled(None, g, n, m)
    ensures !g.faulted ==> var g' := Accept(g, SessionFaulted(error));
                           g'.Some? && Coupled(None, g'.value, n, m) && g'.value.history == g.history
  {
  }

  lemma EphemeralAccepted(g: Grammar, turnId: Id, item: Item)
    requires g.open.None? && !g.faulted
    ensures var snapshot := ItemSnapshot(item, Succeeded);
            && var g1 := Accept(g, TurnStarted(turnId));
            && g1.Some? && var g2 := Accept(g1.value, ItemStarted(turnId, item));
            && g2.Some? && var g3 := Accept(g2.value, ItemCompleted(turnId, snapshot));
            && g3.Some? && Accept(g3.value, TurnCompleted(turnId, false, Succeeded, None)) == Some(g)
  {
    assert [] + [item] == [item];
    assert [item][1..] == [];
  }

  /** A list of turns that its owner extends in place. */
  class ThreadSnapshot {
    var turns: seq<TurnRecord>

    constructor (turns: seq<TurnRecord>)
      ensures this.turns == turns
    {
      this.turns := turns;
    }
  }

  class FakeHarnessSession {
    const sessionId: string
    const cwd: string
    const fork: bool
    const catalog: set<string>
    const channel: Channel.HarnessOutputChannel<Output>
    var active: Option<ActiveTurn>
    var closed: bool
    var cancelOnRequest: bool
    var interactionOrdinal: nat
    var itemOrdinal: nat
    var turnOrdinal: nat
    var nextRejection: Option<string>
    var nextModelRejection: Option<string>
    var nextUsage: Option<Option<string>>
    var nextQuestion: bool
    var nextApproval: bool
    var model: Option<string>
    const snapshot: ThreadSnapshot
    var responses: seq<Id>
    // Everything emitted, and where the grammar stands after it.
    ghost var trace: seq<Output>
    ghost var grammar: Grammar
    ghost const inherited: nat
    ghost const numbered: bool

    /** The trace is grammatical, and the channel delivers exactly the trace. */
    ghost predicate Synced()
      reads this`trace, this`grammar, channel
    {
      Scan(trace) == Some(grammar) && Channel.Refines(channel.Abstract(), Delivered(trace))
    }

    ghost predicate Valid()
      reads this, channel, snapshot
    {
      && Synced()
      && turnOrdinal == |snapshot.turns| && Kept(snapshot.turns, grammar.history, inherited, numbered, sessionId, fork)
      && Coupled(active, grammar, itemOrdinal, interactionOrdinal)
      && channel.ended == closed
      && (grammar.faulted ==> closed)
      && (closed ==> active.None?)
    }

    /** Nothing but the turn in progress and the trace has changed. */
    twostate predicate Steady()
      reads this, snapshot
    {
      && closed == old(closed) && snapshot.turns == old(snapshot.turns) && turnOrdinal == old(turnOrdinal)
      && model == old(model)
      && cancelOnRequest == old(cancelOnRequest) && responses == old(responses)
      && nextRejection == old(nextRejection) && nextModelRejection == old(nextModelRejection)
      && nextUsage == old(nextUsage) && nextQuestion == old(nextQuestion) && nextApproval == old(nextApproval)
    }

    constructor (sessionId: string, cwd: string, catalog: set<string>, model: Option<string>, turns: seq<TurnRecord>,
                 fork: bool)
      ensures Valid() && fresh(channel) && fresh(snapshot)
      ensures this.sessionId == sessionId && this.cwd == cwd && this.catalog == catalog && this.model == model
              && this.fork == fork
      ensures snapshot.turns == turns && trace == [] && active.None? && !closed
      ensures numbered == Numbered(turns, sessionId, fork)
      ensures itemOrdinal == 0 && interactionOrdinal == 0 && turnOrdinal == |turns| && responses == []
      ensures nextRejection.None? && nextModelRejection.None? && nextUsage.None? && !nextQuestion && !nextApproval
      ensures !cancelOnRequest
    {
      this.sessionId, this.cwd, this.catalog, this.model, this.fork := sessionId, cwd, catalog, model, fork;
      snapshot := new ThreadSnapshot(turns);
      channel := new Channel.HarnessOutputChannel<Output>();
      active, closed, cancelOnRequest := None, false, false;
      interactionOrdinal, itemOrdinal, turnOrdinal := 0, 0, |turns|;
      nextRejection, nextModelRejection, nextUsage, nextQuestion, nextApproval := None, None, None, false, false;
      responses := [];
      trace, grammar := [], START;
      inherited, numbered := |turns|, Numbered(turns, sessionId, fork);
    }

    /** Emits one output; an ended channel drops it. */
    method Say(e: Output)
      requires Synced() && (channel.ended || Accept(grammar, e).Some?)
      modifies this`trace, this`grammar, channel
      ensures Synced() && channel.ended == old(channel.ended)
      ensures if old(channel.ended) then trace == old(trace) && grammar == old(grammar)
              else trace == old(trace) + [e] && Accept(old(grammar), e) == Some(grammar)
    {
      hide Accept, Scan, Channel.Refines, Delivered;
      Channel.EmitRefines(channel.Abstract(), Delivered(trace), Channel.Defined(e));
      ScanMore(trace, e);
      DeliveredMore(trace, e);
      var accepted := channel.Emit(Channel.Defined(e));
      if accepted {
        grammar := Accept(grammar, e).value;
        trace := trace + [e];
      }
    }

    method SayBoth(first: Output, second: Output)
      requires Synced() && !channel.ended && Accept(grammar, first).Some?
               && Accept(Accept(grammar, first).value, second).Some?
      modifies this`trace, this`grammar, channel
      ensures Synced() && !channel.ended && trace == old(trace) + [first] + [second]
      ensures Some(grammar) == Accept(Accept(old(grammar), first).value, second)
    {
      hide Accept, Scan;
      Say(first);
      Say(second);
    }

    /** Emits an output of the turn in progress and moves the turn accordingly. */
    method Proceed(e: Output, next: Option<ActiveTurn>, items: nat, interactions: nat)
      requires Valid() && !closed && Leads(grammar, e, next, items, interactions)
      modifies this, channel
      ensures Valid() && Steady() && trace == old(trace) + [e] && active == next
      ensures itemOrdinal == items && interactionOrdinal == interactions
    {
      hide Accept, Scan, Coupled, Kept, Channel.Refines, Delivered;
      active, itemOrdinal, interactionOrdinal := next, items, interactions;
      Say(e);
    }

    // ---- Items -----------------------------------------------------------------------------

    function NewId(): Id
      reads this
    {
      ItemId(itemOrdinal + 1)
    }

    /** Without an active turn this throws, and the ordinal stays spent. */
    method StartItem(item: Item) returns (thrown: bool)
      requires Valid() && item.id == NewId()
      modifies this, channel
      ensures Valid() && Steady()
      ensures itemOrdinal == old(itemOrdinal) + 1 && interactionOrdinal == old(interactionOrdinal)
      ensures thrown == old(active).None?
      ensures if thrown then active == None && trace == old(trace)
              else active == Some(old(active).value.(items := old(active).value.items + [item]))
                   && trace == old(trace) + [ItemStarted(old(active).value.turnId, item)]
    {
      if active.None? {
        itemOrdinal := itemOrdinal + 1;
        return true;
      }
      var a := active.value;
      ItemStarts(a, grammar, itemOrdinal, interactionOrdinal, item);
      Proceed(ItemStarted(a.turnId, item), Some(a.(items := a.items + [item])), itemOrdinal + 1, interactionOrdinal);
      return false;
    }

    /** Replaces the item by a new object and announces the update; the started item is left as it was. */
    method Amend(itemId: Id, update: Update)
      requires Valid() && active.Some? && Find(active.value.items, itemId).Some?
      requires Fold(Find(active.value.items, itemId).value, update).Some?
      modifies this, channel
      ensures Valid() && Steady()
      ensures itemOrdinal == old(itemOrdinal) && interactionOrdinal == old(interactionOrdinal)
      ensures active == Some(old(active).value.(items :=
                Put(old(active).value.items, Fold(Find(old(active).value.items, itemId).value, update).value)))
      ensures trace == old(trace) + [ItemUpdated(old(active).value.turnId, itemId, update)]
    {
      var a := active.value;
      var folded := Fold(Find(a.items, itemId).value, update).value;
      ItemUpdates(a, grammar, itemOrdinal, interactionOrdinal, itemId, update);
      Proceed(ItemUpdated(a.turnId, itemId, update), Some(a.(items := Put(a.items, folded))), itemOrdinal,
        interactionOrdinal);
    }

    twostate predicate Untouched()
      reads this, snapshot
    {
      Steady() && active == old(active) && trace == old(trace)
      && itemOrdinal == old(itemOrdinal) && interactionOrdinal == old(interactionOrdinal)
    }

    /** What a successful update of one open item does: the item with this identity becomes `now`, in its
        place, and the update is announced. */
    twostate predicate Amended(itemId: Id, now: Item, update: Update)
      reads this, snapshot
    {
      && Steady() && itemOrdinal == old(itemOrdinal) && interactionOrdinal == old(interactionOrdinal)
      && old(active).Some? && active.Some?
      && var a, items := old(active).value, active.value.items;
      && active.value == a.(items := items) && |items| == |a.items|
      && (forall k :: 0 <= k < |items| ==> items[k] == if a.items[k].id == itemId then now else a.items[k])
      && trace == old(trace) + [ItemUpdated(a.turnId, itemId, update)]
    }

    function OpenItem(itemId: Id): (r: Option<Item>)
      reads this
      ensures r.Some? ==> active.Some? && r.value in active.value.items && r.value.id == itemId
      ensures r.None? && active.Some? ==> forall item :: item in active.value.items ==> item.id != itemId
    {
      if active.None? then None else Find(active.value.items, itemId)
    }

    /** An update of an open item that turns it into `now`. */
    method AmendAs(itemId: Id, now: Item, update: Update)
      requires Valid() && OpenItem(itemId).Some? && Fold(OpenItem(itemId).value, update) == Some(now)
               && now.id == itemId
      modifies this, channel
      ensures Valid() && Amended(itemId, now, update)
    {
      hide Accept, Scan, Coupled, Kept, Channel.Refines, Delivered, Put, Fold;
      ItemsDiffer(active.value, grammar, itemOrdinal, interactionOrdinal);
      PutAt(active.value.items, now);
      Amend(itemId, update);
    }

    /** Text goes to the first agent message still open. */
    method AppendText(text: string) returns (thrown: bool)
      requires Valid()
      modifies this, channel
      ensures Valid()
      ensures thrown <==> old(active).None? || FirstMessage(old(active).value.items).None?
      ensures if thrown then Untouched()
              else
                var m := FirstMessage(old(active).value.items).value;
                Amended(m.id, AgentMessage(m.id, m.text + text), TextAppend(text))
    {
      if active.None? || FirstMessage(active.value.items).None? {
        return true;
      }
      var m := FirstMessage(active.value.items).value;
      OpenMessage(active.value, grammar, itemOrdinal, interactionOrdinal, m);
      AmendAs(m.id, AgentMessage(m.id, m.text + text), TextAppend(text));
      return false;
    }

    method AppendReasoning(itemId: Id, text: string) returns (thrown: bool)
      requires Valid()
      modifies this, channel
      ensures Valid()
      ensures thrown <==> old(OpenItem(itemId)).None? || !old(OpenItem(itemId)).value.Reasoning?
      ensures if thrown then Untouched()
              else
                var item := old(OpenItem(itemId)).value;
                Amended(itemId, Reasoning(itemId, item.text + text), TextAppend(text))
    {
      if OpenItem(itemId).None? || !OpenItem(itemId).value.Reasoning? {
        return true;
      }
      var item := OpenItem(itemId).value;
      AmendAs(itemId, Reasoning(itemId, item.text + text), TextAppend(text));
      return false;
    }

    method AppendCommandOutput(itemId: Id, text: string) returns (thrown: bool)
      requires Valid()
      modifies this, channel
      ensures Valid()
      ensures thrown <==> old(OpenItem(itemId)).None? || !old(OpenItem(itemId)).value.CommandExecution?
      ensures if thrown then Untouched()
              else
                var item := old(OpenItem(itemId)).value;
                Amended(itemId, CommandExecution(itemId, item.command, item.cwd, Some(Printed(item) + text)),
                  OutputAppend(text))
    {
      if OpenItem(itemId).None? || !OpenItem(itemId).value.CommandExecution? {
        return true;
      }
      var item := OpenItem(itemId).value;
      AmendAs(itemId, CommandExecution(itemId, item.command, item.cwd, Some(Printed(item) + text)), OutputAppend(text));
      return false;
    }

    method ReplaceToolOutput(itemId: Id, output: string) returns (thrown: bool)
      requires Valid()
      modifies this, channel
      ensures Valid()
      ensures thrown <==> old(OpenItem(itemId)).None? || !old(OpenItem(itemId)).value.ToolExecution?
      ensures if thrown then Untouched()
              else
                var item := old(OpenItem(itemId)).value;
                Amended(itemId, ToolExecution(itemId, item.toolName, item.arguments, Some(output)),
                  OutputReplace(output))
    {
      if OpenItem(itemId).None? || !OpenItem(itemId).value.ToolExecution? {
        return true;
      }
      var item := OpenItem(itemId).value;
      AmendAs(itemId, ToolExecution(itemId, item.toolName, item.arguments, Some(output)), OutputReplace(output));
      return false;
    }

    method ReplaceSubagents(itemId: Id, subagents: seq<string>) returns (thrown: bool)
      requires Valid()
      modifies this, channel
      ensures Valid()
      ensures thrown <==> old(OpenItem(itemId)).None? || !old(OpenItem(itemId)).value.SubagentDelegation?
      ensures if thrown then Untouched()
              else
                var item := old(OpenItem(itemId)).value;
                Amended(itemId, SubagentDelegation(itemId, subagents), SubagentsReplace(subagents))
    {
      if OpenItem(itemId).None? || !OpenItem(itemId).value.SubagentDelegation? {
        return true;
      }
      var item := OpenItem(itemId).value;
      AmendAs(itemId, SubagentDelegation(itemId, subagents), SubagentsReplace(subagents));
      return false;
    }

    /** What starting one item does; without an active turn only the ordinal moves. */
    twostate predicate Started(item: Item)
      reads this, snapshot
    {
      && Steady() && itemOrdinal == old(itemOrdinal) + 1 && interactionOrdinal == old(interactionOrdinal)
      && item.id == ItemId(itemOrdinal)
      && if old(active).None? then active.None? && trace == old(trace)
         else active == Some(old(active).value.(items := old(active).value.items + [item]))
              && trace == old(trace) + [ItemStarted(old(active).value.turnId, item)]
    }

    method StartCommandExecution(command: string, cwd: Option<string>) returns (id: Id, thrown: bool)
      requires Valid()
      modifies this, channel
      ensures Valid() && thrown == old(active).None? && Started(CommandExecution(id, command, cwd, None))
    {
      id := NewId();
      thrown := StartItem(CommandExecution(id, command, cwd, None));
    }

    method StartToolExecution(toolName: string, arguments: string) returns (id: Id, thrown: bool)
      requires Valid()
      modifies this, channel
      ensures Valid() && thrown == old(active).None? && Started(ToolExecution(id, toolName, arguments, None))
    {
      id := NewId();
      thrown := StartItem(ToolExecution(id, toolName, arguments, None));
    }

    method StartSubagentDelegation(subagent: string) returns (id: Id, thrown: bool)
      requires Valid()
      modifies this, channel
      ensures Valid() && thrown == old(active).None? && Started(SubagentDelegation(id, [subagent]))
    {
      id := NewId();
      thrown := StartItem(SubagentDelegation(id, [subagent]));
    }

    /** Reasoning starts empty and its first text is an update like any other. */
    method StartReasoning(text: string) returns (id: Id, thrown: bool)
      requires Valid()
      modifies this, channel
      ensures Valid() && Steady()
      ensures thrown <==> text == "" || old(active).None?
      ensures if thrown then active == old(active) && trace == old(trace)
              else active == Some(old(active).value.(items := old(active).value.items + [Reasoning(id, text)]))
                   && trace == old(trace) + [ItemStarted(old(active).value.turnId, Reasoning(id, ""))]
                               + [ItemUpdated(old(active).value.turnId, id, TextAppend(text))]
    {
      id := NewId();
      if text == "" {
        return id, true;
      }
      thrown := StartItem(Reasoning(id, ""));
      if !thrown {
        FirstText(old(active).value.items, id, text);
        Amend(id, TextAppend(text));
      }
    }

    method CompleteItem(itemId: Id, outcome: ItemOutcome) returns (thrown: bool)
      requires Valid()
      modifies this, channel
      ensures Valid() && Steady()
      ensures itemOrdinal == old(itemOrdinal) && interactionOrdinal == old(interactionOrdinal)
      ensures thrown == old(OpenItem(itemId)).None?
      ensures if thrown then active == old(active) && trace == old(trace)
              else
                var a, snapshot := old(active).value, ItemSnapshot(old(OpenItem(itemId)).value, outcome);
                && active == Some(a.(items := Drop(a.items, itemId), completed := a.completed + [snapshot]))
                && trace == old(trace) + [ItemCompleted(a.turnId, snapshot)]
    {
      if OpenItem(itemId).None? {
        return true;
      }
      var a, item := active.value, OpenItem(itemId).value;
      ItemCompletes(a, grammar, itemOrdinal, interactionOrdinal, item, outcome);
      Proceed(ItemCompleted(a.turnId, ItemSnapshot(item, outcome)),
              Some(a.(items := Drop(a.items, itemId), completed := a.completed + [ItemSnapshot(item, outcome)])),
              itemOrdinal, interactionOrdinal);
      return false;
    }

    /** A file change is started and completed at once. */
    method EmitFileChange(changes: seq<string>) returns (id: Id, thrown: bool)
      requires Valid()
      modifies this, channel
      ensures Valid() && Steady() && itemOrdinal == old(itemOrdinal) + 1 && id == ItemId(itemOrdinal)
      ensures thrown == old(active).None?
      ensures if thrown then active == old(active) && trace == old(trace)
              else
                var a, item := old(active).value, FileChange(id, changes);
                && active == Some(a.(completed := a.completed + [ItemSnapshot(item, Succeeded)]))
                && trace == old(trace) + [ItemStarted(a.turnId, item)]
                            + [ItemCompleted(a.turnId, ItemSnapshot(item, Succeeded))]
    {
      id := NewId();
      var item := FileChange(id, changes);
      thrown := StartItem(item);
      if !thrown {
        assert DistinctItems(active.value.items);
        DropLast(active.value.items);
        assert active.value.items[..|active.value.items| - 1] == old(active).value.items;
        var unknown := CompleteItem(id, Succeeded);
      }
    }

    // ---- Interactions ----------------------------------------------------------------------

    twostate predicate Opened(i: Interaction)
      reads this, snapshot
    {
      && Steady() && itemOrdinal == old(itemOrdinal) && interactionOrdinal == old(interactionOrdinal) + 1
      && old(active).Some?
      && active == Some(old(active).value.(interactions := old(active).value.interactions + [i]))
      && trace == old(trace) + [InteractionOpened(i)]
    }

    method AskQuestion() returns (id: Id, thrown: bool)
      requires Valid()
      modifies this, channel
      ensures Valid() && thrown == old(active).None?
      ensures if thrown then Untouched()
              else id == InteractionId(interactionOrdinal) && Opened(Question(id, old(active).value.turnId))
    {
      id := InteractionId(interactionOrdinal + 1);
      if active.None? {
        return id, true;
      }
      OpenInteraction(Question(id, active.value.turnId));
      return id, false;
    }

    method RequestApproval() returns (id: Id, thrown: bool)
      requires Valid()
      modifies this, channel
      ensures Valid() && thrown == old(active).None?
      ensures if thrown then Untouched()
              else id == InteractionId(interactionOrdinal) && Opened(Approval(id, old(active).value.turnId))
    {
      id := InteractionId(interactionOrdinal + 1);
      if active.None? {
        return id, true;
      }
      OpenInteraction(Approval(id, active.value.turnId));
      return id, false;
    }

    method OpenInteraction(i: Interaction)
      requires Valid() && active.Some? && i.turnId == active.value.turnId
      requires i.id == InteractionId(interactionOrdinal + 1)
      modifies this, channel
      ensures Valid() && Opened(i)
    {
      var a := active.value;
      InteractionOpens(a, grammar, itemOrdinal, interactionOrdinal, i);
      Proceed(InteractionOpened(i), Some(a.(interactions := a.interactions + [i])), itemOrdinal,
        interactionOrdinal + 1);
    }

    function PendingInteraction(id: Id): (r: Option<Interaction>)
      reads this
      ensures r.Some? ==> active.Some? && r.value in active.value.interactions && r.value.id == id
      ensures r.None? && active.Some? ==> forall i :: i in active.value.interactions ==> i.id != id
    {
      if active.None? then None else FindInteraction(active.value.interactions, id)
    }

    twostate predicate Withdrawn(id: Id, reason: CloseReason)
      reads this, snapshot
    {
      && itemOrdinal == old(itemOrdinal) && interactionOrdinal == old(interactionOrdinal)
      && old(active).Some?
      && active == Some(old(active).value.(interactions := DropInteraction(old(active).value.interactions, id)))
      && trace == old(trace) + [InteractionClosed(old(active).value.turnId, id, reason)]
    }

    method Withdraw(id: Id, reason: CloseReason)
      requires Valid() && PendingInteraction(id).Some?
      modifies this, channel
      ensures Valid() && Steady() && Withdrawn(id, reason)
    {
      var a := active.value;
      InteractionCloses(a, grammar, itemOrdinal, interactionOrdinal, id, reason);
      Proceed(InteractionClosed(a.turnId, id, reason),
              Some(a.(interactions := DropInteraction(a.interactions, id))), itemOrdinal, interactionOrdinal);
    }

    method ExpireQuestion(id: Id) returns (thrown: bool)
      requires Valid()
      modifies this, channel
      ensures Valid() && Steady()
      ensures thrown <==> old(PendingInteraction(id)).None? || !old(PendingInteraction(id)).value.Question?
      ensures if thrown then Untouched() else Withdrawn(id, Expired)
    {
      if PendingInteraction(id).None? || !PendingInteraction(id).value.Question? {
        return true;
      }
      Withdraw(id, Expired);
      return false;
    }

    /** `valid` is the verdict of the response validators; a response of the other kind is invalid. */
    method Respond(id: Id, isQuestion: bool, dismissed: bool, valid: bool) returns (r: Response)
      requires Valid()
      modifies this, channel
      ensures Valid()
      ensures r == (if old(closed) || old(PendingInteraction(id)).None? then Refused(InvalidState)
                    else if !valid || old(PendingInteraction(id)).value.Question? != isQuestion then
                            Refused(InvalidRequest)
                    else Accepted)
      ensures if r.Refused? then Untouched()
              else Withdrawn(id, if isQuestion && dismissed then Dismissed else Responded)
                   && responses == old(responses) + [id] && snapshot.turns == old(snapshot.turns)
                   && closed == old(closed)
    {
      if closed || PendingInteraction(id).None? {
        return Refused(InvalidState);
      }
      if !valid || PendingInteraction(id).value.Question? != isQuestion {
        return Refused(InvalidRequest);
      }
      Withdraw(id, if isQuestion && dismissed then Dismissed else Responded);
      responses := responses + [id];
      return Accepted;
    }

    // ---- Turns -----------------------------------------------------------------------------

    method CloseInteractions(reason: CloseReason)
      requires Valid() && active.Some?
      modifies this, channel
      ensures Valid() && Steady() && itemOrdinal == old(itemOrdinal) && interactionOrdinal == old(interactionOrdinal)
      ensures active == Some(old(active).value.(interactions := []))
      ensures trace == old(trace) + Closed(old(active).value.turnId, old(active).value.interactions, reason)
    {
      hide Accept, Scan, Coupled, Kept, Channel.Refines, Delivered, Closed;
      var a := active.value;
      ClosedNone(old(trace), a.turnId, a.interactions, reason);
      for k := 0 to |a.interactions|
        invariant Valid() && Steady() && itemOrdinal == old(itemOrdinal)
                  && interactionOrdinal == old(interactionOrdinal)
        invariant active == Some(a.(interactions := a.interactions[k..]))
        invariant trace == old(trace) + Closed(a.turnId, a.interactions[..k], reason)
      {
        ClosedMore(old(trace), a.turnId, a.interactions, k, reason);
        Withdraw(a.interactions[k].id, reason);
      }
    }

    method CompleteItems(outcome: ItemOutcome)
      requires Valid() && active.Some?
      modifies this, channel
      ensures Valid() && Steady() && itemOrdinal == old(itemOrdinal) && interactionOrdinal == old(interactionOrdinal)
      ensures var a := old(active).value;
              && active == Some(a.(items := [], completed := a.completed + Closing(a.items, outcome)))
              && trace == old(trace) + Completed(a.turnId, Closing(a.items, outcome))
    {
      hide Completing, Accept, Scan, Coupled, Kept, Channel.Refines, Delivered;
      ghost var a := active.value;
      ghost var done: seq<ItemSnapshot> := [];
      ghost var emitted: seq<Output> := [];
      CompletingStarts(a, outcome);
      assert trace + emitted == trace;
      while active.value.items != []
        invariant Valid() && Steady() && itemOrdinal == old(itemOrdinal)
                  && interactionOrdinal == old(interactionOrdinal)
        invariant active.Some? && active.value.turnId == a.turnId
        invariant Completing(a, active.value, emitted, done, outcome) && trace == old(trace) + emitted
        decreases |active.value.items|
      {
        CompletingStep(a, active.value, emitted, done, outcome);
        ghost var snapshot := ItemSnapshot(active.value.items[|active.value.items| - 1], outcome);
        Associates(old(trace), emitted, [ItemCompleted(a.turnId, snapshot)]);
        CompleteLast(outcome);
        done, emitted := done + [snapshot], emitted + [ItemCompleted(a.turnId, snapshot)];
      }
      CompletingEnds(a, active.value, emitted, done, outcome);
    }

    /** Completes the item started last. */
    method CompleteLast(outcome: ItemOutcome)
      requires Valid() && active.Some? && active.value.items != []
      modifies this, channel
      ensures Valid() && Steady() && itemOrdinal == old(itemOrdinal) && interactionOrdinal == old(interactionOrdinal)
      ensures var a, n := old(active).value, |old(active).value.items| - 1;
              var snapshot := ItemSnapshot(a.items[n], outcome);
              && active == Some(a.(items := a.items[..n], completed := a.completed + [snapshot]))
              && trace == old(trace) + [ItemCompleted(a.turnId, snapshot)]
    {
      DropLast(active.value.items);
      var unknown := CompleteItem(active.value.items[|active.value.items| - 1].id, outcome);
    }

    /** Closes the turn: one more record in the history, then the completion event. */
    method FinishTurn(outcome: ItemOutcome)
      requires Valid() && active.Some? && active.value.items == [] && active.value.interactions == []
      modifies this, channel, snapshot
      ensures Valid() && active.None? && turnOrdinal == old(turnOrdinal) + 1 && Settled()
      ensures var record := RecordOf(sessionId, fork, old(turnOrdinal) + 1, old(active).value, outcome, old(model));
              snapshot.turns == old(snapshot.turns) + [record]
                && trace == old(trace) + [CompletionOf(old(active).value, record)]
      ensures var a, n := old(active).value, old(turnOrdinal) + 1;
              var checkpoint := if fork then Some(Checkpoint(sessionId, CheckpointId(n))) else None;
              snapshot.turns == old(snapshot.turns)
                                + [TurnRecord(sessionId, TurnKey(n), checkpoint, a.input, a.completed, outcome,
                                  old(model))]
              && trace == old(trace) + [TurnCompleted(a.turnId, true, outcome, if fork then Some(CheckpointId(n))
                 else None)]
    {
      hide Accept, Scan, Coupled, Kept, EndOf, Channel.Refines, Delivered, CheckpointId, TurnKey;
      var a := active.value;
      var record := RecordOf(sessionId, fork, turnOrdinal + 1, a, outcome, model);
      TurnFinishes(a, grammar, itemOrdinal, interactionOrdinal, record);
      KeepsMore(snapshot.turns, grammar.history, inherited, numbered, sessionId, fork, a, outcome, model);
      active := None;
      turnOrdinal := turnOrdinal + 1;
      snapshot.turns := snapshot.turns + [record];
      Say(CompletionOf(a, record));
    }

    /** What finishing a turn leaves alone. */
    twostate predicate Settled()
      reads this
    {
      && closed == old(closed) && model == old(model) && responses == old(responses)
      && cancelOnRequest == old(cancelOnRequest)
      && itemOrdinal == old(itemOrdinal) && interactionOrdinal == old(interactionOrdinal)
      && nextRejection == old(nextRejection) && nextModelRejection == old(nextModelRejection)
      && nextUsage == old(nextUsage) && nextQuestion == old(nextQuestion) && nextApproval == old(nextApproval)
    }

    /** The turn closes its interactions, completes its items last-started first, and is recorded. */
    twostate predicate Ended(outcome: ItemOutcome)
      reads this, snapshot
    {
      && old(active).Some? && active.None? && Settled() && turnOrdinal == old(turnOrdinal) + 1
      && var a := old(active).value;
      && var record := RecordOf(sessionId, fork, old(turnOrdinal) + 1, EndedTurn(a, outcome), outcome, old(model));
      && snapshot.turns == old(snapshot.turns) + [record]
      && trace == old(trace) + EndingOf(a, record)
    }

    method SucceedTurn() returns (thrown: bool)
      requires Valid()
      modifies this, channel, snapshot
      ensures Valid()
      ensures thrown <==>
                || old(active).None? || old(active).value.interactions != []
                || exists item :: item in old(active).value.items
                                  && (item.CommandExecution? || item.ToolExecution? || item.SubagentDelegation?
                                      || item.FileChange? || item.ContextCompaction?)
      ensures if thrown then Untouched() else Ended(Succeeded)
    {
      if active.None? || !Finished(active.value.items) || active.value.interactions != [] {
        return true;
      }
      EndTurn(Succeeded);
      return false;
    }

    method EndTurn(outcome: ItemOutcome)
      requires Valid() && active.Some?
      modifies this, channel, snapshot
      ensures Valid() && Ended(outcome)
    {
      hide Accept, Scan, Coupled, Kept, Channel.Refines, Delivered, CheckpointId, TurnKey, Closing, Completed, Closed;
      ghost var a := active.value;
      ghost var closings := Closed(a.turnId, a.interactions, Dismissed);
      ghost var completions := Completed(a.turnId, Closing(a.items, outcome));
      ghost var record := RecordOf(sessionId, fork, turnOrdinal + 1, EndedTurn(a, outcome), outcome, model);
      CloseInteractions(Dismissed);
      CompleteItems(outcome);
      assert active == Some(EndedTurn(a, outcome));
      FinishTurn(outcome);
      Concatenates(old(trace), closings, completions, [CompletionOf(a, record)]);
    }

    method CompleteCancellation(reason: string) returns (thrown: bool)
      requires Valid()
      modifies this, channel, snapshot
      ensures Valid()
      ensures thrown <==> old(active).None? || !old(active).value.cancelling
      ensures if thrown then Untouched() else Ended(Cancelled(reason))
    {
      if active.None? || !active.value.cancelling {
        return true;
      }
      EndTurn(Cancelled(reason));
      return false;
    }

    method FailTurn(error: string) returns (thrown: bool)
      requires Valid()
      modifies this, channel, snapshot
      ensures Valid() && thrown == old(active).None?
      ensures if thrown then Untouched() else Ended(Failed(error))
    {
      if active.None? {
        return true;
      }
      EndTurn(Failed(error));
      return false;
    }

    /** What the current turn, if any, would emit on failing. */
    function Failing(error: string): seq<Output>
      reads this
    {
      if active.None? then []
      else EndingOf(active.value,
           RecordOf(sessionId, fork, turnOrdinal + 1, EndedTurn(active.value, Failed(error)), Failed(error), model))
    }

    /** The record a failing turn, if there is one, leaves. */
    function FailedRecords(error: string): seq<TurnRecord>
      reads this
    {
      if active.None? then []
      else [RecordOf(sessionId, fork, turnOrdinal + 1, EndedTurn(active.value, Failed(error)), Failed(error), model)]
    }

    /** Fails the open turn, reports the fault last, and emits nothing more: not even a second fault. */
    method Fault(error: string)
      requires Valid()
      modifies this, channel, snapshot
      ensures Valid() && closed && active.None?
      ensures trace == old(trace) + old(Failing(error)) + (if old(closed) then [] else [SessionFaulted(error)])
      ensures snapshot.turns == old(snapshot.turns) + old(FailedRecords(error))
    {
      hide Accept, Scan, Coupled, Kept, Channel.Refines, Delivered, EndingOf, EndedTurn, RecordOf;
      assert trace + [] == trace && snapshot.turns + [] == snapshot.turns;
      if active.Some? {
        var thrown := FailTurn(error);
      }
      FaultAccepted(grammar, error, itemOrdinal, interactionOrdinal);
      closed := true;
      Say(SessionFaulted(error));
      EndChannel();
    }

    method Close()
      requires Valid()
      modifies this, channel, snapshot
      ensures Valid() && closed && active.None?
      ensures trace == old(trace) + old(Failing("invalidState"))
      ensures snapshot.turns == old(snapshot.turns) + old(FailedRecords("invalidState"))
    {
      assert trace + [] == trace;
      if closed {
        return;
      }
      if active.Some? {
        var thrown := FailTurn("invalidState");
      }
      closed := true;
      EndChannel();
    }

    method EndChannel()
      requires Synced()
      modifies channel
      ensures Synced() && channel.ended
    {
      Channel.EndRefines(channel.Abstract(), Delivered(trace));
      channel.End();
    }

    /** An output that belongs to no turn, or to the session as a whole. */
    method Report(e: Output)
      requires Valid() && (e.StateChanged? || e.UsageChanged? || e.SubagentNotice?)
      modifies this`trace, this`grammar, channel
      ensures Valid() && trace == if closed then old(trace) else old(trace) + [e]
    {
      Say(e);
    }

    method PublishUsage(usage: Option<string>) returns (thrown: bool)
      requires Valid()
      modifies this`trace, this`grammar, channel
      ensures Valid() && thrown == closed
      ensures trace == if thrown then old(trace) else old(trace) + [UsageChanged(usage)]
    {
      if closed {
        return true;
      }
      Report(UsageChanged(usage));
      return false;
    }

    /** A command shown as a turn of its own. It is not part of the thread's history. The source
        accepts it during a turn too, which breaks the grammar: see EphemeralNeedsIdle. */
    method PublishEphemeralCommand(turnId: Id, item: Item) returns (thrown: bool)
      requires Valid() && active.None?
      modifies this, channel
      ensures Valid() && Steady() && active.None? && thrown == closed
      ensures trace == if thrown then old(trace)
                       else old(trace) + [TurnStarted(turnId)] + [ItemStarted(turnId, item)]
                            + [ItemCompleted(turnId, ItemSnapshot(item, Succeeded))]
                            + [TurnCompleted(turnId, false, Succeeded, None)]
    {
      hide Accept, Scan, Coupled, Kept, Channel.Refines, Delivered;
      if closed {
        return true;
      }
      IdleGrammar(grammar, itemOrdinal, interactionOrdinal);
      EphemeralAccepted(grammar, turnId, item);
      SayBoth(TurnStarted(turnId), ItemStarted(turnId, item));
      SayBoth(ItemCompleted(turnId, ItemSnapshot(item, Succeeded)), TurnCompleted(turnId, false, Succeeded, None));
      return false;
    }

    method OpenTurn(turnId: Id, input: seq<string>)
      requires Valid() && active.None? && !closed
      modifies this, channel
      ensures Valid() && Steady() && itemOrdinal == old(itemOrdinal) && interactionOrdinal == old(interactionOrdinal)
      ensures active == Some(ActiveTurn(turnId, input, [], [], [], false))
              && trace == old(trace) + [TurnStarted(turnId)]
    {
      Proceed(TurnStarted(turnId), Some(ActiveTurn(turnId, input, [], [], [], false)), itemOrdinal, interactionOrdinal);
    }

    method PublishAutonomousTurn(turnId: Id, input: seq<string>) returns (thrown: bool)
      requires Valid()
      modifies this, channel, snapshot
      ensures Valid()
      ensures thrown <==> old(closed) || old(active).Some?
      ensures if thrown then Untouched()
              else
                var a := ActiveTurn(turnId, input, [], [], [], false);
                var record := RecordOf(sessionId, fork, old(turnOrdinal) + 1, a, Succeeded, model);
                && active.None? && snapshot.turns == old(snapshot.turns) + [record]
                && turnOrdinal == old(turnOrdinal) + 1
                && trace == old(trace) + [AutonomousTurnStarted(turnId)] + [TurnStarted(turnId)]
                            + [CompletionOf(a, record)]
    {
      if closed || active.Some? {
        return true;
      }
      Proceed(AutonomousTurnStarted(turnId), None, itemOrdinal, interactionOrdinal);
      OpenTurn(turnId, input);
      FinishTurn(Succeeded);
      return false;
    }

    // ---- Commands --------------------------------------------------------------------------

    method Arrange(plan: Plan)
      requires Valid()
      modifies this`nextRejection, this`nextModelRejection, this`cancelOnRequest, this`nextApproval, this`nextQuestion,
               this`nextUsage
      ensures Valid()
      ensures nextRejection == if plan.RejectNextTurn? then Some(plan.error) else old(nextRejection)
      ensures nextModelRejection == if plan.RejectNextModelSelection? then Some(plan.error) else old(nextModelRejection)
      ensures cancelOnRequest == (plan.CompleteCancellationOnRequest? || old(cancelOnRequest))
      ensures nextApproval == (plan.RequestApprovalOnNextTurn? || old(nextApproval))
      ensures nextQuestion == (plan.AskQuestionOnNextTurn? || old(nextQuestion))
      ensures nextUsage == if plan.PublishUsageOnNextTurn? then Some(plan.usage) else old(nextUsage)
    {
      match plan {
        case RejectNextTurn(error) => nextRejection := Some(error);
        case RejectNextModelSelection(error) => nextModelRejection := Some(error);
        case CompleteCancellationOnRequest => cancelOnRequest := true;
        case RequestApprovalOnNextTurn => nextApproval := true;
        case AskQuestionOnNextTurn => nextQuestion := true;
        case PublishUsageOnNextTurn(usage) => nextUsage := Some(usage);
      }
    }

    /** What `turn.start` answers; a planned rejection is consumed before anything else is looked at. */
    function StartAnswer(input: seq<string>): Response
      reads this
    {
      if closed then Refused(InvalidState)
      else if nextRejection.Some? then Refused(Rejected(nextRejection.value))
      else if active.Some? then Refused(SessionBusy)
      else if input == [] || input == [""] then Refused(InvalidRequest)
      else Accepted
    }

    method StartTurn(turnId: Id, input: seq<string>) returns (r: Response)
      requires Valid()
      modifies this, channel
      ensures Valid() && r == old(StartAnswer(input)) && snapshot.turns == old(snapshot.turns)
              && closed == old(closed) && model == old(model)
      ensures r.Refused? ==> active == old(active) && trace == old(trace)
      ensures nextRejection == if r.Refused? && r.code.Rejected? then None else old(nextRejection)
      ensures r.Accepted? ==>
                && itemOrdinal == old(itemOrdinal) + 1 && nextUsage.None? && !nextQuestion && !nextApproval
                && var item := AgentMessage(ItemId(itemOrdinal), "");
                && active == Some(ActiveTurn(turnId, input, [item], [],
                                             PlannedInteractions(turnId, old(nextQuestion), old(nextApproval),
                                               old(interactionOrdinal)), false))
                && trace == old(trace) + [TurnStarted(turnId)] + [ItemStarted(turnId, item)]
                            + PlannedOutputs(turnId, old(nextUsage), old(nextQuestion), old(nextApproval),
                              old(interactionOrdinal))
    {
      hide Accept, Scan, Coupled, Kept, Channel.Refines, Delivered, PlannedOutputs, PlannedInteractions, ItemId,
           JoinedText;
      EmptyTextExactly(input);
      if closed {
        return Refused(InvalidState);
      }
      if nextRejection.Some? {
        var error := nextRejection.value;
        nextRejection := None;
        return Refused(Rejected(error));
      }
      if active.Some? {
        return Refused(SessionBusy);
      }
      if JoinedText(input) == "" {
        return Refused(InvalidRequest);
      }
      AloneInTurn(AgentMessage(NewId(), ""));
      OpenTurn(turnId, input);
      var thrown := StartItem(AgentMessage(NewId(), ""));
      Planned();
      return Accepted;
    }

    /** The usage, question and approval that were planned for the next turn, in this order. */
    method Planned()
      requires Valid() && active.Some? && active.value.interactions == []
      modifies this, channel
      ensures Valid() && snapshot.turns == old(snapshot.turns) && closed == old(closed) && model == old(model)
      ensures itemOrdinal == old(itemOrdinal) && nextRejection == old(nextRejection)
      ensures nextUsage.None? && !nextQuestion && !nextApproval
      ensures var a := old(active).value;
              && active == Some(a.(interactions :=
                 PlannedInteractions(a.turnId, old(nextQuestion), old(nextApproval), old(interactionOrdinal))))
              && trace == old(trace)
                          + PlannedOutputs(a.turnId, old(nextUsage), old(nextQuestion), old(nextApproval),
                            old(interactionOrdinal))
    {
      hide Accept, Scan, Coupled, Kept, Channel.Refines, Delivered, PlannedAsks, PlannedInteractions;
      NotClosed();
      ghost var u := if nextUsage.Some? then [UsageChanged(nextUsage.value)] else [];
      Associates(trace, u, PlannedAsks(active.value.turnId, nextQuestion, nextApproval, interactionOrdinal));
      assert trace + [] == trace;
      if nextUsage.Some? {
        var usage := nextUsage.value;
        nextUsage := None;
        var thrown := PublishUsage(usage);
      }
      AskPlanned();
    }

    lemma NotClosed()
      requires Valid() && active.Some?
      ensures !closed
    {
    }

    method AskPlanned()
      requires Valid() && active.Some? && active.value.interactions == []
      modifies this, channel
      ensures Valid() && snapshot.turns == old(snapshot.turns) && closed == old(closed) && model == old(model)
      ensures itemOrdinal == old(itemOrdinal) && nextRejection == old(nextRejection) && nextUsage == old(nextUsage)
      ensures !nextQuestion && !nextApproval
      ensures var a := old(active).value;
              && active == Some(a.(interactions :=
                 PlannedInteractions(a.turnId, old(nextQuestion), old(nextApproval), old(interactionOrdinal))))
              && trace == old(trace) + PlannedAsks(a.turnId, old(nextQuestion), old(nextApproval),
                 old(interactionOrdinal))
    {
      hide Accept, Scan, Coupled, Kept, Channel.Refines, Delivered, PlannedAsks, PlannedInteractions, InteractionId;
      AsksCompose(trace, active.value.turnId, nextQuestion, nextApproval, interactionOrdinal);
      InteractionsCompose(active.value.turnId, nextQuestion, nextApproval, interactionOrdinal);
      if nextQuestion {
        nextQuestion := false;
        var question, thrown := AskQuestion();
      }
      if nextApproval {
        nextApproval := false;
        var approval, thrown := RequestApproval();
      }
    }

    method MarkCancelling()
      requires Valid() && active.Some?
      modifies this`active
      ensures Valid() && active == Some(old(active).value.(cancelling := true))
    {
      active := Some(active.value.(cancelling := true));
    }

    method Cancel(turnId: Id) returns (r: Response)
      requires Valid()
      modifies this, channel, snapshot
      ensures Valid()
      ensures r == if old(closed) || old(active).None? || old(active).value.turnId != turnId then Refused(InvalidState)
                   else Accepted
      ensures r.Refused? ==> Untouched()
      ensures r.Accepted? && !old(cancelOnRequest) ==>
                Steady() && trace == old(trace) && active == Some(old(active).value.(cancelling := true))
      ensures r.Accepted? && old(cancelOnRequest) ==>
                && !cancelOnRequest && active.None? && turnOrdinal == old(turnOrdinal) + 1
                && var a, outcome := old(active).value, Cancelled("Cancelled by user");
                && var record :=
                   RecordOf(sessionId, fork, old(turnOrdinal) + 1, EndedTurn(a.(cancelling := true), outcome), outcome,
                     old(model));
                && snapshot.turns == old(snapshot.turns) + [record] && trace == old(trace) + EndingOf(a, record)
    {
      if closed || active.None? || active.value.turnId != turnId {
        return Refused(InvalidState);
      }
      MarkCancelling();
      if cancelOnRequest {
        cancelOnRequest := false;
        var thrown := CompleteCancellation("Cancelled by user");
      }
      return Accepted;
    }

    method SelectModel(name: string) returns (r: Response)
      requires Valid()
      modifies this, channel
      ensures Valid() && snapshot.turns == old(snapshot.turns) && active == old(active) && closed == old(closed)
      ensures r == (if closed then Refused(InvalidState)
                    else if active.Some? then Refused(SessionBusy)
                    else if old(nextModelRejection).Some? then Refused(Rejected(old(nextModelRejection).value))
                    else if name !in catalog then Refused(InvalidRequest)
                    else Accepted)
      ensures if r.Accepted? then model == Some(name) && trace == old(trace) + [StateChanged(name)]
              else model == old(model) && trace == old(trace)
    {
      if closed {
        return Refused(InvalidState);
      }
      if active.Some? {
        return Refused(SessionBusy);
      }
      if nextModelRejection.Some? {
        var error := nextModelRejection.value;
        nextModelRejection := None;
        return Refused(Rejected(error));
      }
      if name !in catalog {
        return Refused(InvalidRequest);
      }
      model := Some(name);
      Report(StateChanged(name));
      return Accepted;
    }

    /** History can be read exactly when the session is open and its outputs show no turn in progress.
        What is read is a copy of the caller's own: what the session started from, and then every finished
        turn of the thread with the items its outputs completed. */
    method ReadSnapshot() returns (r: Result<ThreadSnapshot, ErrorCode>)
      requires Valid()
      ensures Scan(trace).Some? && (active.None? <==> Scan(trace).value.open.None?)
      ensures r.Ok? <==> !closed && active.None?
      ensures r.Err? ==> r.error == if closed then InvalidState else SessionBusy
      ensures r.Ok? ==>
                && fresh(r.value) && r.value.turns == snapshot.turns
                && Kept(r.value.turns, Scan(trace).value.history, inherited, numbered, sessionId, fork)
    {
      if closed {
        return Err(InvalidState);
      }
      if active.Some? {
        return Err(SessionBusy);
      }
      var copy := new ThreadSnapshot(snapshot.turns);
      return Ok(copy);
    }

    /** A copy of the stored turns, whatever the session is doing. */
    method PersistedSnapshot() returns (copy: ThreadSnapshot)
      ensures fresh(copy) && copy.turns == snapshot.turns
    {
      copy := new ThreadSnapshot(snapshot.turns);
    }
  }

  /** What any session has stored is what its outputs announced: the turn that began at output `i` and
      completed at output `j` is stored with exactly its completed snapshots, in emission order, and with
      the outcome and the checkpoint its completion carried. */
  lemma StoredHistory(s: FakeHarnessSession, i: nat, j: nat)
    requires s.Valid() && i < j < |s.trace| && s.trace[i].TurnStarted? && SameTurn(s.trace, i, j)
    requires s.trace[j].TurnCompleted? && s.trace[j].native
    ensures var k := s.inherited + NativeTurns(s.trace, j);
            && k < |s.snapshot.turns| && s.snapshot.turns[k].items == CompletedIn(s.trace, i, j)
            && s.snapshot.turns[k].outcome == s.trace[j].outcome
            && (match s.trace[j].checkpoint
                case None => s.snapshot.turns[k].checkpoint.None?
                case Some(id) => s.snapshot.turns[k].checkpoint.Some? && s.snapshot.turns[k].checkpoint.value.id == id)
  {
    HistoryEntry(s.trace, i, j);
    var h, n := Scan(s.trace).value.history, NativeTurns(s.trace, j);
    assert Records(s.snapshot.turns[s.inherited + n], s.inherited + n, h[n], s.sessionId);
  }

  /** The turns a session has added itself have pairwise different keys. */
  lemma OwnKeysDiffer(s: FakeHarnessSession, i: nat, j: nat)
    requires s.Valid() && s.inherited <= i < j < |s.snapshot.turns|
    ensures s.snapshot.turns[i].key != s.snapshot.turns[j].key
  {
    var h := Scan(s.trace).value.history;
    assert Records(s.snapshot.turns[s.inherited + (i - s.inherited)], i, h[i - s.inherited], s.sessionId);
    assert Records(s.snapshot.turns[s.inherited + (j - s.inherited)], j, h[j - s.inherited], s.sessionId);
    if TurnKey(i + 1) == TurnKey(j + 1) {
      Decimal.NumberedNames("fake-turn-", i + 1, j + 1);
    }
  }
}
