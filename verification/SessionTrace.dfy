/** The outputs of a Harness session and the grammar they must follow. */
module SessionTrace {
  import opened Wrappers

  type Id = string

  datatype Item =
    | AgentMessage(id: Id, text: string)
    | Reasoning(id: Id, text: string)
    | CommandExecution(id: Id, command: string, cwd: Option<string>, printed: Option<string>)
    | ToolExecution(id: Id, toolName: string, arguments: string, result: Option<string>)
    | SubagentDelegation(id: Id, subagents: seq<string>)
    | FileChange(id: Id, changes: seq<string>)
    | ContextCompaction(id: Id)

  datatype Update =
    | TextAppend(text: string)
    | OutputAppend(text: string)
    | OutputReplace(output: string)
    | SubagentsReplace(subagents: seq<string>)

  datatype ItemOutcome = Succeeded | Failed(error: string) | Cancelled(reason: string)

  datatype ItemSnapshot = ItemSnapshot(item: Item, outcome: ItemOutcome)

  datatype Interaction = Question(id: Id, turnId: Id) | Approval(id: Id, turnId: Id)

  datatype CloseReason = Responded | Dismissed | Expired

  datatype Output =
    | AutonomousTurnStarted(turnId: Id)
    | TurnStarted(turnId: Id)
    | ItemStarted(turnId: Id, item: Item)
    | ItemUpdated(turnId: Id, itemId: Id, update: Update)
    | ItemCompleted(turnId: Id, snapshot: ItemSnapshot)
    | InteractionOpened(interaction: Interaction)
    | InteractionClosed(turnId: Id, interactionId: Id, reason: CloseReason)
    | TurnCompleted(turnId: Id, native: bool, outcome: ItemOutcome, checkpoint: Option<string>)
    | StateChanged(model: string)
    | UsageChanged(usage: Option<string>)
    | SubagentNotice(subagentId: Id)
    | SessionFaulted(error: string)

  /** What a consumer does with an update; None when it does not fit the item. */
  function Fold(item: Item, update: Update): Option<Item> {
    match update
    case TextAppend(text) =>
      if item.AgentMessage? || item.Reasoning? then Some(item.(text := item.text + text)) else None
    case OutputAppend(text) =>
      if item.CommandExecution? then
        Some(item.(printed := Some((if item.printed.Some? then item.printed.value else "") + text)))
      else None
    case OutputReplace(output) => if item.ToolExecution? then Some(item.(result := Some(output))) else None
    case SubagentsReplace(subagents) =>
      if item.SubagentDelegation? then Some(item.(subagents := subagents)) else None
  }

  // ---- Insertion-ordered maps --------------------------------------------------------------

  function Find(items: seq<Item>, id: Id): (r: Option<Item>)
    ensures r.Some? ==> r.value in items && r.value.id == id
    ensures r.None? ==> forall i :: i in items ==> i.id != id
  {
    if items == [] then None else if items[0].id == id then Some(items[0]) else Find(items[1..], id)
  }

  /** Overwriting an entry keeps its place. */
  function Put(items: seq<Item>, item: Item): (r: seq<Item>)
    ensures |r| == |items| && forall k :: 0 <= k < |r| ==> r[k].id == items[k].id
  {
    if items == [] then []
    else if items[0].id == item.id then [item] + items[1..]
    else [items[0]] + Put(items[1..], item)
  }

  function Drop(items: seq<Item>, id: Id): (r: seq<Item>)
    ensures forall i :: i in r ==> i in items
    ensures |r| == if Find(items, id).Some? then |items| - 1 else |items|
  {
    if items == [] then [] else if items[0].id == id then items[1..] else [items[0]] + Drop(items[1..], id)
  }

  function FindInteraction(open: seq<Interaction>, id: Id): (r: Option<Interaction>)
    ensures r.Some? ==> r.value in open && r.value.id == id
    ensures r.None? ==> forall i :: i in open ==> i.id != id
  {
    if open == [] then None else if open[0].id == id then Some(open[0]) else FindInteraction(open[1..], id)
  }

  function DropInteraction(open: seq<Interaction>, id: Id): (r: seq<Interaction>)
    ensures forall i :: i in r ==> i in open
  {
    if open == [] then [] else if open[0].id == id then open[1..] else [open[0]] + DropInteraction(open[1..], id)
  }

  // ---- The grammar -------------------------------------------------------------------------

  /** The turn in progress: its open items as their updates have left them, what it has completed,
      and every item and interaction identity it has used. */
  datatype Turn = Turn(id: Id, items: seq<Item>, completed: seq<ItemSnapshot>, seen: set<Id>,
                       interactions: seq<Interaction>, asked: set<Id>)

  datatype FinishedTurn = FinishedTurn(items: seq<ItemSnapshot>, outcome: ItemOutcome, checkpoint: Option<string>)

  /** `history` collects what each finished turn that is part of the thread completed, and how it ended. */
  datatype Grammar = Grammar(open: Option<Turn>, faulted: bool, history: seq<FinishedTurn>)

  const START := Grammar(None, false, [])

  predicate InTurn(g: Grammar, turnId: Id) {
    g.open.Some? && g.open.value.id == turnId
  }

  /** The outputs allowed next, and where they lead. */
  function Accept(g: Grammar, e: Output): Option<Grammar> {
    if g.faulted then None
    else match e
      case StateChanged(_) => Some(g)
      case UsageChanged(_) => Some(g)
      case SubagentNotice(_) => Some(g)
      case AutonomousTurnStarted(_) => if g.open.None? then Some(g) else None
      case TurnStarted(t) => if g.open.None? then Some(g.(open := Some(Turn(t, [], [], {}, [], {})))) else None
      case ItemStarted(t, item) =>
        if InTurn(g, t) && item.id !in g.open.value.seen then
          var o := g.open.value;
          Some(g.(open := Some(o.(items := o.items + [item], seen := o.seen + {item.id}))))
        else None
      case ItemUpdated(t, id, update) =>
        if InTurn(g, t) && Find(g.open.value.items, id).Some? then
          var o := g.open.value;
          var folded := Fold(Find(o.items, id).value, update);
          if folded.Some? then Some(g.(open := Some(o.(items := Put(o.items, folded.value))))) else None
        else None
      case ItemCompleted(t, snapshot) =>
        if InTurn(g, t) && Find(g.open.value.items, snapshot.item.id) == Some(snapshot.item) then
          var o := g.open.value;
          Some(g.(open := Some(o.(items := Drop(o.items, snapshot.item.id),
                                  completed := o.completed + [snapshot]))))
        else None
      case InteractionOpened(i) =>
        if InTurn(g, i.turnId) && i.id !in g.open.value.asked then
          var o := g.open.value;
          Some(g.(open := Some(o.(interactions := o.interactions + [i], asked := o.asked + {i.id}))))
        else None
      case InteractionClosed(t, id, _) =>
        if InTurn(g, t) && FindInteraction(g.open.value.interactions, id).Some? then
          var o := g.open.value;
          Some(g.(open := Some(o.(interactions := DropInteraction(o.interactions, id)))))
        else None
      case TurnCompleted(t, native, outcome, checkpoint) =>
        if InTurn(g, t) && g.open.value.items == [] && g.open.value.interactions == [] then
          var finished := FinishedTurn(g.open.value.completed, outcome, checkpoint);
          Some(g.(open := None, history := if native then g.history + [finished] else g.history))
        else None
      case SessionFaulted(_) => if g.open.None? then Some(g.(faulted := true)) else None
  }

  function Scan(trace: seq<Output>): Option<Grammar> {
    if trace == [] then Some(START)
    else match Scan(trace[..|trace| - 1])
      case None => None
      case Some(g) => Accept(g, trace[|trace| - 1])
  }

  lemma ScanMore(trace: seq<Output>, e: Output)
    ensures Scan(trace + [e]) == match Scan(trace) case None => None case Some(g) => Accept(g, e)
  {
    assert (trace + [e])[..|trace|] == trace;
  }
}
