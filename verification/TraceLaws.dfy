/** What the session grammar means for a trace, said about positions in the trace itself. */
module TraceLaws {
  import opened Wrappers
  import opened SessionTrace

  ghost predicate Accepted(trace: seq<Output>) {
    Scan(trace).Some?
  }

  /** No turn completes at the positions from `from` up to `to`. */
  predicate SameTurn(trace: seq<Output>, from: nat, to: nat) {
    forall k :: from <= k < to && k < |trace| ==> !trace[k].TurnCompleted?
  }

  function At(trace: seq<Output>, n: nat): Option<Grammar> {
    if n <= |trace| then Scan(trace[..n]) else None
  }

  lemma {:induction false} AtSteps(trace: seq<Output>, n: nat)
    requires n < |trace|
    ensures At(trace, n + 1) == match At(trace, n) case None => None case Some(g) => Accept(g, trace[n])
  {
    assert trace[..n + 1][..n] == trace[..n];
  }

  lemma {:induction false} PrefixAccepted(trace: seq<Output>, n: nat)
    requires Accepted(trace) && n <= |trace|
    ensures At(trace, n).Some?
    decreases |trace| - n
  {
    if n == |trace| {
      assert trace[..n] == trace;
    } else {
      PrefixAccepted(trace, n + 1);
      AtSteps(trace, n);
    }
  }

  // ---- Keys stay distinct ------------------------------------------------------------------

  ghost predicate Keyed(o: Turn) {
    && DistinctItems(o.items)
    && (forall i :: i in o.items ==> i.id in o.seen)
    && DistinctInteractions(o.interactions)
    && (forall i :: i in o.interactions ==> i.id in o.asked)
  }

  ghost predicate GrammarKeyed(g: Grammar) {
    g.open.Some? ==> Keyed(g.open.value)
  }

  ghost predicate DistinctItems(items: seq<Item>) {
    forall i, j :: 0 <= i < j < |items| ==> items[i].id != items[j].id
  }

  ghost predicate DistinctInteractions(open: seq<Interaction>) {
    forall i, j :: 0 <= i < j < |open| ==> open[i].id != open[j].id
  }

  lemma {:induction false} DropKeeps(items: seq<Item>, id: Id)
    requires DistinctItems(items)
    ensures DistinctItems(Drop(items, id))
  {
    if items != [] && items[0].id != id {
      DropKeeps(items[1..], id);
      var r := Drop(items[1..], id);
      forall k | 0 <= k < |r| ensures r[k].id != items[0].id {
        assert r[k] in r;
        assert r[k] in items[1..];
      }
    }
  }

  lemma {:induction false} DropFinds(items: seq<Item>, id: Id, other: Id)
    requires DistinctItems(items)
    ensures Find(Drop(items, id), other) == if other == id then None else Find(items, other)
  {
    if items != [] && items[0].id != id {
      DropFinds(items[1..], id, other);
    } else if items != [] {
      assert forall k :: 0 <= k < |items[1..]| ==> items[1..][k].id != items[0].id;
    }
  }

  lemma {:induction false} PutFinds(items: seq<Item>, item: Item, other: Id)
    requires Find(items, item.id).Some?
    ensures Find(Put(items, item), other) == if other == item.id then Some(item) else Find(items, other)
  {
    if items[0].id != item.id {
      PutFinds(items[1..], item, other);
    }
  }

  lemma PutMembers(items: seq<Item>, item: Item, i: Item)
    requires i in Put(items, item)
    ensures exists j :: j in items && j.id == i.id
  {
    var k :| 0 <= k < |Put(items, item)| && Put(items, item)[k] == i;
    assert items[k].id == i.id;
  }

  lemma {:induction false} AppendFinds(items: seq<Item>, item: Item, other: Id)
    requires Find(items, item.id).None?
    ensures Find(items + [item], other) == if other == item.id then Some(item) else Find(items, other)
  {
    if items != [] {
      assert (items + [item])[1..] == items[1..] + [item];
      AppendFinds(items[1..], item, other);
    } else {
      assert items + [item] == [item];
    }
  }

  lemma {:induction false} DropKeepsInteractions(open: seq<Interaction>, id: Id)
    requires DistinctInteractions(open)
    ensures DistinctInteractions(DropInteraction(open, id))
  {
    if open != [] && open[0].id != id {
      DropKeepsInteractions(open[1..], id);
      var r := DropInteraction(open[1..], id);
      forall k | 0 <= k < |r| ensures r[k].id != open[0].id {
        assert r[k] in r;
        assert r[k] in open[1..];
      }
    }
  }

  lemma {:induction false} DropFindsInteraction(open: seq<Interaction>, id: Id, other: Id)
    requires DistinctInteractions(open)
    ensures FindInteraction(DropInteraction(open, id), other) == if other == id then None
            else FindInteraction(open, other)
  {
    if open != [] && open[0].id != id {
      DropFindsInteraction(open[1..], id, other);
    } else if open != [] {
      assert forall k :: 0 <= k < |open[1..]| ==> open[1..][k].id != open[0].id;
    }
  }

  lemma {:induction false} AppendFindsInteraction(open: seq<Interaction>, i: Interaction, other: Id)
    requires FindInteraction(open, i.id).None?
    ensures FindInteraction(open + [i], other) == if other == i.id then Some(i) else FindInteraction(open, other)
  {
    if open != [] {
      assert (open + [i])[1..] == open[1..] + [i];
      AppendFindsInteraction(open[1..], i, other);
    } else {
      assert open + [i] == [i];
    }
  }

  lemma AcceptKeepsKeys(g: Grammar, e: Output)
    requires GrammarKeyed(g) && Accept(g, e).Some?
    ensures GrammarKeyed(Accept(g, e).value)
  {
    if g.open.Some? {
      var o := g.open.value;
      match e {
        case ItemCompleted(_, snapshot) => DropKeeps(o.items, snapshot.item.id);
        case InteractionClosed(_, id, _) => DropKeepsInteractions(o.interactions, id);
        case ItemUpdated(_, id, update) =>
          var folded := Fold(Find(o.items, id).value, update).value;
          forall i | i in Put(o.items, folded) ensures i.id in o.seen {
            PutMembers(o.items, folded, i);
          }
        case _ =>
      }
    }
  }

  lemma {:induction false} ScanKeyed(trace: seq<Output>, n: nat)
    requires At(trace, n).Some?
    ensures GrammarKeyed(At(trace, n).value)
  {
    if n > 0 {
      AtSteps(trace, n - 1);
      ScanKeyed(trace, n - 1);
      AcceptKeepsKeys(At(trace, n - 1).value, trace[n - 1]);
    }
  }

  // ---- Turns -------------------------------------------------------------------------------

  /** From its start until it completes, a turn stays open and collects its completed snapshots. */
  function CompletedIn(trace: seq<Output>, from: nat, to: nat): seq<ItemSnapshot> {
    if to <= from || to > |trace| then []
    else CompletedIn(trace, from, to - 1) + (if trace[to - 1].ItemCompleted? then [trace[to - 1].snapshot] else [])
  }

  lemma {:induction false} TurnStaysOpen(trace: seq<Output>, i: nat, n: nat)
    requires Accepted(trace) && i < n <= |trace| && trace[i].TurnStarted? && SameTurn(trace, i, n)
    ensures At(trace, n).Some? && InTurn(At(trace, n).value, trace[i].turnId)
    ensures At(trace, n).value.open.value.completed == CompletedIn(trace, i, n)
    ensures !At(trace, n).value.faulted
  {
    hide Find, Put, Drop, Fold, FindInteraction, DropInteraction;
    PrefixAccepted(trace, n);
    PrefixAccepted(trace, n - 1);
    AtSteps(trace, n - 1);
    if n > i + 1 {
      TurnStaysOpen(trace, i, n - 1);
    }
  }

  /** At most one turn is open: between two turn starts the first turn completes. */
  lemma OneOpenTurn(trace: seq<Output>, i: nat, j: nat)
    requires Accepted(trace) && i < j < |trace| && trace[i].TurnStarted? && trace[j].TurnStarted?
    ensures exists k :: i < k < j && trace[k].TurnCompleted?
  {
    if SameTurn(trace, i, j) {
      TurnStaysOpen(trace, i, j);
      AtSteps(trace, j);
      PrefixAccepted(trace, j + 1);
    }
  }

  /** A fault is the last output there is. */
  lemma NothingAfterFault(trace: seq<Output>, i: nat)
    requires Accepted(trace) && i < |trace| && trace[i].SessionFaulted?
    ensures i == |trace| - 1
  {
    PrefixAccepted(trace, i + 1);
    AtSteps(trace, i);
    if i + 1 < |trace| {
      PrefixAccepted(trace, i + 2);
      AtSteps(trace, i + 1);
    }
  }

  /** What the turn from output `i` to its completion at `j` comes to. */
  function Finish(trace: seq<Output>, i: nat, j: nat): FinishedTurn
    requires j < |trace| && trace[j].TurnCompleted?
  {
    FinishedTurn(CompletedIn(trace, i, j), trace[j].outcome, trace[j].checkpoint)
  }

  /** A turn that completes as part of the thread adds exactly its completed snapshots, in the order
      they were emitted, to the history; any other output leaves the history alone. */
  lemma HistoryIsCompletedItems(trace: seq<Output>, i: nat, j: nat)
    requires Accepted(trace) && i < j < |trace| && trace[i].TurnStarted? && SameTurn(trace, i, j)
    requires trace[j].TurnCompleted?
    ensures At(trace, j).Some? && At(trace, j + 1).Some?
    ensures At(trace, j + 1).value.history == At(trace, j).value.history
              + (if trace[j].native then [Finish(trace, i, j)] else [])
  {
    TurnStaysOpen(trace, i, j);
    PrefixAccepted(trace, j + 1);
    AtSteps(trace, j);
  }

  /** The finished turns of the thread among the first `n` outputs. */
  function NativeTurns(trace: seq<Output>, n: nat): nat {
    if n == 0 || n > |trace| then 0
    else NativeTurns(trace, n - 1) + if trace[n - 1].TurnCompleted? && trace[n - 1].native then 1 else 0
  }

  lemma {:induction false} HistoryGrows(trace: seq<Output>, m: nat, n: nat)
    requires Accepted(trace) && m <= n <= |trace|
    ensures At(trace, m).Some? && At(trace, n).Some?
    ensures At(trace, m).value.history <= At(trace, n).value.history
    ensures |At(trace, n).value.history| == NativeTurns(trace, n)
    decreases n
  {
    PrefixAccepted(trace, n);
    if n > 0 {
      AtSteps(trace, n - 1);
      HistoryGrows(trace, if m == n then n - 1 else m, n - 1);
    }
  }

  /** Over the whole trace, the k-th turn of the history is the k-th finished turn's completed items. */
  lemma HistoryEntry(trace: seq<Output>, i: nat, j: nat)
    requires Accepted(trace) && i < j < |trace| && trace[i].TurnStarted? && SameTurn(trace, i, j)
    requires trace[j].TurnCompleted? && trace[j].native
    ensures var h, k := Scan(trace).value.history, NativeTurns(trace, j);
            k < |h| && h[k] == Finish(trace, i, j)
  {
    hide Accept, CompletedIn;
    HistoryIsCompletedItems(trace, i, j);
    HistoryGrows(trace, j, j + 1);
    HistoryGrows(trace, j, j);
    HistoryGrows(trace, j + 1, |trace|);
    assert trace[..|trace|] == trace;
  }

  // ---- Items -------------------------------------------------------------------------------

  function Completions(trace: seq<Output>, id: Id, from: nat, to: nat): nat {
    if to <= from || to > |trace| then 0
    else Completions(trace, id, from, to - 1)
         + if trace[to - 1].ItemCompleted? && trace[to - 1].snapshot.item.id == id then 1 else 0
  }

  /** The item a consumer has after folding its updates onto what was started at `i`. */
  function Replay(trace: seq<Output>, i: nat, to: nat): Item
    requires i < |trace| && trace[i].ItemStarted?
  {
    if to <= i + 1 || to > |trace| then trace[i].item
    else
      var item := Replay(trace, i, to - 1);
      var e := trace[to - 1];
      if e.ItemUpdated? && e.itemId == trace[i].item.id && Fold(item, e.update).Some? then Fold(item, e.update).value
      else item
  }

  /** Within its turn an item is either open, with its updates folded, or completed just once. */
  lemma {:induction false} ItemStatus(trace: seq<Output>, i: nat, n: nat)
    requires Accepted(trace) && i < n <= |trace| && trace[i].ItemStarted? && SameTurn(trace, i, n)
    ensures At(trace, n).Some? && InTurn(At(trace, n).value, trace[i].turnId)
    ensures var o := At(trace, n).value.open.value;
            var id := trace[i].item.id;
            && id in o.seen
            && match Find(o.items, id)
               case Some(item) => item == Replay(trace, i, n) && Completions(trace, id, i + 1, n) == 0
               case None => Completions(trace, id, i + 1, n) == 1
  {
    PrefixAccepted(trace, n);
    PrefixAccepted(trace, n - 1);
    AtSteps(trace, n - 1);
    ScanKeyed(trace, n - 1);
    var id := trace[i].item.id;
    var g := At(trace, n - 1).value;
    if n == i + 1 {
      AppendFinds(g.open.value.items, trace[i].item, id);
    } else {
      ItemStatus(trace, i, n - 1);
      TurnStep(g, trace[n - 1]);
      ItemStep(g, trace[n - 1], id);
      ItemRefusals(g, trace[n - 1], id);
      hide Accept, Scan, Fold, Find, ItemsAfter;
    }
  }

  /** One output's effect on one item of the open turn. */
  function Effect(found: Option<Item>, e: Output, id: Id): Option<Item> {
    if e.ItemStarted? && e.item.id == id then Some(e.item)
    else if e.ItemCompleted? && e.snapshot.item.id == id then None
    else if e.ItemUpdated? && e.itemId == id && found.Some? then Fold(found.value, e.update)
    else found
  }

  function ItemsAfter(items: seq<Item>, e: Output): seq<Item> {
    match e
    case ItemStarted(_, item) => items + [item]
    case ItemCompleted(_, snapshot) => Drop(items, snapshot.item.id)
    case ItemUpdated(_, itemId, update) =>
      var found := Find(items, itemId);
      if found.Some? && Fold(found.value, update).Some? then Put(items, Fold(found.value, update).value) else items
    case _ => items
  }

  lemma TurnStep(g: Grammar, e: Output)
    requires Accept(g, e).Some? && g.open.Some? && !e.TurnCompleted?
    ensures var r := Accept(g, e).value;
            && r.open.Some? && r.open.value.id == g.open.value.id && g.open.value.seen <= r.open.value.seen
            && r.open.value.items == ItemsAfter(g.open.value.items, e)
  {
    hide Find, Fold, Put, Drop;
  }

  lemma ItemsStep(items: seq<Item>, e: Output, id: Id)
    requires DistinctItems(items)
    requires e.ItemStarted? ==> Find(items, e.item.id).None?
    requires e.ItemUpdated? ==> Find(items, e.itemId).Some? && Fold(Find(items, e.itemId).value, e.update).Some?
    ensures Find(ItemsAfter(items, e), id) == Effect(Find(items, id), e, id)
  {
    hide DistinctItems;
    match e {
      case ItemStarted(_, item) => AppendFinds(items, item, id);
      case ItemCompleted(_, snapshot) => DropFinds(items, snapshot.item.id, id);
      case ItemUpdated(_, itemId, update) =>
        hide Put, Drop;
        PutFinds(items, Fold(Find(items, itemId).value, update).value, id);
        FoldKeepsId(Find(items, itemId).value, update);
        hide Find, Fold;
      case _ =>
    }
  }

  lemma FoldKeepsId(item: Item, update: Update)
    requires Fold(item, update).Some?
    ensures Fold(item, update).value.id == item.id
  {
  }

  lemma ItemStep(g: Grammar, e: Output, id: Id)
    requires GrammarKeyed(g) && Accept(g, e).Some? && g.open.Some? && !e.TurnCompleted?
    ensures Find(ItemsAfter(g.open.value.items, e), id) == Effect(Find(g.open.value.items, id), e, id)
  {
    var items := g.open.value.items;
    ItemRefusals(g, e, if e.ItemUpdated? then e.itemId else id);
    hide Accept, Fold, Put, Drop, ItemsAfter;
    ItemsStep(items, e, id);
  }

  lemma ItemRefusals(g: Grammar, e: Output, id: Id)
    requires Accept(g, e).Some? && g.open.Some?
    ensures e.ItemStarted? ==> e.item.id !in g.open.value.seen
    ensures e.ItemCompleted? && e.snapshot.item.id == id ==> Find(g.open.value.items, id) == Some(e.snapshot.item)
    ensures e.ItemUpdated? && e.itemId == id ==>
              Find(g.open.value.items, id).Some? && Fold(Find(g.open.value.items, id).value, e.update).Some?
  {
  }

  /** Each started item completes exactly once before its turn does. */
  lemma ItemCompletesOnce(trace: seq<Output>, i: nat, j: nat)
    requires Accepted(trace) && i < j < |trace| && trace[i].ItemStarted? && SameTurn(trace, i, j)
    requires trace[j].TurnCompleted?
    ensures Completions(trace, trace[i].item.id, i + 1, j) == 1
  {
    ItemStatus(trace, i, j);
    PrefixAccepted(trace, j + 1);
    AtSteps(trace, j);
  }

  /** Every open item was started in this turn. */
  lemma {:induction false} OpenItemStarted(trace: seq<Output>, n: nat, id: Id) returns (i: nat)
    requires Accepted(trace) && n <= |trace| && At(trace, n).Some? && At(trace, n).value.open.Some?
    requires Find(At(trace, n).value.open.value.items, id).Some?
    ensures i < n && trace[i].ItemStarted? && trace[i].item.id == id && SameTurn(trace, i, n)
  {
    AtSteps(trace, n - 1);
    PrefixAccepted(trace, n - 1);
    ScanKeyed(trace, n - 1);
    var g, e := At(trace, n - 1).value, trace[n - 1];
    if e.ItemStarted? && e.item.id == id {
      return n - 1;
    }
    TurnStep(g, e);
    ItemStep(g, e, id);
    hide Accept, Scan, Fold, ItemsAfter;
    i := OpenItemStarted(trace, n - 1, id);
  }

  /** Replay. A completed item was started earlier in the same turn, and folding the updates in
      between onto what was started gives exactly the item in the completion. */
  lemma CompletionReplays(trace: seq<Output>, k: nat) returns (i: nat)
    requires Accepted(trace) && k < |trace| && trace[k].ItemCompleted?
    ensures i < k && trace[i].ItemStarted? && trace[i].item.id == trace[k].snapshot.item.id
    ensures trace[i].turnId == trace[k].turnId && SameTurn(trace, i, k)
    ensures trace[k].snapshot.item == Replay(trace, i, k)
  {
    PrefixAccepted(trace, k);
    PrefixAccepted(trace, k + 1);
    AtSteps(trace, k);
    i := OpenItemStarted(trace, k, trace[k].snapshot.item.id);
    ItemStatus(trace, i, k);
  }

  // ---- What items come to hold -------------------------------------------------------------

  /** The texts appended to an item by the outputs from `from` up to `to`, in emission order. */
  function AppendedText(trace: seq<Output>, id: Id, from: nat, to: nat): string {
    if to <= from || to > |trace| then ""
    else
      var e := trace[to - 1];
      AppendedText(trace, id, from, to - 1)
      + if e.ItemUpdated? && e.itemId == id && e.update.TextAppend? then e.update.text else ""
  }

  /** The command output appended, in emission order; None when none has been. */
  function AppendedOutput(trace: seq<Output>, id: Id, from: nat, to: nat): Option<string> {
    if to <= from || to > |trace| then None
    else
      var e, before := trace[to - 1], AppendedOutput(trace, id, from, to - 1);
      if e.ItemUpdated? && e.itemId == id && e.update.OutputAppend? then
        Some(if before.Some? then before.value + e.update.text else e.update.text)
      else before
  }

  /** The last tool output put in place of another. */
  function LastOutput(trace: seq<Output>, id: Id, from: nat, to: nat): Option<string> {
    if to <= from || to > |trace| then None
    else
      var e := trace[to - 1];
      if e.ItemUpdated? && e.itemId == id && e.update.OutputReplace? then Some(e.update.output)
      else LastOutput(trace, id, from, to - 1)
  }

  function LastSubagents(trace: seq<Output>, id: Id, from: nat, to: nat): Option<seq<string>> {
    if to <= from || to > |trace| then None
    else
      var e := trace[to - 1];
      if e.ItemUpdated? && e.itemId == id && e.update.SubagentsReplace? then Some(e.update.subagents)
      else LastSubagents(trace, id, from, to - 1)
  }

  /** What an item started as `was` holds after the outputs between `from` and `to`: texts and command
      output are what was there followed by what was appended, in order; tool output and subagents are the
      last ones put in place; everything else is as it was. */
  ghost predicate Holds(trace: seq<Output>, from: nat, to: nat, was: Item, now: Item) {
    match was
    case AgentMessage(id, text) => now == AgentMessage(id, text + AppendedText(trace, id, from, to))
    case Reasoning(id, text) => now == Reasoning(id, text + AppendedText(trace, id, from, to))
    case CommandExecution(id, command, cwd, printed) =>
      var more := AppendedOutput(trace, id, from, to);
      now == CommandExecution(id, command, cwd,
                              if more.None? then printed
                              else Some((if printed.Some? then printed.value else "") + more.value))
    case ToolExecution(id, toolName, arguments, result) =>
      var last := LastOutput(trace, id, from, to);
      now == ToolExecution(id, toolName, arguments, if last.Some? then last else result)
    case SubagentDelegation(id, subagents) =>
      var last := LastSubagents(trace, id, from, to);
      now == SubagentDelegation(id, if last.Some? then last.value else subagents)
    case _ => now == was
  }

  lemma HoldsMore(trace: seq<Output>, from: nat, to: nat, was: Item, now: Item)
    requires from <= to < |trace| && Holds(trace, from, to, was, now) && now.id == was.id
    ensures var e := trace[to];
            if e.ItemUpdated? && e.itemId == was.id then
              Fold(now, e.update).Some? ==> Holds(trace, from, to + 1, was, Fold(now, e.update).value)
            else Holds(trace, from, to + 1, was, now)
  {
    var e, id := trace[to], was.id;
    if e.ItemUpdated? && e.itemId == id {
      if was.AgentMessage? || was.Reasoning? {
        var text := if e.update.TextAppend? then e.update.text else "";
        assert was.text + AppendedText(trace, id, from, to) + text
               == was.text + (AppendedText(trace, id, from, to) + text);
      } else if was.CommandExecution? && e.update.OutputAppend? {
        var start, before := if was.printed.Some? then was.printed.value else "", AppendedOutput(trace, id, from, to);
        var printed := if before.Some? then before.value else "";
        assert start + printed + e.update.text == start + (printed + e.update.text);
        assert start + "" == start && "" + e.update.text == e.update.text;
      }
    } else {
      assert forall s: string :: s + "" == s;
    }
  }

  lemma {:induction false} OpenItemHolds(trace: seq<Output>, i: nat, n: nat)
    requires Accepted(trace) && i < n <= |trace| && trace[i].ItemStarted? && SameTurn(trace, i, n)
    requires At(trace, n).Some? && At(trace, n).value.open.Some?
    requires Find(At(trace, n).value.open.value.items, trace[i].item.id).Some?
    ensures Holds(trace, i + 1, n, trace[i].item, Find(At(trace, n).value.open.value.items, trace[i].item.id).value)
  {
    hide Accept, Scan, Find, Fold, ItemsAfter, Holds, Keyed;
    var id := trace[i].item.id;
    ItemStatus(trace, i, n);
    if n == i + 1 {
      HoldsAtStart(trace, i + 1, trace[i].item);
    } else {
      PrefixAccepted(trace, n - 1);
      ItemStatus(trace, i, n - 1);
      ScanKeyed(trace, n - 1);
      AtSteps(trace, n - 1);
      var g := At(trace, n - 1).value;
      OpenItemHolds(trace, i, n - 1);
      TurnStep(g, trace[n - 1]);
      ItemStep(g, trace[n - 1], id);
      ItemRefusals(g, trace[n - 1], id);
      FoundHasId(g.open.value.items, id);
      HoldsMore(trace, i + 1, n - 1, trace[i].item, Find(g.open.value.items, id).value);
    }
  }

  lemma FoundHasId(items: seq<Item>, id: Id)
    ensures Find(items, id).Some? ==> Find(items, id).value.id == id
  {
  }

  lemma HoldsAtStart(trace: seq<Output>, from: nat, item: Item)
    ensures Holds(trace, from, from, item, item)
  {
    assert forall s: string :: s + "" == s;
  }

  /** A completed item was started earlier in its turn, and holds what was appended to it or last put in
      place in between, in the order it was emitted. */
  lemma CompletedItemHolds(trace: seq<Output>, k: nat) returns (i: nat)
    requires Accepted(trace) && k < |trace| && trace[k].ItemCompleted?
    ensures i < k && trace[i].ItemStarted? && trace[i].item.id == trace[k].snapshot.item.id && SameTurn(trace, i, k)
    ensures Holds(trace, i + 1, k, trace[i].item, trace[k].snapshot.item)
  {
    PrefixAccepted(trace, k);
    PrefixAccepted(trace, k + 1);
    AtSteps(trace, k);
    i := OpenItemStarted(trace, k, trace[k].snapshot.item.id);
    OpenItemHolds(trace, i, k);
  }

  // ---- Interactions ------------------------------------------------------------------------

  function Closings(trace: seq<Output>, id: Id, from: nat, to: nat): nat {
    if to <= from || to > |trace| then 0
    else Closings(trace, id, from, to - 1)
         + if trace[to - 1].InteractionClosed? && trace[to - 1].interactionId == id then 1 else 0
  }

  lemma {:induction false} InteractionStatus(trace: seq<Output>, i: nat, n: nat)
    requires Accepted(trace) && i < n <= |trace| && trace[i].InteractionOpened? && SameTurn(trace, i, n)
    ensures At(trace, n).Some? && At(trace, n).value.open.Some?
    ensures var o := At(trace, n).value.open.value;
            var id := trace[i].interaction.id;
            && id in o.asked
            && Closings(trace, id, i + 1, n) == if FindInteraction(o.interactions, id).Some? then 0 else 1
  {
    PrefixAccepted(trace, n);
    PrefixAccepted(trace, n - 1);
    AtSteps(trace, n - 1);
    ScanKeyed(trace, n - 1);
    var id := trace[i].interaction.id;
    var g, e := At(trace, n - 1).value, trace[n - 1];
    if n == i + 1 {
      AppendFindsInteraction(g.open.value.interactions, trace[i].interaction, id);
    } else {
      InteractionStatus(trace, i, n - 1);
      if e.InteractionOpened? { AppendFindsInteraction(g.open.value.interactions, e.interaction, id); }
      if e.InteractionClosed? { DropFindsInteraction(g.open.value.interactions, e.interactionId, id); }
    }
  }

  /** Each interaction closes exactly once before its turn completes. */
  lemma InteractionClosesOnce(trace: seq<Output>, i: nat, j: nat)
    requires Accepted(trace) && i < j < |trace| && trace[i].InteractionOpened? && SameTurn(trace, i, j)
    requires trace[j].TurnCompleted?
    ensures Closings(trace, trace[i].interaction.id, i + 1, j) == 1
  {
    InteractionStatus(trace, i, j);
    PrefixAccepted(trace, j + 1);
    AtSteps(trace, j);
  }

  /** A command published as a turn of its own follows the grammar exactly when no turn is open. */
  lemma EphemeralNeedsIdle(trace: seq<Output>, turnId: Id, item: Item)
    requires Accepted(trace) && !Scan(trace).value.faulted
    ensures Accepted(trace + [TurnStarted(turnId)] + [ItemStarted(turnId, item)]
                     + [ItemCompleted(turnId, ItemSnapshot(item, Succeeded))]
                     + [TurnCompleted(turnId, false, Succeeded, None)])
            <==> Scan(trace).value.open.None?
  {
    var t1 := trace + [TurnStarted(turnId)];
    var t2 := t1 + [ItemStarted(turnId, item)];
    var t3 := t2 + [ItemCompleted(turnId, ItemSnapshot(item, Succeeded))];
    ScanMore(trace, TurnStarted(turnId));
    ScanMore(t1, ItemStarted(turnId, item));
    ScanMore(t2, ItemCompleted(turnId, ItemSnapshot(item, Succeeded)));
    ScanMore(t3, TurnCompleted(turnId, false, Succeeded, None));
    hide Scan;
    assert [] + [item] == [item];
    assert [item][1..] == [];
  }
}
