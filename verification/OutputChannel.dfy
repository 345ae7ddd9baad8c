/** The Harness output channel: a queue of values nobody has read and a queue of reads nobody has
    answered, meant to behave as one sequence of values with a read index. */
module OutputChannel {
  /** A JavaScript value; `undefined` can be emitted like any other. */
  datatype Item<T> = Undefined | Defined(value: T)

  /** The promise of one read. */
  datatype Outcome<T> = Waiting | Value(item: Item<T>) | Done

  /** `outcomes` lists the promises handed out, in call order; `pending` holds indices into it. */
  datatype ChannelState<T> = ChannelState(values: seq<Item<T>>, pending: seq<nat>, ended: bool,
    outcomes: seq<Outcome<T>>)

  function Resolve<T>(outcomes: seq<Outcome<T>>, read: nat, outcome: Outcome<T>): (r: seq<Outcome<T>>)
    ensures |r| == |outcomes|
  {
    if read < |outcomes| then outcomes[read := outcome] else outcomes
  }

  function ResolveAll<T>(outcomes: seq<Outcome<T>>, tickets: seq<nat>): (r: seq<Outcome<T>>)
    ensures |r| == |outcomes|
    decreases |tickets|
  {
    if tickets == [] then outcomes else ResolveAll(Resolve(outcomes, tickets[0], Done), tickets[1..])
  }

  function Emitted<T>(s: ChannelState<T>, item: Item<T>): ChannelState<T> {
    if s.ended then s
    else if s.pending != [] then
      s.(pending := s.pending[1..], outcomes := Resolve(s.outcomes, s.pending[0], Value(item)))
    else s.(values := s.values + [item])
  }

  function Ended<T>(s: ChannelState<T>): ChannelState<T> {
    if s.ended then s
    else if s.values != [] then s.(ended := true)
    else s.(ended := true, pending := [], outcomes := ResolveAll(s.outcomes, s.pending))
  }

  /** An `undefined` at the head of the queue is taken off it and then treated as no value at all. */
  function Read<T>(s: ChannelState<T>): ChannelState<T> {
    var rest := if s.values == [] then [] else s.values[1..];
    if s.values != [] && s.values[0].Defined? then
      s.(values := rest, outcomes := s.outcomes + [Value(s.values[0])])
    else if s.ended then s.(values := rest, outcomes := s.outcomes + [Done])
    else s.(values := rest, pending := s.pending + [|s.outcomes|], outcomes := s.outcomes + [Waiting])
  }

  class HarnessOutputChannel<T> {
    var values: seq<Item<T>>
    var pending: seq<nat>
    var ended: bool
    var outcomes: seq<Outcome<T>>

    function Abstract(): ChannelState<T>
      reads this
    {
      ChannelState(values, pending, ended, outcomes)
    }

    constructor ()
      ensures Abstract() == ChannelState([], [], false, [])
    {
      values, pending, ended, outcomes := [], [], false, [];
    }

    method Emit(item: Item<T>) returns (accepted: bool)
      modifies this
      ensures accepted == !old(ended) && Abstract() == Emitted(old(Abstract()), item)
    {
      if ended {
        return false;
      }
      if pending != [] {
        var read := pending[0];
        pending := pending[1..];
        outcomes := Resolve(outcomes, read, Value(item));
      } else {
        values := values + [item];
      }
      return true;
    }

    method End()
      modifies this
      ensures Abstract() == Ended(old(Abstract()))
    {
      if ended {
        return;
      }
      ended := true;
      if values != [] {
        return;
      }
      var waiting := pending;
      pending := [];
      for i := 0 to |waiting|
        invariant values == [] && pending == [] && ended
        invariant ResolveAll(outcomes, waiting[i..]) == ResolveAll(old(outcomes), waiting)
      {
        assert waiting[i..][1..] == waiting[i + 1..];
        outcomes := Resolve(outcomes, waiting[i], Done);
      }
    }

    method Next() returns (read: nat)
      modifies this
      ensures read == |old(outcomes)| && Abstract() == Read(old(Abstract()))
    {
      read := |outcomes|;
      if values != [] {
        var item := values[0];
        values := values[1..];
        if item.Defined? {
          outcomes := outcomes + [Value(item)];
          return;
        }
      }
      if ended {
        outcomes := outcomes + [Done];
        return;
      }
      outcomes := outcomes + [Waiting];
      pending := pending + [read];
    }
  }

  // ---- One sequence and a read index -------------------------------------------------------

  function Expected<T>(emitted: seq<Item<T>>, ended: bool, read: nat): Outcome<T> {
    if read < |emitted| then Value(emitted[read]) else if ended then Done else Waiting
  }

  /** Reads beyond the emitted values, in call order. */
  function Beyond(from: nat, to: nat): (r: seq<nat>)
    ensures |r| == if from < to then to - from else 0
    ensures forall i :: 0 <= i < |r| ==> r[i] == from + i
  {
    if from < to then seq(to - from, i => from + i) else []
  }

  /** The channel is exactly the emitted sequence read up to the number of reads made: every read has
      the outcome that sequence gives it, and at most one queue is non-empty. */
  ghost predicate Refines<T>(s: ChannelState<T>, emitted: seq<Item<T>>) {
    var n := |s.outcomes|;
    && (forall i :: 0 <= i < n ==> s.outcomes[i] == Expected(emitted, s.ended, i))
    && s.values == (if n <= |emitted| then emitted[n..] else [])
    && (forall i :: 0 <= i < |s.values| ==> s.values[i].Defined?)
    && s.pending == if s.ended then [] else Beyond(|emitted|, n)
  }

  /** The guard under which a value is queued, and so may be lost if it is `undefined`. */
  predicate Queues<T>(s: ChannelState<T>) {
    !s.ended && s.pending == []
  }

  function Log<T>(s: ChannelState<T>, emitted: seq<Item<T>>, item: Item<T>): seq<Item<T>> {
    if s.ended then emitted else emitted + [item]
  }

  /** Emitting keeps the refinement exactly when it does not queue an `undefined`. */
  lemma EmitRefines<T>(s: ChannelState<T>, emitted: seq<Item<T>>, item: Item<T>)
    requires Refines(s, emitted)
    ensures Refines(Emitted(s, item), Log(s, emitted, item)) <==> item.Defined? || !Queues(s)
  {
    var s' := Emitted(s, item);
    var log := Log(s, emitted, item);
    if s.ended {
    } else if s.pending != [] {
      assert s'.pending == Beyond(|log|, |s'.outcomes|);
    } else {
      assert s'.values == log[|s.outcomes|..];
      assert s'.values[|s.values|] == item;
    }
  }

  lemma {:induction false} ResolvesAll<T>(outcomes: seq<Outcome<T>>, tickets: seq<nat>)
    requires forall i :: 0 <= i < |tickets| ==> tickets[i] < |outcomes|
    ensures var r := ResolveAll(outcomes, tickets);
            forall k :: 0 <= k < |outcomes| ==> r[k] == if k in tickets then Done else outcomes[k]
    decreases |tickets|
  {
    if tickets != [] {
      ResolvesAll(Resolve(outcomes, tickets[0], Done), tickets[1..]);
    }
  }

  lemma EndRefines<T>(s: ChannelState<T>, emitted: seq<Item<T>>)
    requires Refines(s, emitted)
    ensures Refines(Ended(s), emitted)
  {
    if !s.ended && s.values == [] {
      ResolvesAll(s.outcomes, s.pending);
      forall k | 0 <= k < |s.outcomes| && k >= |emitted| ensures k in s.pending {
        assert s.pending[k - |emitted|] == k;
      }
    }
  }

  lemma ReadRefines<T>(s: ChannelState<T>, emitted: seq<Item<T>>)
    requires Refines(s, emitted)
    ensures Refines(Read(s), emitted)
    ensures |Read(s).outcomes| == |s.outcomes| + 1
  {
    if s.values == [] && !s.ended {
      assert Read(s).pending == Beyond(|emitted|, |s.outcomes| + 1);
    }
  }

  datatype Call<T> = EmitCall(item: Item<T>) | EndCall | ReadCall

  datatype History<T> = History(state: ChannelState<T>, emitted: seq<Item<T>>)

  function Step<T>(h: History<T>, call: Call<T>): History<T> {
    match call
    case EmitCall(item) => History(Emitted(h.state, item), Log(h.state, h.emitted, item))
    case EndCall => History(Ended(h.state), h.emitted)
    case ReadCall => History(Read(h.state), h.emitted)
  }

  function Run<T>(calls: seq<Call<T>>): History<T> {
    if calls == [] then History(ChannelState([], [], false, []), [])
    else Step(Run(calls[..|calls| - 1]), calls[|calls| - 1])
  }

  /** Channel refinement, over every sequence of calls that emits no `undefined`. */
  lemma {:induction false} ChannelRefines<T>(calls: seq<Call<T>>)
    requires forall i :: 0 <= i < |calls| && calls[i].EmitCall? ==> calls[i].item.Defined?
    ensures Refines(Run(calls).state, Run(calls).emitted)
  {
    if calls != [] {
      var before := calls[..|calls| - 1];
      ChannelRefines(before);
      var h := Run(before);
      match calls[|calls| - 1] {
        case EmitCall(item) => EmitRefines(h.state, h.emitted, item);
        case EndCall => EndRefines(h.state, h.emitted);
        case ReadCall => ReadRefines(h.state, h.emitted);
      }
    }
  }

  function Reads<T>(s: ChannelState<T>, n: nat): ChannelState<T> {
    if n == 0 then s else Read(Reads(s, n - 1))
  }

  /** A queued `undefined` is lost: the read that should have received it is left waiting. */
  lemma QueuedUndefinedIsLost<T>(s: ChannelState<T>, emitted: seq<Item<T>>)
    requires Refines(s, emitted) && Queues(s)
    ensures var log := Log(s, emitted, Undefined);
            var t := Reads(Emitted(s, Undefined), |s.values| + 1);
            && Expected(log, false, |emitted|) == Value(Undefined)
            && |emitted| < |t.outcomes| && t.outcomes[|emitted|] == Waiting
  {
    var q := Emitted(s, Undefined);
    Drains(q, |s.values|);
  }

  lemma {:induction false} Drains<T>(s: ChannelState<T>, n: nat)
    requires n <= |s.values| && forall i :: 0 <= i < n ==> s.values[i].Defined?
    ensures var t := Reads(s, n);
            t.values == s.values[n..] && |t.outcomes| == |s.outcomes| + n && t.ended == s.ended
  {
    if n > 0 {
      Drains(s, n - 1);
    }
  }
}
