/** Signal delivery through pidfds (Linux): open, inspect again, send, one listed process at a time,
    while other processes exit and their PIDs are reused in between. */
module Signals {
  import opened Wrappers

  datatype Instance = Instance(pid: nat, start: nat)

  datatype Point =
    | Opening
    | Inspecting(fd: Instance)     // the descriptor is bound to the instance that had the PID
    | Sending(fd: Instance)
    | Failed

  /** One delivery: the position in the list and the instance the kernel signalled. */
  datatype Delivery = Delivery(position: nat, target: Instance)

  datatype State = State(
    live: map<nat, nat>,           // PID to start time; a PID has one holder at a time
    used: set<Instance>,
    cursor: nat,
    point: Point,
    delivered: seq<Delivery>)

  datatype Action =
    | Begin(process: Instance) | Exit(pid: nat)
    | Open | Inspect | Send | Refuse

  predicate Live(s: State, p: Instance) {
    p.pid in s.live && s.live[p.pid] == p.start
  }

  /** A machine about to run `signal_processes`; its processes have been given their identities. */
  ghost predicate Ready(s: State) {
    && s.cursor == 0 && s.point == Opening && s.delivered == []
    && forall pid :: pid in s.live ==> Instance(pid, s.live[pid]) in s.used
  }

  function Next(s: State): State {
    s.(cursor := s.cursor + 1, point := Opening)
  }

  /** `Refuse` is any other operating-system error; it ends the call. */
  function Apply(s: State, list: seq<Instance>, a: Action): Option<State> {
    match a
    case Begin(p) =>
      if p.pid !in s.live && p !in s.used then
        Some(s.(live := s.live[p.pid := p.start], used := s.used + {p}))
      else None
    case Exit(pid) => if pid in s.live then Some(s.(live := s.live - {pid})) else None
    case Open =>
      if s.cursor >= |list| || !s.point.Opening? then None
      else
        var pid := list[s.cursor].pid;
        if pid == 0 then Some(s.(point := Failed))
        else if pid !in s.live then Some(Next(s))
        else Some(s.(point := Inspecting(Instance(pid, s.live[pid]))))
    case Inspect =>
      if s.cursor >= |list| || !s.point.Inspecting? then None
      else
        var expected := list[s.cursor];
        if expected.pid !in s.live then Some(Next(s))
        else if s.live[expected.pid] != expected.start then Some(s.(point := Failed))
        else Some(s.(point := Sending(s.point.fd)))
    case Send =>
      if s.cursor >= |list| || !s.point.Sending? then None
      else if Live(s, s.point.fd) then
        Some(Next(s).(delivered := s.delivered + [Delivery(s.cursor, s.point.fd)]))
      else Some(Next(s))
    case Refuse => if s.cursor < |list| && !s.point.Failed? then Some(s.(point := Failed)) else None
  }

  function Exec(s: State, list: seq<Instance>, schedule: seq<Action>): Option<State>
    decreases |schedule|
  {
    if schedule == [] then Some(s)
    else match Apply(s, list, schedule[0])
      case None => None
      case Some(s') => Exec(s', list, schedule[1..])
  }

  ghost predicate Identified(s: State, first: set<Instance>) {
    first <= s.used && forall pid :: pid in s.live ==> Instance(pid, s.live[pid]) in s.used
  }

  /** The open descriptor either names the listed instance or one that is dead for good. */
  ghost predicate Bound(s: State, list: seq<Instance>, first: set<Instance>) {
    && s.cursor <= |list|
    && (s.point.Inspecting? || s.point.Sending? ==>
          && s.cursor < |list| && s.point.fd in s.used && s.point.fd.pid == list[s.cursor].pid
          && (list[s.cursor] in first && Live(s, list[s.cursor]) ==> s.point.fd == list[s.cursor]))
    && (s.point.Sending? ==> !Live(s, s.point.fd) || s.point.fd == list[s.cursor])
  }

  ghost predicate Faithful(s: State, list: seq<Instance>) {
    && (forall i :: 0 <= i < |s.delivered| ==>
          s.delivered[i].position < s.cursor <= |list| && s.delivered[i].target == list[s.delivered[i].position])
    && (forall i, j :: 0 <= i < j < |s.delivered| ==> s.delivered[i].position < s.delivered[j].position)
  }

  ghost predicate Reached(s: State, p: Instance) {
    exists d :: d in s.delivered && d.target == p
  }

  ghost predicate Thorough(s: State, list: seq<Instance>, first: set<Instance>) {
    forall k :: 0 <= k < s.cursor <= |list| && list[k] in first && Live(s, list[k]) ==> Reached(s, list[k])
  }

  ghost predicate Inv(s: State, list: seq<Instance>, first: set<Instance>) {
    Identified(s, first) && Bound(s, list, first) && Faithful(s, list) && Thorough(s, list, first)
  }

  /** A dead instance never comes back. */
  lemma LiveBefore(s: State, list: seq<Instance>, first: set<Instance>, a: Action, p: Instance)
    requires Identified(s, first) && Apply(s, list, a).Some? && p in s.used && Live(Apply(s, list, a).value, p)
    ensures Live(s, p)
  {
  }

  lemma ApplyKeepsBound(s: State, list: seq<Instance>, first: set<Instance>, a: Action)
    requires Identified(s, first) && Bound(s, list, first) && Apply(s, list, a).Some?
    ensures Identified(Apply(s, list, a).value, first) && Bound(Apply(s, list, a).value, list, first)
  {
  }

  lemma ApplyKeepsThorough(s: State, list: seq<Instance>, first: set<Instance>, a: Action)
    requires Inv(s, list, first) && Apply(s, list, a).Some?
    ensures Thorough(Apply(s, list, a).value, list, first)
  {
    var s' := Apply(s, list, a).value;
    forall k | 0 <= k < s'.cursor <= |list| && list[k] in first && Live(s', list[k]) ensures Reached(s', list[k]) {
      LiveBefore(s, list, first, a, list[k]);
      if k < s.cursor {
        var d :| d in s.delivered && d.target == list[k];
        assert d in s'.delivered;
      } else {
        assert a.Send?;
        assert Delivery(s.cursor, s.point.fd) in s'.delivered;
      }
    }
  }

  lemma ApplyKeepsInv(s: State, list: seq<Instance>, first: set<Instance>, a: Action)
    requires Inv(s, list, first) && Apply(s, list, a).Some?
    ensures Inv(Apply(s, list, a).value, list, first)
  {
    ApplyKeepsBound(s, list, first, a);
    ApplyKeepsThorough(s, list, first, a);
    hide Thorough, Identified, Reached;
  }

  lemma {:induction false} ExecKeepsInv(s: State, list: seq<Instance>, first: set<Instance>, schedule: seq<Action>)
    requires Inv(s, list, first) && Exec(s, list, schedule).Some?
    ensures Inv(Exec(s, list, schedule).value, list, first)
    decreases |schedule|
  {
    if schedule != [] {
      ApplyKeepsInv(s, list, first, schedule[0]);
      ExecKeepsInv(Apply(s, list, schedule[0]).value, list, first, schedule[1..]);
    }
  }

  /** Exact signalling. Whatever exits and PID reuse happen between the steps, the k-th listed process
      is the only one the k-th round can reach, and deliveries follow the list, at most one each. */
  lemma OnlyListedSignalled(s: State, list: seq<Instance>, schedule: seq<Action>, i: nat)
    requires Ready(s) && Exec(s, list, schedule).Some? && i < |Exec(s, list, schedule).value.delivered|
    ensures var d := Exec(s, list, schedule).value.delivered;
            && d[i].position < |list| && d[i].target == list[d[i].position]
            && forall j :: i < j < |d| ==> d[i].position < d[j].position
  {
    ExecKeepsInv(s, list, s.used, schedule);
    var t := Exec(s, list, schedule).value;
    assert t.delivered[i] in t.delivered;
  }

  /** Nobody is passed over: a listed process that existed at the start and outlives the call has been
      signalled by the time the call has gone through the list. */
  lemma SurvivorsWereSignalled(s: State, list: seq<Instance>, schedule: seq<Action>, p: Instance)
    requires Ready(s) && Exec(s, list, schedule).Some? && p in list && p in s.used
    requires var t := Exec(s, list, schedule).value; t.cursor == |list| && Live(t, p)
    ensures Reached(Exec(s, list, schedule).value, p)
  {
    ExecKeepsInv(s, list, s.used, schedule);
    var k :| 0 <= k < |list| && list[k] == p;
  }

  /** The k-th listed PID is held by another process, and nothing of the k-th round has been sent. */
  ghost predicate Taken(s: State, list: seq<Instance>, k: nat, q: Instance) {
    && k < |list| && q.pid == list[k].pid && q.start != list[k].start && Live(s, q)
    && s.cursor <= k && (s.cursor == k ==> !s.point.Sending?)
  }

  /** A reused PID fails the call: while another process holds the PID of the k-th listed one, no schedule
      takes the call past it, and nothing is sent in its round. */
  lemma {:induction false} ReusedPidStopsTheCall(s: State, list: seq<Instance>, schedule: seq<Action>, k: nat,
                                                 q: Instance)
    requires Taken(s, list, k, q) && Exec(s, list, schedule).Some?
    requires forall a :: a in schedule ==> a != Exit(q.pid)
    ensures Exec(s, list, schedule).value.cursor <= k
    ensures forall d :: d in Exec(s, list, schedule).value.delivered ==> d in s.delivered || d.position < k
    decreases |schedule|
  {
    if schedule != [] {
      assert schedule[0] in schedule;
      StaysTaken(s, list, k, q, schedule[0]);
      assert forall a :: a in schedule[1..] ==> a in schedule;
      ReusedPidStopsTheCall(Apply(s, list, schedule[0]).value, list, schedule[1..], k, q);
    }
  }

  lemma StaysTaken(s: State, list: seq<Instance>, k: nat, q: Instance, a: Action)
    requires Taken(s, list, k, q) && Apply(s, list, a).Some? && a != Exit(q.pid)
    ensures Taken(Apply(s, list, a).value, list, k, q)
    ensures forall d :: d in Apply(s, list, a).value.delivered ==> d in s.delivered || d.position < k
  {
  }

  /** It fails where it inspects, and after a failure nothing more happens to the call. */
  lemma InspectionFails(s: State, list: seq<Instance>, k: nat, q: Instance)
    requires Taken(s, list, k, q) && s.cursor == k && s.point.Inspecting?
    ensures Apply(s, list, Inspect) == Some(s.(point := Failed))
  {
  }

  lemma {:induction false} FailureIsFinal(s: State, list: seq<Instance>, schedule: seq<Action>)
    requires s.point.Failed? && Exec(s, list, schedule).Some?
    ensures var t := Exec(s, list, schedule).value;
            t.point.Failed? && t.cursor == s.cursor && t.delivered == s.delivered
    decreases |schedule|
  {
    if schedule != [] {
      FailureIsFinal(Apply(s, list, schedule[0]).value, list, schedule[1..]);
    }
  }

  /** A round that nothing disturbs signals a live listed process, and passes over one whose PID is free. */
  lemma UndisturbedRound(s: State, list: seq<Instance>)
    requires s.cursor < |list| && s.point.Opening? && list[s.cursor].pid != 0
    ensures Live(s, list[s.cursor]) ==>
              Exec(s, list, [Open, Inspect, Send])
              == Some(s.(cursor := s.cursor + 1, delivered := s.delivered + [Delivery(s.cursor, list[s.cursor])]))
    ensures list[s.cursor].pid !in s.live ==> Exec(s, list, [Open]) == Some(s.(cursor := s.cursor + 1))
  {
    var p := list[s.cursor];
    assert [Open, Inspect, Send][1..] == [Inspect, Send] && [Inspect, Send][1..] == [Send] && [Send][1..] == [];
    assert [Open][1..] == [];
    if Live(s, p) {
      var s1, s2 := s.(point := Inspecting(p)), s.(point := Sending(p));
      assert Apply(s, list, Open) == Some(s1) && Apply(s1, list, Inspect) == Some(s2);
      assert Apply(s2, list, Send) == Some(Next(s2).(delivered := s.delivered + [Delivery(s.cursor, p)]));
      assert Exec(s2, list, [Send]) == Apply(s2, list, Send);
      assert Exec(s1, list, [Inspect, Send]) == Exec(s2, list, [Send]);
    }
  }
}
