/** The ownership ledger of a supervised process tree, updated on each system snapshot (Linux). */
module Ledger {
  import opened Wrappers
  import opened ProcessTree

  datatype ObserveError = RootReused | RootChangedExecutable | Unattributed(id: nat)

  function FindId(snapshots: seq<Snapshot>, id: nat): (r: Option<Snapshot>)
    ensures r.Some? ==> r.value in snapshots && r.value.id == id
    ensures r.None? ==> id !in Ids(snapshots)
  {
    if snapshots == [] then None
    else if snapshots[0].id == id then Some(snapshots[0])
    else FindId(snapshots[1..], id)
  }

  function FindInstance(snapshots: seq<Snapshot>, expected: Snapshot): (r: Option<Snapshot>)
    ensures r.Some? ==> r.value in snapshots && SameInstance(expected, r.value)
    ensures r.None? ==> forall p :: p in snapshots ==> !SameInstance(expected, p)
  {
    if snapshots == [] then None
    else if SameInstance(expected, snapshots[0]) then Some(snapshots[0])
    else FindInstance(snapshots[1..], expected)
  }

  // ---- What one observation should do ------------------------------------------------------

  ghost predicate RootWasReused(root: Snapshot, snapshots: seq<Snapshot>) {
    exists p :: p in snapshots && p.id == root.id && p.started != root.started
  }

  ghost predicate RootExecuted(root: Snapshot, snapshots: seq<Snapshot>) {
    exists p :: p in snapshots && SameInstance(root, p) && p.executable != root.executable
  }

  ghost predicate Present(snapshots: seq<Snapshot>, k: Snapshot) {
    exists p :: p in snapshots && SameInstance(k, p)
  }

  /** The root's PID, live or not, and the ledger entries whose exact instance is still there. */
  ghost function Surviving(root: Snapshot, known: seq<Snapshot>, snapshots: seq<Snapshot>): set<nat> {
    {root.id} + set k | k in known && Present(snapshots, k) :: k.id
  }

  /** The PIDs that are owned: the survivors and everything below them. */
  ghost function Owned(root: Snapshot, known: seq<Snapshot>, snapshots: seq<Snapshot>): set<nat> {
    var seeds := Surviving(root, known, snapshots);
    seeds + Ids(Descendants(seeds, snapshots))
  }

  /** Ownership is the least set holding the survivors and every process whose parent it holds; the
      root's PID is a survivor whether or not the root is still running. */
  lemma OwnedIsLeast(root: Snapshot, known: seq<Snapshot>, snapshots: seq<Snapshot>)
    ensures IsLeast(Surviving(root, known, snapshots), snapshots, Owned(root, known, snapshots))
    ensures root.id in Owned(root, known, snapshots)
  {
    DescendantsAreLeast(Surviving(root, known, snapshots), snapshots);
  }

  /** A member of the managed group that neither the ledger nor lineage accounts for. */
  ghost predicate Foreign(group: Option<nat>, since: nat, owned: set<nat>, p: Snapshot) {
    group.Some? && p.group == group.value && p.started >= since && p.id !in owned
  }

  predicate InGroup(group: Option<nat>, since: nat, p: Snapshot) {
    group.Some? && p.started >= since && p.group == group.value
  }

  /** Ledger entries stand for the root or for processes of the last snapshot. */
  ghost predicate Current(root: Snapshot, known: seq<Snapshot>, snapshots: seq<Snapshot>) {
    forall k :: k in known ==> k.id == root.id || k in snapshots
  }

  /** The root's entry stays, and any other exactly while its instance is there. */
  ghost predicate Survives(root: Snapshot, snapshots: seq<Snapshot>, k: Snapshot) {
    k.id == root.id || Present(snapshots, k)
  }

  /** No PID has two surviving entries among the first `n`. */
  ghost predicate Singular(root: Snapshot, known: seq<Snapshot>, snapshots: seq<Snapshot>, n: nat) {
    forall i, j ::
      0 <= i < j < n && j < |known| && Survives(root, snapshots, known[i]) && Survives(root, snapshots, known[j]) ==>
        known[i].id != known[j].id
  }

  lemma UniqueMore(xs: seq<Snapshot>, x: Snapshot)
    ensures UniqueIds(xs + [x]) <==> UniqueIds(xs) && x.id !in Ids(xs)
  {
    var more := xs + [x];
    if UniqueIds(more) {
      forall i, j | 0 <= i < j < |xs| ensures xs[i].id != xs[j].id {
        assert more[i].id != more[j].id;
      }
      forall i | 0 <= i < |xs| ensures xs[i].id != x.id {
        assert more[i].id != more[|xs|].id;
      }
    }
  }

  lemma SingularMore(root: Snapshot, known: seq<Snapshot>, snapshots: seq<Snapshot>, n: nat)
    requires n < |known|
    ensures Singular(root, known, snapshots, n + 1) <==>
              Singular(root, known, snapshots, n)
              && (Survives(root, snapshots, known[n]) ==>
                    forall i :: 0 <= i < n && Survives(root, snapshots, known[i]) ==> known[i].id != known[n].id)
  {
  }

  lemma UniqueAreSingular(root: Snapshot, known: seq<Snapshot>, snapshots: seq<Snapshot>)
    requires UniqueIds(known)
    ensures Singular(root, known, snapshots, |known|)
  {
  }

  lemma NoneYet(root: Snapshot, known: seq<Snapshot>, snapshots: seq<Snapshot>)
    ensures UniqueIds([]) && Singular(root, known, snapshots, 0)
  {
  }

  method Refresh(root: Snapshot, current: Option<Snapshot>, known: seq<Snapshot>, snapshots: seq<Snapshot>)
    returns (refreshed: seq<Snapshot>)
    requires UniqueIds(snapshots) && exists k :: k in known && k.id == root.id
    requires current.Some? ==> current.value.id == root.id
    ensures Ids(refreshed) == Surviving(root, known, snapshots)
    ensures forall k :: k in refreshed ==>
              if k.id == root.id then (current.Some? ==> k == current.value) && (current.None? ==> k in known)
              else k in snapshots
    ensures current.None? ==> forall k :: k in known && k.id == root.id ==> k in refreshed
    ensures UniqueIds(refreshed) <==> Singular(root, known, snapshots, |known|)
  {
    hide UniqueIds, Singular;
    refreshed := [];
    NoneYet(root, known, snapshots);
    for i := 0 to |known|
      invariant UniqueIds(refreshed) <==> Singular(root, known, snapshots, i)
      invariant forall k :: k in refreshed ==>
                  if k.id == root.id then (current.Some? ==> k == current.value) && (current.None? ==> k in known)
                  else k in snapshots
      invariant current.None? ==> forall j :: 0 <= j < i && known[j].id == root.id ==> known[j] in refreshed
      invariant forall id :: id in Ids(refreshed) <==>
                  exists j :: 0 <= j < i && known[j].id == id && Survives(root, snapshots, known[j])
    {
      ghost var before := refreshed;
      SingularMore(root, known, snapshots, i);
      var expected := known[i];
      if expected.id == root.id {
        refreshed := refreshed + [if current.Some? then current.value else expected];
        IdsJoin(before, [if current.Some? then current.value else expected]);
        UniqueMore(before, if current.Some? then current.value else expected);
      } else {
        var found := FindInstance(snapshots, expected);
        if found.Some? {
          refreshed := refreshed + [found.value];
          IdsJoin(before, [found.value]);
          UniqueMore(before, found.value);
        }
      }
    }
  }

  method IdsOf(processes: seq<Snapshot>) returns (ids: seq<nat>)
    ensures Members(ids) == Ids(processes)
  {
    ids := [];
    for i := 0 to |processes|
      invariant |ids| == i && forall j :: 0 <= j < i ==> ids[j] == processes[j].id
    {
      ids := ids + [processes[i].id];
    }
    forall id ensures id in Members(ids) <==> id in Ids(processes) {
      if id in Members(ids) {
        var j :| 0 <= j < |ids| && ids[j] == id;
        assert processes[j] in processes;
      }
      if id in Ids(processes) {
        var j :| 0 <= j < |processes| && processes[j].id == id;
        assert ids[j] in ids;
      }
    }
  }

  /** The group members of the snapshot, and the first that is neither known nor permitted. */
  method FindForeign(group: Option<nat>, since: nat, known: seq<Snapshot>, permitted: seq<Snapshot>,
                     snapshots: seq<Snapshot>)
    returns (observed: seq<Snapshot>, foreign: Option<Snapshot>)
    ensures forall p :: p in observed <==> p in snapshots && InGroup(group, since, p)
    ensures foreign.Some? ==>
              foreign.value in observed && !Present(known, foreign.value) && !Present(permitted, foreign.value)
    ensures foreign.None? ==> forall p :: p in observed ==> Present(known, p) || Present(permitted, p)
  {
    observed, foreign := [], None;
    for i := 0 to |snapshots|
      invariant forall p :: p in observed <==> p in snapshots[..i] && InGroup(group, since, p)
      invariant foreign.Some? ==>
                  foreign.value in observed && !Present(known, foreign.value) && !Present(permitted, foreign.value)
      invariant foreign.None? ==> forall p :: p in observed ==> Present(known, p) || Present(permitted, p)
    {
      var p := snapshots[i];
      if InGroup(group, since, p) {
        observed := observed + [p];
        if foreign.None? && FindInstance(known, p).None? && FindInstance(permitted, p).None? {
          foreign := Some(p);
        }
      }
    }
    assert snapshots[..|snapshots|] == snapshots;
  }

  method Adopt(known: seq<Snapshot>, observed: seq<Snapshot>) returns (adopted: seq<Snapshot>)
    ensures Ids(adopted) == Ids(known) + Ids(observed)
    ensures forall p :: p in adopted ==> p in known || p in observed
    ensures forall p :: p in known ==> p in adopted
    ensures UniqueIds(adopted) <==> UniqueIds(known)
  {
    hide UniqueIds;
    adopted := known;
    for i := 0 to |observed|
      invariant UniqueIds(adopted) <==> UniqueIds(known)
      invariant Ids(adopted) == Ids(known) + Ids(observed[..i])
      invariant forall p :: p in adopted ==> p in known || p in observed
      invariant forall p :: p in known ==> p in adopted
    {
      assert observed[..i + 1] == observed[..i] + [observed[i]];
      IdsJoin(observed[..i], [observed[i]]);
      IdsJoin(adopted, [observed[i]]);
      UniqueMore(adopted, observed[i]);
      if FindId(adopted, observed[i].id).None? {
        adopted := adopted + [observed[i]];
      }
    }
    assert observed[..|observed|] == observed;
  }

  /** The snapshots of the ledger entries that are still there, in ledger order. */
  method Live(known: seq<Snapshot>, snapshots: seq<Snapshot>) returns (live: seq<Snapshot>)
    requires UniqueIds(snapshots)
    ensures forall p :: p in live <==> p in snapshots && exists k :: k in known && SameInstance(k, p)
    ensures UniqueIds(known) ==> UniqueIds(live)
  {
    live := [];
    for i := 0 to |known|
      invariant UniqueIds(known) ==> UniqueIds(live)
      invariant forall p :: p in live <==> p in snapshots && exists j :: 0 <= j < i && SameInstance(known[j], p)
    {
      var found := FindInstance(snapshots, known[i]);
      if found.Some? {
        UniqueMore(live, found.value);
        live := live + [found.value];
      }
    }
  }

  /** An entry list whose members, the absent root aside, are snapshots accounts for exactly the
      snapshots whose PIDs it lists. */
  lemma PresentById(root: Snapshot, snapshots: seq<Snapshot>, entries: seq<Snapshot>, p: Snapshot)
    requires UniqueIds(snapshots) && Current(root, entries, snapshots) && p in snapshots
    requires forall q :: q in snapshots && q.id == root.id ==> SameInstance(root, q)
    requires root.id in Ids(snapshots) ==> forall k :: k in entries && k.id == root.id ==> k in snapshots
    ensures (Present(entries, p) || exists k :: k in entries && SameInstance(k, p)) <==> p.id in Ids(entries)
    ensures Present(entries, p) <==> p.id in Ids(entries)
  {
    if p.id in Ids(entries) {
      var k :| k in entries && k.id == p.id;
      assert p.id in Ids(snapshots);
      SameId(snapshots, k, p);
    }
  }

  lemma OwnedIgnoresExecutable(root: Snapshot, root': Snapshot, known: seq<Snapshot>, snapshots: seq<Snapshot>)
    requires SameInstance(root, root') && exists k :: k in known && SameInstance(k, root)
    ensures Owned(root, known, snapshots) == Owned(root', known, snapshots)
    ensures Surviving(root, known, snapshots) == Surviving(root', known, snapshots) <= Ids(known)
    ensures Singular(root, known, snapshots, |known|) <==> Singular(root', known, snapshots, |known|)
  {
  }

  lemma NoneTwice()
    ensures UniqueIds([])
  {
  }

  lemma UniqueBefore(xs: seq<Snapshot>, i: nat, some: seq<Snapshot>)
    requires i < |xs| && forall p :: p in some ==> p in xs[..i]
    ensures UniqueIds(xs) ==> xs[i].id !in Ids(some)
  {
    if UniqueIds(xs) {
      forall p | p in some ensures p.id != xs[i].id {
        var j :| 0 <= j < i && xs[j] == p;
      }
    }
  }

  method Beyond(rootId: nat, live: seq<Snapshot>) returns (escaped: seq<Snapshot>)
    ensures forall p :: p in escaped <==> p in live && p.id != rootId && p.id !in Ids(Descendants({rootId}, live))
    ensures UniqueIds(live) ==> UniqueIds(escaped)
  {
    hide Descendants, UniqueIds;
    var descendants := DescendantSnapshots([rootId], live);
    assert Members([rootId]) == {rootId};
    escaped := [];
    NoneTwice();
    for i := 0 to |live|
      invariant forall p :: p in escaped <==> p in live[..i] && p.id != rootId && p.id !in Ids(descendants)
      invariant UniqueIds(live) ==> UniqueIds(escaped)
    {
      UniqueMore(escaped, live[i]);
      UniqueBefore(live, i, escaped);
      if live[i].id != rootId && FindId(descendants, live[i].id).None? {
        escaped := escaped + [live[i]];
      }
    }
    assert live[..|live|] == live;
  }

  /** Bringing the ledger up to date with a snapshot whose root has been checked. */
  method Account(root: Snapshot, current: Option<Snapshot>, known: seq<Snapshot>, snapshots: seq<Snapshot>,
                 group: Option<nat>, since: nat)
    returns (ledger: seq<Snapshot>, r: Result<seq<Snapshot>, ObserveError>)
    requires UniqueIds(snapshots) && exists k :: k in known && SameInstance(k, root)
    requires forall q :: q in snapshots && q.id == root.id ==> SameInstance(root, q)
    requires if current.Some? then current.value in snapshots && current.value.id == root.id
             else root.id !in Ids(snapshots)
    ensures exists k :: k in ledger && SameInstance(k, root)
    ensures Current(root, ledger, snapshots)
    ensures UniqueIds(ledger) <==> Singular(root, known, snapshots, |known|)
    ensures r.Ok? && UniqueIds(ledger) ==> UniqueIds(r.value)
    ensures r.Err? ==>
              && r.error.Unattributed? && Ids(ledger) == Surviving(root, known, snapshots)
              && exists p :: p in snapshots && p.id == r.error.id
                             && Foreign(group, since, Owned(root, known, snapshots), p)
    ensures r.Ok? ==>
              && Ids(ledger) == Owned(root, known, snapshots)
              && (forall p :: p in snapshots ==> !Foreign(group, since, Owned(root, known, snapshots), p))
              && (forall p :: p in r.value <==> p in snapshots && p.id in Owned(root, known, snapshots))
  {
    hide UniqueIds, Singular;
    ghost var owned := Owned(root, known, snapshots);
    var refreshed := Refresh(root, current, known, snapshots);
    assert exists k :: k in refreshed && SameInstance(k, root) by {
      if current.Some? {
        assert root.id in Ids(refreshed);
        assert current.value in refreshed;
      }
    }
    var knownIds := IdsOf(refreshed);
    var permitted := DescendantSnapshots(knownIds, snapshots);
    assert Ids(refreshed) + Ids(permitted) == owned;
    var observed, foreign := FindForeign(group, since, refreshed, permitted, snapshots);
    forall p | p in snapshots
      ensures Present(refreshed, p) || Present(permitted, p) <==> p.id in owned
    {
      PresentById(root, snapshots, refreshed, p);
      PresentById(root, snapshots, permitted, p);
    }
    hide Owned, Surviving;
    ledger := refreshed;
    if foreign.Some? {
      r := Err(Unattributed(foreign.value.id));
      return;
    }
    IdsJoin(observed, permitted);
    ledger := Adopt(refreshed, observed + permitted);
    assert Ids(ledger) == owned;
    forall p | p in snapshots ensures p.id in owned <==> exists k :: k in ledger && SameInstance(k, p) {
      PresentById(root, snapshots, ledger, p);
    }
    hide Ids;
    var live := Live(ledger, snapshots);
    r := Ok(live);
  }

  /** What the entry found for the root's PID says about the root. */
  lemma RootSeen(root: Snapshot, snapshots: seq<Snapshot>, current: Option<Snapshot>)
    requires UniqueIds(snapshots) && current == FindId(snapshots, root.id)
    ensures current.Some? ==>
              && (RootWasReused(root, snapshots) <==> !SameInstance(root, current.value))
              && (RootExecuted(root, snapshots) <==>
                    SameInstance(root, current.value) && current.value.executable != root.executable)
              && forall q :: q in snapshots && q.id == root.id ==> q == current.value
    ensures current.None? ==>
              && !RootWasReused(root, snapshots) && !RootExecuted(root, snapshots) && root.id !in Ids(snapshots)
              && forall q :: q in snapshots ==> q.id != root.id
  {
    forall q | current.Some? && q in snapshots && q.id == root.id ensures q == current.value {
      SameId(snapshots, q, current.value);
    }
  }

  function Failure(r: Result<seq<Snapshot>, ObserveError>): Option<ObserveError> {
    match r
    case Ok(_) => None
    case Err(error) => Some(error)
  }

  class ObservedProcessTree {
    var root: Snapshot
    var known: seq<Snapshot>
    const groupId: Option<nat>
    const groupStarted: nat
    const followsExec: bool

    /** The root instance always has its ledger entry. */
    ghost predicate Valid()
      reads this
    {
      exists k :: k in known && SameInstance(k, root)
    }

    constructor WithOwnedProcesses(root: Snapshot, groupId: Option<nat>, groupStarted: Option<nat>,
                                   known: seq<Snapshot>,
                                   followsExec: bool)
      ensures Valid() && this.root == root && this.groupId == groupId && this.followsExec == followsExec
      ensures this.groupStarted == if groupStarted.Some? then groupStarted.value else root.started
      ensures forall k :: k in this.known <==> k in known || (k == root && !Present(known, root))
      ensures UniqueIds(this.known) <==> UniqueIds(known) && (root.id in Ids(known) ==> Present(known, root))
    {
      this.root := root;
      this.known := if FindInstance(known, root).Some? then known else known + [root];
      this.groupId := groupId;
      this.groupStarted := if groupStarted.Some? then groupStarted.value else root.started;
      this.followsExec := followsExec;
      new;
      UniqueMore(known, root);
      if FindInstance(known, root).Some? {
        assert SameInstance(FindInstance(known, root).value, root);
      } else {
        assert root in this.known;
      }
    }

    /** When an observation fails, and the ledger and root it leaves. */
    twostate predicate Updated(snapshots: seq<Snapshot>, failure: Option<ObserveError>)
      reads this
    {
      && SameInstance(root, old(root))
      && (failure == Some(RootReused) <==> RootWasReused(old(root), snapshots))
      && (failure == Some(RootChangedExecutable) <==>
            !RootWasReused(old(root), snapshots) && RootExecuted(old(root), snapshots) && !followsExec)
      && (failure == Some(RootReused) || failure == Some(RootChangedExecutable) ==>
            known == old(known) && root == old(root))
      && (UniqueIds(known) <==>
            if failure == Some(RootReused) || failure == Some(RootChangedExecutable) then UniqueIds(old(known))
            else Singular(old(root), old(known), snapshots, |old(known)|))
      && (failure.Some? && failure.value.Unattributed? ==>
            && (exists p :: p in snapshots && p.id == failure.value.id
                            && Foreign(groupId, groupStarted, Owned(old(root), old(known), snapshots), p))
            && Ids(known) == Surviving(old(root), old(known), snapshots) <= Ids(old(known))
            && Current(root, known, snapshots))
      && (failure.None? ==>
            && (forall p :: p in snapshots ==>
                  !Foreign(groupId, groupStarted, Owned(old(root), old(known), snapshots), p))
            && Ids(known) == Owned(old(root), old(known), snapshots)
            && Current(root, known, snapshots))
    }

    /** One observation. It fails when the root's PID was reused, when a fixed root changed its
        executable, or when the group holds a foreign member; otherwise it returns exactly the
        owned processes of the snapshot and the ledger becomes exactly the owned PIDs. */
    method Observe(snapshots: seq<Snapshot>) returns (r: Result<seq<Snapshot>, ObserveError>)
      requires Valid() && UniqueIds(snapshots)
      modifies this
      ensures Valid() && Updated(snapshots, Failure(r))
      ensures r.Ok? ==> forall p :: p in r.value <==> p in snapshots && p.id in Owned(old(root), old(known), snapshots)
      ensures UniqueIds(old(known)) ==> UniqueIds(known)
      ensures r.Ok? && UniqueIds(known) ==> UniqueIds(r.value)
      ensures Stepped(old(root), old(known), snapshots, known, r.Ok?)
    {
      hide UniqueIds, Singular, Foreign, Owned, Surviving, Ids, Descendants, RootWasReused, RootExecuted;
      var current := FindId(snapshots, root.id);
      RootSeen(root, snapshots, current);
      if current.Some? {
        if !SameInstance(root, current.value) {
          return Err(RootReused);
        }
        if current.value.executable != root.executable {
          if !followsExec {
            return Err(RootChangedExecutable);
          }
          root := root.(executable := current.value.executable);
        }
      }
      OwnedIgnoresExecutable(old(root), root, known, snapshots);
      if UniqueIds(known) { UniqueAreSingular(old(root), known, snapshots); }
      known, r := Account(root, current, known, snapshots, groupId, groupStarted);
    }

    /** Owned processes that no line of parent links joins to the root any more. */
    method Escaped(snapshots: seq<Snapshot>) returns (r: Result<seq<Snapshot>, ObserveError>)
      requires Valid() && UniqueIds(snapshots)
      modifies this
      ensures Valid() && Updated(snapshots, Failure(r))
      ensures r.Ok? ==>
                forall p :: p in r.value <==> p in snapshots && p.id in Owned(old(root), old(known), snapshots)
                                              && p.id != root.id && !Descends({root.id}, snapshots, p)
      ensures UniqueIds(old(known)) ==> UniqueIds(known)
      ensures r.Ok? && UniqueIds(known) ==> UniqueIds(r.value)
    {
      ghost var owned := Owned(root, known, snapshots);
      var observed := Observe(snapshots);
      if observed.Err? {
        return observed;
      }
      var live := observed.value;
      OwnedIsLeast(old(root), old(known), snapshots);
      var escaped := Beyond(root.id, live);
      hide Owned, Foreign, RootWasReused, RootExecuted, Surviving, Current, Present;
      forall p | p in live
        ensures p.id in Ids(Descendants({root.id}, live)) <==> p.id != root.id && Descends({root.id}, snapshots, p)
      {
        LineageWithin(root.id, snapshots, live, owned, p);
      }
      r := Ok(escaped);
    }
  }

  /** Below the root, looking only at owned processes finds what looking at all of them finds. */
  lemma LineageWithin(rootId: nat, snapshots: seq<Snapshot>, live: seq<Snapshot>, owned: set<nat>, p: Snapshot)
    requires UniqueIds(snapshots) && rootId in owned && Closed({}, snapshots, owned) && p in snapshots
    requires forall q :: q in live <==> q in snapshots && q.id in owned
    ensures p.id in Ids(Descendants({rootId}, live)) <==> p.id != rootId && Descends({rootId}, snapshots, p)
  {
    var within := {rootId} + Ids(Descendants({rootId}, live));
    var all := {rootId} + Ids(Descendants({rootId}, snapshots));
    DescendantsAreLeast({rootId}, live);
    DescendantsAreLeast({rootId}, snapshots);
    DescendantsAreLineage({rootId}, snapshots, p);
    assert rootId !in Ids(Descendants({rootId}, live)) && rootId !in Ids(Descendants({rootId}, snapshots));
    hide Descendants;
    assert Closed({rootId}, live, owned);
    assert Closed({rootId}, snapshots, within);
    assert Closed({rootId}, live, all);
    if p.id in Ids(Descendants({rootId}, snapshots)) {
      var q :| q in Descendants({rootId}, snapshots) && q.id == p.id;
      DescendantsAreLineage({rootId}, snapshots, q);
      SameId(snapshots, p, q);
    }
  }

  // ---- Over many observations --------------------------------------------------------------

  /** What an observation does to the ledger: a success makes it the owned PIDs; an unattributed group
      member leaves the survivors; a reused or replaced root leaves it as it was. */
  ghost predicate Stepped(root: Snapshot, known: seq<Snapshot>, snapshots: seq<Snapshot>, known': seq<Snapshot>,
                          ok: bool) {
    && UniqueIds(snapshots)
    && ((!ok && known' == known)
        || (Current(root, known', snapshots)
            && Ids(known') == if ok then Owned(root, known, snapshots) else Surviving(root, known, snapshots)))
  }

  ghost predicate Run(root: Snapshot, ledgers: seq<seq<Snapshot>>, history: seq<seq<Snapshot>>, oks: seq<bool>) {
    && |ledgers| == |history| + 1 && |oks| == |history|
    && forall i :: 0 <= i < |history| ==> Stepped(root, ledgers[i], history[i], ledgers[i + 1], oks[i])
  }

  /** The ledger stands for this instance, or it is the root's PID, which is always owned. */
  ghost predicate Entered(root: Snapshot, known: seq<Snapshot>, p: Snapshot) {
    p.id == root.id || exists k :: k in known && SameInstance(k, p)
  }

  /** An owned process that every later snapshot still shows stays owned, whatever becomes of its
      parents or of the root, and whichever observations in between fail. */
  lemma {:induction false} StaysOwned(root: Snapshot, ledgers: seq<seq<Snapshot>>, history: seq<seq<Snapshot>>,
                                      oks: seq<bool>, p: Snapshot, n: nat)
    requires Run(root, ledgers, history, oks) && n < |history|
    requires p in history[0] && p.id in Owned(root, ledgers[0], history[0]) && oks[0]
    requires forall i :: 0 <= i <= n ==> Present(history[i], p)
    ensures exists q :: q in history[n] && SameInstance(p, q) && q.id in Owned(root, ledgers[n], history[n])
    ensures Entered(root, ledgers[n + 1], p)
  {
    assert Stepped(root, ledgers[n], history[n], ledgers[n + 1], oks[n]);
    assert Present(history[n], p);
    hide Owned, Surviving, Ids;
    if n == 0 {
      BecomesEntered(root, ledgers[0], history[0], ledgers[1], p);
    } else {
      StaysOwned(root, ledgers, history, oks, p, n - 1);
      StaysEntered(root, ledgers[n], history[n], ledgers[n + 1], oks[n], p);
    }
  }

  lemma BecomesEntered(root: Snapshot, known: seq<Snapshot>, snapshots: seq<Snapshot>, known': seq<Snapshot>,
                       p: Snapshot)
    requires Stepped(root, known, snapshots, known', true) && p in snapshots && p.id in Owned(root, known, snapshots)
    ensures Entered(root, known', p)
  {
    var k :| k in known' && k.id == p.id;
    if k.id != root.id {
      SameId(snapshots, k, p);
    }
  }

  lemma StaysEntered(root: Snapshot, known: seq<Snapshot>, snapshots: seq<Snapshot>, known': seq<Snapshot>, ok: bool,
                     p: Snapshot)
    requires Stepped(root, known, snapshots, known', ok) && Entered(root, known, p) && Present(snapshots, p)
    ensures Entered(root, known', p)
    ensures exists q :: q in snapshots && SameInstance(p, q) && q.id in Owned(root, known, snapshots)
  {
    var q :| q in snapshots && SameInstance(p, q);
    assert p.id in Surviving(root, known, snapshots) by {
      if p.id != root.id {
        var k :| k in known && SameInstance(k, p);
        assert Present(snapshots, k);
      }
    }
    assert q.id in Owned(root, known, snapshots);
    hide Owned, Surviving;
    if known' != known && p.id != root.id {
      var k :| k in known' && k.id == p.id;
      SameId(snapshots, k, q);
    }
  }

  /** A process whose exact instance the ledger does not hold becomes owned only through a current
      line of parent links to a survivor: a reused PID inherits nothing. */
  lemma ReadoptedByLineage(root: Snapshot, known: seq<Snapshot>, snapshots: seq<Snapshot>, p: Snapshot)
    requires UniqueIds(snapshots) && p in snapshots && p.id != root.id
    requires forall k :: k in known ==> !SameInstance(k, p)
    ensures p.id in Owned(root, known, snapshots) <==> Descends(Surviving(root, known, snapshots), snapshots, p)
  {
    var seeds := Surviving(root, known, snapshots);
    assert p.id !in seeds by {
      if k :| k in known && Present(snapshots, k) && k.id == p.id {
        var q :| q in snapshots && SameInstance(k, q);
        SameId(snapshots, p, q);
      }
    }
    DescendantsAreLineage(seeds, snapshots, p);
    hide Surviving;
    if p.id in Owned(root, known, snapshots) {
      var q :| q in Descendants(seeds, snapshots) && q.id == p.id;
      SameId(snapshots, p, q);
    }
  }
}
