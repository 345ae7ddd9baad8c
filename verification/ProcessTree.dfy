/** Descendant discovery over one system snapshot, and the Desktop tree built on it. */
module ProcessTree {
  datatype Snapshot = Snapshot(id: nat, parent: nat, group: nat, executable: string, started: nat)

  /** PID plus start time is the process instance; the executable may change by exec. */
  predicate SameInstance(p: Snapshot, q: Snapshot) {
    p.id == q.id && p.started == q.started
  }

  ghost predicate UniqueIds(snapshots: seq<Snapshot>) {
    forall i, j :: 0 <= i < j < |snapshots| ==> snapshots[i].id != snapshots[j].id
  }

  function Ids(snapshots: seq<Snapshot>): set<nat> {
    set p | p in snapshots :: p.id
  }

  // ---- What descendant discovery is for ----------------------------------------------------

  /** A set of PIDs that holds the roots and every process whose parent it holds. */
  ghost predicate Closed(roots: set<nat>, snapshots: seq<Snapshot>, ids: set<nat>) {
    roots <= ids && forall p :: p in snapshots && p.parent in ids ==> p.id in ids
  }

  ghost predicate IsLeast(roots: set<nat>, snapshots: seq<Snapshot>, ids: set<nat>) {
    Closed(roots, snapshots, ids) && forall other :: Closed(roots, snapshots, other) ==> ids <= other
  }

  /** A line of parent links that starts at a child of a root. */
  ghost predicate Lineage(roots: set<nat>, snapshots: seq<Snapshot>, line: seq<Snapshot>) {
    && line != []
    && (forall p :: p in line ==> p in snapshots)
    && line[0].parent in roots
    && forall i :: 0 < i < |line| ==> line[i].parent == line[i - 1].id
  }

  ghost predicate Descends(roots: set<nat>, snapshots: seq<Snapshot>, p: Snapshot) {
    exists line :: Lineage(roots, snapshots, line) && line[|line| - 1] == p
  }

  // ---- The order in which both loops find them ---------------------------------------------

  /** One pass over the snapshot, adopting on the fly. */
  function Sweep(owned: set<nat>, snapshots: seq<Snapshot>): (found: seq<Snapshot>)
    ensures forall p :: p in found ==> p in snapshots && p.id !in owned
    decreases |snapshots|
  {
    if snapshots == [] then []
    else
      var p := snapshots[0];
      if p.id !in owned && p.parent in owned then [p] + Sweep(owned + {p.id}, snapshots[1..])
      else Sweep(owned, snapshots[1..])
  }

  /** Passes repeated until one of them finds nothing. */
  function Descendants(owned: set<nat>, snapshots: seq<Snapshot>): (found: seq<Snapshot>)
    ensures forall p :: p in found ==> p in snapshots && p.id !in owned
    decreases |Ids(snapshots) - owned|
  {
    var pass := Sweep(owned, snapshots);
    if pass == [] then []
    else
      assert pass[0] in snapshots && pass[0].id in Ids(snapshots) - owned;
      Shrinks(owned, snapshots, pass[0].id);
      pass + Descendants(owned + Ids(pass), snapshots)
  }

  lemma Shrinks(owned: set<nat>, snapshots: seq<Snapshot>, id: nat)
    requires id in Ids(snapshots) - owned
    ensures forall pass :: id in pass ==> |Ids(snapshots) - (owned + pass)| < |Ids(snapshots) - owned|
  {
    forall pass | id in pass
      ensures |Ids(snapshots) - (owned + pass)| < |Ids(snapshots) - owned|
    {
      SmallerCard(Ids(snapshots) - (owned + pass), Ids(snapshots) - owned, id);
    }
  }

  lemma SmallerCard(a: set<nat>, b: set<nat>, x: nat)
    requires a <= b && x in b && x !in a
    ensures |a| < |b|
  {
    assert b == a + (b - a);
    assert x in b - a;
  }

  lemma {:induction false} SweepSound(owned: set<nat>, snapshots: seq<Snapshot>, all: seq<Snapshot>, ids: set<nat>)
    requires owned <= ids && Closed({}, all, ids) && (forall p :: p in snapshots ==> p in all)
    ensures Ids(Sweep(owned, snapshots)) <= ids
    decreases |snapshots|
  {
    if snapshots != [] {
      var p := snapshots[0];
      if p.id !in owned && p.parent in owned {
        SweepSound(owned + {p.id}, snapshots[1..], all, ids);
      } else {
        SweepSound(owned, snapshots[1..], all, ids);
      }
    }
  }

  /** A pass that finds nothing has nothing left to find. */
  lemma {:induction false} EmptySweepCloses(owned: set<nat>, snapshots: seq<Snapshot>)
    requires Sweep(owned, snapshots) == []
    ensures Closed(owned, snapshots, owned)
    decreases |snapshots|
  {
    if snapshots != [] {
      EmptySweepCloses(owned, snapshots[1..]);
    }
  }

  lemma IdsJoin(a: seq<Snapshot>, b: seq<Snapshot>)
    ensures Ids(a + b) == Ids(a) + Ids(b)
  {
    forall id | id in Ids(a) + Ids(b) ensures id in Ids(a + b) {
      if id in Ids(a) {
        var p :| p in a && p.id == id;
        assert p in a + b;
      } else {
        var p :| p in b && p.id == id;
        assert p in a + b;
      }
    }
  }

  /** One more pass: nothing found ends the search, anything found shrinks what is left. */
  lemma NextPass(owned: set<nat>, snapshots: seq<Snapshot>)
    ensures var pass := Sweep(owned, snapshots);
            if pass == [] then Descendants(owned, snapshots) == []
            else Descendants(owned, snapshots) == pass + Descendants(owned + Ids(pass), snapshots)
                 && Ids(Descendants(owned, snapshots)) == Ids(pass) + Ids(Descendants(owned + Ids(pass), snapshots))
                 && |Ids(snapshots) - (owned + Ids(pass))| < |Ids(snapshots) - owned|
  {
    var pass := Sweep(owned, snapshots);
    if pass != [] {
      assert pass[0] in snapshots && pass[0].id in Ids(snapshots) - owned;
      Shrinks(owned, snapshots, pass[0].id);
      IdsJoin(pass, Descendants(owned + Ids(pass), snapshots));
    }
  }

  lemma {:induction false} DescendantsClose(owned: set<nat>, snapshots: seq<Snapshot>)
    ensures Closed(owned, snapshots, owned + Ids(Descendants(owned, snapshots)))
    decreases |Ids(snapshots) - owned|
  {
    var pass := Sweep(owned, snapshots);
    NextPass(owned, snapshots);
    hide Descendants, Sweep;
    if pass == [] {
      EmptySweepCloses(owned, snapshots);
      assert owned + Ids([]) == owned;
    } else {
      hide Ids;
      DescendantsClose(owned + Ids(pass), snapshots);
      assert owned + (Ids(pass) + Ids(Descendants(owned + Ids(pass), snapshots)))
             == owned + Ids(pass) + Ids(Descendants(owned + Ids(pass), snapshots));
    }
  }

  lemma {:induction false} DescendantsSound(owned: set<nat>, snapshots: seq<Snapshot>, ids: set<nat>)
    requires Closed(owned, snapshots, ids)
    ensures Ids(Descendants(owned, snapshots)) <= ids
    decreases |Ids(snapshots) - owned|
  {
    var pass := Sweep(owned, snapshots);
    NextPass(owned, snapshots);
    hide Descendants;
    if pass != [] {
      SweepSound(owned, snapshots, snapshots, ids);
      DescendantsSound(owned + Ids(pass), snapshots, ids);
    }
  }

  /** Cyclic parent links or not, unique PIDs or not: the roots and the PIDs found are the least
      set closed under "is a child of". */
  lemma DescendantsAreLeast(roots: set<nat>, snapshots: seq<Snapshot>)
    ensures IsLeast(roots, snapshots, roots + Ids(Descendants(roots, snapshots)))
  {
    DescendantsClose(roots, snapshots);
    forall other | Closed(roots, snapshots, other)
      ensures roots + Ids(Descendants(roots, snapshots)) <= other
    {
      DescendantsSound(roots, snapshots, other);
    }
  }

  lemma {:induction false} SweepOnce(owned: set<nat>, snapshots: seq<Snapshot>)
    ensures UniqueIds(Sweep(owned, snapshots))
    decreases |snapshots|
  {
    if snapshots != [] {
      var p := snapshots[0];
      if p.id !in owned && p.parent in owned {
        SweepOnce(owned + {p.id}, snapshots[1..]);
      } else {
        SweepOnce(owned, snapshots[1..]);
      }
    }
  }

  lemma {:induction false} DescendantsOnce(owned: set<nat>, snapshots: seq<Snapshot>)
    ensures UniqueIds(Descendants(owned, snapshots))
    decreases |Ids(snapshots) - owned|
  {
    var pass := Sweep(owned, snapshots);
    NextPass(owned, snapshots);
    hide Descendants;
    if pass != [] {
      SweepOnce(owned, snapshots);
      DescendantsOnce(owned + Ids(pass), snapshots);
      var rest := Descendants(owned + Ids(pass), snapshots);
      forall i, j | 0 <= i < j < |pass + rest| ensures (pass + rest)[i].id != (pass + rest)[j].id {
        if i < |pass| <= j {
          assert pass[i].id in Ids(pass);
          assert rest[j - |pass|] in rest;
        }
      }
    }
  }

  lemma SameId(snapshots: seq<Snapshot>, p: Snapshot, q: Snapshot)
    requires UniqueIds(snapshots) && p in snapshots && q in snapshots && p.id == q.id
    ensures p == q
  {
  }

  lemma {:induction false} LineOwned(roots: set<nat>, snapshots: seq<Snapshot>, line: seq<Snapshot>, ids: set<nat>)
    requires Lineage(roots, snapshots, line) && Closed(roots, snapshots, ids)
    ensures line[|line| - 1].id in ids
    decreases |line|
  {
    var n := |line| - 1;
    assert line[n] in snapshots;
    if n > 0 {
      LineOwned(roots, snapshots, line[..n], ids);
    }
  }

  lemma DescendsFromOwned(roots: set<nat>, snapshots: seq<Snapshot>, p: Snapshot, q: Snapshot)
    requires p in snapshots && q in snapshots && q.parent == p.id && Descends(roots, snapshots, p)
    ensures Descends(roots, snapshots, q)
  {
    var line :| Lineage(roots, snapshots, line) && line[|line| - 1] == p;
    assert Lineage(roots, snapshots, line + [q]);
    assert (line + [q])[|line + [q]| - 1] == q;
  }

  lemma DescendsFromRoot(roots: set<nat>, snapshots: seq<Snapshot>, q: Snapshot)
    requires q in snapshots && q.parent in roots
    ensures Descends(roots, snapshots, q)
  {
    assert Lineage(roots, snapshots, [q]) && [q][|[q]| - 1] == q;
  }

  /** With unique PIDs the processes found are exactly the non-root ones that a line of parent links
      joins to a root, each found once. */
  lemma DescendantsAreLineage(roots: set<nat>, snapshots: seq<Snapshot>, p: Snapshot)
    requires UniqueIds(snapshots)
    ensures p in Descendants(roots, snapshots)
            <==> p in snapshots && p.id !in roots && Descends(roots, snapshots, p)
    ensures UniqueIds(Descendants(roots, snapshots))
  {
    var found := Descendants(roots, snapshots);
    DescendantsOnce(roots, snapshots);
    DescendantsAreLeast(roots, snapshots);
    var lined := roots + set q | q in snapshots && Descends(roots, snapshots, q) :: q.id;
    forall q | q in snapshots && q.parent in lined ensures q.id in lined {
      if q.parent in roots {
        DescendsFromRoot(roots, snapshots, q);
      } else {
        var r :| r in snapshots && Descends(roots, snapshots, r) && r.id == q.parent;
        DescendsFromOwned(roots, snapshots, r, q);
      }
    }
    assert Closed(roots, snapshots, lined);
    if p in found {
      assert p.id in lined;
      var r :| r in snapshots && Descends(roots, snapshots, r) && r.id == p.id;
      SameId(snapshots, p, r);
    }
    if p in snapshots && p.id !in roots && Descends(roots, snapshots, p) {
      var line :| Lineage(roots, snapshots, line) && line[|line| - 1] == p;
      LineOwned(roots, snapshots, line, roots + Ids(found));
      var r :| r in found && r.id == p.id;
      SameId(snapshots, p, r);
    }
  }

  // ---- The two loops -----------------------------------------------------------------------

  lemma {:induction false} SweepJoin(owned: set<nat>, a: seq<Snapshot>, b: seq<Snapshot>)
    ensures Sweep(owned, a + b) == Sweep(owned, a) + Sweep(owned + Ids(Sweep(owned, a)), b)
    decreases |a|
  {
    if a == [] {
      assert a + b == b && owned + Ids([]) == owned;
    } else {
      var p := a[0];
      assert (a + b)[1..] == a[1..] + b;
      var next := if p.id !in owned && p.parent in owned then owned + {p.id} else owned;
      SweepJoin(next, a[1..], b);
      var more := Sweep(next, a[1..]);
      IdsJoin([p], more);
      assert owned + Ids(Sweep(owned, a)) == next + Ids(more);
    }
  }

  /** Looking at one more snapshot adopts it or not. */
  lemma SweepExtends(owned: set<nat>, snapshots: seq<Snapshot>, k: nat, now: set<nat>)
    requires k < |snapshots| && now == owned + Ids(Sweep(owned, snapshots[..k]))
    ensures var p := snapshots[k];
            var more := Sweep(owned, snapshots[..k + 1]);
            if p.id !in now && p.parent in now then
              more == Sweep(owned, snapshots[..k]) + [p] && owned + Ids(more) == now + {p.id}
            else more == Sweep(owned, snapshots[..k])
  {
    var p := snapshots[k];
    assert snapshots[..k + 1] == snapshots[..k] + [p];
    SweepJoin(owned, snapshots[..k], [p]);
    assert [p][1..] == [];
    IdsJoin(Sweep(owned, snapshots[..k]), [p]);
  }

  function Members(xs: seq<nat>): set<nat> {
    set x | x in xs
  }

  /** One pass of the Launcher's loop, over two vectors. */
  method AdoptOnce(roots: seq<nat>, found: seq<Snapshot>, snapshots: seq<Snapshot>)
    returns (ownedIds: seq<nat>, descendants: seq<Snapshot>, changed: bool)
    ensures descendants == found + Sweep(Members(roots), snapshots)
    ensures Members(ownedIds) == Members(roots) + Ids(Sweep(Members(roots), snapshots))
    ensures changed <==> Sweep(Members(roots), snapshots) != []
  {
    ownedIds, descendants, changed := roots, found, false;
    ghost var owned := Members(roots);
    for k := 0 to |snapshots|
      invariant descendants == found + Sweep(owned, snapshots[..k])
      invariant Members(ownedIds) == owned + Ids(Sweep(owned, snapshots[..k]))
      invariant changed <==> Sweep(owned, snapshots[..k]) != []
    {
      SweepExtends(owned, snapshots, k, Members(ownedIds));
      hide Sweep;
      if snapshots[k].id !in ownedIds && snapshots[k].parent in ownedIds {
        assert Members(ownedIds + [snapshots[k].id]) == Members(ownedIds) + {snapshots[k].id};
        ownedIds := ownedIds + [snapshots[k].id];
        descendants := descendants + [snapshots[k]];
        changed := true;
      }
    }
    assert snapshots[..|snapshots|] == snapshots;
  }

  /** The Launcher's `descendant_snapshots`: passes until one changes nothing. */
  method DescendantSnapshots(roots: seq<nat>, snapshots: seq<Snapshot>) returns (descendants: seq<Snapshot>)
    ensures descendants == Descendants(Members(roots), snapshots)
  {
    hide *;
    var ownedIds := roots;
    descendants := [];
    while true
      invariant descendants + Descendants(Members(ownedIds), snapshots) == Descendants(Members(roots), snapshots)
      decreases |Ids(snapshots) - Members(ownedIds)|
    {
      ghost var owned := Members(ownedIds);
      NextPass(owned, snapshots);
      ghost var pass, rest := Sweep(owned, snapshots), Descendants(owned + Ids(Sweep(owned, snapshots)), snapshots);
      assert descendants + (pass + rest) == descendants + pass + rest;
      var changed;
      ownedIds, descendants, changed := AdoptOnce(ownedIds, descendants, snapshots);
      if !changed {
        return;
      }
    }
  }

  /** The remote listener's loop, over a vector and a hash set that both start with the root. */
  method ListenerDescendants(root: Snapshot, snapshots: seq<Snapshot>) returns (selected: seq<Snapshot>)
    ensures selected == [root] + Descendants({root.id}, snapshots)
  {
    hide *;
    selected := [root];
    var selectedIds := {root.id};
    while true
      invariant selected + Descendants(selectedIds, snapshots) == [root] + Descendants({root.id}, snapshots)
      decreases |Ids(snapshots) - selectedIds|
    {
      NextPass(selectedIds, snapshots);
      ghost var pass := Sweep(selectedIds, snapshots);
      ghost var rest := Descendants(selectedIds + Ids(pass), snapshots);
      assert selected + (pass + rest) == selected + pass + rest;
      var changed;
      selectedIds, selected, changed := SelectOnce(selectedIds, selected, snapshots);
      if !changed {
        break;
      }
    }
  }

  method SelectOnce(ids: set<nat>, found: seq<Snapshot>, snapshots: seq<Snapshot>)
    returns (selectedIds: set<nat>, selected: seq<Snapshot>, changed: bool)
    ensures selected == found + Sweep(ids, snapshots) && selectedIds == ids + Ids(Sweep(ids, snapshots))
    ensures changed <==> Sweep(ids, snapshots) != []
  {
    selectedIds, selected, changed := ids, found, false;
    for k := 0 to |snapshots|
      invariant selected == found + Sweep(ids, snapshots[..k])
      invariant selectedIds == ids + Ids(Sweep(ids, snapshots[..k]))
      invariant changed <==> Sweep(ids, snapshots[..k]) != []
    {
      SweepExtends(ids, snapshots, k, selectedIds);
      hide Sweep;
      if snapshots[k].id !in selectedIds && snapshots[k].parent in selectedIds {
        selectedIds := selectedIds + {snapshots[k].id};
        selected := selected + [snapshots[k]];
        changed := true;
      }
    }
    assert snapshots[..|snapshots|] == snapshots;
  }
}
