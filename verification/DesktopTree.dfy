/** Which processes of a snapshot belong to the Desktop application, and which of them are topmost. */
module DesktopTree {
  import opened ProcessTree
  import Sorting

  function MatchingIds(executable: string, snapshots: seq<Snapshot>): set<nat> {
    set p | p in snapshots && p.executable == executable :: p.id
  }

  /** Matching processes whose parent does not match. */
  function Roots(executable: string, snapshots: seq<Snapshot>): seq<Snapshot> {
    var matching := MatchingIds(executable, snapshots);
    Sorting.Filter(snapshots, (p: Snapshot) => p.executable == executable && p.parent !in matching)
  }

  predicate ById(p: Snapshot, q: Snapshot) {
    p.id <= q.id
  }

  function Tree(executable: string, snapshots: seq<Snapshot>): seq<Snapshot> {
    var roots := Roots(executable, snapshots);
    Sorting.StableSort(roots + Descendants(Ids(roots), snapshots), ById)
  }

  function RootSnapshots(executable: string, snapshots: seq<Snapshot>): seq<Snapshot> {
    var tree := Tree(executable, snapshots);
    var ids := Ids(tree);
    Sorting.Filter(tree, (p: Snapshot) => p.executable == executable && p.parent !in ids)
  }

  // ---- What they should be -----------------------------------------------------------------

  /** Consecutive parent links, oldest first. */
  ghost predicate Chain(snapshots: seq<Snapshot>, line: seq<Snapshot>) {
    && line != []
    && (forall p :: p in line ==> p in snapshots)
    && forall i :: 0 < i < |line| ==> line[i].parent == line[i - 1].id
  }

  /** `a` is `p` or reaches it through parent links. */
  ghost predicate AncestorOrSelf(snapshots: seq<Snapshot>, a: Snapshot, p: Snapshot) {
    exists line :: Chain(snapshots, line) && line[0] == a && line[|line| - 1] == p
  }

  ghost predicate ProperAncestor(snapshots: seq<Snapshot>, a: Snapshot, p: Snapshot) {
    exists line :: Chain(snapshots, line) && |line| > 1 && line[0] == a && line[|line| - 1] == p
  }

  ghost predicate Belongs(executable: string, snapshots: seq<Snapshot>, p: Snapshot) {
    exists a :: a in snapshots && a.executable == executable && AncestorOrSelf(snapshots, a, p)
  }

  ghost predicate AllMatch(executable: string, line: seq<Snapshot>) {
    forall p :: p in line ==> p.executable == executable
  }

  /** Parent links that run in a circle through matching processes only. */
  ghost predicate MatchingCycle(executable: string, snapshots: seq<Snapshot>, line: seq<Snapshot>) {
    Chain(snapshots, line) && AllMatch(executable, line) && line[0].parent == line[|line| - 1].id
  }

  ghost predicate OnCircle(executable: string, snapshots: seq<Snapshot>, c: Snapshot) {
    exists cycle :: MatchingCycle(executable, snapshots, cycle) && c in cycle
  }

  // ---- The lists and their members ---------------------------------------------------------

  lemma {:induction false} FilterMembers<T>(xs: seq<T>, keep: T -> bool, x: T)
    ensures x in Sorting.Filter(xs, keep) <==> x in xs && keep(x)
  {
    if xs != [] {
      FilterMembers(xs[1..], keep, x);
      assert xs == [xs[0]] + xs[1..];
    }
  }

  lemma SortMembers<T>(xs: seq<T>, le: (T, T) -> bool, x: T)
    ensures x in Sorting.StableSort(xs, le) <==> x in xs
  {
    Sorting.SortPermutes(xs, le);
    assert x in Sorting.StableSort(xs, le) <==> x in multiset(Sorting.StableSort(xs, le));
  }

  lemma RootMembers(executable: string, snapshots: seq<Snapshot>, p: Snapshot)
    ensures p in Roots(executable, snapshots)
            <==> p in snapshots && p.executable == executable && p.parent !in MatchingIds(executable, snapshots)
  {
    var matching := MatchingIds(executable, snapshots);
    FilterMembers(snapshots, (q: Snapshot) => q.executable == executable && q.parent !in matching, p);
  }

  lemma FoundUnderRoot(roots: seq<Snapshot>, snapshots: seq<Snapshot>, p: Snapshot) returns (a: Snapshot)
    requires UniqueIds(snapshots) && (forall r :: r in roots ==> r in snapshots)
    requires p in Descendants(Ids(roots), snapshots)
    ensures a in roots && AncestorOrSelf(snapshots, a, p)
  {
    DescendantsAreLineage(Ids(roots), snapshots, p);
    hide Descendants, UniqueIds;
    var line: seq<Snapshot> :| Lineage(Ids(roots), snapshots, line) && line[|line| - 1] == p;
    a :| a in roots && a.id == line[0].parent;
    hide Ids;
    PutAbove(Ids(roots), snapshots, a, line);
  }

  lemma PutAbove(roots: set<nat>, snapshots: seq<Snapshot>, a: Snapshot, line: seq<Snapshot>)
    requires a in snapshots && Lineage(roots, snapshots, line) && line[0].parent == a.id
    ensures AncestorOrSelf(snapshots, a, line[|line| - 1])
  {
    var whole := [a] + line;
    assert Chain(snapshots, whole) && whole[0] == a && whole[|whole| - 1] == line[|line| - 1];
  }

  lemma UnderRootFound(roots: seq<Snapshot>, snapshots: seq<Snapshot>, a: Snapshot, p: Snapshot)
    requires UniqueIds(snapshots) && (forall r :: r in roots ==> r in snapshots)
    requires a in roots && AncestorOrSelf(snapshots, a, p)
    ensures p in roots || p in Descendants(Ids(roots), snapshots)
  {
    var line: seq<Snapshot> :| Chain(snapshots, line) && line[0] == a && line[|line| - 1] == p;
    DescendantsAreLineage(Ids(roots), snapshots, p);
    hide Descendants;
    if p.id in Ids(roots) {
      var r: Snapshot :| r in roots && r.id == p.id;
      SameId(snapshots, p, r);
    } else if |line| > 1 {
      assert a.id in Ids(roots);
      hide Ids, UniqueIds;
      TakeBelow(Ids(roots), snapshots, line);
    }
  }

  lemma TakeBelow(roots: set<nat>, snapshots: seq<Snapshot>, line: seq<Snapshot>)
    requires Chain(snapshots, line) && |line| > 1 && line[0].id in roots
    ensures Descends(roots, snapshots, line[|line| - 1])
  {
    var below := line[1..];
    assert below[0].parent == line[0].id;
    assert Lineage(roots, snapshots, below) && below[|below| - 1] == line[|line| - 1];
  }

  lemma SelfAncestor(snapshots: seq<Snapshot>, p: Snapshot)
    requires p in snapshots
    ensures AncestorOrSelf(snapshots, p, p)
  {
    var line := [p];
    assert Chain(snapshots, line) && line[0] == p && line[|line| - 1] == p;
  }

  lemma TreeMembers(executable: string, snapshots: seq<Snapshot>, p: Snapshot)
    requires UniqueIds(snapshots)
    ensures p in Tree(executable, snapshots)
            <==> exists a :: a in Roots(executable, snapshots) && AncestorOrSelf(snapshots, a, p)
    ensures p in Tree(executable, snapshots) ==> p in snapshots
  {
    var roots := Roots(executable, snapshots);
    var found := Descendants(Ids(roots), snapshots);
    SortMembers(roots + found, ById, p);
    forall r | r in roots ensures r in snapshots {
      RootMembers(executable, snapshots, r);
    }
    hide Descendants, Roots, AncestorOrSelf;
    if p in roots {
      SelfAncestor(snapshots, p);
    } else if p in found {
      var a := FoundUnderRoot(roots, snapshots, p);
    }
    if a: Snapshot :| a in roots && AncestorOrSelf(snapshots, a, p) {
      UnderRootFound(roots, snapshots, a, p);
    }
  }

  // ---- Climbing to a topmost matching process ----------------------------------------------

  lemma ChainJoin(snapshots: seq<Snapshot>, up: seq<Snapshot>, down: seq<Snapshot>) returns (line: seq<Snapshot>)
    requires Chain(snapshots, up) && Chain(snapshots, down) && up[|up| - 1] == down[0]
    ensures Chain(snapshots, line) && line[0] == up[0] && line[|line| - 1] == down[|down| - 1]
    ensures |line| == |up| + |down| - 1
  {
    line := up + down[1..];
  }

  lemma ClosesCycle(executable: string, snapshots: seq<Snapshot>, line: seq<Snapshot>, id: nat)
    requires Chain(snapshots, line) && AllMatch(executable, line)
    requires id in Ids(line) && line[0].parent == id
    ensures OnCircle(executable, snapshots, line[0])
  {
    var k :| 0 <= k < |line| && line[k].id == id;
    assert MatchingCycle(executable, snapshots, line[..k + 1]) && line[0] in line[..k + 1];
  }

  lemma ClimbsOne(executable: string, snapshots: seq<Snapshot>, line: seq<Snapshot>, q: Snapshot)
    requires Chain(snapshots, line) && AllMatch(executable, line)
    requires q in snapshots && q.executable == executable && line[0].parent == q.id && q.id !in Ids(line)
    ensures Chain(snapshots, [q] + line) && AllMatch(executable, [q] + line)
    ensures |Ids(snapshots) - Ids([q] + line)| < |Ids(snapshots) - Ids(line)|
  {
    IdsJoin([q], line);
    assert q.id in Ids([q]);
    SmallerCard(Ids(snapshots) - Ids([q] + line), Ids(snapshots) - Ids(line), q.id);
  }

  lemma TopMatches(executable: string, snapshots: seq<Snapshot>, line: seq<Snapshot>)
    requires Chain(snapshots, line) && AllMatch(executable, line)
    ensures line[0] in snapshots && line[0].executable == executable
  {
  }

  lemma MatchingProcess(executable: string, snapshots: seq<Snapshot>, id: nat) returns (q: Snapshot)
    requires id in MatchingIds(executable, snapshots)
    ensures q in snapshots && q.executable == executable && q.id == id
  {
    q :| q in snapshots && q.executable == executable && q.id == id;
  }

  /** Climbing through matching parents ends at a root or on a circle. */
  lemma {:induction false} Climb(executable: string, snapshots: seq<Snapshot>, line: seq<Snapshot>)
    returns (whole: seq<Snapshot>)
    requires UniqueIds(snapshots) && Chain(snapshots, line) && AllMatch(executable, line)
    ensures Chain(snapshots, whole)
    ensures whole[0] in Roots(executable, snapshots) || OnCircle(executable, snapshots, whole[0])
    ensures whole[|whole| - 1] == line[|line| - 1]
    decreases |Ids(snapshots) - Ids(line)|
  {
    hide Roots, MatchingIds, OnCircle, AllMatch, Ids;
    whole := line;
    var top := line[0];
    TopMatches(executable, snapshots, line);
    RootMembers(executable, snapshots, top);
    if top.parent in MatchingIds(executable, snapshots) {
      var q := MatchingProcess(executable, snapshots, top.parent);
      if q.id in Ids(line) {
        ClosesCycle(executable, snapshots, line, q.id);
      } else {
        ClimbsOne(executable, snapshots, line, q);
        whole := Climb(executable, snapshots, [q] + line);
      }
    }
  }

  /** The parent of a process on a circle is on the circle. */
  lemma {:induction false} CycleHoldsAncestors(executable: string, snapshots: seq<Snapshot>, cycle: seq<Snapshot>,
                                               line: seq<Snapshot>)
    requires UniqueIds(snapshots) && MatchingCycle(executable, snapshots, cycle)
    requires Chain(snapshots, line) && line[|line| - 1] in cycle
    ensures line[0] in cycle && line[0].parent in MatchingIds(executable, snapshots)
    decreases |line|
  {
    var p := line[|line| - 1];
    var k :| 0 <= k < |cycle| && cycle[k] == p;
    var above := cycle[if k == 0 then |cycle| - 1 else k - 1];
    assert above in cycle && p.parent == above.id;
    if |line| > 1 {
      SameId(snapshots, line[|line| - 2], above);
      CycleHoldsAncestors(executable, snapshots, cycle, line[..|line| - 1]);
    }
  }

  lemma BelongsUnderRoot(executable: string, snapshots: seq<Snapshot>, p: Snapshot)
    requires UniqueIds(snapshots) && (forall c :: !MatchingCycle(executable, snapshots, c))
    requires Belongs(executable, snapshots, p)
    ensures p in Tree(executable, snapshots)
  {
    var a: Snapshot :| a in snapshots && a.executable == executable && AncestorOrSelf(snapshots, a, p);
    var down: seq<Snapshot> :| Chain(snapshots, down) && down[0] == a && down[|down| - 1] == p;
    var up := Climb(executable, snapshots, [a]);
    var line := ChainJoin(snapshots, up, down);
    assert AncestorOrSelf(snapshots, line[0], p);
    TreeMembers(executable, snapshots, p);
  }

  ghost predicate TreeExact(executable: string, snapshots: seq<Snapshot>) {
    forall p :: p in Tree(executable, snapshots) <==> Belongs(executable, snapshots, p)
  }

  lemma TreeBelongs(executable: string, snapshots: seq<Snapshot>, p: Snapshot)
    requires UniqueIds(snapshots) && p in Tree(executable, snapshots)
    ensures Belongs(executable, snapshots, p)
  {
    TreeMembers(executable, snapshots, p);
    var a: Snapshot :| a in Roots(executable, snapshots) && AncestorOrSelf(snapshots, a, p);
    RootMembers(executable, snapshots, a);
  }

  /** The Desktop tree is the matching processes and all their descendants exactly when no circle of
      parent links runs through matching processes alone. */
  lemma TreeExactWithoutCycles(executable: string, snapshots: seq<Snapshot>)
    requires UniqueIds(snapshots)
    ensures TreeExact(executable, snapshots) <==> forall c :: !MatchingCycle(executable, snapshots, c)
  {
    if c :| MatchingCycle(executable, snapshots, c) {
      var p := c[0];
      SelfAncestor(snapshots, p);
      assert Belongs(executable, snapshots, p);
      TreeMembers(executable, snapshots, p);
      if p in Tree(executable, snapshots) {
        var a: Snapshot :| a in Roots(executable, snapshots) && AncestorOrSelf(snapshots, a, p);
        var line: seq<Snapshot> :| Chain(snapshots, line) && line[0] == a && line[|line| - 1] == p;
        CycleHoldsAncestors(executable, snapshots, c, line);
        RootMembers(executable, snapshots, a);
      }
    } else {
      forall p ensures p in Tree(executable, snapshots) <==> Belongs(executable, snapshots, p) {
        if p in Tree(executable, snapshots) { TreeBelongs(executable, snapshots, p); }
        if Belongs(executable, snapshots, p) { BelongsUnderRoot(executable, snapshots, p); }
      }
    }
  }

  /** The tree lists each process once, by increasing PID. */
  lemma TreeListsOnce(executable: string, snapshots: seq<Snapshot>, i: nat, j: nat)
    requires UniqueIds(snapshots) && i < j < |Tree(executable, snapshots)|
    ensures Tree(executable, snapshots)[i].id < Tree(executable, snapshots)[j].id
  {
    var roots := Roots(executable, snapshots);
    var found := Descendants(Ids(roots), snapshots);
    var tree := Tree(executable, snapshots);
    FilterOnce(snapshots, (q: Snapshot) => q.executable == executable
      && q.parent !in MatchingIds(executable, snapshots));
    DescendantsOnce(Ids(roots), snapshots);
    assert UniqueIds(roots + found) by {
      forall a, b | 0 <= a < b < |roots + found| ensures (roots + found)[a].id != (roots + found)[b].id {
        if a < |roots| <= b {
          assert roots[a].id in Ids(roots);
          assert found[b - |roots|] in found;
        }
      }
    }
    Sorting.SortOrders(roots + found, ById);
    Sorting.SortPermutes(roots + found, ById);
    Sorting.OrderedPairs(tree, ById, i, j);
    hide Tree, Roots, Descendants;
    if tree[i].id == tree[j].id {
      assert tree[i] in multiset(tree) && tree[j] in multiset(tree);
      SameId(roots + found, tree[i], tree[j]);
      OnceOnly(roots + found, tree[i]);
      TwiceCounted(tree, i, j);
    }
  }

  lemma TwiceCounted(ys: seq<Snapshot>, i: nat, j: nat)
    requires i < j < |ys| && ys[i] == ys[j]
    ensures multiset(ys)[ys[i]] >= 2
  {
    assert ys == ys[..j] + ys[j..];
    assert ys[..j][i] == ys[i] && ys[j..][0] == ys[j];
  }

  lemma {:induction false} OnceOnly(xs: seq<Snapshot>, x: Snapshot)
    requires UniqueIds(xs)
    ensures multiset(xs)[x] <= 1
  {
    if xs != [] {
      var rest := xs[1..];
      assert xs == [xs[0]] + rest;
      OnceOnly(rest, x);
      forall k | 0 <= k < |rest| ensures rest[k] != xs[0] {
        assert xs[k + 1].id != xs[0].id;
      }
    }
  }

  lemma {:induction false} FilterOnce(xs: seq<Snapshot>, keep: Snapshot -> bool)
    requires UniqueIds(xs)
    ensures UniqueIds(Sorting.Filter(xs, keep))
  {
    if xs != [] {
      FilterOnce(xs[1..], keep);
      var rest := Sorting.Filter(xs[1..], keep);
      forall q | q in rest ensures q.id != xs[0].id {
        FilterMembers(xs[1..], keep, q);
        var k :| 0 <= k < |xs[1..]| && xs[1..][k] == q;
        assert xs[k + 1] == q;
      }
    }
  }

  ghost predicate Topmost(executable: string, snapshots: seq<Snapshot>, p: Snapshot) {
    && p in snapshots && p.executable == executable
    && !exists a :: a in snapshots && a.executable == executable && ProperAncestor(snapshots, a, p)
  }

  lemma RootSnapshotMembers(executable: string, snapshots: seq<Snapshot>, p: Snapshot)
    ensures p in RootSnapshots(executable, snapshots)
            <==> p in Tree(executable, snapshots) && p.executable == executable
                 && p.parent !in Ids(Tree(executable, snapshots))
  {
    var tree := Tree(executable, snapshots);
    var ids := Ids(tree);
    FilterMembers(tree, (q: Snapshot) => q.executable == executable && q.parent !in ids, p);
  }

  lemma ParentIsAbove(snapshots: seq<Snapshot>, q: Snapshot, p: Snapshot)
    requires p in snapshots && q in snapshots && p.parent == q.id
    ensures ProperAncestor(snapshots, q, p)
  {
    var line := [q, p];
    assert Chain(snapshots, line) && line[0] == q && line[|line| - 1] == p;
  }

  lemma AboveParent(snapshots: seq<Snapshot>, a: Snapshot, p: Snapshot) returns (q: Snapshot)
    requires ProperAncestor(snapshots, a, p)
    ensures q.id == p.parent && AncestorOrSelf(snapshots, a, q)
  {
    var line: seq<Snapshot> :| Chain(snapshots, line) && |line| > 1 && line[0] == a && line[|line| - 1] == p;
    var above := line[..|line| - 1];
    q := above[|above| - 1];
    assert Chain(snapshots, above) && above[0] == a;
  }

  /** A matching process with no matching process above it, even through others, is a root. */
  lemma TopmostAreRoots(executable: string, snapshots: seq<Snapshot>, p: Snapshot)
    requires UniqueIds(snapshots) && Topmost(executable, snapshots, p)
    ensures p in RootSnapshots(executable, snapshots)
  {
    RootSnapshotMembers(executable, snapshots, p);
    RootMembers(executable, snapshots, p);
    if p.parent in MatchingIds(executable, snapshots) {
      var q :| q in snapshots && q.executable == executable && q.id == p.parent;
      ParentIsAbove(snapshots, q, p);
    }
    SelfAncestor(snapshots, p);
    TreeMembers(executable, snapshots, p);
    hide Tree, Roots, RootSnapshots;
    if p.parent in Ids(Tree(executable, snapshots)) {
      var q :| q in Tree(executable, snapshots) && q.id == p.parent;
      TreeBelongs(executable, snapshots, q);
      TreeMembers(executable, snapshots, q);
      BelongsAbove(executable, snapshots, q, p);
    }
  }

  /** Whatever a parent belongs under is a proper ancestor of its child. */
  lemma BelongsAbove(executable: string, snapshots: seq<Snapshot>, q: Snapshot, p: Snapshot)
    requires p in snapshots && p.parent == q.id && Belongs(executable, snapshots, q)
    ensures exists a :: a in snapshots && a.executable == executable && ProperAncestor(snapshots, a, p)
  {
    var a: Snapshot :| a in snapshots && a.executable == executable && AncestorOrSelf(snapshots, a, q);
    var line: seq<Snapshot> :| Chain(snapshots, line) && line[0] == a && line[|line| - 1] == q;
    var more := line + [p];
    assert Chain(snapshots, more) && |more| > 1 && more[0] == a && more[|more| - 1] == p;
    assert ProperAncestor(snapshots, a, p);
  }

  ghost predicate RootsExact(executable: string, snapshots: seq<Snapshot>) {
    forall p :: p in RootSnapshots(executable, snapshots) <==> Topmost(executable, snapshots, p)
  }

  /** A matching process whose parent does not match stands somewhere below a circle of matching ones. */
  ghost predicate BelowCircle(executable: string, snapshots: seq<Snapshot>) {
    exists r, c ::
      r in Roots(executable, snapshots) && OnCircle(executable, snapshots, c) && ProperAncestor(snapshots, c, r)
  }

  /** A root snapshot has a parent that is not in the tree, so it is one of the tree's own roots. */
  lemma RootSnapshotsAreRoots(executable: string, snapshots: seq<Snapshot>, p: Snapshot)
    requires UniqueIds(snapshots) && p in RootSnapshots(executable, snapshots)
    ensures p in Roots(executable, snapshots)
  {
    RootSnapshotMembers(executable, snapshots, p);
    TreeMembers(executable, snapshots, p);
    hide Tree, Roots, RootSnapshots;
    var b: Snapshot :| b in Roots(executable, snapshots) && AncestorOrSelf(snapshots, b, p);
    var line: seq<Snapshot> :| Chain(snapshots, line) && line[0] == b && line[|line| - 1] == p;
    if |line| > 1 {
      assert ProperAncestor(snapshots, b, p);
      var q := AboveParent(snapshots, b, p);
      TreeMembers(executable, snapshots, q);
    }
  }

  lemma ExactUnlessBelowCircle(executable: string, snapshots: seq<Snapshot>, p: Snapshot)
    requires UniqueIds(snapshots) && !BelowCircle(executable, snapshots) && p in RootSnapshots(executable, snapshots)
    ensures Topmost(executable, snapshots, p)
  {
    RootSnapshotsAreRoots(executable, snapshots, p);
    RootSnapshotMembers(executable, snapshots, p);
    TreeMembers(executable, snapshots, p);
    hide Tree, Roots, RootSnapshots, OnCircle, Ids;
    if a: Snapshot :| a in snapshots && a.executable == executable && ProperAncestor(snapshots, a, p) {
      var down: seq<Snapshot> :| Chain(snapshots, down) && |down| > 1 && down[0] == a && down[|down| - 1] == p;
      var up := Climb(executable, snapshots, [a]);
      var line := ChainJoin(snapshots, up, down);
      assert ProperAncestor(snapshots, line[0], p);
      var q := AboveParent(snapshots, line[0], p);
      TreeMembers(executable, snapshots, q);
      InTree(executable, snapshots, q);
    }
  }

  lemma InTree(executable: string, snapshots: seq<Snapshot>, q: Snapshot)
    ensures q in Tree(executable, snapshots) ==> q.id in Ids(Tree(executable, snapshots))
  {
  }

  /** Above a line that hangs from a circle there is only the rest of the line and the circle. */
  lemma {:induction false} AboveLine(executable: string, snapshots: seq<Snapshot>, cycle: seq<Snapshot>,
                                     line: seq<Snapshot>, above: seq<Snapshot>)
    requires UniqueIds(snapshots) && MatchingCycle(executable, snapshots, cycle)
    requires Chain(snapshots, line) && line[0] in cycle
    requires Chain(snapshots, above) && above[|above| - 1] == line[|line| - 1]
    ensures above[0] in cycle || above[0] in line
    decreases |line|
  {
    if |line| == 1 {
      CycleHoldsAncestors(executable, snapshots, cycle, above);
    } else if |above| > 1 {
      SameId(snapshots, above[|above| - 2], line[|line| - 2]);
      AboveLine(executable, snapshots, cycle, line[..|line| - 1], above[..|above| - 1]);
    }
  }

  lemma CircleMembersAreNoRoots(executable: string, snapshots: seq<Snapshot>, cycle: seq<Snapshot>, c: Snapshot)
    requires UniqueIds(snapshots) && MatchingCycle(executable, snapshots, cycle) && c in cycle
    ensures c !in Roots(executable, snapshots) && c in snapshots && c.executable == executable
  {
    CycleHoldsAncestors(executable, snapshots, cycle, [c]);
    RootMembers(executable, snapshots, c);
  }

  /** The first root on a line that hangs from a circle is a root snapshot, though it is not topmost. */
  lemma {:induction false} StrayRoot(executable: string, snapshots: seq<Snapshot>, cycle: seq<Snapshot>,
                                     line: seq<Snapshot>)
    returns (p: Snapshot)
    requires UniqueIds(snapshots) && MatchingCycle(executable, snapshots, cycle)
    requires Chain(snapshots, line) && |line| > 1 && line[0] in cycle
    requires line[|line| - 1] in Roots(executable, snapshots)
    ensures p in RootSnapshots(executable, snapshots) && ProperAncestor(snapshots, line[0], p)
    decreases |line|
  {
    hide Roots, RootSnapshots, Tree, Ids, MatchingCycle;
    var n := |line| - 1;
    if i :| 0 < i < n && line[i] in Roots(executable, snapshots) {
      p := StrayRoot(executable, snapshots, cycle, line[..i + 1]);
    } else {
      p := line[n];
      FirstRootIsSnapshot(executable, snapshots, cycle, line);
    }
  }

  lemma FirstRootIsSnapshot(executable: string, snapshots: seq<Snapshot>, cycle: seq<Snapshot>, line: seq<Snapshot>)
    requires UniqueIds(snapshots) && MatchingCycle(executable, snapshots, cycle)
    requires Chain(snapshots, line) && |line| > 1 && line[0] in cycle
    requires line[|line| - 1] in Roots(executable, snapshots)
    requires forall i :: 0 < i < |line| - 1 ==> line[i] !in Roots(executable, snapshots)
    ensures line[|line| - 1] in RootSnapshots(executable, snapshots)
  {
    hide Roots, RootSnapshots, Tree, MatchingCycle;
    var n := |line| - 1;
    var p := line[n];
    RootMembers(executable, snapshots, p);
    RootSnapshotMembers(executable, snapshots, p);
    SelfAncestor(snapshots, p);
    TreeMembers(executable, snapshots, p);
    CircleMembersAreNoRoots(executable, snapshots, cycle, line[0]);
    if p.parent in Ids(Tree(executable, snapshots)) {
      var q :| q in Tree(executable, snapshots) && q.id == p.parent;
      TreeMembers(executable, snapshots, q);
      SameId(snapshots, q, line[n - 1]);
      var b: Snapshot :| b in Roots(executable, snapshots) && AncestorOrSelf(snapshots, b, q);
      var above: seq<Snapshot> :| Chain(snapshots, above) && above[0] == b && above[|above| - 1] == q;
      AboveLine(executable, snapshots, cycle, line[..n], above);
      if b in cycle {
        CircleMembersAreNoRoots(executable, snapshots, cycle, b);
      }
    }
  }

  /** The root snapshots are exactly the topmost matching processes if and only if no matching process
      with a parent that does not match stands below a circle of matching ones. */
  lemma RootsAreTopmost(executable: string, snapshots: seq<Snapshot>)
    requires UniqueIds(snapshots)
    ensures RootsExact(executable, snapshots) <==> !BelowCircle(executable, snapshots)
  {
    hide Roots, RootSnapshots, Tree, Chain;
    if BelowCircle(executable, snapshots) {
      var r, c :| r in Roots(executable, snapshots) && OnCircle(executable, snapshots, c)
        && ProperAncestor(snapshots, c, r);
      var cycle :| MatchingCycle(executable, snapshots, cycle) && c in cycle;
      var line: seq<Snapshot> :| Chain(snapshots, line) && |line| > 1 && line[0] == c && line[|line| - 1] == r;
      var p := StrayRoot(executable, snapshots, cycle, line);
      CircleMembersAreNoRoots(executable, snapshots, cycle, c);
      assert !Topmost(executable, snapshots, p);
    } else {
      forall p ensures p in RootSnapshots(executable, snapshots) <==> Topmost(executable, snapshots, p) {
        if Topmost(executable, snapshots, p) { TopmostAreRoots(executable, snapshots, p); }
        if p in RootSnapshots(executable, snapshots) { ExactUnlessBelowCircle(executable, snapshots, p); }
      }
    }
  }

  /** So without any circle of matching processes the roots are exactly the topmost ones. */
  lemma RootsAreTopmostWithoutCircles(executable: string, snapshots: seq<Snapshot>)
    requires UniqueIds(snapshots) && forall c :: !MatchingCycle(executable, snapshots, c)
    ensures RootsExact(executable, snapshots)
  {
    RootsAreTopmost(executable, snapshots);
  }
}
