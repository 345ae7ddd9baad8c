/** The standard library's stable sort, as insertion sort over any total preorder. */
module Sorting {
  ghost predicate TotalPreorder<T(!new)>(le: (T, T) -> bool) {
    && (forall x, y :: le(x, y) || le(y, x))
    && (forall x, y, z :: le(x, y) && le(y, z) ==> le(x, z))
  }

  /** Adjacent order, which for a preorder is the order of every pair. */
  predicate Ordered<T>(xs: seq<T>, le: (T, T) -> bool) {
    forall i :: 0 < i < |xs| ==> le(xs[i - 1], xs[i])
  }

  function Insert<T>(x: T, xs: seq<T>, le: (T, T) -> bool): seq<T> {
    if xs == [] || le(x, xs[0]) then [x] + xs else [xs[0]] + Insert(x, xs[1..], le)
  }

  function StableSort<T>(xs: seq<T>, le: (T, T) -> bool): seq<T> {
    if xs == [] then [] else Insert(xs[0], StableSort(xs[1..], le), le)
  }

  function Filter<T>(xs: seq<T>, keep: T -> bool): seq<T> {
    if xs == [] then [] else (if keep(xs[0]) then [xs[0]] else []) + Filter(xs[1..], keep)
  }

  lemma {:induction false} InsertPermutes<T>(x: T, xs: seq<T>, le: (T, T) -> bool)
    ensures multiset(Insert(x, xs, le)) == multiset{x} + multiset(xs)
  {
    if xs == [] || le(x, xs[0]) {
    } else {
      InsertPermutes(x, xs[1..], le);
      assert xs == [xs[0]] + xs[1..];
    }
  }

  lemma {:induction false} SortPermutes<T>(xs: seq<T>, le: (T, T) -> bool)
    ensures multiset(StableSort(xs, le)) == multiset(xs)
  {
    if xs != [] {
      SortPermutes(xs[1..], le);
      InsertPermutes(xs[0], StableSort(xs[1..], le), le);
      assert xs == [xs[0]] + xs[1..];
    }
  }

  lemma {:induction false} InsertOrders<T(!new)>(x: T, xs: seq<T>, le: (T, T) -> bool)
    requires TotalPreorder(le) && Ordered(xs, le)
    ensures Ordered(Insert(x, xs, le), le)
  {
    if xs == [] || le(x, xs[0]) {
    } else {
      InsertOrders(x, xs[1..], le);
      var rest := Insert(x, xs[1..], le);
      assert rest[0] == x || rest[0] == xs[1];
      var all := [xs[0]] + rest;
      forall i | 0 < i < |all| ensures le(all[i - 1], all[i]) {
        if i > 1 { assert le(rest[i - 2], rest[i - 1]); }
      }
    }
  }

  lemma {:induction false} SortOrders<T(!new)>(xs: seq<T>, le: (T, T) -> bool)
    requires TotalPreorder(le)
    ensures Ordered(StableSort(xs, le), le)
  {
    if xs != [] {
      SortOrders(xs[1..], le);
      InsertOrders(xs[0], StableSort(xs[1..], le), le);
    }
  }

  lemma {:induction false} OrderedPairs<T(!new)>(xs: seq<T>, le: (T, T) -> bool, i: nat, j: nat)
    requires TotalPreorder(le) && Ordered(xs, le) && i <= j < |xs|
    ensures le(xs[i], xs[j])
    decreases j - i
  {
    if i < j {
      OrderedPairs(xs, le, i, j - 1);
    }
  }

  /** Elements that compare equal keep their order: every class of the preorder is filtered alike. */
  lemma {:induction false} SortIsStable<T(!new)>(xs: seq<T>, le: (T, T) -> bool, keep: T -> bool)
    requires TotalPreorder(le)
    requires forall y, z :: keep(y) && keep(z) ==> le(y, z)
    ensures Filter(StableSort(xs, le), keep) == Filter(xs, keep)
  {
    if xs != [] {
      SortIsStable(xs[1..], le, keep);
      InsertIsStable(xs[0], StableSort(xs[1..], le), le, keep);
    }
  }

  lemma {:induction false} InsertIsStable<T(!new)>(x: T, xs: seq<T>, le: (T, T) -> bool, keep: T -> bool)
    requires keep(x) ==> forall i :: 0 <= i < |xs| && keep(xs[i]) ==> le(x, xs[i])
    ensures Filter(Insert(x, xs, le), keep) == (if keep(x) then [x] else []) + Filter(xs, keep)
  {
    if xs == [] || le(x, xs[0]) {
      assert ([x] + xs)[1..] == xs;
    } else {
      InsertIsStable(x, xs[1..], le, keep);
      var rest := Insert(x, xs[1..], le);
      assert ([xs[0]] + rest)[1..] == rest;
      assert !(keep(x) && keep(xs[0]));
      assert Filter([xs[0]] + rest, keep) == (if keep(xs[0]) then [xs[0]] else []) + Filter(rest, keep);
    }
  }
}
