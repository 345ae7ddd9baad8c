/** Searching sequences, as the libraries of the languages at hand do it. */
module Sequences {
  import opened Wrappers

  /** The first place at which `x` occurs. */
  function Position<T(==)>(s: seq<T>, x: T): (r: Option<nat>)
    ensures r.Some? ==> r.value < |s| && s[r.value] == x && x !in s[..r.value]
    ensures r.None? ==> x !in s
    decreases |s|
  {
    if s == [] then None
    else if s[0] == x then Some(0)
    else match Position(s[1..], x)
      case None => None
      case Some(k) => assert s[..k + 1] == [s[0]] + s[1..][..k]; Some(k + 1)
  }

  lemma {:induction false} PositionAfter<T>(prefix: seq<T>, x: T, rest: seq<T>)
    requires x !in prefix
    ensures Position(prefix + ([x] + rest), x) == Some(|prefix|)
    decreases |prefix|
  {
    if prefix == [] {
      assert prefix + ([x] + rest) == [x] + rest;
    } else {
      assert (prefix + ([x] + rest))[1..] == prefix[1..] + ([x] + rest);
      PositionAfter(prefix[1..], x, rest);
    }
  }

  lemma Associates<T>(a: seq<T>, b: seq<T>, c: seq<T>)
    ensures a + b + c == a + (b + c)
  {
  }
}
