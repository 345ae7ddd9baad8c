/** The Windows environment block of a packaged desktop process. */
module EnvironmentBlock {
  import opened Wrappers
  import opened Sequences
  import opened Sorting

  /** A UTF-16 code unit. */
  type Unit = x: int | 0 <= x < 0x10000

  const EQUALS: Unit := 61

  datatype Variable = Variable(name: seq<Unit>, value: seq<Unit>)

  predicate Acceptable(v: Variable) {
    v.name != [] && 0 !in v.name && EQUALS !in v.name && 0 !in v.value
  }

  // ---- The order of names ------------------------------------------------------------------

  /** Strings compare by their code points. */
  predicate Precedes(a: seq<nat>, b: seq<nat>) {
    a == [] || (b != [] && (a[0] < b[0] || (a[0] == b[0] && Precedes(a[1..], b[1..]))))
  }

  lemma {:induction false} PrecedesTotal(a: seq<nat>, b: seq<nat>)
    ensures Precedes(a, b) || Precedes(b, a)
  {
    if a != [] && b != [] {
      PrecedesTotal(a[1..], b[1..]);
    }
  }

  lemma {:induction false} PrecedesTransitive(a: seq<nat>, b: seq<nat>, c: seq<nat>)
    requires Precedes(a, b) && Precedes(b, c)
    ensures Precedes(a, c)
  {
    if a != [] && a[0] == b[0] && b[0] == c[0] {
      PrecedesTransitive(a[1..], b[1..], c[1..]);
    }
  }

  /** The strings agree before `k`, where the first ends or is smaller. */
  ghost predicate DiffersAt(a: seq<nat>, b: seq<nat>, k: nat) {
    k <= |a| && k <= |b| && a[..k] == b[..k] && (k == |a| || (k < |b| && a[k] < b[k]))
  }

  lemma {:induction false} FirstDifference(a: seq<nat>, b: seq<nat>) returns (k: nat)
    requires Precedes(a, b)
    ensures DiffersAt(a, b, k)
  {
    if a == [] || a[0] < b[0] {
      return 0;
    }
    var j := FirstDifference(a[1..], b[1..]);
    assert a[..j + 1] == [a[0]] + a[1..][..j] && b[..j + 1] == [b[0]] + b[1..][..j];
    return j + 1;
  }

  lemma {:induction false} DifferenceDecides(a: seq<nat>, b: seq<nat>, k: nat)
    requires DiffersAt(a, b, k)
    ensures Precedes(a, b)
  {
    if k > 0 {
      assert a[0] == a[..k][0] && b[0] == b[..k][0];
      assert a[1..][..k - 1] == a[..k][1..] && b[1..][..k - 1] == b[..k][1..];
      DifferenceDecides(a[1..], b[1..], k - 1);
    }
  }

  /** One string precedes another exactly when it is a prefix of it, or smaller where they first differ. */
  lemma PrecedesAtFirstDifference(a: seq<nat>, b: seq<nat>)
    ensures Precedes(a, b) <==> exists k :: DiffersAt(a, b, k)
  {
    if Precedes(a, b) {
      var k := FirstDifference(a, b);
    }
    if k :| DiffersAt(a, b, k) {
      DifferenceDecides(a, b, k);
    }
  }

  /** `key` is the lower-cased name, whose definition belongs to Unicode. */
  function ByKey(key: seq<Unit> -> seq<nat>): (Variable, Variable) -> bool {
    (a: Variable, b: Variable) => Precedes(key(a.name), key(b.name))
  }

  lemma KeysOrder(key: seq<Unit> -> seq<nat>)
    ensures TotalPreorder(ByKey(key))
  {
    var le := ByKey(key);
    forall x, y ensures le(x, y) || le(y, x) {
      PrecedesTotal(key(x.name), key(y.name));
    }
    forall x, y, z | le(x, y) && le(y, z) ensures le(x, z) {
      PrecedesTransitive(key(x.name), key(y.name), key(z.name));
    }
  }

  // ---- Encoding ----------------------------------------------------------------------------

  function Entries(variables: seq<Variable>): seq<Unit> {
    if variables == [] then []
    else variables[0].name + ([EQUALS] + (variables[0].value + ([0] + Entries(variables[1..]))))
  }

  function Block(variables: seq<Variable>): seq<Unit> {
    Entries(variables) + (if variables == [] then [0, 0] else [0])
  }

  method WindowsEnvironmentBlock(environment: seq<Variable>, key: seq<Unit> -> seq<nat>)
    returns (r: Result<seq<Unit>, string>)
    ensures r.Ok? <==> forall v :: v in environment ==> Acceptable(v)
    ensures r.Ok? ==> r.value == Block(StableSort(environment, ByKey(key)))
  {
    for i := 0 to |environment|
      invariant forall j :: 0 <= j < i ==> Acceptable(environment[j])
    {
      if !Acceptable(environment[i]) {
        return Err("AppX environment contains an invalid name or value");
      }
    }
    var block := EncodedBlock(StableSort(environment, ByKey(key)));
    return Ok(block);
  }

  method EncodedBlock(entries: seq<Variable>) returns (block: seq<Unit>)
    ensures block == Block(entries)
  {
    hide Entries;
    block := [];
    NoEntries(entries);
    for i := 0 to |entries|
      invariant block + Entries(entries[i..]) == Entries(entries)
      invariant i > 0 ==> |block| > 0
    {
      NextEntry(block, entries, i);
      block := block + entries[i].name;
      block := block + [EQUALS];
      block := block + entries[i].value;
      block := block + [0];
    }
    Terminates(Entries(entries), entries == []);
    block := block + [0];
    if |block| == 1 {
      block := block + [0];
    }
  }

  lemma NoEntries(entries: seq<Variable>)
    ensures [] + Entries(entries[0..]) == Entries(entries)
            && forall s: seq<Unit> :: s + Entries(entries[|entries|..]) == s
  {
    assert entries[0..] == entries && entries[|entries|..] == [];
  }

  lemma NextEntry(block: seq<Unit>, entries: seq<Variable>, i: nat)
    requires i < |entries|
    ensures block + Entries(entries[i..])
            == (((block + entries[i].name) + [EQUALS]) + entries[i].value) + [0] + Entries(entries[i + 1..])
  {
    assert entries[i..][1..] == entries[i + 1..];
  }

  lemma Terminates(block: seq<Unit>, empty: bool)
    ensures block + [0] + [0] == block + [0, 0]
  {
  }

  // ---- Decoding ----------------------------------------------------------------------------

  /** The strings of a block up to its first empty one, each split at its first equals sign, and what
      follows the empty string. A string without a name is none. */
  function Decoded(block: seq<Unit>): Option<(seq<Variable>, seq<Unit>)>
    decreases |block|
  {
    match Position(block, 0)
    case None => None
    case Some(end) =>
      if end == 0 then Some(([], block[1..]))
      else
        match Position(block[..end], EQUALS)
        case None => None
        case Some(k) =>
          if k == 0 then None
          else match Decoded(block[end + 1..])
          case None => None
          case Some(r) => Some(([Variable(block[..k], block[k + 1..end])] + r.0, r.1))
  }

  lemma EntrySplits(v: Variable, rest: seq<Unit>)
    requires Acceptable(v)
    ensures var text := v.name + ([EQUALS] + v.value); var block := text + ([0] + rest);
            && Position(block, 0) == Some(|text|) && block[..|text|] == text && block[|text| + 1..] == rest
            && Position(text, EQUALS) == Some(|v.name|) && |v.name| > 0
            && block[..|v.name|] == v.name && block[|v.name| + 1..|text|] == v.value
  {
    var text := v.name + ([EQUALS] + v.value);
    PositionAfter(text, 0, rest);
    PositionAfter(v.name, EQUALS, v.value);
  }

  lemma EntryReadsBack(v: Variable, rest: seq<Unit>)
    requires Acceptable(v)
    ensures Decoded(v.name + ([EQUALS] + v.value) + ([0] + rest))
            == match Decoded(rest) case None => None case Some(r) => Some(([v] + r.0, r.1))
  {
    hide Position, Acceptable;
    EntrySplits(v, rest);
  }

  lemma EntriesUnfold(variables: seq<Variable>, end: seq<Unit>)
    requires variables != []
    ensures var v := variables[0];
            Entries(variables) + end == v.name + ([EQUALS] + v.value) + ([0] + (Entries(variables[1..]) + end))
  {
  }

  lemma EndReadsBack(tail: seq<Unit>)
    ensures Decoded([0] + tail) == Some(([], tail))
  {
    assert ([0] + tail)[1..] == tail;
  }

  lemma {:induction false} EntriesReadBack(variables: seq<Variable>, tail: seq<Unit>)
    requires forall v :: v in variables ==> Acceptable(v)
    ensures Decoded(Entries(variables) + ([0] + tail)) == Some((variables, tail))
  {
    hide Decoded;
    if variables == [] {
      EndReadsBack(tail);
      assert Entries(variables) + ([0] + tail) == [0] + tail;
    } else {
      var v := variables[0];
      assert v in variables;
      EntriesUnfold(variables, [0] + tail);
      EntryReadsBack(v, Entries(variables[1..]) + ([0] + tail));
      EntriesReadBack(variables[1..], tail);
      assert [v] + variables[1..] == variables;
    }
  }

  /** Whatever a block decodes to is acceptable. */
  lemma {:induction false} DecodedAreAcceptable(block: seq<Unit>)
    ensures Decoded(block).Some? ==> forall v :: v in Decoded(block).value.0 ==> Acceptable(v)
    decreases |block|
  {
    match Position(block, 0)
    case None =>
    case Some(end) =>
      if end > 0 {
        DecodedAreAcceptable(block[end + 1..]);
        match Position(block[..end], EQUALS)
        case None =>
        case Some(k) =>
          assert block[..end][..k] == block[..k];
          assert forall u :: u in block[..k] || u in block[k + 1..end] ==> u in block[..end];
      }
  }

  /** Validation accepts exactly the variables that a block gives back. */
  lemma AcceptableExactly(v: Variable)
    ensures Acceptable(v) <==> Decoded(Block([v])) == Some(([v], []))
  {
    hide Decoded, Acceptable;
    var d := Decoded(Block([v]));
    assert d == Some(([v], [])) ==> v in d.value.0;
    DecodedAreAcceptable(Block([v]));
    if Acceptable(v) {
      EntriesReadBack([v], []);
      assert [0] + [] == [0];
    }
  }

  function SameKey(key: seq<Unit> -> seq<nat>, k: seq<nat>): Variable -> bool {
    (v: Variable) => key(v.name) == k
  }

  /** The same variables, in non-decreasing order of their lower-cased names. */
  lemma SortedByKey(environment: seq<Variable>, key: seq<Unit> -> seq<nat>, i: nat, j: nat)
    ensures var sorted := StableSort(environment, ByKey(key));
            && multiset(sorted) == multiset(environment) && |sorted| == |environment|
            && (forall v :: v in sorted <==> v in environment)
            && (i <= j < |sorted| ==> Precedes(key(sorted[i].name), key(sorted[j].name)))
  {
    var le := ByKey(key);
    var sorted := StableSort(environment, le);
    KeysOrder(key);
    SortPermutes(environment, le);
    assert |multiset(sorted)| == |sorted| && |multiset(environment)| == |environment|;
    assert forall v :: v in sorted <==> v in multiset(sorted);
    SortOrders(environment, le);
    if i <= j < |sorted| {
      OrderedPairs(sorted, le, i, j);
      assert le(sorted[i], sorted[j]);
    }
  }

  /** Variables whose lower-cased names are equal stay in the order they were given. */
  lemma StableByKey(environment: seq<Variable>, key: seq<Unit> -> seq<nat>, k: seq<nat>)
    ensures Filter(StableSort(environment, ByKey(key)), SameKey(key, k)) == Filter(environment, SameKey(key, k))
  {
    KeysOrder(key);
    PrecedesTotal(k, k);
    SortIsStable(environment, ByKey(key), SameKey(key, k));
  }

  /** The round trip: an accepted block is read back, up to its very end, as the sorted environment. */
  lemma BlockReadsBack(environment: seq<Variable>, key: seq<Unit> -> seq<nat>)
    requires forall v :: v in environment ==> Acceptable(v)
    ensures var sorted := StableSort(environment, ByKey(key));
            Decoded(Block(sorted)) == Some((sorted, if environment == [] then [0] else []))
  {
    SortedByKey(environment, key, 0, 0);
    var sorted := StableSort(environment, ByKey(key));
    hide Decoded, StableSort, Entries;
    var tail: seq<Unit> := if environment == [] then [0] else [];
    assert [0] + tail == if sorted == [] then [0, 0] else [0];
    EntriesReadBack(sorted, tail);
  }
}
