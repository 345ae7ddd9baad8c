/** Harness broker framing: newline-ended frames, read from chunks that may be cut anywhere. */
module BrokerFraming {
  import opened Wrappers
  import opened Sequences

  type Byte = x: int | 0 <= x < 256

  type Bytes = seq<Byte>

  const NEWLINE: Byte := 10
  const LIMIT := 8 * 1024 * 1024

  // ---- Writing -----------------------------------------------------------------------------

  /** `text` is a value as JSON; the newline counts towards the limit. */
  function WriteBrokerFrame(text: Bytes): Result<Bytes, string> {
    if |text| + 1 > LIMIT then Err("Harness broker frame exceeds the maximum size") else Ok(text + [NEWLINE])
  }

  // ---- Reading -----------------------------------------------------------------------------

  datatype Status = Open | TooLarge | BadFrame

  datatype Reading = Reading(buffered: Bytes, delivered: seq<Bytes>, status: Status)

  /** Takes the complete frames out of the buffer until one is not acceptable. */
  function Drain(buffered: Bytes, delivered: seq<Bytes>, accepts: Bytes -> bool): Reading
    decreases |buffered|
  {
    match Position(buffered, NEWLINE)
    case None => Reading(buffered, delivered, Open)
    case Some(newline) =>
      var frame, rest := buffered[..newline], buffered[newline + 1..];
      if frame == [] then Drain(rest, delivered, accepts)
      else if !accepts(frame) then Reading(rest, delivered, BadFrame)
      else Drain(rest, delivered + [frame], accepts)
  }

  /** A destroyed socket emits no more data. */
  function OnData(r: Reading, chunk: Bytes, accepts: Bytes -> bool): Reading {
    if !r.status.Open? then r
    else if |r.buffered + chunk| > LIMIT then Reading(r.buffered + chunk, r.delivered, TooLarge)
    else Drain(r.buffered + chunk, r.delivered, accepts)
  }

  function Feed(chunks: seq<Bytes>, accepts: Bytes -> bool): Reading {
    if chunks == [] then Reading([], [], Open)
    else OnData(Feed(chunks[..|chunks| - 1], accepts), chunks[|chunks| - 1], accepts)
  }

  /** `accepts` tells which frames are JSON and accepted by the frame handler. */
  class FrameReader {
    const accepts: Bytes -> bool
    var buffered: Bytes
    var delivered: seq<Bytes>
    var status: Status

    function State(): Reading
      reads this
    {
      Reading(buffered, delivered, status)
    }

    constructor (accepts: Bytes -> bool)
      ensures State() == Feed([], accepts) && this.accepts == accepts
    {
      this.accepts, buffered, delivered, status := accepts, [], [], Open;
    }

    method Data(chunk: Bytes)
      requires status.Open?
      modifies this
      ensures State() == OnData(old(State()), chunk, accepts)
    {
      buffered := buffered + chunk;
      if |buffered| > LIMIT {
        status := TooLarge;
        return;
      }
      var newline := Position(buffered, NEWLINE);
      while newline.Some?
        invariant status.Open? && newline == Position(buffered, NEWLINE)
        invariant Drain(buffered, delivered, accepts) == OnData(old(State()), chunk, accepts)
        decreases |buffered|
      {
        var frame := buffered[..newline.value];
        buffered := buffered[newline.value + 1..];
        if |frame| > 0 {
          if !accepts(frame) {
            status := BadFrame;
            return;
          }
          delivered := delivered + [frame];
        }
        newline := Position(buffered, NEWLINE);
      }
    }
  }

  // ---- The whole stream --------------------------------------------------------------------

  function Concat(chunks: seq<Bytes>): Bytes {
    if chunks == [] then [] else Concat(chunks[..|chunks| - 1]) + chunks[|chunks| - 1]
  }

  /** What follows the last newline. */
  function Tail(s: Bytes): Bytes {
    if s == [] || s[|s| - 1] == NEWLINE then [] else Tail(s[..|s| - 1]) + [s[|s| - 1]]
  }

  /** The pieces that a newline ends. */
  function Pieces(s: Bytes): seq<Bytes> {
    if s == [] then []
    else if s[|s| - 1] == NEWLINE then Pieces(s[..|s| - 1]) + [Tail(s[..|s| - 1])]
    else Pieces(s[..|s| - 1])
  }

  function NonEmpty(pieces: seq<Bytes>): seq<Bytes> {
    if pieces == [] then []
    else NonEmpty(pieces[..|pieces| - 1]) + (if pieces[|pieces| - 1] == [] then [] else [pieces[|pieces| - 1]])
  }

  ghost predicate AllAccepted(pieces: seq<Bytes>, accepts: Bytes -> bool) {
    forall p :: p in pieces && p != [] ==> accepts(p)
  }

  lemma {:induction false} PiecesOfTwo(a: Bytes, b: Bytes)
    ensures Pieces(a + b) == Pieces(a) + Pieces(Tail(a) + b)
    ensures Tail(a + b) == Tail(Tail(a) + b)
    decreases |b|
  {
    if b == [] {
      assert a + b == a && Tail(a) + b == Tail(a);
      TailHasNone(a);
    } else {
      var front, last := b[..|b| - 1], b[|b| - 1];
      PiecesOfTwo(a, front);
      assert (a + b)[..|a + b| - 1] == a + front;
      assert (Tail(a) + b)[..|Tail(a) + b| - 1] == Tail(a) + front;
    }
  }

  lemma {:induction false} TailHasNone(s: Bytes)
    ensures NEWLINE !in Tail(s) && Pieces(Tail(s)) == [] && Tail(Tail(s)) == Tail(s)
    ensures |Tail(s)| <= |s| && s[|s| - |Tail(s)|..] == Tail(s)
    ensures |Tail(s)| < |s| ==> s[|s| - |Tail(s)| - 1] == NEWLINE
  {
    if s != [] && s[|s| - 1] != NEWLINE {
      var front := s[..|s| - 1];
      TailHasNone(front);
      assert Tail(s)[..|Tail(s)| - 1] == Tail(front);
      assert s[|s| - |Tail(s)|..] == front[|front| - |Tail(front)|..] + [s[|s| - 1]];
    }
  }

  lemma {:induction false} WithoutNewline(s: Bytes)
    requires NEWLINE !in s
    ensures Tail(s) == s && Pieces(s) == []
  {
    if s != [] {
      WithoutNewline(s[..|s| - 1]);
    }
  }

  lemma OnePiece(p: Bytes)
    requires NEWLINE !in p
    ensures Pieces(p + [NEWLINE]) == [p] && Tail(p + [NEWLINE]) == []
  {
    WithoutNewline(p);
    assert (p + [NEWLINE])[..|p|] == p;
  }

  lemma CutAt(s: Bytes, newline: nat)
    requires newline < |s| && s[newline] == NEWLINE
    ensures s[..newline] + [NEWLINE] + s[newline + 1..] == s && [] + s[newline + 1..] == s[newline + 1..]
  {
  }

  lemma FirstPiece(s: Bytes, newline: nat)
    requires newline < |s| && s[newline] == NEWLINE && NEWLINE !in s[..newline]
    ensures Pieces(s) == [s[..newline]] + Pieces(s[newline + 1..]) && Tail(s) == Tail(s[newline + 1..])
  {
    hide Pieces, Tail;
    CutAt(s, newline);
    OnePiece(s[..newline]);
    PiecesOfTwo(s[..newline] + [NEWLINE], s[newline + 1..]);
  }

  lemma {:induction false} NonEmptyOfTwo(a: seq<Bytes>, b: seq<Bytes>)
    ensures NonEmpty(a + b) == NonEmpty(a) + NonEmpty(b)
    decreases |b|
  {
    if b == [] {
      assert a + b == a;
    } else {
      assert (a + b)[..|a + b| - 1] == a + b[..|b| - 1];
      NonEmptyOfTwo(a, b[..|b| - 1]);
    }
  }

  lemma NonEmptyFirst(p: Bytes, rest: seq<Bytes>)
    ensures NonEmpty([p] + rest) == (if p == [] then [] else [p]) + NonEmpty(rest)
  {
    NonEmptyOfTwo([p], rest);
    assert NonEmpty([p]) == if p == [] then [] else [p] by {
      assert [p][..0] == [] && NonEmpty([]) == [];
    }
    hide NonEmpty;
  }

  lemma AcceptedFirst(p: Bytes, rest: seq<Bytes>, accepts: Bytes -> bool)
    ensures AllAccepted([p] + rest, accepts) <==> (p == [] || accepts(p)) && AllAccepted(rest, accepts)
  {
    if AllAccepted([p] + rest, accepts) {
      assert p in [p] + rest;
      assert forall q :: q in rest ==> q in [p] + rest;
    }
  }

  lemma AcceptedOfTwo(a: seq<Bytes>, b: seq<Bytes>, accepts: Bytes -> bool)
    ensures AllAccepted(a + b, accepts) <==> AllAccepted(a, accepts) && AllAccepted(b, accepts)
  {
    if AllAccepted(a + b, accepts) {
      assert forall q :: q in a || q in b ==> q in a + b;
    }
  }

  lemma {:induction false} DrainDelivers(buffered: Bytes, delivered: seq<Bytes>, accepts: Bytes -> bool)
    ensures var r, pieces := Drain(buffered, delivered, accepts), Pieces(buffered);
            && r.status != TooLarge
            && (r.status.Open? <==> AllAccepted(pieces, accepts))
            && r.delivered <= delivered + NonEmpty(pieces)
            && (r.status.Open? ==> r.delivered == delivered + NonEmpty(pieces) && r.buffered == Tail(buffered))
    decreases |buffered|
  {
    hide Pieces, Tail, NonEmpty, AllAccepted, Position;
    match Position(buffered, NEWLINE)
    case None =>
      WithoutNewline(buffered);
      NothingYet(accepts);
      assert delivered + [] == delivered;
    case Some(newline) =>
      var frame, rest := buffered[..newline], buffered[newline + 1..];
      FirstPiece(buffered, newline);
      NonEmptyFirst(frame, Pieces(rest));
      AcceptedFirst(frame, Pieces(rest), accepts);
      if frame == [] {
        DrainDelivers(rest, delivered, accepts);
        assert [] + NonEmpty(Pieces(rest)) == NonEmpty(Pieces(rest));
      } else if accepts(frame) {
        DrainDelivers(rest, delivered + [frame], accepts);
        Associates(delivered, [frame], NonEmpty(Pieces(rest)));
      }
  }

  lemma NothingYet(accepts: Bytes -> bool)
    ensures NonEmpty([]) == [] && AllAccepted([], accepts) && Fits([])
  {
  }

  /** What the buffer holds when a chunk has arrived. */
  function Load(chunks: seq<Bytes>, k: nat): nat {
    if k < |chunks| then |Tail(Concat(chunks[..k]))| + |chunks[k]| else 0
  }

  ghost predicate Fits(chunks: seq<Bytes>) {
    forall k :: 0 <= k < |chunks| ==> Load(chunks, k) <= LIMIT
  }

  /** Chunk independence. However the stream is cut, frames are delivered in order and none is invented;
      reading stays open exactly when every chunk fits and every piece is acceptable, and then exactly
      the non-empty pieces of the whole stream have been delivered. */
  lemma {:induction false} DeliversThePieces(chunks: seq<Bytes>, accepts: Bytes -> bool)
    ensures var r, stream := Feed(chunks, accepts), Concat(chunks);
            && (r.status.Open? <==> Fits(chunks) && AllAccepted(Pieces(stream), accepts))
            && r.delivered <= NonEmpty(Pieces(stream))
            && (r.status.Open? ==> r.delivered == NonEmpty(Pieces(stream)) && r.buffered == Tail(stream))
            && (r.status.BadFrame? ==> !AllAccepted(Pieces(stream), accepts))
  {
    hide Pieces, Tail, NonEmpty, AllAccepted, Fits, Drain;
    if chunks == [] {
      NothingYet(accepts);
      WithoutNewline([]);
    } else {
      var n := |chunks| - 1;
      var before, chunk := chunks[..n], chunks[n];
      var r := Feed(before, accepts);
      DeliversThePieces(before, accepts);
      AcceptedOfTwo(Pieces(Concat(before)), Pieces(Tail(Concat(before)) + chunk), accepts);
      PiecesOfTwo(Concat(before), chunk);
      NonEmptyOfTwo(Pieces(Concat(before)), Pieces(Tail(Concat(before)) + chunk));
      DrainDelivers(r.buffered + chunk, r.delivered, accepts);
      FitsMore(chunks);
    }
  }

  lemma FitsMore(chunks: seq<Bytes>)
    requires chunks != []
    ensures var n := |chunks| - 1; Fits(chunks) <==> Fits(chunks[..n]) && Load(chunks, n) <= LIMIT
  {
    var n := |chunks| - 1;
    forall k | 0 <= k < n ensures Load(chunks, k) == Load(chunks[..n], k) {
      assert chunks[..n][..k] == chunks[..k];
    }
  }

  ghost predicate RefusedAt(chunks: seq<Bytes>, k: nat, accepts: Bytes -> bool) {
    k < |chunks| && Load(chunks, k) > LIMIT && Feed(chunks[..k], accepts).status.Open?
  }

  lemma RefusedBefore(chunks: seq<Bytes>, k: nat, accepts: Bytes -> bool)
    requires chunks != [] && k < |chunks| - 1
    ensures RefusedAt(chunks, k, accepts) <==> RefusedAt(chunks[..|chunks| - 1], k, accepts)
    ensures Feed(chunks[..|chunks| - 1], accepts).status.Open? ==> !RefusedAt(chunks, k, accepts)
  {
    var before := chunks[..|chunks| - 1];
    assert before[..k] == chunks[..k];
    DeliversThePieces(before, accepts);
    assert Fits(before) ==> Load(before, k) <= LIMIT;
  }

  lemma RefusedLast(chunks: seq<Bytes>, accepts: Bytes -> bool)
    requires chunks != []
    ensures var n := |chunks| - 1;
            Feed(chunks, accepts).status.TooLarge? <==>
              Feed(chunks[..n], accepts).status.TooLarge? || RefusedAt(chunks, n, accepts)
    ensures Feed(chunks[..|chunks| - 1], accepts).status.TooLarge? ==>
            !Feed(chunks[..|chunks| - 1], accepts).status.Open?
  {
    hide Pieces, Tail, NonEmpty, Drain, AllAccepted, Fits, Concat;
    var n := |chunks| - 1;
    var r := Feed(chunks[..n], accepts);
    DeliversThePieces(chunks[..n], accepts);
    DrainDelivers(r.buffered + chunks[n], r.delivered, accepts);
  }

  lemma RefusedInside(chunks: seq<Bytes>, accepts: Bytes -> bool)
    ensures forall k: nat :: RefusedAt(chunks, k, accepts) ==> k < |chunks|
  {
  }

  lemma NothingRefused(accepts: Bytes -> bool)
    ensures !Feed([], accepts).status.TooLarge? && forall k :: !RefusedAt([], k, accepts)
  {
  }

  /** The stream is refused for size exactly when a chunk that does not fit is reached. */
  lemma {:induction false} RefusedForSize(chunks: seq<Bytes>, accepts: Bytes -> bool)
    ensures Feed(chunks, accepts).status.TooLarge? <==> exists k :: RefusedAt(chunks, k, accepts)
  {
    hide RefusedAt, Feed, Load;
    if chunks == [] {
      NothingRefused(accepts);
    } else {
      var n := |chunks| - 1;
      var before := chunks[..n];
      var r := Feed(before, accepts);
      RefusedForSize(before, accepts);
      RefusedLast(chunks, accepts);
      RefusedInside(chunks, accepts);
      RefusedInside(before, accepts);
      forall k: nat | k < n
        ensures RefusedAt(chunks, k, accepts) <==> RefusedAt(before, k, accepts)
        ensures r.status.Open? ==> !RefusedAt(chunks, k, accepts)
      {
        RefusedBefore(chunks, k, accepts);
      }
    }
  }

  // ---- Size --------------------------------------------------------------------------------

  /** No newline-free run of the stream is longer. */
  ghost predicate RunsWithin(s: Bytes, run: nat) {
    forall i, j :: 0 <= i <= j <= |s| && NEWLINE !in s[i..j] ==> j - i <= run
  }

  lemma {:induction false} ConcatPrefix(chunks: seq<Bytes>, k: nat)
    requires k <= |chunks|
    ensures Concat(chunks[..k]) <= Concat(chunks)
    decreases |chunks|
  {
    if k < |chunks| {
      var front := chunks[..|chunks| - 1];
      ConcatPrefix(front, k);
      assert front[..k] == chunks[..k];
    } else {
      assert chunks[..k] == chunks;
    }
  }

  /** No stream is refused for size when its longest run and its longest chunk are within the limit together. */
  lemma ShortRunsFit(chunks: seq<Bytes>, run: nat, longest: nat, accepts: Bytes -> bool)
    requires RunsWithin(Concat(chunks), run) && run + longest <= LIMIT
    requires forall k :: 0 <= k < |chunks| ==> |chunks[k]| <= longest
    ensures Fits(chunks) && !Feed(chunks, accepts).status.TooLarge?
  {
    RefusedForSize(chunks, accepts);
    forall k | 0 <= k < |chunks| ensures Load(chunks, k) <= LIMIT {
      var stream, prefix := Concat(chunks), Concat(chunks[..k]);
      ConcatPrefix(chunks, k);
      TailHasNone(prefix);
      assert stream[|prefix| - |Tail(prefix)|..|prefix|] == Tail(prefix);
    }
  }

  /** The chunk in which a position of the stream arrives. */
  lemma {:induction false} ArrivesIn(chunks: seq<Bytes>, position: nat) returns (k: nat)
    requires 0 < position <= |Concat(chunks)|
    ensures k < |chunks| && |Concat(chunks[..k])| < position <= |Concat(chunks[..k + 1])|
    ensures Concat(chunks[..k + 1]) == Concat(chunks[..k]) + chunks[k]
  {
    var front := chunks[..|chunks| - 1];
    if position > |Concat(front)| {
      k := |chunks| - 1;
      assert chunks[..k + 1] == chunks;
    } else {
      k := ArrivesIn(front, position);
      assert front[..k] == chunks[..k] && front[..k + 1] == chunks[..k + 1];
    }
  }

  lemma LongTail(s: Bytes, from: nat)
    requires from <= |s|
    ensures NEWLINE in s[from..] || |Tail(s)| >= |s| - from
  {
    TailHasNone(s);
    if |Tail(s)| < |s| - from {
      assert s[from..][|s| - |Tail(s)| - 1 - from] == NEWLINE;
    }
  }

  /** A run over the limit is refused however the stream is cut, and for its size unless a frame before
      it was not acceptable. */
  lemma LongRunRefused(chunks: seq<Bytes>, i: nat, j: nat, accepts: Bytes -> bool)
    requires i <= j <= |Concat(chunks)| && NEWLINE !in Concat(chunks)[i..j] && j - i > LIMIT
    ensures !Feed(chunks, accepts).status.Open?
    ensures AllAccepted(Pieces(Concat(chunks)), accepts) ==> Feed(chunks, accepts).status.TooLarge?
  {
    var stream := Concat(chunks);
    var k := ArrivesIn(chunks, j);
    var prefix := Concat(chunks[..k]);
    ConcatPrefix(chunks, k);
    if i < |prefix| {
      assert forall p :: i <= p < |prefix| ==> prefix[p] == stream[i..j][p - i];
      LongTail(prefix, i);
    }
    assert Load(chunks, k) > LIMIT;
    DeliversThePieces(chunks, accepts);
  }

  // ---- Writer and reader -------------------------------------------------------------------

  function Wire(texts: seq<Bytes>): Bytes {
    if texts == [] then [] else Wire(texts[..|texts| - 1]) + (texts[|texts| - 1] + [NEWLINE])
  }

  /** JSON is never empty and holds no newline. */
  ghost predicate Texts(texts: seq<Bytes>) {
    forall k :: 0 <= k < |texts| ==> texts[k] != [] && NEWLINE !in texts[k]
  }

  lemma {:induction false} WireReadsBack(texts: seq<Bytes>)
    requires Texts(texts)
    ensures Pieces(Wire(texts)) == texts && NonEmpty(texts) == texts && Tail(Wire(texts)) == []
  {
    if texts == [] {
      WithoutNewline([]);
    } else {
      var n := |texts| - 1;
      hide Pieces, Tail;
      WireReadsBack(texts[..n]);
      PiecesOfTwo(Wire(texts[..n]), texts[n] + [NEWLINE]);
      OnePiece(texts[n]);
      assert [] + (texts[n] + [NEWLINE]) == texts[n] + [NEWLINE];
      assert texts[..n] + [texts[n]] == texts;
    }
  }

  /** What one side writes the other reads, however it is cut, exactly when every chunk fits. */
  lemma WrittenFramesAreRead(texts: seq<Bytes>, chunks: seq<Bytes>, accepts: Bytes -> bool)
    requires Texts(texts) && Concat(chunks) == Wire(texts) && forall t :: t in texts ==> accepts(t)
    ensures Feed(chunks, accepts) == Reading([], texts, Open) <==> Fits(chunks)
  {
    WireReadsBack(texts);
    DeliversThePieces(chunks, accepts);
  }

  /** Written frames always fit when they arrive one by one. */
  lemma {:induction false} FrameByFrameFits(chunks: seq<Bytes>)
    requires forall k :: 0 <= k < |chunks| ==> chunks[k] != [] && chunks[k][|chunks[k]| - 1] == NEWLINE
    requires forall k :: 0 <= k < |chunks| ==> |chunks[k]| <= LIMIT
    ensures Fits(chunks)
  {
    if chunks != [] {
      var n := |chunks| - 1;
      FrameByFrameFits(chunks[..n]);
      FitsMore(chunks);
      if n > 0 {
        assert chunks[..n][n - 1] == chunks[n - 1];
        var c := Concat(chunks[..n]);
        assert c[|c| - 1] == NEWLINE;
      }
    }
  }

  /** The writer accepts exactly the frames that a reader does not refuse for size when they come alone. */
  lemma WriterMatchesReader(text: Bytes, accepts: Bytes -> bool)
    ensures WriteBrokerFrame(text).Ok? <==> !Feed([text + [NEWLINE]], accepts).status.TooLarge?
    ensures WriteBrokerFrame(text).Ok? ==> WriteBrokerFrame(text).value == text + [NEWLINE]
  {
    var chunks := [text + [NEWLINE]];
    RefusedForSize(chunks, accepts);
    RefusedInside(chunks, accepts);
    assert chunks[..0] == [];
    assert Load(chunks, 0) == |text| + 1;
    assert RefusedAt(chunks, 0, accepts) <==> |text| + 1 > LIMIT;
  }

  /** Two written frames that arrive together are refused exactly when together they exceed the limit. */
  lemma TogetherTooLarge(a: Bytes, b: Bytes, accepts: Bytes -> bool)
    requires WriteBrokerFrame(a).Ok? && WriteBrokerFrame(b).Ok?
    ensures Feed([WriteBrokerFrame(a).value + WriteBrokerFrame(b).value], accepts).status.TooLarge?
            <==> |a| + |b| + 2 > LIMIT
  {
    var chunks := [WriteBrokerFrame(a).value + WriteBrokerFrame(b).value];
    RefusedForSize(chunks, accepts);
    assert chunks[..0] == [];
    assert Load(chunks, 0) == |a| + |b| + 2;
    assert Feed(chunks[..0], accepts).status.Open?;
  }
}
