/** The Remote Control bridge: its states, the translation of server-request identities across restarts,
    and the ownership caches that decide how a request travels. */
module Bridge {
  import opened Wrappers
  import opened Sequences
  import Decimal

  // ---- Outer request identities ------------------------------------------------------------

  /** A JSON-RPC identity that is present; it may be null. */
  datatype RequestId = Text(text: string) | Number(number: int) | Null

  const RESERVED := "codexhost/remote-control-bridge/server-request/"

  function OuterId(handle: string, ordinal: nat): string {
    RESERVED + (handle + ("/" + Decimal.Render(ordinal)))
  }

  lemma SlashThenDigits(a: string, b: string, c: string, d: string)
    requires forall i :: 0 <= i < |b| ==> Decimal.IsDigit(b[i])
    requires forall i :: 0 <= i < |d| ==> Decimal.IsDigit(d[i])
    requires a + ("/" + b) == c + ("/" + d)
    ensures a == c && b == d
  {
    var s := a + ("/" + b);
    assert s[|a|] == '/' && s[|c|] == '/';
    assert forall i :: |a| < i < |s| ==> s[i] == b[i - |a| - 1];
    assert forall i :: |c| < i < |s| ==> s[i] == d[i - |c| - 1];
    assert |a| == |c|;
    assert s[..|a|] == a && s[..|c|] == c && s[|a| + 1..] == b && s[|c| + 1..] == d;
  }

  /** Whatever a process handle looks like, an outer identity determines the handle and the ordinal. */
  lemma OuterIdsDiffer(h: string, m: nat, k: string, n: nat)
    requires OuterId(h, m) == OuterId(k, n)
    ensures h == k && m == n
  {
    assert OuterId(h, m)[|RESERVED|..] == h + ("/" + Decimal.Render(m));
    assert OuterId(k, n)[|RESERVED|..] == k + ("/" + Decimal.Render(n));
    SlashThenDigits(h, Decimal.Render(m), k, Decimal.Render(n));
    Decimal.RenderInjective(m, n);
  }

  /** What the bridge does that others can see. `Replied` is a reply handed to the bridge's writer. */
  datatype Effect =
    | Asked(outer: string, inner: RequestId)
    | Replied(outer: string, inner: RequestId)
    | Dispatched(id: RequestId)
    | Errored(id: RequestId)
    | Settled(id: RequestId)
    | Notified(rpcMethod: string)
    | Spawned(handle: string)
    | Killed(handle: string)

  ghost predicate IssuedAs(outer: string, used: set<string>, handle: string, ordinal: nat) {
    exists h: string, n: nat :: h in used && outer == OuterId(h, n) && (h == handle ==> n < ordinal)
  }

  ghost predicate AskedBefore(trace: seq<Effect>, j: nat, outer: string, inner: RequestId) {
    exists i :: 0 <= i < j && i < |trace| && trace[i] == Asked(outer, inner)
  }

  ghost predicate AsksDiffer(trace: seq<Effect>) {
    forall i, j :: 0 <= i < j < |trace| && trace[i].Asked? && trace[j].Asked? ==> trace[i].outer != trace[j].outer
  }

  ghost predicate RepliesDiffer(trace: seq<Effect>) {
    forall i, j :: 0 <= i < j < |trace| && trace[i].Replied? && trace[j].Replied? ==> trace[i].outer != trace[j].outer
  }

  ghost predicate NeverReplied(trace: seq<Effect>, outer: string) {
    forall i :: 0 <= i < |trace| && trace[i].Replied? ==> trace[i].outer != outer
  }

  predicate Reserved(id: RequestId) {
    id.Text? && RESERVED <= id.text
  }

  /** What holds of every run: `used` are the process handles there have been, `pending` the outer
      identities whose replies are still awaited. */
  ghost predicate Log(trace: seq<Effect>, used: set<string>, handle: string, ordinal: nat,
                      pending: map<string, RequestId>, remote: bool) {
    && handle in used
    && (forall i :: 0 <= i < |trace| && trace[i].Asked? ==> IssuedAs(trace[i].outer, used, handle, ordinal))
    && AsksDiffer(trace)
    && (forall o :: o in pending ==> AskedBefore(trace, |trace|, o, pending[o]) && NeverReplied(trace, o))
    && (forall j :: 0 <= j < |trace| && trace[j].Replied? ==> AskedBefore(trace, j, trace[j].outer, trace[j].inner))
    && RepliesDiffer(trace)
    && (remote ==> forall i :: 0 <= i < |trace| && trace[i].Dispatched? ==> !Reserved(trace[i].id))
  }

  lemma AskedStays(trace: seq<Effect>, e: Effect, j: nat, outer: string, inner: RequestId)
    requires AskedBefore(trace, j, outer, inner)
    ensures AskedBefore(trace + [e], j, outer, inner) && AskedBefore(trace + [e], j + 1, outer, inner)
  {
    var i :| 0 <= i < j && i < |trace| && trace[i] == Asked(outer, inner);
    assert (trace + [e])[i] == Asked(outer, inner);
  }

  /** Any effect of the bridge keeps what holds of runs, provided it is one of those allowed. */
  lemma LogGrows(trace: seq<Effect>, used: set<string>, handle: string, ordinal: nat,
                 pending: map<string, RequestId>, remote: bool, e: Effect)
    requires Log(trace, used, handle, ordinal, pending, remote)
    requires !e.Asked? && !e.Replied? && (e.Dispatched? && remote ==> !Reserved(e.id))
    ensures Log(trace + [e], used, handle, ordinal, pending, remote)
  {
    var more := trace + [e];
    forall o | o in pending ensures AskedBefore(more, |more|, o, pending[o]) {
      AskedStays(trace, e, |trace|, o, pending[o]);
    }
    forall j | 0 <= j < |more| && more[j].Replied? ensures AskedBefore(more, j, more[j].outer, more[j].inner) {
      AskedStays(trace, e, j, trace[j].outer, trace[j].inner);
    }
  }

  lemma IssuedStays(outer: string, used: set<string>, handle: string, ordinal: nat)
    requires IssuedAs(outer, used, handle, ordinal)
    ensures IssuedAs(outer, used, handle, ordinal + 1)
  {
    var h: string, n: nat :| h in used && outer == OuterId(h, n) && (h == handle ==> n < ordinal);
    assert outer == OuterId(h, n) && (h == handle ==> n < ordinal + 1);
  }

  lemma NextUnissued(used: set<string>, handle: string, ordinal: nat)
    ensures !IssuedAs(OuterId(handle, ordinal), used, handle, ordinal)
  {
    forall h: string, n: nat | h in used && OuterId(handle, ordinal) == OuterId(h, n)
      ensures h == handle && n == ordinal {
      OuterIdsDiffer(handle, ordinal, h, n);
    }
  }

  lemma AskingGrows(trace: seq<Effect>, used: set<string>, handle: string, ordinal: nat,
                    pending: map<string, RequestId>, remote: bool, inner: RequestId)
    requires Log(trace, used, handle, ordinal, pending, remote)
    ensures var outer := OuterId(handle, ordinal);
            Log(trace + [Asked(outer, inner)], used, handle, ordinal + 1, pending[outer := inner], remote)
  {
    var outer := OuterId(handle, ordinal);
    var more, waiting := trace + [Asked(outer, inner)], pending[outer := inner];
    NextUnissued(used, handle, ordinal);
    forall i | 0 <= i < |more| && more[i].Asked? ensures IssuedAs(more[i].outer, used, handle, ordinal + 1) {
      if i < |trace| { IssuedStays(trace[i].outer, used, handle, ordinal); }
    }
    forall j | 0 <= j < |more| && more[j].Replied?
      ensures AskedBefore(more, j, more[j].outer, more[j].inner) && more[j].outer != outer {
      AskedStays(trace, Asked(outer, inner), j, trace[j].outer, trace[j].inner);
    }
    forall o | o in waiting ensures AskedBefore(more, |more|, o, waiting[o]) && NeverReplied(more, o) {
      if o == outer {
        assert more[|trace|] == Asked(o, waiting[o]);
      } else {
        AskedStays(trace, Asked(outer, inner), |trace|, o, pending[o]);
      }
    }
  }

  lemma ReplyingGrows(trace: seq<Effect>, used: set<string>, handle: string, ordinal: nat,
                      pending: map<string, RequestId>, remote: bool, outer: string)
    requires Log(trace, used, handle, ordinal, pending, remote) && outer in pending
    ensures Log(trace + [Replied(outer, pending[outer])], used, handle, ordinal, pending - {outer}, remote)
  {
    hide IssuedAs, OuterId;
    var e := Replied(outer, pending[outer]);
    var more := trace + [e];
    forall o | o in pending ensures AskedBefore(more, |more|, o, pending[o]) && (o != outer ==> NeverReplied(more, o)) {
      AskedStays(trace, e, |trace|, o, pending[o]);
    }
    forall j | 0 <= j < |more| && more[j].Replied? ensures AskedBefore(more, j, more[j].outer, more[j].inner) {
      if j < |trace| {
        AskedStays(trace, e, j, trace[j].outer, trace[j].inner);
      } else {
        AskedStays(trace, e, |trace|, outer, pending[outer]);
      }
    }
  }

  /** A restart forgets what is pending and counts from one again, but under a handle never used. */
  lemma RestartKeepsLog(trace: seq<Effect>, used: set<string>, handle: string, ordinal: nat,
                        pending: map<string, RequestId>, remote: bool, next: string)
    requires Log(trace, used, handle, ordinal, pending, remote) && next !in used
    ensures Log(trace, used + {next}, next, 1, map[], remote)
  {
    forall i | 0 <= i < |trace| && trace[i].Asked? ensures IssuedAs(trace[i].outer, used + {next}, next, 1) {
      var h: string, n: nat :| h in used && trace[i].outer == OuterId(h, n) && (h == handle ==> n < ordinal);
      assert h in used + {next} && trace[i].outer == OuterId(h, n);
    }
  }

  lemma ForgettingKeepsLog(trace: seq<Effect>, used: set<string>, handle: string, ordinal: nat,
                           pending: map<string, RequestId>, remote: bool)
    requires Log(trace, used, handle, ordinal, pending, remote)
    ensures Log(trace, used, handle, ordinal, map[], remote)
  {
  }

  /** Each handle is spawned at most once, and not before the bridge has promised to become ready. */
  ghost predicate Spawns(trace: seq<Effect>, used: set<string>, handle: string, promise: Promise) {
    && (forall i :: 0 <= i < |trace| && trace[i].Spawned? ==> trace[i].handle in used)
    && (forall i, j :: 0 <= i < j < |trace| && trace[i].Spawned? && trace[j].Spawned? ==>
       trace[i].handle != trace[j].handle)
    && (promise.Unmade? ==> forall i :: 0 <= i < |trace| && trace[i].Spawned? ==> trace[i].handle != handle)
  }

  lemma RestartKeepsSpawns(trace: seq<Effect>, used: set<string>, handle: string, promise: Promise, next: string)
    requires Spawns(trace, used, handle, promise) && next !in used
    ensures Spawns(trace, used + {next}, next, Unmade) && Spawns(trace, used + {next}, next, promise)
  {
  }

  lemma NothingBuffered()
    ensures Buffered("", [], "")
  {
  }

  // ---- Thread ownership --------------------------------------------------------------------

  datatype Owner = External | Codex

  /** What the bridge has learnt about threads, in order. */
  datatype Sighting = Seen(thread: string, owner: Owner) | Deleted(thread: string) | Cleared

  /** The last thing learnt about a thread is what is known of it. */
  function Known(sightings: seq<Sighting>, thread: string): Option<Owner> {
    if sightings == [] then None
    else match sightings[|sightings| - 1]
      case Seen(t, owner) => if t == thread then Some(owner) else Known(sightings[..|sightings| - 1], thread)
      case Deleted(t) => if t == thread then None else Known(sightings[..|sightings| - 1], thread)
      case Cleared => None
  }

  /** The two caches hold exactly what is known, so no thread is ever in both. */
  ghost predicate Owned(external: set<string>, official: set<string>, sightings: seq<Sighting>) {
    forall t :: (t in external <==> Known(sightings, t) == Some(External))
      && (t in official <==> Known(sightings, t) == Some(Codex))
  }

  lemma CachesTellKnown(external: set<string>, official: set<string>, sightings: seq<Sighting>, thread: string)
    requires Owned(external, official, sightings)
    ensures !(thread in external && thread in official)
    ensures OwnerIn(external, official, thread) == Known(sightings, thread)
  {
    var known := Known(sightings, thread);
    assert known.Some? ==> known.value == External || known.value == Codex;
  }

  lemma KnownNext(sightings: seq<Sighting>, s: Sighting, thread: string)
    ensures Known(sightings + [s], thread)
            == match s
               case Seen(t, owner) => if t == thread then Some(owner) else Known(sightings, thread)
               case Deleted(t) => if t == thread then None else Known(sightings, thread)
               case Cleared => None
  {
    assert (sightings + [s])[..|sightings|] == sightings;
  }

  lemma SeeingKeepsOwned(external: set<string>, official: set<string>, sightings: seq<Sighting>, thread: string,
                         owner: Owner)
    requires Owned(external, official, sightings)
    ensures Owned(if owner.External? then external + {thread} else external - {thread},
                  if owner.External? then official - {thread} else official + {thread},
                  sightings + [Seen(thread, owner)])
  {
    forall t
      ensures Known(sightings + [Seen(thread, owner)], t) == if t == thread then Some(owner) else Known(sightings, t)
    {
      KnownNext(sightings, Seen(thread, owner), t);
    }
  }

  lemma DeletingKeepsOwned(external: set<string>, official: set<string>, sightings: seq<Sighting>, thread: string)
    requires Owned(external, official, sightings)
    ensures Owned(external - {thread}, official - {thread}, sightings + [Deleted(thread)])
  {
    forall t ensures Known(sightings + [Deleted(thread)], t) == if t == thread then None else Known(sightings, t) {
      KnownNext(sightings, Deleted(thread), t);
    }
  }

  lemma ClearingKeepsOwned(sightings: seq<Sighting>)
    ensures Owned({}, {}, sightings + [Cleared])
  {
    forall t ensures Known(sightings + [Cleared], t).None? {
      KnownNext(sightings, Cleared, t);
    }
  }

  /** A thread as the app server describes it. */
  datatype Thread = Thread(id: string, provider: string, cli: string)

  predicate FromExternal(thread: Thread) {
    thread.provider == "codexhost" || thread.cli == "codexhost"
  }

  /** The parts of a result the bridge looks at; a missing or malformed part is None. */
  datatype Payload = Payload(data: Option<seq<Thread>>, thread: Option<Thread>, owner: Option<Owner>)

  /** A request the app server has yet to answer. `thread` is the thread its parameters name, if any. */
  datatype Call = Call(id: RequestId, rpcMethod: string, thread: Option<string>)

  function ThreadSighting(thread: Thread): (r: seq<Sighting>)
    ensures |r| <= 1
  {
    if thread.provider == "codexhost" || thread.cli == "codexhost" then [Seen(thread.id, External)] else []
  }

  function ThreadSightings(threads: seq<Thread>): seq<Sighting> {
    if threads == [] then [] else ThreadSightings(threads[..|threads| - 1]) + ThreadSighting(threads[|threads| - 1])
  }

  /** What an answered request teaches. Threads in a listing can only be learnt to be external; an
      inspection can also say the opposite; a deletion forgets. */
  function Lesson(call: Option<Call>, result: Payload): seq<Sighting> {
    if call.None? then []
    else
      var c := call.value;
      if c.rpcMethod == "thread/list" && result.data.Some? then ThreadSightings(result.data.value)
      else if c.rpcMethod in {"thread/start", "thread/read", "thread/resume"} then
        (if result.thread.Some? then ThreadSighting(result.thread.value) else [])
      else if c.rpcMethod == "codexhost/thread/inspect" && c.thread.Some? then
        (if result.owner.Some? then [Seen(c.thread.value, result.owner.value)] else [])
      else if c.rpcMethod == "thread/delete" && c.thread.Some? then [Deleted(c.thread.value)]
      else []
  }

  // ---- Requests awaiting the app server ----------------------------------------------------

  function FindCall(calls: seq<Call>, id: RequestId): (r: Option<Call>)
    ensures r.Some? ==> r.value in calls && r.value.id == id
    ensures r.None? ==> forall c :: c in calls ==> c.id != id
  {
    if calls == [] then None else if calls[0].id == id then Some(calls[0]) else FindCall(calls[1..], id)
  }

  function RemoveCall(calls: seq<Call>, id: RequestId): seq<Call> {
    if calls == [] then [] else if calls[0].id == id then calls[1..] else [calls[0]] + RemoveCall(calls[1..], id)
  }

  function SetCall(calls: seq<Call>, call: Call): seq<Call> {
    if calls == [] then [call]
    else if calls[0].id == call.id then [call] + calls[1..]
    else [calls[0]] + SetCall(calls[1..], call)
  }

  /** No identity is awaited twice. */
  ghost predicate CallsDiffer(calls: seq<Call>) {
    forall i, j :: 0 <= i < j < |calls| ==> calls[i].id != calls[j].id
  }

  /** An answer takes away exactly the call it answers and leaves the others in their order. */
  lemma {:induction false} RemoveLeavesOthers(calls: seq<Call>, id: RequestId)
    ensures if FindCall(calls, id).None? then RemoveCall(calls, id) == calls
            else exists k :: 0 <= k < |calls| && calls[k].id == id
                             && RemoveCall(calls, id) == calls[..k] + calls[k + 1..]
  {
    if calls != [] && calls[0].id == id {
      assert calls[..0] + calls[1..] == calls[1..];
    } else if calls != [] {
      RemoveLeavesOthers(calls[1..], id);
      if FindCall(calls, id).Some? {
        var k :| 0 <= k < |calls[1..]| && calls[1..][k].id == id
                 && RemoveCall(calls[1..], id) == calls[1..][..k] + calls[1..][k + 1..];
        CutsOneLater(calls, k);
      }
    }
  }

  lemma CutsOneLater(calls: seq<Call>, k: nat)
    requires k + 1 < |calls|
    ensures [calls[0]] + (calls[1..][..k] + calls[1..][k + 1..]) == calls[..k + 1] + calls[k + 2..]
    ensures calls[1..][k] == calls[k + 1]
  {
  }

  lemma RemoveKeepsDiffering(calls: seq<Call>, id: RequestId)
    requires CallsDiffer(calls)
    ensures CallsDiffer(RemoveCall(calls, id)) && FindCall(RemoveCall(calls, id), id).None?
  {
    hide FindCall, RemoveCall;
    RemoveLeavesOthers(calls, id);
    if FindCall(calls, id).Some? {
      var k :| 0 <= k < |calls| && calls[k].id == id && RemoveCall(calls, id) == calls[..k] + calls[k + 1..];
      CutDiffers(calls, k);
    }
    NotFound(RemoveCall(calls, id), id);
    NotFound(calls, id);
  }

  lemma CutDiffers(calls: seq<Call>, k: nat)
    requires CallsDiffer(calls) && k < |calls|
    ensures CallsDiffer(calls[..k] + calls[k + 1..])
    ensures forall c :: c in calls[..k] + calls[k + 1..] ==> c.id != calls[k].id
  {
    var r := calls[..k] + calls[k + 1..];
    assert forall i :: 0 <= i < |r| ==> r[i] == if i < k then calls[i] else calls[i + 1];
  }

  lemma NotFound(calls: seq<Call>, id: RequestId)
    ensures FindCall(calls, id).None? <==> forall c :: c in calls ==> c.id != id
  {
  }

  /** A request is found by its own identity, and the others as before. */
  lemma {:induction false} SetFinds(calls: seq<Call>, call: Call, id: RequestId)
    ensures FindCall(SetCall(calls, call), id) == if id == call.id then Some(call) else FindCall(calls, id)
    ensures forall c :: c in SetCall(calls, call) ==> c == call || c in calls
  {
    if calls != [] && calls[0].id != call.id {
      SetFinds(calls[1..], call, id);
    }
  }

  lemma {:induction false} SetKeepsDiffering(calls: seq<Call>, call: Call)
    requires CallsDiffer(calls)
    ensures CallsDiffer(SetCall(calls, call))
  {
    if calls != [] && calls[0].id != call.id {
      SetKeepsDiffering(calls[1..], call);
      SetFinds(calls[1..], call, call.id);
      var rest := SetCall(calls[1..], call);
      forall k | 0 <= k < |rest| ensures rest[k].id != calls[0].id {
        assert rest[k] in rest;
      }
    }
  }

  function Failures(calls: seq<Call>): (r: seq<Effect>)
    ensures |r| == |calls|
  {
    seq(|calls|, i requires 0 <= i < |calls| => Errored(calls[i].id))
  }

  // ---- The stream of lines -----------------------------------------------------------------

  datatype Frame =
    | NotAnObject
    | ReadyReport(supported: bool)
    | Notification(rpcMethod: string, started: Option<Thread>)
    | ServerRequest(id: RequestId)
    | Anonymous
    | ErrorResponse(id: RequestId)
    | ResultResponse(id: RequestId, result: Payload)

  /** A notification of the outer connection; `OutputDelta` carries decoded text of one stream. */
  datatype OuterNotification =
    | ProcessExited(handle: string)
    | OutputDelta(handle: string, stdout: bool, text: string, capReached: bool)
    | Unrelated

  datatype Line = Blank | Parsed(frame: Frame) | Invalid

  /** The frames of the lines that hold one. */
  function FramesOf(decode: string -> Line, lines: seq<string>): seq<Frame> {
    if lines == [] then []
    else
      var line := decode(lines[|lines| - 1]);
      FramesOf(decode, lines[..|lines| - 1]) + (if line.Parsed? then [line.frame] else [])
  }

  lemma FramesOfNext(decode: string -> Line, taken: seq<string>, from: nat, line: string)
    requires from <= |taken|
    ensures FramesOf(decode, (taken + [line])[from..])
            == FramesOf(decode, taken[from..]) + (if decode(line).Parsed? then [decode(line).frame] else [])
  {
    assert (taken + [line])[from..] == taken[from..] + [line];
    assert (taken[from..] + [line])[..|taken| - from] == taken[from..];
  }

  lemma NoFramesYet(decode: string -> Line, taken: seq<string>)
    ensures FramesOf(decode, taken[|taken|..]) == []
  {
  }

  function Lines(taken: seq<string>): string {
    if taken == [] then "" else Lines(taken[..|taken| - 1]) + (taken[|taken| - 1] + "\n")
  }

  /** No character is lost or read twice: the lines taken and the buffer are the stream received. */
  ghost predicate Buffered(received: string, taken: seq<string>, buffer: string) {
    received == Lines(taken) + buffer && forall i :: 0 <= i < |taken| ==> '\n' !in taken[i]
  }

  lemma ReceivingKeepsBuffered(received: string, taken: seq<string>, buffer: string, text: string)
    requires Buffered(received, taken, buffer)
    ensures Buffered(received + text, taken, buffer + text)
  {
    assert Lines(taken) + buffer + text == Lines(taken) + (buffer + text);
  }

  lemma TakingKeepsBuffered(received: string, taken: seq<string>, buffer: string, newline: nat)
    requires Buffered(received, taken, buffer) && newline < |buffer| && buffer[newline] == '\n'
             && '\n' !in buffer[..newline]
    ensures Buffered(received, taken + [buffer[..newline]], buffer[newline + 1..])
  {
    assert (taken + [buffer[..newline]])[..|taken|] == taken;
    assert buffer == buffer[..newline] + "\n" + buffer[newline + 1..];
    assert Lines(taken) + (buffer[..newline] + "\n" + buffer[newline + 1..])
           == Lines(taken) + (buffer[..newline] + "\n") + buffer[newline + 1..];
  }

  // ---- Routing -----------------------------------------------------------------------------

  /** A parameter; null and undefined are Absent. */
  datatype Field = Absent | Is(text: string) | NotText

  datatype Params =
    | NoRecord
    | Params(threadId: Field, conversationId: Field, model: Field, account: Field, ephemeral: bool)

  datatype Transport = Bridged | Direct | Resolving(thread: string)

  predicate StartsWith(s: string, prefix: string) {
    prefix <= s
  }

  lemma StartIsNotOwn()
    ensures !StartsWith("thread/start", "codexhost/") && ThreadScoped("thread/start")
  {
    assert "thread/start"[0] == 't' && "codexhost/"[0] == 'c';
  }

  const UPPER := "ABCDEFGHIJKLMNOPQRSTUVWXYZ"
  const LOWER := "abcdefghijklmnopqrstuvwxyz"
  const DIGITS := "0123456789"
  const FILENAME_CHARACTERS := UPPER + LOWER + DIGITS + "._~-"

  predicate SafeCharacter(c: char) {
    'A' <= c <= 'Z' || 'a' <= c <= 'z' || '0' <= c <= '9' || c in "._~-"
  }

  predicate FilenameSafe(s: string) {
    s != "" && forall i :: 0 <= i < |s| ==> SafeCharacter(s[i])
  }

  /** The ranges of the pattern hold exactly the characters listed. */
  lemma SafeCharacterListed(c: char)
    ensures SafeCharacter(c) <==> c in FILENAME_CHARACTERS
  {
    hide UPPER, LOWER, DIGITS;
    LettersListed(c);
  }

  lemma LettersListed(c: char)
    ensures c in UPPER <==> 'A' <= c <= 'Z'
    ensures c in LOWER <==> 'a' <= c <= 'z'
    ensures c in DIGITS <==> '0' <= c <= '9'
  {
  }

  lemma SafeCharacters(s: string)
    ensures FilenameSafe(s) <==> s != "" && forall c :: c in s ==> c in FILENAME_CHARACTERS
  {
    hide SafeCharacter, FILENAME_CHARACTERS;
    forall c: char ensures SafeCharacter(c) <==> c in FILENAME_CHARACTERS {
      SafeCharacterListed(c);
    }
  }

  predicate ThreadScoped(rpcMethod: string) {
    StartsWith(rpcMethod, "thread/") || StartsWith(rpcMethod, "turn/") || StartsWith(rpcMethod, "review/")
  }

  /** A thread identity of another type than text hides the conversation identity. */
  function ThreadOf(params: Params): Option<string> {
    if params.NoRecord? then None
    else
      var value := if params.threadId.Absent? then params.conversationId else params.threadId;
      if value.Is? && value.text != "" then Some(value.text) else None
  }

  predicate ForExternalAccount(params: Params) {
    params.Params? && ((params.model.Is? && StartsWith(params.model.text, "codexhost/")) || params.account.Is?)
  }

  function OwnerIn(external: set<string>, official: set<string>, thread: string): Option<Owner> {
    if thread in external then Some(External) else if thread in official then Some(Codex) else None
  }

  predicate UsesBridge(rpcMethod: string, params: Params, known: Option<Owner>, modelSelected: bool) {
    if StartsWith(rpcMethod, "codexhost/") || rpcMethod == "thread/list" then true
    else if rpcMethod == "thread/start" then ForExternalAccount(params)
    else if known.Some? then known.value.External?
    else modelSelected && ThreadScoped(rpcMethod)
  }

  datatype BridgeState = Idle | Starting | Ready | Failed | Disposed

  /** The promise that the bridge becomes ready. */
  datatype Promise = Unmade | Pending | Resolved | Rejected

  class PolicyBridge {
    const remote: bool
    const decode: string -> Line
    var state: BridgeState
    var promise: Promise
    var handle: string
    var ordinal: nat
    var serverRequests: map<string, RequestId>
    var requests: seq<Call>
    var external: set<string>
    var official: set<string>
    var selectedModel: Option<string>
    var selectedAccount: Option<string>
    var buffer: string
    ghost var trace: seq<Effect>
    ghost var used: set<string>
    ghost var sightings: seq<Sighting>
    ghost var received: string
    ghost var taken: seq<string>
    ghost var handled: seq<Frame>

    ghost predicate Valid()
      reads this
    {
      && Log(trace, used, handle, ordinal, serverRequests, remote)
      && Spawns(trace, used, handle, promise)
      && Owned(external, official, sightings)
      && Buffered(received, taken, buffer)
      && (promise.Pending? <==> state.Starting?)
      && (state.Idle? ==> promise.Unmade?)
      && (selectedModel.Some? ==> "codexhost/" <= selectedModel.value)
      && CallsDiffer(requests)
    }

    constructor (remote: bool, decode: string -> Line, handle: string)
      ensures Valid() && state.Idle? && trace == [] && used == {handle}
    {
      this.remote, this.decode, this.handle := remote, decode, handle;
      state, promise, ordinal, serverRequests, requests := Idle, Unmade, 1, map[], [];
      external, official, selectedModel, selectedAccount, buffer := {}, {}, None, None, "";
      trace, used, sightings, received, taken, handled := [], {handle}, [], "", [], [];
    }

    /** An effect that concerns neither server requests nor processes started. */
    ghost method Note(e: Effect)
      requires Valid() && (e.Errored? || e.Settled? || e.Notified? || e.Killed?)
      modifies this`trace
      ensures Valid() && trace == old(trace) + [e]
    {
      LogGrows(trace, used, handle, ordinal, serverRequests, remote, e);
      hide Log, Owned, Buffered;
      trace := trace + [e];
    }

    // ---- States ----------------------------------------------------------------------------

    /** Every outstanding request is failed, once, and the process is killed if it may be running. */
    method FailBridge(terminate: bool)
      requires Valid()
      modifies this`state, this`promise, this`requests, this`trace
      ensures Valid()
      ensures if old(state).Failed? || old(state).Disposed? then
                state == old(state) && promise == old(promise) && requests == old(requests) && trace == old(trace)
              else
                && state.Failed? && requests == []
                && promise == (if old(promise).Pending? then Rejected else old(promise))
                && trace == old(trace) + Failures(old(requests))
                            + (if remote && terminate && !old(state).Idle? then [Killed(handle)] else [])
    {
      hide Log, Owned, Buffered;
      if state.Failed? || state.Disposed? {
        return;
      }
      var kill := terminate && !state.Idle?;
      state := Failed;
      promise := if promise.Pending? then Rejected else promise;
      RejectRequests();
      assert trace + [] == trace;
      if remote && kill {
        Note(Killed(handle));
      }
    }

    method RejectRequests()
      requires Valid()
      modifies this`requests, this`trace
      ensures Valid() && requests == [] && trace == old(trace) + Failures(old(requests))
    {
      hide Log, Owned, Buffered, Spawns;
      assert trace == trace + Failures(requests[..0]);
      for k := 0 to |requests|
        invariant Valid() && requests == old(requests) && trace == old(trace) + Failures(requests[..k])
      {
        assert Failures(requests[..k + 1]) == Failures(requests[..k]) + [Errored(requests[k].id)];
        Note(Errored(requests[k].id));
      }
      assert requests[..|requests|] == requests;
      requests := [];
    }

    /** A failed bridge starts over under a fresh handle. */
    method ResetFailedBridge(next: string)
      requires Valid() && next !in used
      modifies this`state, this`promise, this`handle, this`ordinal, this`serverRequests, this`buffer,
               this`used, this`received, this`taken
      ensures Valid()
      ensures if !old(state).Failed? then
                state == old(state) && promise == old(promise) && handle == old(handle) && ordinal == old(ordinal)
                && serverRequests == old(serverRequests) && buffer == old(buffer) && used == old(used)
              else
                state.Idle? && promise.Unmade? && handle == next && ordinal == 1 && serverRequests == map[]
                  && buffer == ""
                && used == old(used) + {next}
    {
      hide Log, Owned, Buffered, Spawns;
      if !state.Failed? {
        return;
      }
      Renew(next);
      state, promise := Idle, Unmade;
    }

    /** A new handle, with nothing issued, asked or read under it yet. */
    method Renew(next: string)
      requires Valid() && next !in used && state.Failed?
      modifies this`handle, this`ordinal, this`serverRequests, this`buffer, this`used, this`received, this`taken
      ensures Valid() && Spawns(trace, used, handle, Unmade)
      ensures handle == next && ordinal == 1 && serverRequests == map[] && buffer == "" && used == old(used) + {next}
    {
      hide Log, Owned, Buffered, Spawns;
      RestartKeepsLog(trace, used, handle, ordinal, serverRequests, remote, next);
      RestartKeepsSpawns(trace, used, handle, promise, next);
      used, handle, ordinal, serverRequests := used + {next}, next, 1, map[];
      EmptyBuffer();
    }

    method EmptyBuffer()
      requires Valid()
      modifies this`buffer, this`received, this`taken
      ensures Valid() && buffer == ""
    {
      hide Log, Owned, Buffered, Spawns;
      NothingBuffered();
      buffer, received, taken := "", "", [];
    }

    /** `throws` says that asking for the process threw at once. */
    method StartBridge(throws: bool)
      requires Valid()
      modifies this`state, this`promise, this`requests, this`trace
      ensures Valid()
      ensures if !remote || !old(promise).Unmade? then
                state == old(state) && promise == old(promise) && requests == old(requests) && trace == old(trace)
              else if throws then
                state.Failed? && promise.Rejected? && requests == []
                && trace == old(trace) + [Spawned(handle)] + Failures(old(requests)) + [Killed(handle)]
              else
                state.Starting? && promise.Pending? && requests == old(requests)
                  && trace == old(trace) + [Spawned(handle)]
    {
      if !remote || !promise.Unmade? {
        return;
      }
      LogGrows(trace, used, handle, ordinal, serverRequests, remote, Spawned(handle));
      assert handle in used;
      hide Log, Owned, Buffered;
      state, promise := Starting, Pending;
      trace := trace + [Spawned(handle)];
      if throws {
        FailBridge(true);
      }
    }

    method Dispose()
      requires Valid()
      modifies this
      ensures Valid() && state.Disposed? && requests == [] && serverRequests == map[]
      ensures external == {} && official == {} && selectedModel.None? && selectedAccount.None?
      ensures handle == old(handle) && used == old(used) && sightings == old(sightings) + [Cleared]
      ensures trace == old(trace)
                       + (if remote && (old(state).Starting? || old(state).Ready?) then [Killed(handle)] else [])
                       + Failures(old(requests))
    {
      hide Log, Owned, Buffered, Spawns;
      assert trace + [] == trace;
      if remote && (state.Starting? || state.Ready?) {
        Note(Killed(handle));
      }
      MarkDisposed();
      RejectRequests();
      Forget();
    }

    method MarkDisposed()
      requires Valid()
      modifies this`state, this`promise
      ensures Valid() && state.Disposed?
    {
      hide Log, Owned, Buffered;
      state := Disposed;
      promise := if promise.Pending? then Rejected else promise;
    }

    method Forget()
      requires Valid()
      modifies this`serverRequests, this`external, this`official, this`selectedModel, this`selectedAccount,
               this`sightings
      ensures Valid() && serverRequests == map[] && external == {} && official == {}
              && sightings == old(sightings) + [Cleared]
      ensures selectedModel.None? && selectedAccount.None?
    {
      hide Log, Owned, Buffered, Spawns;
      ForgettingKeepsLog(trace, used, handle, ordinal, serverRequests, remote);
      ClearingKeepsOwned(sightings);
      sightings := sightings + [Cleared];
      serverRequests, external, official, selectedModel, selectedAccount := map[], {}, {}, None, None;
    }

    // ---- What is learnt about threads ------------------------------------------------------

    method Learn(thread: string, owner: Owner)
      requires Valid()
      modifies this`external, this`official, this`sightings
      ensures Valid() && sightings == old(sightings) + [Seen(thread, owner)]
    {
      SeeingKeepsOwned(external, official, sightings, thread, owner);
      hide Log, Owned, Buffered, Spawns;
      if owner.External? {
        external, official := external + {thread}, official - {thread};
      } else {
        external, official := external - {thread}, official + {thread};
      }
      sightings := sightings + [Seen(thread, owner)];
    }

    method RememberExternalThread(thread: Thread)
      requires Valid()
      modifies this`external, this`official, this`sightings
      ensures Valid() && sightings == old(sightings) + ThreadSighting(thread)
    {
      assert sightings + [] == sightings;
      if FromExternal(thread) {
        Learn(thread.id, External);
      }
    }

    method RememberListing(threads: seq<Thread>)
      requires Valid()
      modifies this`external, this`official, this`sightings
      ensures Valid() && sightings == old(sightings) + ThreadSightings(threads)
    {
      hide Log, Owned, Buffered, Spawns, ThreadSighting;
      for k := 0 to |threads|
        invariant Valid() && sightings == old(sightings) + ThreadSightings(threads[..k])
      {
        assert threads[..k + 1][..k] == threads[..k];
        RememberExternalThread(threads[k]);
      }
      assert threads[..|threads|] == threads;
    }

    method Forsake(thread: string)
      requires Valid()
      modifies this`external, this`official, this`sightings
      ensures Valid() && sightings == old(sightings) + [Deleted(thread)]
    {
      DeletingKeepsOwned(external, official, sightings, thread);
      hide Log, Owned, Buffered, Spawns;
      external, official, sightings := external - {thread}, official - {thread}, sightings + [Deleted(thread)];
    }

    method ObserveResult(call: Option<Call>, result: Payload)
      requires Valid()
      modifies this`external, this`official, this`sightings
      ensures Valid() && sightings == old(sightings) + Lesson(call, result)
    {
      hide Log, Owned, Buffered, Spawns, ThreadSighting, ThreadSightings;
      assert sightings + [] == sightings;
      if call.None? {
        return;
      }
      var c := call.value;
      if c.rpcMethod == "thread/list" && result.data.Some? {
        RememberListing(result.data.value);
      } else if c.rpcMethod in {"thread/start", "thread/read", "thread/resume"} {
        if result.thread.Some? {
          RememberExternalThread(result.thread.value);
        }
      } else if c.rpcMethod == "codexhost/thread/inspect" && c.thread.Some? {
        if result.owner.Some? {
          Learn(c.thread.value, result.owner.value);
        }
      } else if c.rpcMethod == "thread/delete" && c.thread.Some? {
        Forsake(c.thread.value);
      }
    }

    // ---- Frames from the app server --------------------------------------------------------

    /** A ready report makes the bridge ready in any state, also one that had failed or been disposed of;
        it keeps only a promise still pending. */
    method BecomeReady()
      requires Valid()
      modifies this`state, this`promise
      ensures Valid() && state.Ready? && promise == if old(promise).Pending? then Resolved else old(promise)
    {
      hide Log, Owned, Buffered;
      state := Ready;
      promise := if promise.Pending? then Resolved else promise;
    }

    /** The request is passed on under an outer identity of its own. */
    method PassOn(inner: RequestId)
      requires Valid()
      modifies this`ordinal, this`serverRequests, this`trace
      ensures Valid() && ordinal == old(ordinal) + 1
      ensures serverRequests == old(serverRequests)[OuterId(handle, old(ordinal)) := inner]
      ensures trace == old(trace) + [Asked(OuterId(handle, old(ordinal)), inner)]
    {
      AskingGrows(trace, used, handle, ordinal, serverRequests, remote, inner);
      hide Log, Owned, Buffered, OuterId;
      trace := trace + [Asked(OuterId(handle, ordinal), inner)];
      serverRequests := serverRequests[OuterId(handle, ordinal) := inner];
      ordinal := ordinal + 1;
    }

    method Answered(id: RequestId, e: Effect) returns (call: Option<Call>)
      requires Valid() && (e == Errored(id) || e == Settled(id))
      modifies this`requests, this`trace
      ensures Valid() && call == FindCall(old(requests), id) && requests == RemoveCall(old(requests), id)
      ensures trace == old(trace) + [e]
    {
      hide Log, Owned, Buffered, Spawns, FindCall, RemoveCall, CallsDiffer;
      RemoveKeepsDiffering(requests, id);
      call := FindCall(requests, id);
      requests := RemoveCall(requests, id);
      Note(e);
    }

    method Settle(id: RequestId, result: Payload)
      requires Valid()
      modifies this`requests, this`trace, this`external, this`official, this`sightings
      ensures Valid() && requests == RemoveCall(old(requests), id) && trace == old(trace) + [Settled(id)]
      ensures sightings == old(sightings) + Lesson(FindCall(old(requests), id), result)
    {
      hide Log, Owned, Buffered, Spawns, Lesson, FindCall, RemoveCall;
      var call := FindCall(requests, id);
      ObserveResult(call, result);
      call := Answered(id, Settled(id));
    }

    twostate predicate BridgeFailed(terminate: bool)
      reads this
    {
      if old(state).Failed? || old(state).Disposed? then
        state == old(state) && promise == old(promise) && requests == old(requests) && trace == old(trace)
      else
        && state.Failed? && requests == []
        && promise == (if old(promise).Pending? then Rejected else old(promise))
        && trace == old(trace) + Failures(old(requests))
                    + (if remote && terminate && !old(state).Idle? then [Killed(handle)] else [])
    }

    twostate predicate Handled(frame: Frame)
      reads this
    {
      match frame
      case NotAnObject => BridgeFailed(true) && sightings == old(sightings)
      case Anonymous => BridgeFailed(true) && sightings == old(sightings)
      case ReadyReport(supported) =>
        if !supported then BridgeFailed(true) && sightings == old(sightings)
        else state.Ready? && promise == (if old(promise).Pending? then Resolved else old(promise))
             && requests == old(requests) && trace == old(trace) && sightings == old(sightings)
      case Notification(m, started) =>
        state == old(state) && promise == old(promise) && requests == old(requests)
          && trace == old(trace) + [Notified(m)]
        && sightings == old(sightings) + (if m == "thread/started" && started.Some? then ThreadSighting(started.value)
           else [])
      case ServerRequest(inner) =>
        state == old(state) && promise == old(promise) && requests == old(requests)
        && trace == old(trace) + [Asked(OuterId(handle, old(ordinal)), inner)] && sightings == old(sightings)
      case ErrorResponse(id) =>
        state == old(state) && promise == old(promise) && requests == RemoveCall(old(requests), id)
        && trace == old(trace) + [Errored(id)] && sightings == old(sightings)
      case ResultResponse(id, result) =>
        state == old(state) && promise == old(promise) && requests == RemoveCall(old(requests), id)
        && trace == old(trace) + [Settled(id)]
        && sightings == old(sightings) + Lesson(FindCall(old(requests), id), result)
    }

    method HandleBridgeFrame(frame: Frame)
      requires Valid()
      modifies this`state, this`promise, this`requests, this`trace, this`ordinal, this`serverRequests,
               this`external, this`official, this`sightings, this`handled
      ensures Valid() && Handled(frame) && handled == old(handled) + [frame]
      ensures if frame.ServerRequest? then
                ordinal == old(ordinal) + 1
                && serverRequests == old(serverRequests)[OuterId(handle, old(ordinal)) := frame.id]
              else ordinal == old(ordinal) && serverRequests == old(serverRequests)
    {
      hide Log, Owned, Buffered, Spawns, Lesson, FindCall, RemoveCall, Failures, ThreadSighting, OuterId;
      handled := handled + [frame];
      match frame {
        case NotAnObject =>
          FailBridge(true);
        case ReadyReport(supported) =>
          if supported {
            BecomeReady();
          } else {
            FailBridge(true);
          }
        case Anonymous =>
          FailBridge(true);
        case _ =>
          HandleMessage(frame);
      }
    }

    method HandleMessage(frame: Frame)
      requires Valid() && (frame.Notification? || frame.ServerRequest? || frame.ErrorResponse? || frame.ResultResponse?)
      modifies this`requests, this`trace, this`ordinal, this`serverRequests, this`external, this`official,
               this`sightings
      ensures Valid() && Handled(frame)
      ensures if frame.ServerRequest? then
                ordinal == old(ordinal) + 1
                && serverRequests == old(serverRequests)[OuterId(handle, old(ordinal)) := frame.id]
              else ordinal == old(ordinal) && serverRequests == old(serverRequests)
    {
      hide Log, Owned, Buffered, Spawns, Lesson, FindCall, RemoveCall, Failures, ThreadSighting, OuterId;
      match frame {
        case Notification(m, started) =>
          assert sightings + [] == sightings;
          if m == "thread/started" && started.Some? {
            RememberExternalThread(started.value);
          }
          Note(Notified(m));
        case ServerRequest(inner) =>
          PassOn(inner);
        case ErrorResponse(id) =>
          var call := Answered(id, Errored(id));
        case ResultResponse(id, result) =>
          Settle(id, result);
      }
    }

    /** Takes the complete lines of the stream one by one; one that cannot be parsed fails the bridge and
        leaves what follows it in the buffer. */
    method ConsumeBridgeOutput(text: string)
      requires Valid()
      modifies this`state, this`promise, this`requests, this`trace, this`ordinal, this`serverRequests,
               this`external, this`official, this`sightings, this`handled, this`buffer, this`received, this`taken
      ensures Valid() && received == old(received) + text
      ensures old(taken) <= taken && old(trace) <= trace && old(sightings) <= sightings
      ensures (forall k :: |old(taken)| <= k < |taken| ==> !decode(taken[k]).Invalid?) ==> '\n' !in buffer
      ensures forall k :: |old(taken)| <= k < |taken| - 1 ==> !decode(taken[k]).Invalid?
      ensures handled == old(handled) + FramesOf(decode, taken[|old(taken)|..])
    {
      hide Log, Owned, Buffered, Spawns, FramesOf;
      NoFramesYet(decode, taken);
      AppendStdout(text);
      while true
        invariant Valid() && received == old(received) + text
        invariant old(taken) <= taken && old(trace) <= trace && old(sightings) <= sightings
        invariant forall k :: |old(taken)| <= k < |taken| ==> !decode(taken[k]).Invalid?
        invariant handled == old(handled) + FramesOf(decode, taken[|old(taken)|..])
        decreases |buffer|
      {
        if Position(buffer, '\n').None? {
          return;
        }
        ghost var before := taken;
        var line, valid := ConsumeLine();
        FramesOfNext(decode, before, |old(taken)|, line);
        assert taken[|before|] == line;
        if !valid {
          return;
        }
      }
    }

    /** Only the current process is listened to: what an earlier one still prints, or that it exits, is
        passed on and changes nothing. */
    method HandleOuterNotification(n: OuterNotification) returns (consumed: bool)
      requires Valid()
      modifies this`state, this`promise, this`requests, this`trace, this`ordinal, this`serverRequests,
               this`external, this`official, this`sightings, this`handled, this`buffer, this`received, this`taken
      ensures Valid()
      ensures old(trace) <= trace && old(sightings) <= sightings
      ensures consumed <==> !n.Unrelated? && n.handle == handle
      ensures !consumed ==>
                && state == old(state) && promise == old(promise) && requests == old(requests) && trace == old(trace)
                && serverRequests == old(serverRequests) && received == old(received) && handled == old(handled)
      ensures consumed && (n.ProcessExited? || n.capReached) ==>
                BridgeFailed(n.OutputDelta?) && received == old(received)
      ensures consumed && n.OutputDelta? && !n.capReached ==>
                received == old(received) + (if n.stdout then n.text else "")
                && old(taken) <= taken && handled == old(handled) + FramesOf(decode, taken[|old(taken)|..])
    {
      hide Log, Owned, Buffered, Spawns, FramesOf, Failures;
      NoFramesYet(decode, taken);
      assert received + "" == received && handled + [] == handled;
      match n {
        case Unrelated =>
          return false;
        case ProcessExited(h) =>
          if h != handle {
            return false;
          }
          FailBridge(false);
        case OutputDelta(h, stdout, text, capReached) =>
          if h != handle {
            return false;
          }
          if capReached {
            FailBridge(true);
          } else if stdout {
            ConsumeBridgeOutput(text);
          }
      }
      return true;
    }

    method ConsumeLine() returns (line: string, valid: bool)
      requires Valid() && Position(buffer, '\n').Some?
      modifies this`state, this`promise, this`requests, this`trace, this`ordinal, this`serverRequests,
               this`external, this`official, this`sightings, this`handled, this`buffer, this`taken
      ensures Valid() && |buffer| < |old(buffer)| && old(trace) <= trace && old(sightings) <= sightings
      ensures taken == old(taken) + [line] && valid == !decode(line).Invalid?
      ensures handled == old(handled) + (if decode(line).Parsed? then [decode(line).frame] else [])
      ensures match decode(line)
              case Blank => state == old(state) && trace == old(trace) && sightings == old(sightings)
              case Parsed(frame) => Handled(frame)
              case Invalid => BridgeFailed(true) && sightings == old(sightings)
    {
      hide Log, Owned, Buffered, Spawns, Position, OuterId, Lesson, ThreadSighting, Failures, FindCall, RemoveCall;
      line := TakeLine();
      match decode(line) {
        case Blank =>
          return line, true;
        case Parsed(frame) =>
          HandleBridgeFrame(frame);
          return line, true;
        case Invalid =>
          FailBridge(true);
          return line, false;
      }
    }

    method AppendStdout(text: string)
      requires Valid()
      modifies this`buffer, this`received
      ensures Valid() && received == old(received) + text && buffer == old(buffer) + text
    {
      ReceivingKeepsBuffered(received, taken, buffer, text);
      hide Log, Owned, Buffered, Spawns;
      buffer, received := buffer + text, received + text;
    }

    method TakeLine() returns (line: string)
      requires Valid() && Position(buffer, '\n').Some?
      modifies this`buffer, this`taken
      ensures Valid() && |buffer| < |old(buffer)| && taken == old(taken) + [line]
    {
      var newline := Position(buffer, '\n').value;
      TakingKeepsBuffered(received, taken, buffer, newline);
      hide Log, Owned, Buffered, Spawns, Position;
      line := buffer[..newline];
      buffer, taken := buffer[newline + 1..], taken + [line];
    }

    // ---- Replies to server requests --------------------------------------------------------

    /** A reply to a request passed on goes to the bridge's writer under its inner identity; a reserved
        identity that is not awaited, or no longer, goes nowhere; anything else is dispatched as before. */
    method DispatchAppServerResponse(id: RequestId)
      requires Valid()
      modifies this`serverRequests, this`trace
      ensures Valid()
      ensures trace == old(trace) +
                (if remote && id.Text? && id.text in old(serverRequests) then
                  [Replied(id.text, old(serverRequests)[id.text])]
                 else if remote && Reserved(id) then []
                 else [Dispatched(id)])
      ensures serverRequests == if remote && id.Text? then old(serverRequests) - {id.text} else old(serverRequests)
    {
      hide Owned, Buffered, OuterId, IssuedAs;
      if remote && id.Text? {
        if id.text in serverRequests {
          ReplyingGrows(trace, used, handle, ordinal, serverRequests, remote, id.text);
          trace := trace + [Replied(id.text, serverRequests[id.text])];
          serverRequests := serverRequests - {id.text};
          return;
        }
        assert serverRequests - {id.text} == serverRequests;
        if RESERVED <= id.text {
          assert trace + [] == trace;
          return;
        }
      }
      LogGrows(trace, used, handle, ordinal, serverRequests, remote, Dispatched(id));
      trace := trace + [Dispatched(id)];
    }

    // ---- Requests --------------------------------------------------------------------------

    method EnqueueBridgeRequest(call: Call)
      requires Valid()
      modifies this`requests
      ensures Valid() && requests == SetCall(old(requests), call)
    {
      hide Log, Owned, Buffered, Spawns, CallsDiffer;
      SetKeepsDiffering(requests, call);
      requests := SetCall(requests, call);
    }

    /** Selects a draft model, which must be a codexhost transport carrier; None selects none. */
    method Select(model: Option<string>) returns (r: Result<bool, string>)
      requires Valid()
      modifies this`selectedModel
      ensures Valid()
      ensures r.Err? <==> model.Some? && !("codexhost/" <= model.value)
      ensures r.Err? ==> selectedModel == old(selectedModel)
      ensures r.Ok? ==> selectedModel == model && r.value == (old(selectedModel) != model)
    {
      hide Log, Owned, Buffered, Spawns;
      if model.Some? && !StartsWith(model.value, "codexhost/") {
        return Err("Draft route Model must be a codexhost transport carrier");
      }
      if selectedModel == model {
        return Ok(false);
      }
      selectedModel := model;
      return Ok(true);
    }

    method SelectAccount(account: Option<string>) returns (r: Result<bool, string>)
      requires Valid()
      modifies this`selectedAccount
      ensures Valid()
      ensures r.Err? <==>
                account.Some? && (account.value == "" || exists c :: c in account.value && c !in FILENAME_CHARACTERS)
      ensures r.Err? ==> selectedAccount == old(selectedAccount)
      ensures r.Ok? ==> selectedAccount == account && r.value == (old(selectedAccount) != account)
    {
      hide Log, Owned, Buffered, Spawns;
      if account.Some? { SafeCharacters(account.value); }
      if account.Some? && !FilenameSafe(account.value) {
        return Err("Draft Codex Account ID must be filename-safe");
      }
      if selectedAccount == account {
        return Ok(false);
      }
      selectedAccount := account;
      return Ok(true);
    }

    /** The draft selection is written into a thread start that is not ephemeral; the account is used up. */
    method RouteThreadStart(params: Params) returns (routed: Params)
      requires Valid()
      modifies this`selectedAccount
      ensures Valid()
      ensures params.NoRecord? || params.ephemeral ==> routed == params && selectedAccount == old(selectedAccount)
      ensures params.Params? && !params.ephemeral ==>
                && selectedAccount.None?
                && routed == params.(model := if selectedModel.Some? then Is(selectedModel.value) else params.model,
                                     account := if old(selectedAccount).Some? then Is(old(selectedAccount).value)
                                                else params.account)
    {
      if params.NoRecord? || params.ephemeral {
        return params;
      }
      routed := params;
      if selectedModel.Some? {
        routed := routed.(model := Is(selectedModel.value));
      }
      if selectedAccount.Some? {
        routed := routed.(account := Is(selectedAccount.value));
      }
      selectedAccount := None;
    }

    function ShouldResolve(rpcMethod: string, params: Params): Option<string>
      reads this
    {
      if !remote || StartsWith(rpcMethod, "codexhost/") || !ThreadScoped(rpcMethod) then None
      else if ThreadOf(params).None? then None
      else if ThreadOf(params).value in external || ThreadOf(params).value in official then None
      else ThreadOf(params)
    }

    function ShouldUseBridge(rpcMethod: string, params: Params): bool
      reads this
    {
      remote && UsesBridge(rpcMethod, params,
                           if ThreadOf(params).Some? then OwnerIn(external, official, ThreadOf(params).value) else None,
                           selectedModel.Some?)
    }

    /** A request is sent: over the bridge, directly, or first looked up. A thread start that names no
        unknown thread goes over the bridge exactly if it carries a codexhost model or an account, be it
        its own or the draft selection. */
    method RoutedSend(rpcMethod: string, params: Params) returns (transport: Transport, routed: Params)
      requires Valid()
      modifies this`selectedAccount
      ensures Valid()
      ensures rpcMethod != "thread/start" ==> routed == params && selectedAccount == old(selectedAccount)
      ensures transport.Resolving? ==>
                remote && Known(sightings, transport.thread).None? && ThreadOf(routed) == Some(transport.thread)
      ensures transport == Route(rpcMethod, routed)
      ensures rpcMethod == "thread/start" && remote
              && (ThreadOf(params).Some? ==> Known(sightings, ThreadOf(params).value).Some?) ==>
                var carries :=
                  && params.Params?
                  && (|| (params.model.Is? && "codexhost/" <= params.model.text)
                      || params.account.Is?
                      || (!params.ephemeral && (selectedModel.Some? || old(selectedAccount).Some?)));
                transport == if carries then Bridged else Direct
    {
      hide Log, Owned, Buffered, Spawns, Known;
      StartIsNotOwn();
      if ThreadOf(params).Some? {
        CachesTellKnown(external, official, sightings, ThreadOf(params).value);
      }
      routed := params;
      if rpcMethod == "thread/start" {
        routed := RouteThreadStart(params);
      }
      var unresolved := ShouldResolve(rpcMethod, routed);
      if unresolved.Some? {
        CachesTellKnown(external, official, sightings, unresolved.value);
        return Resolving(unresolved.value), routed;
      }
      transport := if ShouldUseBridge(rpcMethod, routed) then Bridged else Direct;
    }

    function Route(rpcMethod: string, params: Params): Transport
      reads this
    {
      if ShouldResolve(rpcMethod, params).Some? then Resolving(ShouldResolve(rpcMethod, params).value)
      else if ShouldUseBridge(rpcMethod, params) then Bridged
      else Direct
    }

    /** How a request travels once an ownership lookup, if one is needed, has answered. */
    function Travels(rpcMethod: string, params: Params, answer: Owner): Transport
      reads this
    {
      var route := Route(rpcMethod, params);
      if route.Resolving? then (if answer.External? then Bridged else Direct) else route
    }
  }

  /** Nothing since has said anything else about the thread than that it is this owner's. */
  ghost predicate Undisturbed(sightings: seq<Sighting>, thread: string, since: nat, owner: Owner) {
    forall i :: since <= i < |sightings| ==>
      && sightings[i] != Deleted(thread) && sightings[i] != Cleared
      && (sightings[i].Seen? && sightings[i].thread == thread ==> sightings[i].owner == owner)
  }

  lemma {:induction false} KnownSince(sightings: seq<Sighting>, k: nat)
    requires k < |sightings| && sightings[k].Seen?
    requires Undisturbed(sightings, sightings[k].thread, k + 1, sightings[k].owner)
    ensures Known(sightings, sightings[k].thread) == Some(sightings[k].owner)
  {
    var n := |sightings| - 1;
    if k < n {
      assert sightings[n] != Cleared && sightings[n] != Deleted(sightings[k].thread);
      KnownSince(sightings[..n], k);
    }
  }

  /** The thread a request names: by its thread identity or, when it has none, by its conversation; only a
      non-empty text names one. */
  lemma ThreadNamed(params: Params, thread: string)
    ensures ThreadOf(params) == Some(thread) <==>
              thread != "" && params.Params?
              && (params.threadId == Is(thread) || (params.threadId.Absent? && params.conversationId == Is(thread)))
  {
  }

  /** From the time a thread has been sighted until something else is learnt about it, every request on
      the thread, a turn or a review of it goes over the bridge if it was sighted as external, and
      directly if not, whatever model is selected. */
  lemma RoutedByLastSighting(b: PolicyBridge, rpcMethod: string, params: Params, k: nat)
    requires b.Valid() && b.remote && ("thread/" <= rpcMethod || "turn/" <= rpcMethod || "review/" <= rpcMethod)
    requires rpcMethod != "thread/list" && rpcMethod != "thread/start"
    requires k < |b.sightings| && b.sightings[k].Seen? && ThreadOf(params) == Some(b.sightings[k].thread)
    requires Undisturbed(b.sightings, b.sightings[k].thread, k + 1, b.sightings[k].owner)
    ensures b.Route(rpcMethod, params) == if b.sightings[k].owner.External? then Bridged else Direct
  {
    hide Log, Spawns, Buffered, Owned, Known;
    assert rpcMethod[0] == 't' || rpcMethod[0] == 'r';
    KnownSince(b.sightings, k);
    CachesTellKnown(b.external, b.official, b.sightings, b.sightings[k].thread);
  }

  /** A thread of which nothing is known is looked up first, and the request goes the way the answer says. */
  lemma RoutedByLookup(b: PolicyBridge, rpcMethod: string, params: Params, answer: Owner)
    requires b.Valid() && b.remote && ("thread/" <= rpcMethod || "turn/" <= rpcMethod || "review/" <= rpcMethod)
    requires ThreadOf(params).Some?
    requires Known(b.sightings, ThreadOf(params).value).None?
    ensures b.Route(rpcMethod, params) == Resolving(ThreadOf(params).value)
    ensures b.Travels(rpcMethod, params, answer) == if answer.External? then Bridged else Direct
  {
    hide Log, Spawns, Buffered, Owned, Known;
    CachesTellKnown(b.external, b.official, b.sightings, ThreadOf(params).value);
    assert rpcMethod[0] == 't' || rpcMethod[0] == 'r';
  }

  /** The host's own requests always go over the bridge, and so does every listing that does not name a
      thread nothing is known of. */
  lemma OwnRequestsAreBridged(b: PolicyBridge, rpcMethod: string, params: Params)
    requires b.Valid() && b.remote
    requires "codexhost/" <= rpcMethod
             || (rpcMethod == "thread/list"
                 && (ThreadOf(params).Some? ==> Known(b.sightings, ThreadOf(params).value).Some?))
    ensures b.Route(rpcMethod, params) == Bridged
  {
    hide Log, Spawns, Buffered, Owned, Known;
    if ThreadOf(params).Some? {
      CachesTellKnown(b.external, b.official, b.sightings, ThreadOf(params).value);
    }
  }

  /** What names no thread goes over the bridge exactly if it is about threads, turns or reviews and a
      draft model is selected. */
  lemma UnnamedFollowsSelection(b: PolicyBridge, rpcMethod: string, params: Params)
    requires b.remote && ThreadOf(params).None?
    requires !("codexhost/" <= rpcMethod) && rpcMethod != "thread/list" && rpcMethod != "thread/start"
    ensures b.Route(rpcMethod, params) ==
              if b.selectedModel.Some? && ("thread/" <= rpcMethod || "turn/" <= rpcMethod || "review/" <= rpcMethod)
              then Bridged else Direct
  {
  }

  /** Any other request is never looked up, and goes over the bridge exactly if it names a thread known to be
      external. */
  lemma OthersFollowKnownThreads(b: PolicyBridge, rpcMethod: string, params: Params)
    requires b.Valid() && b.remote && !("codexhost/" <= rpcMethod)
    requires !("thread/" <= rpcMethod) && !("turn/" <= rpcMethod) && !("review/" <= rpcMethod)
    ensures b.Route(rpcMethod, params) ==
              if ThreadOf(params).Some? && Known(b.sightings, ThreadOf(params).value) == Some(External) then Bridged
              else Direct
  {
    hide Log, Spawns, Buffered, Owned, Known;
    if ThreadOf(params).Some? {
      CachesTellKnown(b.external, b.official, b.sightings, ThreadOf(params).value);
    }
    ListAndStartAreThreads();
  }

  lemma ListAndStartAreThreads()
    ensures "thread/" <= "thread/list" && "thread/" <= "thread/start"
  {
  }

  /** Without a remote-control host nothing is bridged and nothing is looked up. */
  lemma LocalHostsGoDirect(b: PolicyBridge, rpcMethod: string, params: Params, answer: Owner)
    requires !b.remote
    ensures b.Travels(rpcMethod, params, answer).Direct?
  {
  }

  /** In every run a reply handed to the writer has the identity of the one frame that asked under its
      outer identity, which came before it, and is the only reply under that identity. */
  lemma ReplyAnswersItsFrame(b: PolicyBridge, j: nat)
    requires b.Valid() && j < |b.trace| && b.trace[j].Replied?
    ensures exists i :: 0 <= i < j && b.trace[i] == Asked(b.trace[j].outer, b.trace[j].inner)
                        && forall k :: 0 <= k < |b.trace| && k != i && b.trace[k].Asked? ==>
                           b.trace[k].outer != b.trace[j].outer
    ensures forall k :: 0 <= k < |b.trace| && k != j && b.trace[k].Replied? ==> b.trace[k].outer != b.trace[j].outer
  {
    assert AskedBefore(b.trace, j, b.trace[j].outer, b.trace[j].inner);
    var i :| 0 <= i < j && b.trace[i] == Asked(b.trace[j].outer, b.trace[j].inner);
    forall k | 0 <= k < |b.trace| && k != i && b.trace[k].Asked? ensures b.trace[k].outer != b.trace[j].outer {
      assert if i < k then b.trace[i].outer != b.trace[k].outer else b.trace[k].outer != b.trace[i].outer;
    }
  }

  /** On a remote-control host no reply under an identity the bridge has issued, however late or often it
      comes, ever reaches the original dispatcher. */
  lemma IssuedNeverDispatched(b: PolicyBridge, i: nat, j: nat)
    requires b.Valid() && b.remote && i < |b.trace| && j < |b.trace| && b.trace[i].Asked?
    ensures b.trace[j] != Dispatched(Text(b.trace[i].outer))
  {
    hide Spawns, Owned, Buffered, CallsDiffer;
    assert IssuedAs(b.trace[i].outer, b.used, b.handle, b.ordinal);
    var h: string, n: nat :| h in b.used && b.trace[i].outer == OuterId(h, n);
    assert RESERVED <= OuterId(h, n);
  }
}
