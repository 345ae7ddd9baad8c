/** The in-process Harness adapter: which sessions there are, and how a history is forked or rolled back. */
module HarnessAdapter {
  import opened Wrappers
  import opened SessionTrace
  import opened HarnessSession
  import Decimal

  function SessionName(n: nat): string {
    "fake-session-" + Decimal.Render(n)
  }

  function DerivedItemId(session: nat, turn: nat, item: nat): Id {
    "fake-derived-item-" + (Decimal.Render(session) + ("-" + (Decimal.Render(turn) + ("-" + Decimal.Render(item)))))
  }

  function DerivedTurnKey(turn: nat): string {
    "fake-derived-turn-" + Decimal.Render(turn)
  }

  function DerivedItems(items: seq<ItemSnapshot>, session: nat, turn: nat): (r: seq<ItemSnapshot>)
    ensures |r| == |items|
  {
    seq(|items|, j requires 0 <= j < |items| =>
      items[j].(item := items[j].item.(id := DerivedItemId(session, turn, j + 1))))
  }

  /** The history a new session starts from: every native identity is replaced by one of its own. */
  function Derived(turns: seq<TurnRecord>, session: nat): (r: seq<TurnRecord>)
    ensures |r| == |turns|
  {
    seq(|turns|, i requires 0 <= i < |turns| =>
      turns[i].(sessionId := SessionName(session),
                key := DerivedTurnKey(i + 1),
                items := DerivedItems(turns[i].items, session, i + 1),
                checkpoint := if turns[i].checkpoint.Some? then
                  Some(Checkpoint(SessionName(session), CheckpointId(i + 1)))
                              else None))
  }

  /** The place of the first turn with this checkpoint. */
  function CheckpointIndex(turns: seq<TurnRecord>, id: string): Option<nat> {
    if turns == [] then None
    else if turns[0].checkpoint.Some? && turns[0].checkpoint.value.id == id then Some(0)
    else match CheckpointIndex(turns[1..], id)
      case None => None
      case Some(k) => Some(k + 1)
  }

  function Forked(turns: seq<TurnRecord>, checkpoint: string, session: nat): Option<seq<TurnRecord>> {
    match CheckpointIndex(turns, checkpoint)
    case None => None
    case Some(k) => if k < |turns| then Some(Derived(turns[..k + 1], session)) else None
  }

  function RolledBack(turns: seq<TurnRecord>, session: nat): Option<seq<TurnRecord>> {
    if turns == [] then None else Some(Derived(turns[..|turns| - 1], session))
  }

  // ---- History laws ------------------------------------------------------------------------

  lemma {:induction false} FoundAtIndex(turns: seq<TurnRecord>, id: string)
    ensures match CheckpointIndex(turns, id)
            case None => forall i :: 0 <= i < |turns| && turns[i].checkpoint.Some? ==>
                         turns[i].checkpoint.value.id != id
            case Some(k) => k < |turns| && turns[k].checkpoint.Some? && turns[k].checkpoint.value.id == id
  {
    if turns != [] {
      FoundAtIndex(turns[1..], id);
      assert forall i :: 1 <= i < |turns| ==> turns[i] == turns[1..][i - 1];
    }
  }

  /** In a history with forking, checkpoint k is found at turn k, and no other checkpoint is found. */
  lemma CheckpointOfTurn(turns: seq<TurnRecord>, sessionId: string, id: string, k: nat)
    requires Numbered(turns, sessionId, true)
    ensures id == CheckpointId(k) ==>
              CheckpointIndex(turns, id) == if 1 <= k <= |turns| then Some(k - 1) else None
    ensures CheckpointIndex(turns, id).Some? ==> CheckpointIndex(turns, id).value < |turns|
                                                 && id == CheckpointId(CheckpointIndex(turns, id).value + 1)
  {
    assert 1 <= k <= |turns| ==> turns[k - 1].checkpoint == Some(Checkpoint(sessionId, CheckpointId(k)));
    FoundAtIndex(turns, id);
    var found := CheckpointIndex(turns, id);
    if id == CheckpointId(k) && found.Some? {
      Decimal.NumberedNames("fake-checkpoint-", k, found.value + 1);
    }
  }

  /** A turn with its native identities left out. */
  function Anonymous(turn: TurnRecord): TurnRecord {
    turn.(sessionId := "", key := "", checkpoint := None,
          items := seq(|turn.items|,
            j requires 0 <= j < |turn.items| => turn.items[j].(item := turn.items[j].item.(id := ""))))
  }

  /** Equal up to a renaming of native identities. */
  ghost predicate SameTurns(a: seq<TurnRecord>, b: seq<TurnRecord>) {
    && |a| == |b|
    && forall i :: 0 <= i < |a| ==>
         Anonymous(a[i]) == Anonymous(b[i]) && a[i].checkpoint.Some? == b[i].checkpoint.Some?
  }

  /** Deriving renames, renumbers the checkpoints from one, and does nothing else. */
  lemma DerivedRenames(turns: seq<TurnRecord>, sessionId: string, fork: bool, session: nat)
    requires Numbered(turns, sessionId, fork)
    ensures SameTurns(turns, Derived(turns, session))
    ensures Numbered(Derived(turns, session), SessionName(session), fork)
    ensures forall i :: 0 <= i < |turns| ==>
            Derived(turns, session)[i].sessionId == "fake-session-" + Decimal.Render(session)
  {
    var r := Derived(turns, session);
    forall i | 0 <= i < |turns| ensures Anonymous(turns[i]) == Anonymous(r[i]) {
      assert Anonymous(turns[i]).items == Anonymous(r[i]).items;
    }
  }

  /** A fork at checkpoint k has the first k turns up to renaming, and its own checkpoints 1 to k. */
  lemma ForkHasFirstTurns(turns: seq<TurnRecord>, sessionId: string, k: nat, session: nat)
    requires Numbered(turns, sessionId, true)
    ensures Forked(turns, CheckpointId(k), session).Some? <==> 1 <= k <= |turns|
    ensures 1 <= k <= |turns| ==>
              var r := Forked(turns, CheckpointId(k), session).value;
              SameTurns(turns[..k], r) && Numbered(r, SessionName(session), true)
  {
    CheckpointOfTurn(turns, sessionId, CheckpointId(k), k);
    if 1 <= k <= |turns| {
      DerivedRenames(turns[..k], sessionId, true, session);
    }
  }

  /** Deriving from what was derived gives what deriving at once gives. */
  lemma DerivedTwice(turns: seq<TurnRecord>, j: nat, m: nat, n: nat)
    requires j <= |turns|
    ensures Derived(Derived(turns, m)[..j], n) == Derived(turns[..j], n)
  {
    var a, b := Derived(Derived(turns, m)[..j], n), Derived(turns[..j], n);
    forall i | 0 <= i < j ensures a[i] == b[i] {
      assert a[i].items == b[i].items;
    }
  }

  /** Forking at k and the fork at j <= k is forking at j. */
  lemma ForkOfFork(turns: seq<TurnRecord>, sessionId: string, k: nat, j: nat, m: nat, n: nat)
    requires Numbered(turns, sessionId, true) && 1 <= j <= k <= |turns|
    ensures Forked(turns, CheckpointId(k), m).Some?
    ensures Forked(Forked(turns, CheckpointId(k), m).value, CheckpointId(j), n) == Forked(turns, CheckpointId(j), n)
  {
    ForkHasFirstTurns(turns, sessionId, k, m);
    var middle := Forked(turns, CheckpointId(k), m).value;
    CheckpointOfTurn(turns, sessionId, CheckpointId(k), k);
    CheckpointOfTurn(turns, sessionId, CheckpointId(j), j);
    CheckpointOfTurn(middle, SessionName(m), CheckpointId(j), j);
    DerivedTwice(turns[..k], j, m, n);
    assert turns[..k][..j] == turns[..j];
  }

  /** Rolling back is forking at the last checkpoint but one, when there is one. */
  lemma RollbackIsFork(turns: seq<TurnRecord>, sessionId: string, session: nat)
    requires Numbered(turns, sessionId, true) && turns != []
    ensures RolledBack(turns, session) == Forked(turns, CheckpointId(|turns| - 1), session) <==> |turns| >= 2
  {
    CheckpointOfTurn(turns, sessionId, CheckpointId(|turns| - 1), |turns| - 1);
  }

  lemma {:induction false} DigitsThenDash(a: string, b: string, c: string, d: string)
    requires forall i :: 0 <= i < |a| ==> Decimal.IsDigit(a[i])
    requires forall i :: 0 <= i < |c| ==> Decimal.IsDigit(c[i])
    requires a + ("-" + b) == c + ("-" + d)
    ensures a == c && b == d
  {
    var s := a + ("-" + b);
    assert s[|a|] == '-' && s[|c|] == '-';
    assert forall i :: 0 <= i < |a| ==> s[i] == a[i];
    assert forall i :: 0 <= i < |c| ==> s[i] == c[i];
    assert |a| == |c|;
    assert s[..|a|] == a && s[..|c|] == c && s[|a| + 1..] == b && s[|c| + 1..] == d;
  }

  /** The item identities of a derived history are all different, also from those of other sessions. */
  lemma DerivedIdsDiffer(s: nat, t: nat, i: nat, s': nat, t': nat, i': nat)
    requires DerivedItemId(s, t, i) == DerivedItemId(s', t', i')
    ensures s == s' && t == t' && i == i'
  {
    var stem := "fake-derived-item-";
    var tail := Decimal.Render(t) + ("-" + Decimal.Render(i));
    var tail' := Decimal.Render(t') + ("-" + Decimal.Render(i'));
    assert DerivedItemId(s, t, i)[|stem|..] == Decimal.Render(s) + ("-" + tail);
    assert DerivedItemId(s', t', i')[|stem|..] == Decimal.Render(s') + ("-" + tail');
    DigitsThenDash(Decimal.Render(s), tail, Decimal.Render(s'), tail');
    DigitsThenDash(Decimal.Render(t), Decimal.Render(i), Decimal.Render(t'), Decimal.Render(i'));
    Decimal.RenderInjective(s, s');
    Decimal.RenderInjective(t, t');
    Decimal.RenderInjective(i, i');
  }

  ghost predicate At(turns: seq<TurnRecord>, i: nat, j: nat, id: Id) {
    i < |turns| && j < |turns[i].items| && turns[i].items[j].item.id == id
  }

  /** No two items of a history have one identity, and no two turns one key. */
  ghost predicate Distinct(turns: seq<TurnRecord>) {
    && (forall i: nat, j: nat, k: nat, l: nat, id: Id :: At(turns, i, j, id) && At(turns, k, l, id) ==>
          i == k && j == l)
    && (forall i, k :: 0 <= i < k < |turns| ==> turns[i].key != turns[k].key)
  }

  lemma DerivedAt(turns: seq<TurnRecord>, session: nat, i: nat, j: nat, id: Id)
    requires At(Derived(turns, session), i, j, id)
    ensures id == DerivedItemId(session, i + 1, j + 1)
  {
  }

  /** In a derived history all items have different identities and all turns different keys. */
  lemma DerivedDistinct(turns: seq<TurnRecord>, session: nat)
    ensures Distinct(Derived(turns, session))
  {
    hide At, Derived, DerivedItemId, DerivedTurnKey;
    var r := Derived(turns, session);
    forall i: nat, j: nat, k: nat, l: nat, id: Id | At(r, i, j, id) && At(r, k, l, id) ensures i == k && j == l {
      DerivedAt(turns, session, i, j, id);
      DerivedAt(turns, session, k, l, id);
      DerivedIdsDiffer(session, i + 1, j + 1, session, k + 1, l + 1);
    }
    forall i, k | 0 <= i < k < |r| ensures r[i].key != r[k].key {
      DerivedKeys(turns, session, i, k);
    }
  }

  lemma DerivedKeys(turns: seq<TurnRecord>, session: nat, i: nat, k: nat)
    requires i < k < |turns|
    ensures Derived(turns, session)[i].key != Derived(turns, session)[k].key
  {
    if DerivedTurnKey(i + 1) == DerivedTurnKey(k + 1) {
      Decimal.NumberedNames("fake-derived-turn-", i + 1, k + 1);
    }
  }

  /** No item identity of one session's derived history occurs in another's. */
  lemma DerivedApart(a: seq<TurnRecord>, s: nat, b: seq<TurnRecord>, t: nat, i: nat, j: nat, k: nat, l: nat, id: Id)
    requires At(Derived(a, s), i, j, id) && At(Derived(b, t), k, l, id)
    ensures s == t
  {
    hide At, Derived, DerivedItemId;
    DerivedAt(a, s, i, j, id);
    DerivedAt(b, t, k, l, id);
    DerivedIdsDiffer(s, i + 1, j + 1, t, k + 1, l + 1);
  }

  /** Nor is it ever the identity of an item a session starts itself, nor a derived key that of its turns. */
  lemma DerivedNeverFresh(session: nat, turn: nat, item: nat, n: nat)
    ensures DerivedItemId(session, turn, item) != ItemId(n) && DerivedTurnKey(turn) != TurnKey(n)
  {
    assert DerivedItemId(session, turn, item)[5] == 'd' && ItemId(n)[5] == 'i';
    assert DerivedTurnKey(turn)[5] == 'd' && TurnKey(n)[5] == 't';
  }

  // ---- The adapter -------------------------------------------------------------------------

  datatype Request =
    | Create(model: Option<string>, thinkingOption: Option<string>, permissionMode: Option<string>)
    | Resume(harness: string, source: string)
    | RollbackLastTurn(harness: string, source: string)
    | Fork(harness: string, source: string, checkpointHarness: string, checkpoint: Checkpoint)

  predicate Offers(catalog: set<string>, choice: Option<string>) {
    choice.None? || choice.value in catalog
  }

  class FakeHarnessAdapter {
    const harness: string
    const models: set<string>
    const thinkingOptions: set<string>
    const permissionModes: set<string>
    const defaultModel: Option<string>
    const supportsFork: bool
    const supportsForkAcrossCwd: bool
    const supportsRollback: bool
    var closed: bool
    var sessionOrdinal: nat
    var sessions: seq<FakeHarnessSession>
    var byNativeId: map<string, FakeHarnessSession>

    /** The k-th session created is known under the k-th name, and no other name is known. Every
        session's turns carry the checkpoints of their places. No two sessions share a channel or a
        stored history. */
    ghost predicate Valid()
      reads this, sessions, (set s | s in sessions :: s.channel), set s | s in sessions :: s.snapshot
    {
      && Registered(sessions, byNativeId, sessionOrdinal)
      && Separate(sessions)
      && forall s :: s in sessions ==> s.Valid() && s.numbered && s.fork == supportsFork
    }

    constructor (harness: string, models: set<string>, thinkingOptions: set<string>, permissionModes: set<string>,
                 defaultModel: Option<string>, supportsFork: bool, supportsForkAcrossCwd: bool, supportsRollback: bool)
      ensures Valid() && sessions == [] && !closed
    {
      this.harness, this.models, this.thinkingOptions := harness, models, thinkingOptions;
      this.permissionModes, this.defaultModel := permissionModes, defaultModel;
      this.supportsFork, this.supportsForkAcrossCwd, this.supportsRollback :=
        supportsFork, supportsForkAcrossCwd, supportsRollback;
      closed, sessionOrdinal, sessions, byNativeId := false, 0, [], map[];
    }

    /** Why a request is refused; the first reason that applies. */
    function Refusal(request: Request, cwd: string): Option<ErrorCode>
      reads this, byNativeId.Values, set s | s in byNativeId.Values :: s.snapshot
    {
      if closed then Some(InvalidState)
      else if cwd == "" then Some(InvalidRequest)
      else if request.RollbackLastTurn? && !supportsRollback then Some(Unsupported)
      else match request
        case Create(model, thinkingOption, permissionMode) =>
          if model.Some? && model.value !in models then Some(InvalidRequest)
          else if thinkingOption.Some? && thinkingOption.value !in thinkingOptions then Some(InvalidRequest)
          else if permissionMode.Some? && permissionMode.value !in permissionModes then Some(InvalidRequest)
          else None
        case Resume(harness, source) => Unknown(harness, source)
        case RollbackLastTurn(harness, source) =>
          if Unknown(harness, source).Some? then Unknown(harness, source)
          else if byNativeId[source].closed then Some(InvalidState)
          else if byNativeId[source].active.Some? then Some(SessionBusy)
          else if byNativeId[source].snapshot.turns == [] then Some(InvalidState)
          else None
        case Fork(harness, source, checkpointHarness, checkpoint) =>
          if Unknown(harness, source).Some? then Unknown(harness, source)
          else if !supportsFork || (!supportsForkAcrossCwd && cwd != byNativeId[source].cwd) then Some(Unsupported)
          else if checkpointHarness != this.harness || checkpoint.sessionId != source
                  || CheckpointIndex(byNativeId[source].snapshot.turns, checkpoint.id).None? then
                     Some(CheckpointNotFound)
          else None
    }

    function Unknown(harness: string, source: string): (r: Option<ErrorCode>)
      reads this
      ensures r.None? ==> source in byNativeId
    {
      if harness != this.harness then Some(InvalidRequest)
      else if source !in byNativeId then Some(SessionNotFound)
      else None
    }

    method CreateSession(cwd: string, model: Option<string>, sourceTurns: seq<TurnRecord>, ghost source: string)
      returns (session: FakeHarnessSession)
      requires Valid() && Numbered(sourceTurns, source, supportsFork)
      modifies this
      ensures Valid() && Added(session, cwd, model)
      ensures session.snapshot.turns == Derived(sourceTurns, sessionOrdinal) && Distinct(session.snapshot.turns)
      ensures closed == old(closed)
    {
      hide Registered, Separate, Numbered, Derived, Distinct, FakeHarnessSession.Valid;
      sessionOrdinal := sessionOrdinal + 1;
      var name := SessionName(sessionOrdinal);
      DerivedRenames(sourceTurns, source, supportsFork, sessionOrdinal);
      DerivedDistinct(sourceTurns, sessionOrdinal);
      session := new FakeHarnessSession(name, cwd, models, if model.Some? then model else defaultModel,
                                        Derived(sourceTurns, sessionOrdinal), supportsFork);
      assert forall s :: s in sessions ==> Apart(s, session);
      RegisterMore(sessions, byNativeId, sessionOrdinal - 1, session);
      SeparateMore(sessions, session);
      sessions := sessions + [session];
      byNativeId := byNativeId[name := session];
    }

    method Open(request: Request, cwd: string) returns (r: Result<FakeHarnessSession, ErrorCode>)
      requires Valid()
      modifies this
      ensures Valid() && closed == old(closed)
      ensures r.Err? <==> old(Refusal(request, cwd)).Some?
      ensures r.Err? ==> r.error == old(Refusal(request, cwd)).value
      ensures r.Err? || request.Resume? ==> Unopened()
      ensures r.Ok? && request.Resume? ==>
                request.source in old(byNativeId) && r.value == old(byNativeId)[request.source]
      ensures r.Ok? && request.Create? ==> Added(r.value, cwd, request.model) && r.value.snapshot.turns == []
      ensures r.Ok? && request.RollbackLastTurn? ==>
                && request.source in old(byNativeId)
                && Added(r.value, cwd, old(byNativeId)[request.source].model)
                && Distinct(r.value.snapshot.turns)
                && Some(r.value.snapshot.turns)
                   == RolledBack(old(byNativeId[request.source].snapshot.turns), sessionOrdinal)
      ensures r.Ok? && request.Fork? ==>
                && request.source in old(byNativeId)
                && Added(r.value, cwd, old(byNativeId)[request.source].model)
                && Distinct(r.value.snapshot.turns)
                && Some(r.value.snapshot.turns)
                   == Forked(old(byNativeId[request.source].snapshot.turns), request.checkpoint.id, sessionOrdinal)
    {
      hide Registered, Separate, Derived, Distinct, Numbered, CheckpointIndex, FakeHarnessSession.Valid;
      EmptyNumbered("", supportsFork);
      if closed {
        return Err(InvalidState);
      }
      if cwd == "" {
        return Err(InvalidRequest);
      }
      if request.RollbackLastTurn? && !supportsRollback {
        return Err(Unsupported);
      }
      if request.Create? {
        if !Offers(models, request.model) || !Offers(thinkingOptions, request.thinkingOption)
           || !Offers(permissionModes, request.permissionMode) {
          return Err(InvalidRequest);
        }
        var session := CreateSession(cwd, request.model, [], "");
        return Ok(session);
      }
      if request.harness != harness {
        return Err(InvalidRequest);
      }
      if request.source !in byNativeId {
        return Err(SessionNotFound);
      }
      var source := byNativeId[request.source];
      KnownSession(sessions, byNativeId, sessionOrdinal, request.source);
      match request {
        case Resume(_, _) =>
          r := Ok(source);
        case RollbackLastTurn(_, _) =>
          r := RollBack(source, cwd);
        case Fork(_, _, checkpointHarness, checkpoint) =>
          if !supportsFork || (!supportsForkAcrossCwd && cwd != source.cwd) {
            return Err(Unsupported);
          }
          if checkpointHarness != harness || checkpoint.sessionId != request.source {
            return Err(CheckpointNotFound);
          }
          r := ForkAt(source, cwd, checkpoint.id);
      }
    }

    method RollBack(source: FakeHarnessSession, cwd: string) returns (r: Result<FakeHarnessSession, ErrorCode>)
      requires Valid() && source in sessions
      modifies this
      ensures Valid() && closed == old(closed)
      ensures r.Err? ==> Unopened()
                         && r.error == if source.active.Some? && !source.closed then SessionBusy else InvalidState
      ensures r.Err? <==> source.closed || source.active.Some? || source.snapshot.turns == []
      ensures r.Ok? ==>
                && Added(r.value, cwd, source.model) && Distinct(r.value.snapshot.turns)
                && Some(r.value.snapshot.turns) == RolledBack(source.snapshot.turns, sessionOrdinal)
    {
      hide Registered, Separate, Derived, Distinct, Numbered, FakeHarnessSession.Valid;
      OwnNumbering(source);
      var current := source.ReadSnapshot();
      if current.Err? {
        return Err(current.error);
      }
      if current.value.turns == [] {
        return Err(InvalidState);
      }
      PrefixNumbered(current.value.turns, source.sessionId, supportsFork, |current.value.turns| - 1);
      var session := CreateSession(cwd, source.model, current.value.turns[..|current.value.turns| - 1],
                     source.sessionId);
      return Ok(session);
    }

    /** The source may be busy or closed: a fork takes what it has stored. */
    method ForkAt(source: FakeHarnessSession, cwd: string, checkpoint: string)
      returns (r: Result<FakeHarnessSession, ErrorCode>)
      requires Valid() && source in sessions
      modifies this
      ensures Valid() && closed == old(closed)
      ensures r.Err? ==> Unopened() && r.error == CheckpointNotFound
      ensures r.Err? <==> CheckpointIndex(source.snapshot.turns, checkpoint).None?
      ensures r.Ok? ==>
                && Added(r.value, cwd, source.model) && Distinct(r.value.snapshot.turns)
                && Some(r.value.snapshot.turns) == Forked(source.snapshot.turns, checkpoint, sessionOrdinal)
    {
      hide Registered, Separate, Derived, Distinct, Numbered, CheckpointIndex, FakeHarnessSession.Valid;
      OwnNumbering(source);
      var stored := source.PersistedSnapshot();
      var index := CheckpointIndex(stored.turns, checkpoint);
      if index.None? {
        return Err(CheckpointNotFound);
      }
      FoundAtIndex(stored.turns, checkpoint);
      PrefixNumbered(stored.turns, source.sessionId, supportsFork, index.value + 1);
      var session := CreateSession(cwd, source.model, stored.turns[..index.value + 1], source.sessionId);
      return Ok(session);
    }

    method Close()
      requires Valid()
      modifies this, sessions, (set s | s in sessions :: s.channel), set s | s in sessions :: s.snapshot
      ensures Valid() && closed && sessions == old(sessions)
      ensures !old(closed) ==> forall s :: s in sessions ==> s.closed
    {
      hide Registered, Separate, FakeHarnessSession.Valid;
      if closed {
        return;
      }
      closed := true;
      for k := 0 to |sessions|
        invariant Valid() && closed && sessions == old(sessions)
        invariant forall i :: 0 <= i < k ==> sessions[i].closed
      {
        CloseSession(k);
      }
    }

    method CloseSession(k: nat)
      requires Valid() && k < |sessions|
      modifies sessions[k], sessions[k].channel, sessions[k].snapshot
      ensures Valid() && sessions[k].closed
      ensures forall i :: 0 <= i < |sessions| && i != k ==> sessions[i].closed == old(sessions[i].closed)
    {
      hide Registered;
      sessions[k].Close();
      forall i | 0 <= i < |sessions| && i != k ensures unchanged(sessions[i]) && sessions[i].Valid() {
        assert old(sessions[i].Valid());
      }
    }

    twostate predicate Unopened()
      reads this
    {
      sessions == old(sessions) && byNativeId == old(byNativeId) && sessionOrdinal == old(sessionOrdinal)
    }

    /** A new session is registered, idle, in the directory asked for and with the model asked for. */
    twostate predicate Added(new session: FakeHarnessSession, cwd: string, model: Option<string>)
      reads this, session
    {
      && session.cwd == cwd && session.model == (if model.Some? then model else defaultModel)
      && session.trace == [] && session.active.None? && !session.closed
      && session.catalog == models && session.fork == supportsFork
      && fresh(session) && fresh(session.channel) && fresh(session.snapshot)
      && sessions == old(sessions) + [session]
      && sessionOrdinal == old(sessionOrdinal) + 1 && session.sessionId == SessionName(sessionOrdinal)
      && byNativeId == old(byNativeId)[session.sessionId := session]
    }
  }

  lemma OwnNumbering(s: FakeHarnessSession)
    requires s.Valid() && s.numbered
    ensures Numbered(s.snapshot.turns, s.sessionId, s.fork)
  {
  }

  lemma PrefixNumbered(turns: seq<TurnRecord>, sessionId: string, fork: bool, k: nat)
    requires Numbered(turns, sessionId, fork) && k <= |turns|
    ensures Numbered(turns[..k], sessionId, fork)
  {
  }

  lemma EmptyNumbered(sessionId: string, fork: bool)
    ensures Numbered([], sessionId, fork)
  {
  }

  ghost predicate Registered(sessions: seq<FakeHarnessSession>, byNativeId: map<string, FakeHarnessSession>,
                             ordinal: nat) {
    && |sessions| == ordinal
    && (forall k :: 0 <= k < |sessions| ==> Named(sessions[k], k, byNativeId))
    && (forall id :: id in byNativeId ==> byNativeId[id] in sessions && byNativeId[id].sessionId == id)
  }

  ghost predicate Named(session: FakeHarnessSession, k: nat, byNativeId: map<string, FakeHarnessSession>) {
    session.sessionId == SessionName(k + 1) && session.sessionId in byNativeId
      && byNativeId[session.sessionId] == session
  }

  ghost predicate Apart(a: FakeHarnessSession, b: FakeHarnessSession) {
    a != b && a.channel != b.channel && a.snapshot != b.snapshot
  }

  ghost predicate Separate(sessions: seq<FakeHarnessSession>) {
    forall i, j :: 0 <= i < j < |sessions| ==> Apart(sessions[i], sessions[j])
  }

  lemma KnownSession(sessions: seq<FakeHarnessSession>, byNativeId: map<string, FakeHarnessSession>, ordinal: nat,
                     id: string)
    requires Registered(sessions, byNativeId, ordinal) && id in byNativeId
    ensures byNativeId[id] in sessions && byNativeId[id].sessionId == id
  {
  }

  lemma RegisterMore(sessions: seq<FakeHarnessSession>, byNativeId: map<string, FakeHarnessSession>, ordinal: nat,
                     session: FakeHarnessSession)
    requires Registered(sessions, byNativeId, ordinal) && session.sessionId == SessionName(ordinal + 1)
    ensures Registered(sessions + [session], byNativeId[session.sessionId := session], ordinal + 1)
  {
    var more, known := sessions + [session], byNativeId[session.sessionId := session];
    forall k | 0 <= k < |more| ensures Named(more[k], k, known) {
      if k < |sessions| && more[k].sessionId == session.sessionId {
        Decimal.NumberedNames("fake-session-", k + 1, ordinal + 1);
      }
      assert k < |sessions| ==> Named(sessions[k], k, byNativeId);
    }
  }

  lemma SeparateMore(sessions: seq<FakeHarnessSession>, session: FakeHarnessSession)
    requires Separate(sessions) && forall s :: s in sessions ==> Apart(s, session)
    ensures Separate(sessions + [session])
  {
  }
}
