/** What the steps of the lease protocol achieve: dropping takes the record away, acquiring takes over. */
module LeaseProgress {
  import opened Wrappers
  import opened Lease

  // ---- Continuations -----------------------------------------------------------------------

  /** The continuation uses only moves of one Shim and deaths of these processes. */
  ghost predicate Alone(schedule: seq<Action>, i: Instance, dying: set<Instance>) {
    forall a :: a in schedule ==> (a.Act? && a.shim == i) || (a.Exit? && a.process in dying)
  }

  ghost predicate Leads(s: State, s': State, i: Instance, dying: set<Instance>) {
    exists schedule :: Alone(schedule, i, dying) && Exec(s, schedule) == Some(s')
  }

  lemma Stays(s: State, i: Instance, dying: set<Instance>)
    ensures Leads(s, s, i, dying)
  {
    assert Alone([], i, dying) && Exec(s, []) == Some(s);
  }

  lemma OneMore(s0: State, s: State, i: Instance, dying: set<Instance>, a: Action)
    requires Leads(s0, s, i, dying) && Apply(s, a).Some?
    requires (a.Act? && a.shim == i) || (a.Exit? && a.process in dying)
    ensures Leads(s0, Apply(s, a).value, i, dying)
  {
    var schedule :| Alone(schedule, i, dying) && Exec(s0, schedule) == Some(s);
    ExecMore(s0, schedule, s, a);
    assert Alone(schedule + [a], i, dying);
  }

  lemma LeadsOn(s: State, t: State, u: State, i: Instance, dying: set<Instance>)
    requires Leads(s, t, i, dying) && Leads(t, u, i, dying)
    ensures Leads(s, u, i, dying)
  {
    var first :| Alone(first, i, dying) && Exec(s, first) == Some(t);
    var rest :| Alone(rest, i, dying) && Exec(t, rest) == Some(u);
    ExecJoin(s, first, rest);
    assert Alone(first + rest, i, dying);
  }

  /** One move of the Shim that sends no signal and starts and publishes nothing. */
  ghost predicate MovesBy(s: State, i: Instance, m: Move, q: Patch) {
    && i in s.shims && i in s.live && !m.Send?
    && (Preparing(s, i, m) == Some(q) || TakingOver(s, i, m) == Some(q) || Signals(s, i, m) == Some(q)
        || Removing(s, i, m) == Some(q) || Ending(s, i, m) == Some(q))
  }

  lemma MovesOn(s0: State, s: State, i: Instance, dying: set<Instance>, m: Move, q: Patch)
    requires Leads(s0, s, i, dying) && MovesBy(s, i, m, q)
    ensures Leads(s0, Moved(s, i, q), i, dying)
  {
    hide Leads;
    MoveApplies(s, i, m, q);
    OneMore(s0, s, i, dying, Act(i, m));
  }

  lemma MoveApplies(s: State, i: Instance, m: Move, q: Patch)
    requires MovesBy(s, i, m, q)
    ensures Apply(s, Act(i, m)) == Some(Moved(s, i, q))
  {
  }

  /** A further move, from where an earlier one has led. */
  lemma MovesFurther(s0: State, s: State, i: Instance, dying: set<Instance>, before: Patch, m: Move, q: Patch)
    requires i in s.shims && Leads(s0, Moved(s, i, before), i, dying) && MovesBy(Moved(s, i, before), i, m, q)
    ensures Leads(s0, Moved(s, i, q), i, dying)
  {
    hide Leads, MovesBy;
    MovesOn(s0, Moved(s, i, before), i, dying, m, q);
    assert Moved(Moved(s, i, before), i, q) == Moved(s, i, q);
  }

  /** What a sequence of moves by one Shim leaves: only its point, the disk and the lock change. */
  ghost function At(s: State, i: Instance, point: Point, disk: Disk, lock: Option<Instance>): State
    requires i in s.shims
  {
    Moved(s, i, Patch(point, disk, lock))
  }

  // ---- Removing a record -------------------------------------------------------------------

  /** A removal takes the directory away when the record is the expected one, and nothing otherwise. */
  lemma Removes(s: State, i: Instance, dying: set<Instance>) returns (t: State)
    requires i in s.shims && i in s.live && s.shims[i].point.Comparing?
    ensures Leads(s, t, i, dying)
    ensures var p := s.shims[i].point;
            t == At(s, i, if p.goal == Retry then Creating else Leaving,
                    if s.disk == Stored(p.owner) then NoDirectory else s.disk, s.lock)
  {
    hide Leads;
    Stays(s, i, dying);
    var p := s.shims[i].point;
    if s.disk == Stored(p.owner) {
      t := Erases(s, i, dying);
    } else {
      var q := Patch(Resume(p.goal), s.disk, s.lock);
      MovesOn(s, s, i, dying, Compare, q);
      t := Moved(s, i, q);
    }
  }

  lemma Erases(s: State, i: Instance, dying: set<Instance>) returns (t: State)
    requires i in s.shims && i in s.live && s.shims[i].point.Comparing? && s.disk == Stored(s.shims[i].point.owner)
    ensures Leads(s, t, i, dying) && t == At(s, i, Resume(s.shims[i].point.goal), NoDirectory, s.lock)
  {
    hide Leads;
    Stays(s, i, dying);
    var p := s.shims[i].point;
    var q1 := Patch(Erasing(p.owner, p.goal), s.disk, s.lock);
    var q2 := Patch(Unlinking(p.goal), NoRecord, s.lock);
    var q3 := Patch(Resume(p.goal), NoDirectory, s.lock);
    MovesOn(s, s, i, dying, Compare, q1);
    MovesFurther(s, s, i, dying, q1, Erase, q2);
    MovesFurther(s, s, i, dying, q2, Unlink, q3);
    t := Moved(s, i, q3);
  }

  lemma Withdraws(s: State, i: Instance) returns (t: State)
    requires i in s.shims && i in s.live && s.shims[i].point.Comparing? && s.shims[i].point.goal == Goal.Leave
    ensures Leads(s, t, i, {})
    ensures t == At(s, i, Released, if s.disk == Stored(s.shims[i].point.owner) then NoDirectory else s.disk, None)
  {
    hide Leads;
    var u := Removes(s, i, {});
    var before := Patch(Leaving, u.disk, s.lock);
    MovesFurther(s, s, i, {}, before, Move.Leave, Patch(Released, u.disk, None));
    t := Moved(s, i, Patch(Released, u.disk, None));
  }

  /** Dropping the lease. With the lock free a Shim's own moves take its record off the disk, and only its
      own, free the lock again and end in release. */
  lemma DropRemoves(s: State, i: Instance) returns (t: State)
    requires i in s.shims && i in s.live && s.shims[i].point.Dropping? && s.lock.None?
    ensures Leads(s, t, i, {})
    ensures var own := WithChild(i, s.shims[i].desktop, s.shims[i].point.child);
            t == At(s, i, Released, if s.disk == Stored(own) then NoDirectory else s.disk, None)
  {
    hide Leads;
    Stays(s, i, {});
    var own := WithChild(i, s.shims[i].desktop, s.shims[i].point.child);
    MovesOn(s, s, i, {}, TryLock, Patch(Comparing(own, Goal.Leave), s.disk, Some(i)));
    var u := At(s, i, Comparing(own, Goal.Leave), s.disk, Some(i));
    t := Withdraws(u, i);
    LeadsOn(s, u, t, i, {});
  }

  /** A Shim that cannot start its child takes its record away and frees the lock. */
  lemma FailedSpawnRemoves(s: State, i: Instance) returns (t: State)
    requires i in s.shims && i in s.live && s.shims[i].point.Acquired?
    ensures Leads(s, t, i, {})
    ensures var own := Childless(i, s.shims[i].desktop);
            t == At(s, i, Released, if s.disk == Stored(own) then NoDirectory else s.disk, None)
  {
    hide Leads;
    Stays(s, i, {});
    var own := Childless(i, s.shims[i].desktop);
    MovesOn(s, s, i, {}, SpawnFails, Patch(Comparing(own, Goal.Leave), s.disk, s.lock));
    var u := At(s, i, Comparing(own, Goal.Leave), s.disk, s.lock);
    t := Withdraws(u, i);
    LeadsOn(s, u, t, i, {});
  }

  /** A Shim whose publication fails takes away the record it remembers, once its child is dead. */
  lemma FailedPublishRemoves(s: State, i: Instance) returns (t: State)
    requires i in s.shims && i in s.live && s.shims[i].point.Reaping? && s.shims[i].point.child !in s.live
    ensures Leads(s, t, i, {})
    ensures t == At(s, i, Released, if s.disk == Stored(s.shims[i].point.memory) then NoDirectory else s.disk, None)
  {
    hide Leads;
    Stays(s, i, {});
    var memory := s.shims[i].point.memory;
    MovesOn(s, s, i, {}, Reaped, Patch(Comparing(memory, Goal.Leave), s.disk, s.lock));
    var u := At(s, i, Comparing(memory, Goal.Leave), s.disk, s.lock);
    t := Withdraws(u, i);
    LeadsOn(s, u, t, i, {});
  }

  /** A Shim that cannot write its record takes its directory away, and one that cannot retire the legacy
      owner takes away its record. */
  lemma FailedStartRemoves(s: State, i: Instance) returns (t: State)
    requires i in s.shims && i in s.live
    requires (s.shims[i].point.Writing? && s.disk == NoRecord)
             || (s.shims[i].point.Retiring? && s.disk == Stored(Childless(i, s.shims[i].desktop)))
    ensures Leads(s, t, i, {}) && t == At(s, i, Released, NoDirectory, None)
  {
    if s.shims[i].point.Writing? {
      t := FailedWriteRemoves(s, i);
    } else {
      t := FailedRetirementRemoves(s, i);
    }
  }

  lemma FailedWriteRemoves(s: State, i: Instance) returns (t: State)
    requires i in s.shims && i in s.live && s.shims[i].point.Writing? && s.disk == NoRecord
    ensures Leads(s, t, i, {}) && t == At(s, i, Released, NoDirectory, None)
  {
    hide Leads;
    Stays(s, i, {});
    var q1 := Patch(Unlinking(Goal.Leave), NoRecord, s.lock);
    var q2 := Patch(Leaving, NoDirectory, s.lock);
    var q3 := Patch(Released, NoDirectory, None);
    MovesOn(s, s, i, {}, WriteFails, q1);
    MovesFurther(s, s, i, {}, q1, Unlink, q2);
    MovesFurther(s, s, i, {}, q2, Move.Leave, q3);
    t := Moved(s, i, q3);
  }

  lemma FailedRetirementRemoves(s: State, i: Instance) returns (t: State)
    requires i in s.shims && i in s.live && s.shims[i].point.Retiring?
    requires s.disk == Stored(Childless(i, s.shims[i].desktop))
    ensures Leads(s, t, i, {}) && t == At(s, i, Released, NoDirectory, None)
  {
    hide Leads;
    Stays(s, i, {});
    var q := Patch(Comparing(Childless(i, s.shims[i].desktop), Goal.Leave), s.disk, s.lock);
    MovesOn(s, s, i, {}, RetireFails, q);
    var u := Moved(s, i, q);
    t := Withdraws(u, i);
    LeadsOn(s, u, t, i, {});
  }

  // ---- Leaving a record behind -------------------------------------------------------------

  /** On its way from dropping to release the Shim has either not tried the lock yet, or holds it and is
      about to remove its own record, or that record is gone for good. */
  ghost predicate Clearing(s: State, i: Instance, own: Record) {
    && i in s.shims && s.shims.Keys <= s.used
    && own.child.Some? && own == WithChild(i, s.shims[i].desktop, own.child.value)
    && match s.shims[i].point
       case Dropping(c) => own.child == Some(c)
       case Comparing(o, g) => o == own && g == Goal.Leave
       case Erasing(o, g) => o == own && g == Goal.Leave
       case Unlinking(g) => g == Goal.Leave && s.disk != Stored(own)
       case Leaving => s.disk != Stored(own)
       case Released => s.disk != Stored(own)
       case _ => false
  }

  /** The steps that leave a record behind: the lock is held when it is tried, or the file system fails. */
  ghost predicate GivesUp(s: State, i: Instance, a: Action) {
    (a == Act(i, TryLock) && s.lock.Some?) || a == Act(i, DropFails) || a == Act(i, Fail)
  }

  lemma OthersWriteTheirOwn(s: State, j: Instance, m: Move, own: Record)
    requires j in s.shims && Advance(s, j, m).Some? && j != own.shim && own.child.Some? && s.disk != Stored(own)
    ensures Advance(s, j, m).value.disk != Stored(own)
  {
    hide Preparing, TakingOver, Signals, Removing, Ending, Delivered;
    MovesWrite(s, j, m);
    DeliveredOnlyLogs(s, j, m);
  }

  /** The records that moves other than publishing put on the disk name no child. */
  lemma MovesWrite(s: State, j: Instance, m: Move)
    requires j in s.shims
    ensures Preparing(s, j, m).Some? ==> Writes(s, Preparing(s, j, m).value.disk)
    ensures TakingOver(s, j, m).Some? ==> Writes(s, TakingOver(s, j, m).value.disk)
    ensures Signals(s, j, m).Some? ==> Writes(s, Signals(s, j, m).value.disk)
    ensures Removing(s, j, m).Some? ==> Writes(s, Removing(s, j, m).value.disk)
    ensures Ending(s, j, m).Some? ==> Writes(s, Ending(s, j, m).value.disk)
  {
    hide Writes, Preparing, TakingOver;
    WritesNothing(s);
    if Preparing(s, j, m).Some? { PreparingWrites(s, j, m); }
    if TakingOver(s, j, m).Some? { TakingOverWrites(s, j, m); }
  }

  lemma PreparingWrites(s: State, j: Instance, m: Move)
    requires j in s.shims && Preparing(s, j, m).Some?
    ensures Writes(s, Preparing(s, j, m).value.disk)
  {
  }

  lemma TakingOverWrites(s: State, j: Instance, m: Move)
    requires j in s.shims && TakingOver(s, j, m).Some?
    ensures Writes(s, TakingOver(s, j, m).value.disk)
  {
  }

  lemma WritesNothing(s: State)
    ensures Writes(s, s.disk) && Writes(s, NoRecord) && Writes(s, NoDirectory)
  {
  }

  predicate Writes(s: State, disk: Disk) {
    disk == s.disk || !disk.Stored? || disk.record.child.None?
  }

  lemma OthersStayClear(s: State, a: Action, i: Instance, own: Record)
    requires Clearing(s, i, own) && Apply(s, a).Some? && !(a.Act? && a.shim == i)
    ensures Clearing(Apply(s, a).value, i, own)
  {
    if a.Act? {
      hide Clearing;
      OthersKeepShim(s, a.shim, a.move, i);
      ClearingWithout(s, Apply(s, a).value, a.shim, a.move, i, own);
    }
  }

  lemma OthersKeepShim(s: State, j: Instance, m: Move, i: Instance)
    requires j in s.shims && j != i && i in s.shims && Advance(s, j, m).Some?
    ensures var t := Advance(s, j, m).value;
            && t.shims.Keys == s.shims.Keys && t.shims[i] == s.shims[i]
            && s.used <= t.used
  {
    hide Preparing, TakingOver, Signals, Removing, Ending, Delivered;
    DeliveredOnlyLogs(s, j, m);
  }

  lemma ClearingWithout(s: State, t: State, j: Instance, m: Move, i: Instance, own: Record)
    requires Clearing(s, i, own) && j in s.shims && j != i && Advance(s, j, m) == Some(t)
    requires t.shims.Keys == s.shims.Keys && t.shims[i] == s.shims[i] && s.used <= t.used
    ensures Clearing(t, i, own)
  {
    if s.disk != Stored(own) {
      OthersWriteTheirOwn(s, j, m, own);
    }
    hide Advance;
  }

  lemma OwnStepClears(s: State, m: Move, i: Instance, own: Record)
    requires i in s.shims && Clearing(s, i, own) && i in s.live && Advance(s, i, m).Some? && !GivesUp(s, i, Act(i, m))
    ensures Clearing(Advance(s, i, m).value, i, own)
  {
    hide Preparing, TakingOver, Signals, Removing, Ending, Clearing;
    NothingElse(s, i, m, own);
    if Removing(s, i, m).Some? {
      RemovingClears(s, m, i, own);
    } else if Ending(s, i, m).Some? {
      EndingClears(s, m, i, own);
    }
  }

  lemma RemovingClears(s: State, m: Move, i: Instance, own: Record)
    requires Clearing(s, i, own) && Removing(s, i, m).Some?
    ensures Clearing(Moved(s, i, Removing(s, i, m).value), i, own)
  {
  }

  lemma EndingClears(s: State, m: Move, i: Instance, own: Record)
    requires Clearing(s, i, own) && Ending(s, i, m).Some? && !GivesUp(s, i, Act(i, m))
    ensures Clearing(Moved(s, i, Ending(s, i, m).value), i, own)
  {
  }

  lemma NothingElse(s: State, i: Instance, m: Move, own: Record)
    requires Clearing(s, i, own) && !GivesUp(s, i, Act(i, m))
    ensures Preparing(s, i, m).None? && TakingOver(s, i, m).None? && Signals(s, i, m).None?
    ensures Advance(s, i, m).Some? ==> !m.Spawn? && !m.Publish?
  {
  }

  /** Over every run: a Shim that dropped its lease and was released has left its own record on disk only
      if another held the lock when it tried, or the file system failed it. */
  lemma {:induction false} LeftOnlyIfRefused(s: State, schedule: seq<Action>, i: Instance, own: Record) returns (k: nat)
    requires Clearing(s, i, own) && Exec(s, schedule).Some?
    requires var t := Exec(s, schedule).value; i in t.shims && t.shims[i].point.Released? && t.disk == Stored(own)
    ensures k < |schedule| && Exec(s, schedule[..k]).Some? && GivesUp(Exec(s, schedule[..k]).value, i, schedule[k])
    decreases |schedule|
  {
    hide Clearing, Apply, GivesUp;
    if schedule == [] {
      NotClearing(s, i, own);
    } else if GivesUp(s, i, schedule[0]) {
      k := 0;
    } else {
      var s' := Apply(s, schedule[0]).value;
      StepClears(s, schedule[0], i, own);
      var j := LeftOnlyIfRefused(s', schedule[1..], i, own);
      k := j + 1;
      assert schedule[..k][1..] == schedule[1..][..j] && schedule[..k][0] == schedule[0];
    }
  }

  lemma DropLeavesOnlyIfRefused(s: State, name: string, schedule: seq<Action>, i: Instance) returns (k: nat)
    requires Reachable(s, {name}) && i in s.shims && s.shims[i].point.Dropping? && Exec(s, schedule).Some?
    requires var t := Exec(s, schedule).value;
             i in t.shims && t.shims[i].point.Released?
             && t.disk == Stored(WithChild(i, s.shims[i].desktop, s.shims[i].point.child))
    ensures k < |schedule| && Exec(s, schedule[..k]).Some? && GivesUp(Exec(s, schedule[..k]).value, i, schedule[k])
  {
    ReachableInv(s, name);
    k := LeftOnlyIfRefused(s, schedule, i, WithChild(i, s.shims[i].desktop, s.shims[i].point.child));
  }

  lemma NotClearing(s: State, i: Instance, own: Record)
    requires i in s.shims && s.shims[i].point.Released? && s.disk == Stored(own)
    ensures !Clearing(s, i, own)
  {
  }

  lemma StepClears(s: State, a: Action, i: Instance, own: Record)
    requires Clearing(s, i, own) && Apply(s, a).Some? && !GivesUp(s, i, a)
    ensures Clearing(Apply(s, a).value, i, own)
  {
    if a.Act? && a.shim == i {
      OwnStepClears(s, a.move, i, own);
    } else {
      OthersStayClear(s, a, i, own);
    }
  }

  // ---- Taking over -------------------------------------------------------------------------

  /** From the head of the queue to having read a record. */
  lemma ReadsRecord(s: State, i: Instance, dying: set<Instance>) returns (t: State)
    requires i in s.shims && i in s.live && s.shims[i].point.Queued? && s.lock.None?
    requires s.shims[i].desktop != 0 && s.disk.Stored?
    ensures Leads(s, t, i, dying) && t == At(s, i, Judging(s.disk.record), s.disk, Some(i))
  {
    hide Leads;
    Stays(s, i, dying);
    var q1 := Patch(Creating, s.disk, Some(i));
    var q2 := Patch(Reading, s.disk, Some(i));
    var q3 := Patch(Judging(s.disk.record), s.disk, Some(i));
    MovesOn(s, s, i, dying, Lock, q1);
    MovesFurther(s, s, i, dying, q1, MakeDirectory, q2);
    MovesFurther(s, s, i, dying, q2, Read, q3);
    t := Moved(s, i, q3);
  }

  /** From having removed a record to the return of `acquire`. */
  lemma Acquires(s: State, i: Instance, dying: set<Instance>) returns (t: State)
    requires i in s.shims && i in s.live && s.shims[i].point.Creating? && s.disk.NoDirectory?
    ensures Leads(s, t, i, dying)
    ensures t == At(s, i, Acquired, Stored(Childless(i, s.shims[i].desktop)), s.lock)
  {
    hide Leads;
    Stays(s, i, dying);
    var own := Stored(Childless(i, s.shims[i].desktop));
    var q1 := Patch(Writing, NoRecord, s.lock);
    var q2 := Patch(Retiring, own, s.lock);
    var q3 := Patch(Acquired, own, s.lock);
    MovesOn(s, s, i, dying, MakeDirectory, q1);
    MovesFurther(s, s, i, dying, q1, WriteRecord, q2);
    MovesFurther(s, s, i, dying, q2, LegacyRetired, q3);
    t := Moved(s, i, q3);
  }

  /** Where there is no owner directory, or one without a readable record, the lease is acquired at once. */
  lemma AcquiresUnowned(s: State, i: Instance) returns (t: State)
    requires i in s.shims && i in s.live && s.shims[i].point.Queued? && s.lock.None?
    requires s.shims[i].desktop != 0 && !s.disk.Stored?
    ensures Leads(s, t, i, {})
    ensures t == At(s, i, Acquired, Stored(Childless(i, s.shims[i].desktop)), Some(i))
  {
    hide Leads;
    Stays(s, i, {});
    var q := Patch(Creating, s.disk, Some(i));
    MovesOn(s, s, i, {}, Lock, q);
    var u := Moved(s, i, q);
    if s.disk.NoRecord? {
      u := DiscardsUnreadable(s, i);
    }
    t := Acquires(u, i, {});
    LeadsOn(s, u, t, i, {});
  }

  lemma DiscardsUnreadable(s: State, i: Instance) returns (t: State)
    requires i in s.shims && i in s.live && s.shims[i].point.Queued? && s.lock.None?
    requires s.shims[i].desktop != 0 && s.disk.NoRecord?
    ensures Leads(s, t, i, {}) && t == At(s, i, Creating, NoDirectory, Some(i))
  {
    hide Leads;
    Stays(s, i, {});
    var q1 := Patch(Creating, s.disk, Some(i));
    var q2 := Patch(Reading, s.disk, Some(i));
    var q3 := Patch(Discarding, s.disk, Some(i));
    var q4 := Patch(Creating, NoDirectory, Some(i));
    MovesOn(s, s, i, {}, Lock, q1);
    MovesFurther(s, s, i, {}, q1, MakeDirectory, q2);
    MovesFurther(s, s, i, {}, q2, Read, q3);
    MovesFurther(s, s, i, {}, q3, Discard, q4);
    t := Moved(s, i, q4);
  }

  /** A live target with a PID of its own is signalled. */
  lemma SignalsOne(s: State, i: Instance, dying: set<Instance>, o: Record, phase: Phase, p: Instance) returns (t: State)
    requires i in s.shims && i in s.live && s.shims[i].point == Signalling(o, phase, [p], Opening)
    requires p in s.live && p.pid != 0 && OnePerPid(s)
    ensures Leads(s, t, i, dying)
    ensures t == At(s, i, AfterSignals(o, phase), s.disk, s.lock).(signalled := s.signalled + {Delivery(o, p)})
  {
    hide Leads;
    Stays(s, i, dying);
    var q1 := Patch(Signalling(o, phase, [p], Inspecting(p)), s.disk, s.lock);
    var q2 := Patch(Signalling(o, phase, [p], Sending(p)), s.disk, s.lock);
    OpensTarget(s, i, o, phase, p);
    MovesOn(s, s, i, dying, Open, q1);
    InspectsTarget(Moved(s, i, q1), i, o, phase, p);
    MovesFurther(s, s, i, dying, q1, Inspect, q2);
    t := SendsTo(s, Moved(s, i, q2), i, dying, o, phase, p);
  }

  lemma OpensTarget(s: State, i: Instance, o: Record, phase: Phase, p: Instance)
    requires i in s.shims && i in s.live && s.shims[i].point == Signalling(o, phase, [p], Opening)
    requires p in s.live && p.pid != 0 && OnePerPid(s)
    ensures MovesBy(s, i, Open, Patch(Signalling(o, phase, [p], Inspecting(p)), s.disk, s.lock))
  {
    assert PidExists(s, p.pid);
  }

  lemma InspectsTarget(s: State, i: Instance, o: Record, phase: Phase, p: Instance)
    requires i in s.shims && i in s.live && s.shims[i].point == Signalling(o, phase, [p], Inspecting(p)) && p in s.live
    ensures MovesBy(s, i, Inspect, Patch(Signalling(o, phase, [p], Sending(p)), s.disk, s.lock))
  {
    assert PidExists(s, p.pid);
  }

  lemma SendsTo(s0: State, s: State, i: Instance, dying: set<Instance>, o: Record, phase: Phase, p: Instance)
    returns (t: State)
    requires Leads(s0, s, i, dying) && i in s.shims && i in s.live && p in s.live
    requires s.shims[i].point == Signalling(o, phase, [p], Sending(p))
    ensures Leads(s0, t, i, dying)
    ensures t == At(s, i, AfterSignals(o, phase), s.disk, s.lock).(signalled := s.signalled + {Delivery(o, p)})
  {
    hide Leads;
    t := At(s, i, AfterSignals(o, phase), s.disk, s.lock).(signalled := s.signalled + {Delivery(o, p)});
    OneMore(s0, s, i, dying, Act(i, Send));
  }

  /** The recorded child is found through its own group and killed. */
  lemma KillsChild(s: State, i: Instance, dying: set<Instance>, o: Record, c: Instance) returns (t: State)
    requires i in s.shims && i in s.live && s.shims[i].point == Terminating(o, Group) && o.child == Some(c)
    requires c in s.live && c in s.groups && c.pid != 0 && OnePerPid(s)
    ensures Leads(s, t, i, dying)
    ensures t == At(s, i, Terminating(o, Forced), s.disk, s.lock).(signalled := s.signalled + {Delivery(o, c)})
  {
    hide Leads;
    var u := ListsMember(s, i, dying, o, c, c);
    t := SignalsOne(u, i, dying, o, Group, c);
    LeadsOn(s, u, t, i, dying);
  }

  /** A takeover lists one member of the recorded child's group. */
  lemma ListsMember(s: State, i: Instance, dying: set<Instance>, o: Record, c: Instance, p: Instance)
    returns (t: State)
    requires i in s.shims && i in s.live && s.shims[i].point == Terminating(o, Group) && o.child == Some(c)
    requires c in s.live && c in s.groups && p in s.live && p in s.groups
    requires s.groups[p] == s.groups[c] && p.start >= c.start
    ensures Leads(s, t, i, dying) && t == At(s, i, Signalling(o, Group, [p], Opening), s.disk, s.lock)
  {
    hide Leads, MovesBy, Signals;
    Stays(s, i, dying);
    var q1 := Patch(Listing(o, s.groups[c], []), s.disk, s.lock);
    var q2 := Patch(Listing(o, s.groups[c], [p]), s.disk, s.lock);
    var q3 := Patch(Signalling(o, Group, [p], Opening), s.disk, s.lock);
    ListingBegins(s, i, o, c);
    MovesOn(s, s, i, dying, LookUp, q1);
    ListingCollects(Moved(s, i, q1), i, o, s.groups[c], p);
    MovesFurther(s, s, i, dying, q1, Collect(p), q2);
    ListingEnds(Moved(s, i, q2), i, o, s.groups[c], p);
    MovesFurther(s, s, i, dying, q2, Listed, q3);
    t := Moved(s, i, q3);
  }

  lemma ListingBegins(s: State, i: Instance, o: Record, c: Instance)
    requires i in s.shims && i in s.live && s.shims[i].point == Terminating(o, Group) && o.child == Some(c)
    requires c in s.live && c in s.groups
    ensures MovesBy(s, i, LookUp, Patch(Listing(o, s.groups[c], []), s.disk, s.lock))
  {
  }

  lemma ListingCollects(s: State, i: Instance, o: Record, g: nat, p: Instance)
    requires i in s.shims && i in s.live && p in s.live && p in s.groups && s.groups[p] == g
    requires s.shims[i].point == Listing(o, g, []) && o.child.Some? && p.start >= o.child.value.start
    ensures MovesBy(s, i, Collect(p), Patch(Listing(o, g, [p]), s.disk, s.lock))
  {
    assert [] + [p] == [p];
  }

  lemma ListingEnds(s: State, i: Instance, o: Record, g: nat, p: Instance)
    requires i in s.shims && i in s.live && s.shims[i].point == Listing(o, g, [p])
    ensures MovesBy(s, i, Listed, Patch(Signalling(o, Group, [p], Opening), s.disk, s.lock))
  {
  }

  lemma Dies(s0: State, s: State, i: Instance, dying: set<Instance>, p: Instance)
    requires Leads(s0, s, i, dying) && p in s.live && p in dying
    ensures Leads(s0, Kill(s, p), i, dying)
  {
    hide Leads;
    OneMore(s0, s, i, dying, Exit(p));
  }

  /** Once the recorded processes are dead their record is replaced by the Shim's own. */
  lemma Replaces(s: State, i: Instance, dying: set<Instance>, o: Record, phase: Phase) returns (t: State)
    requires i in s.shims && i in s.live && s.shims[i].point == AwaitOwner(o, phase) && s.disk == Stored(o)
    requires o.shim !in s.live && ChildDead(s.live, o)
    ensures Leads(s, t, i, dying)
    ensures t == At(s, i, Acquired, Stored(Childless(i, s.shims[i].desktop)), s.lock)
  {
    hide Leads;
    var u := SeesDead(s, i, dying, o, phase);
    var v := Removes(u, i, dying);
    t := Acquires(v, i, dying);
    LeadsOn(s, u, v, i, dying);
    LeadsOn(s, v, t, i, dying);
  }

  lemma SeesDead(s: State, i: Instance, dying: set<Instance>, o: Record, phase: Phase) returns (t: State)
    requires i in s.shims && i in s.live && s.shims[i].point == AwaitOwner(o, phase)
    requires o.shim !in s.live && ChildDead(s.live, o)
    ensures Leads(s, t, i, dying) && t == At(s, i, Comparing(o, Retry), s.disk, s.lock)
  {
    hide Leads;
    Stays(s, i, dying);
    var q1 := Patch(AwaitChild(o, phase, false), s.disk, s.lock);
    var q2 := Patch(Comparing(o, Retry), s.disk, s.lock);
    MovesOn(s, s, i, dying, ObserveOwner, q1);
    MovesFurther(s, s, i, dying, q1, ObserveChild(false), q2);
    t := Moved(s, i, q2);
  }

  /** The recorded child is killed if it lives, and dies. */
  lemma ClearsChild(s: State, i: Instance, o: Record) returns (t: State)
    requires i in s.shims && i in s.live && s.shims[i].point == Terminating(o, Group)
    requires OnePerPid(s) && s.live <= s.groups.Keys && s.lock == Some(i)
    requires o.child.Some? ==> o.child.value.pid != 0 && o.child.value !in s.shims
    ensures Leads(s, t, i, Dying(o)) && i in t.shims && i in t.live
            && t.shims[i] == s.shims[i].(point := Terminating(o, Forced))
    ensures t.disk == s.disk && t.lock == s.lock && t.live == s.live - Children(o) && ChildDead(t.live, o)
    ensures t.signalled == s.signalled + (set c | c in Children(o) && c in s.live :: Delivery(o, c))
  {
    hide Leads;
    Stays(s, i, Dying(o));
    if o.child.Some? && o.child.value in s.live {
      var c := o.child.value;
      var u := KillsChild(s, i, Dying(o), o, c);
      Dies(s, u, i, Dying(o), c);
      t := Kill(u, c);
    } else {
      var q := Patch(Terminating(o, Forced), s.disk, s.lock);
      MovesOn(s, s, i, Dying(o), LookUp, q);
      t := Moved(s, i, q);
    }
  }

  function Children(o: Record): set<Instance> {
    if o.child.Some? then {o.child.value} else {}
  }

  /** The recorded processes. */
  function Dying(o: Record): set<Instance> {
    {o.shim} + Children(o)
  }

  /** A dead owner's record does not keep anybody out: the next Shim kills the recorded child, if it still
      lives, and acquires the lease in its place. A record whose Shim had this Shim's PID is the exception. */
  lemma TakesOverFromDead(s: State, name: string, i: Instance, o: Record) returns (t: State)
    requires Reachable(s, {name}) && i in s.shims && i in s.live && s.shims[i].point.Queued? && s.lock.None?
    requires s.shims[i].desktop != 0 && s.disk == Stored(o) && o.shim !in s.live && o.shim.pid != i.pid
    requires o.child.Some? ==> o.child.value.pid != 0
    ensures Leads(s, t, i, Dying(o))
    ensures i in t.shims && i in t.live && t.shims[i].point == Acquired && t.lock == Some(i)
    ensures t.disk == Stored(Childless(i, s.shims[i].desktop))
    ensures o.child.Some? && o.child.value in s.live ==> Delivery(o, o.child.value) in t.signalled
    ensures o.child.Some? ==> o.child.value !in t.live
  {
    hide Leads, Reachable;
    ReachableFacts(s, name, o);
    var u := FindsDead(s, i, Dying(o), o);
    var v := ClearsChild(u, i, o);
    t := FinishesDead(v, i, o);
    LeadsOn(s, u, v, i, Dying(o));
    LeadsOn(s, v, t, i, Dying(o));
  }

  lemma FindsDead(s: State, i: Instance, dying: set<Instance>, o: Record) returns (t: State)
    requires i in s.shims && i in s.live && s.shims[i].point.Queued? && s.lock.None?
    requires s.shims[i].desktop != 0 && s.disk == Stored(o) && o.shim !in s.live && o.shim.pid != i.pid
    ensures Leads(s, t, i, dying) && t == At(s, i, Terminating(o, Group), s.disk, Some(i))
  {
    hide Leads;
    var u := ReadsRecord(s, i, dying);
    JudgesDead(u, i, o);
    MovesFurther(s, s, i, dying, Patch(Judging(o), s.disk, Some(i)), Judge,
      Patch(Terminating(o, Group), s.disk, Some(i)));
    t := At(s, i, Terminating(o, Group), s.disk, Some(i));
  }

  lemma JudgesDead(s: State, i: Instance, o: Record)
    requires i in s.shims && i in s.live && s.shims[i].point == Judging(o) && o.shim !in s.live && o.shim.pid != i.pid
    ensures MovesBy(s, i, Judge, Patch(Terminating(o, Group), s.disk, s.lock))
  {
  }

  lemma FinishesDead(s: State, i: Instance, o: Record) returns (t: State)
    requires i in s.shims && i in s.live && s.shims[i].point == Terminating(o, Forced) && s.disk == Stored(o)
    requires o.shim !in s.live && ChildDead(s.live, o)
    ensures Leads(s, t, i, Dying(o))
    ensures t == At(s, i, Acquired, Stored(Childless(i, s.shims[i].desktop)), s.lock)
  {
    hide Leads;
    Stays(s, i, Dying(o));
    var q := Patch(AwaitOwner(o, Forced), s.disk, s.lock);
    MovesOn(s, s, i, Dying(o), LookUp, q);
    var u := Moved(s, i, q);
    t := Replaces(u, i, Dying(o), o, Forced);
    LeadsOn(s, u, t, i, Dying(o));
  }

  lemma ReachableFacts(s: State, name: string, o: Record)
    requires Reachable(s, {name}) && s.disk == Stored(o)
    ensures OnePerPid(s) && s.live <= s.groups.Keys && OneBasename(s) && o.shim in s.shims
    ensures o.child.Some? ==> o.child.value !in s.shims
  {
    ReachableInv(s, name);
    ReachableCareful(s, name);
  }

  /** A live owner under the same Desktop is asked to stop, and once it and its child are gone the lease is
      acquired in its place. */
  lemma TakesOverFromLive(s: State, name: string, i: Instance, o: Record) returns (t: State)
    requires Reachable(s, {name}) && i in s.shims && i in s.live && s.shims[i].point.Queued? && s.lock.None?
    requires s.shims[i].desktop != 0 && s.disk == Stored(o) && o.shim in s.live && o.shim != i
    requires o.desktop == s.shims[i].desktop && o.shim.pid != 0
    ensures Leads(s, t, i, Dying(o))
    ensures i in t.shims && i in t.live && t.shims[i].point == Acquired && t.lock == Some(i)
    ensures t.disk == Stored(Childless(i, s.shims[i].desktop))
    ensures Delivery(o, o.shim) in t.signalled && o.shim !in t.live && ChildDead(t.live, o)
  {
    hide Leads, Reachable;
    ReachableFacts(s, name, o);
    var u := ReadsRecord(s, i, Dying(o));
    var v := AsksToStop(u, i, o);
    t := SeesOut(v, i, o, Handoff);
    LeadsOn(s, u, v, i, Dying(o));
    LeadsOn(s, v, t, i, Dying(o));
  }

  lemma AsksToStop(s: State, i: Instance, o: Record) returns (t: State)
    requires i in s.shims && i in s.live && s.shims[i].point == Judging(o) && OnePerPid(s) && OneBasename(s)
    requires o.shim in s.live && o.shim in s.shims && o.shim != i && o.desktop == s.shims[i].desktop && o.shim.pid != 0
    ensures Leads(s, t, i, Dying(o))
    ensures t == At(s, i, AwaitOwner(o, Handoff), s.disk, s.lock).(signalled := s.signalled + {Delivery(o, o.shim)})
  {
    hide Leads;
    Stays(s, i, Dying(o));
    JudgesLive(s, i, o);
    var q1 := Patch(Terminating(o, Handoff), s.disk, s.lock);
    var q2 := Patch(Signalling(o, Handoff, [o.shim], Opening), s.disk, s.lock);
    MovesOn(s, s, i, Dying(o), Judge, q1);
    MovesFurther(s, s, i, Dying(o), q1, LookUp, q2);
    var u := Moved(s, i, q2);
    t := SignalsOne(u, i, Dying(o), o, Handoff, o.shim);
    LeadsOn(s, u, t, i, Dying(o));
  }

  lemma JudgesLive(s: State, i: Instance, o: Record)
    requires i in s.shims && i in s.live && s.shims[i].point == Judging(o) && OnePerPid(s) && OneBasename(s)
    requires o.shim in s.live && o.shim in s.shims && o.shim != i && o.desktop == s.shims[i].desktop
    ensures MovesBy(s, i, Judge, Patch(Terminating(o, Handoff), s.disk, s.lock))
  {
  }

  /** The recorded processes die and are seen dead. */
  lemma SeesOut(s: State, i: Instance, o: Record, phase: Phase) returns (t: State)
    requires i in s.shims && i in s.live && s.shims[i].point == AwaitOwner(o, phase) && s.disk == Stored(o)
    requires s.lock == Some(i) && o.shim != i && (o.child.Some? ==> o.child.value !in s.shims)
    ensures Leads(s, t, i, Dying(o))
    ensures i in t.shims && i in t.live && t.shims[i].point == Acquired && t.lock == Some(i)
    ensures t.disk == Stored(Childless(i, s.shims[i].desktop)) && t.signalled == s.signalled
    ensures o.shim !in t.live && ChildDead(t.live, o)
  {
    hide Leads;
    Stays(s, i, Dying(o));
    var u := s;
    if o.shim in u.live {
      Dies(s, u, i, Dying(o), o.shim);
      u := Kill(u, o.shim);
    }
    if o.child.Some? && o.child.value in u.live {
      Dies(s, u, i, Dying(o), o.child.value);
      u := Kill(u, o.child.value);
    }
    t := Replaces(u, i, Dying(o), o, phase);
    LeadsOn(s, u, t, i, Dying(o));
  }

  /** An owner that does not stop within its grace is made to: its child is killed, then the Shim itself,
      and the lease is acquired in its place. */
  lemma ForcesOwner(s: State, i: Instance, o: Record, c: Instance) returns (t: State)
    requires i in s.shims && i in s.live && s.shims[i].point == AwaitOwner(o, Handoff) && s.disk == Stored(o)
    requires OnePerPid(s) && s.lock == Some(i) && o.shim in s.live && o.shim != i && o.shim.pid != 0
    requires o.child == Some(c) && c in s.live && c in s.groups && c !in s.shims && c.pid != 0 && c != o.shim
    ensures Leads(s, t, i, Dying(o))
    ensures i in t.shims && i in t.live && t.shims[i].point == Acquired && t.lock == Some(i)
    ensures t.disk == Stored(Childless(i, s.shims[i].desktop))
    ensures Delivery(o, c) in t.signalled && Delivery(o, o.shim) in t.signalled
  {
    hide Leads;
    var u := RunsOutOfGrace(s, i, o);
    var v := KillsChild(u, i, Dying(o), o, c);
    var w := KillsShim(v, i, o);
    t := SeesOut(w, i, o, Forced);
    LeadsOn(s, u, v, i, Dying(o));
    LeadsOn(s, v, w, i, Dying(o));
    LeadsOn(s, w, t, i, Dying(o));
  }

  lemma RunsOutOfGrace(s: State, i: Instance, o: Record) returns (t: State)
    requires i in s.shims && i in s.live && s.shims[i].point == AwaitOwner(o, Handoff) && o.shim in s.live
    ensures Leads(s, t, i, Dying(o)) && t == At(s, i, Terminating(o, Group), s.disk, s.lock)
  {
    hide Leads;
    Stays(s, i, Dying(o));
    var q1 := Patch(AwaitChild(o, Handoff, true), s.disk, s.lock);
    var q2 := Patch(Terminating(o, Group), s.disk, s.lock);
    MovesOn(s, s, i, Dying(o), ObserveOwner, q1);
    MovesFurther(s, s, i, Dying(o), q1, ObserveChild(true), q2);
    t := Moved(s, i, q2);
  }

  lemma KillsShim(s: State, i: Instance, o: Record) returns (t: State)
    requires i in s.shims && i in s.live && s.shims[i].point == Terminating(o, Forced)
    requires OnePerPid(s) && o.shim in s.live && o.shim.pid != 0
    ensures Leads(s, t, i, Dying(o))
    ensures t == At(s, i, AwaitOwner(o, Forced), s.disk, s.lock).(signalled := s.signalled + {Delivery(o, o.shim)})
  {
    hide Leads;
    Stays(s, i, Dying(o));
    var q := Patch(Signalling(o, Forced, [o.shim], Opening), s.disk, s.lock);
    MovesOn(s, s, i, Dying(o), LookUp, q);
    var u := Moved(s, i, q);
    t := SignalsOne(u, i, Dying(o), o, Forced, o.shim);
    LeadsOn(s, u, t, i, Dying(o));
  }

  /** When a Shim that has read a record turns away at once: the record has its own PID, or its Shim lives,
      is a codexhost Shim, and serves another Desktop that lives. */
  lemma TurnsAway(s: State, name: string, i: Instance, o: Record)
    requires Reachable(s, {name}) && i in s.shims && o.shim in s.shims
    ensures JudgeOwner(s, i, o) == Leaving <==>
              o.shim.pid == i.pid
              || (o.shim in s.live && o.desktop != s.shims[i].desktop && o.desktop != 1
                  && exists q :: q in s.live && q.pid == o.desktop)
  {
    ReachableInv(s, name);
  }

  // ---- Shims without a Desktop -------------------------------------------------------------

  predicate AtTheDoor(p: Point) {
    p.Queued? || p.Leaving? || p.Released?
  }

  ghost predicate AllHaveDesktops(s: State) {
    forall i :: i in s.shims && s.shims[i].desktop == 0 ==> AtTheDoor(s.shims[i].point)
  }

  lemma MovesKeepOut(s: State, i: Instance, m: Move)
    requires i in s.shims && s.shims[i].desktop == 0 && AtTheDoor(s.shims[i].point)
    ensures Preparing(s, i, m).Some? ==> AtTheDoor(Preparing(s, i, m).value.point)
    ensures TakingOver(s, i, m).None? && Signals(s, i, m).None? && Removing(s, i, m).None?
    ensures Ending(s, i, m).Some? ==> AtTheDoor(Ending(s, i, m).value.point)
  {
  }

  lemma ApplyKeepsOut(s: State, a: Action)
    requires AllHaveDesktops(s) && Apply(s, a).Some?
    ensures AllHaveDesktops(Apply(s, a).value)
  {
    if a.Act? {
      hide Preparing, TakingOver, Signals, Removing, Ending, Delivered;
      var i, m := a.shim, a.move;
      DeliveredOnlyLogs(s, i, m);
      if s.shims[i].desktop == 0 { MovesKeepOut(s, i, m); }
    }
  }

  lemma {:induction false} ExecKeepsOut(s: State, schedule: seq<Action>)
    requires AllHaveDesktops(s) && Exec(s, schedule).Some?
    ensures AllHaveDesktops(Exec(s, schedule).value)
    decreases |schedule|
  {
    hide AllHaveDesktops, Apply;
    if schedule != [] {
      ApplyKeepsOut(s, schedule[0]);
      ExecKeepsOut(Apply(s, schedule[0]).value, schedule[1..]);
    }
  }

  /** On every schedule, a Shim that has no Desktop never gets past the lock. */
  lemma OnlyDesktopsEnter(s: State, names: set<string>, i: Instance)
    requires Reachable(s, names) && i in s.shims && s.shims[i].desktop == 0
    ensures s.shims[i].point.Queued? || s.shims[i].point.Leaving? || s.shims[i].point.Released?
  {
    var schedule :| Named(schedule, names) && Exec(INIT, schedule) == Some(s);
    ExecKeepsOut(INIT, schedule);
  }

  // ---- Whom else a takeover reaches --------------------------------------------------------

  lemma LeadsReachable(s: State, t: State, i: Instance, dying: set<Instance>, names: set<string>)
    requires Reachable(s, names) && Leads(s, t, i, dying)
    ensures Reachable(t, names)
  {
    var first :| Named(first, names) && Exec(INIT, first) == Some(s);
    var rest :| Alone(rest, i, dying) && Exec(s, rest) == Some(t);
    ExecJoin(INIT, first, rest);
    assert Named(first + rest, names);
  }

  /** A process the recorded child has forked is signalled with it, though it is neither a Shim nor a
      child anybody published. */
  lemma HelpersAreSignalled(name: string) returns (s: State, d: Delivery)
    ensures Reachable(s, {name}) && d in s.signalled
    ensures d.target !in s.shims && d.target !in s.spawned
  {
    hide Reachable, Leads;
    var i, j, c, h := Instance(10, 1), Instance(11, 4), Instance(20, 2), Instance(21, 3);
    s := LeavesHelper(name, i, c, h);
    s := Go(s, StartShim(j, j.pid, 1, name), {name});
    d := Delivery(s.disk.record, h);
    var t := SignalsHelper(s, j, s.disk.record, c, h);
    LeadsReachable(s, t, j, {}, {name});
    s := t;
  }

  lemma SignalsHelper(s: State, j: Instance, o: Record, c: Instance, h: Instance) returns (t: State)
    requires j in s.shims && s.shims[j].point.Queued? && s.shims[j].desktop != 0 && s.lock.None? && s.disk == Stored(o)
    requires s.live == {c, h, j} && h.pid != c.pid && h.pid != j.pid && c.pid != j.pid && h.pid != 0
    requires o.shim !in s.live && o.shim.pid != j.pid && o.child == Some(c)
    requires c in s.groups && h in s.groups && s.groups[h] == s.groups[c] && h.start >= c.start
    ensures Leads(s, t, j, {}) && Delivery(o, h) in t.signalled
    ensures t.shims.Keys == s.shims.Keys && t.spawned == s.spawned
  {
    hide Leads;
    var u := FindsDead(s, j, {}, o);
    t := SignalsMember(u, j, o, c, h);
    LeadsOn(s, u, t, j, {});
  }

  lemma SignalsMember(s: State, i: Instance, o: Record, c: Instance, p: Instance) returns (t: State)
    requires i in s.shims && i in s.live && s.shims[i].point == Terminating(o, Group) && o.child == Some(c)
    requires c in s.live && c in s.groups && p in s.live && p in s.groups && p.pid != 0 && OnePerPid(s)
    requires s.groups[p] == s.groups[c] && p.start >= c.start
    ensures Leads(s, t, i, {}) && Delivery(o, p) in t.signalled
    ensures t.shims.Keys == s.shims.Keys && t.spawned == s.spawned
  {
    hide Leads;
    var u := ListsMember(s, i, {}, o, c, p);
    t := SignalsOne(u, i, {}, o, Group, p);
    LeadsOn(s, u, t, i, {});
  }
}
