/** The Local Host Runtime lease: competing Shims, one lock file, one owner record on disk.

    The protocol is a labelled transition system. A schedule is any sequence of actions; `Exec` runs
    it from an empty machine. The scheduler interleaves the Shims at every file-system or process
    observation, kills any process at any time, and may hand a dead process's PID to a new one. */
module Lease {
  import opened Wrappers

  /** One process: a PID together with its start time. No two processes share both. */
  datatype Instance = Instance(pid: nat, start: nat)

  /** The exact owner record; a child PID is never present without its start time. */
  datatype Record = Record(shim: Instance, desktop: nat, child: Option<Instance>)

  /** The owner directory: absent, present without a readable record, or holding a record. */
  datatype Disk = NoDirectory | NoRecord | Stored(record: Record)

  /** Where a removal goes next: back to the acquire loop, or out, releasing the lock. */
  datatype Goal = Retry | Leave

  /** A takeover asks the Shim to stop, then kills the child's process group, then the Shim. */
  datatype Phase = Handoff | Group | Forced

  /** Delivery to one process: open a descriptor for its PID, inspect it again, send. */
  datatype Hand = Opening | Inspecting(fd: Instance) | Sending(fd: Instance)

  /** The program points of `acquire`, `set_child_process_id`, the proxy's wait and `Drop`. */
  datatype Point =
    | Queued                                           // blocked in lock_exclusive
    | Creating                                         // head of the acquire loop
    | Writing                                          // directory made, record not written
    | Retiring                                         // childless record written
    | Reading                                          // directory already exists
    | Discarding                                       // no readable record within the grace
    | Judging(owner: Record)
    | Terminating(owner: Record, phase: Phase)         // about to look its target up
    | Listing(owner: Record, group: nat, found: seq<Instance>)
    | Signalling(owner: Record, phase: Phase, targets: seq<Instance>, hand: Hand)
    | AwaitOwner(owner: Record, phase: Phase)
    | AwaitChild(owner: Record, phase: Phase, ownerAlive: bool)
    | Comparing(owner: Record, goal: Goal)             // remove_owner_if_matches reads the record
    | Erasing(owner: Record, goal: Goal)               // remove_dir_all takes the record
    | Unlinking(goal: Goal)                            // remove_dir_all takes the directory
    | Acquired                                         // acquire returned; lock still held
    | Spawned(child: Instance)                         // child started, identity not published
    | Reaping(child: Instance, memory: Record)         // publication failed; child being stopped
    | Unlocking(child: Instance)                       // identity published, lock still held
    | Running(child: Instance)
    | Dropping(child: Instance)                        // Drop, before its try-lock
    | Leaving                                          // about to release the lock
    | Released

  /** A signal that reached `target` in a takeover from `owner`. */
  datatype Delivery = Delivery(owner: Record, target: Instance)

  datatype Shim = Shim(desktop: nat, basename: string, point: Point)

  datatype State = State(
    live: set<Instance>,
    used: set<Instance>,
    groups: map<Instance, nat>,           // process group of each process
    lock: Option<Instance>,
    disk: Disk,
    shims: map<Instance, Shim>,
    // History, read only by the properties.
    spawned: map<Instance, Instance>,     // child to the Shim that started it
    published: map<Instance, Record>,     // child to the record that published it
    orphans: set<Instance>,               // children whose Shim died before publishing them
    joined: set<(Instance, nat)>,         // groups processes have ever been in
    signalled: set<Delivery>)             // signals takeovers have delivered

  datatype Move =
    | Lock | MakeDirectory | WriteRecord | WriteFails | LegacyRetired | RetireFails
    | Read | Discard | Judge | ObserveOwner | ObserveChild(timedOut: bool)
    | LookUp | Collect(seen: Instance) | Listed | Open | Inspect | Send
    | Compare | Erase | Unlink | Fail | SpawnFails
    | Spawn(child: Instance) | Publish | PublishFails(stamped: bool) | Reaped | Unlock
    | ChildExited | TryLock | DropFails | Leave

  datatype Action =
    | Begin(process: Instance, group: nat)
    | Join(process: Instance, group: nat)
    | Exit(process: Instance)
    | StartShim(process: Instance, group: nat, desktop: nat, basename: string)
    | Act(shim: Instance, move: Move)

  const INIT := State({}, {}, map[], None, NoDirectory, map[], map[], map[], {}, {}, {})

  function Childless(i: Instance, desktop: nat): Record {
    Record(i, desktop, None)
  }

  function WithChild(i: Instance, desktop: nat, child: Instance): Record {
    Record(i, desktop, Some(child))
  }

  function Goto(s: State, i: Instance, p: Point): State
    requires i in s.shims
  {
    s.(shims := s.shims[i := s.shims[i].(point := p)])
  }

  /** A PID may be reused, but only once its last holder is dead and never with the same start. */
  ghost predicate Startable(s: State, p: Instance) {
    p !in s.used && forall q :: q in s.live ==> q.pid != p.pid
  }

  /** A process starts in a group: its parent's, or one of its own. */
  function Born(s: State, p: Instance, group: nat): State {
    s.(live := s.live + {p}, used := s.used + {p}, groups := s.groups[p := group], joined := s.joined + {(p, group)})
  }

  ghost predicate PidExists(s: State, pid: nat) {
    exists q :: q in s.live && q.pid == pid
  }

  datatype OwnerState = Valid | Missing | Reused | MismatchedExecutable

  /** What the recorded Shim identity shows: the executable is compared by basename only. */
  ghost function OwnerShimState(s: State, owner: Record, basename: string): OwnerState {
    if owner.shim in s.live then
      if owner.shim in s.shims && s.shims[owner.shim].basename == basename then Valid
      else MismatchedExecutable
    else if PidExists(s, owner.shim.pid) then Reused
    else Missing
  }

  ghost predicate LiveOtherDesktop(s: State, recorded: nat, current: nat) {
    recorded != current && recorded != 1 && PidExists(s, recorded)
  }

  ghost function JudgeOwner(s: State, i: Instance, owner: Record): Point
    requires i in s.shims
  {
    if owner.shim.pid == i.pid then Leaving
    else match OwnerShimState(s, owner, s.shims[i].basename)
      case MismatchedExecutable => Comparing(owner, Retry)
      case Missing => Terminating(owner, Group)
      case Reused => Terminating(owner, Group)
      case Valid =>
        if LiveOtherDesktop(s, owner.desktop, s.shims[i].desktop) then Leaving
        else Terminating(owner, Handoff)
  }

  function AfterObservation(owner: Record, phase: Phase, alive: bool, timedOut: bool): Point {
    if !alive then Comparing(owner, Retry)
    else if !timedOut then AwaitOwner(owner, phase)
    else if phase == Handoff then Terminating(owner, Group)
    else Leaving
  }

  function Resume(goal: Goal): Point {
    if goal == Retry then Creating else Leaving
  }

  /** Points of `acquire` at which an operating-system error returns from it. */
  predicate Fallible(p: Point) {
    || p.Creating? || p.Reading? || p.Discarding? || p.Judging? || p.Terminating? || p.Listing? || p.Signalling?
    || p.AwaitOwner? || p.AwaitChild? || p.Comparing? || p.Erasing? || p.Unlinking?
  }

  /** What one move does to the mover's point, the disk and the lock. */
  datatype Patch = Patch(point: Point, disk: Disk, lock: Option<Instance>)

  /** Entering `acquire` and writing a record into a directory of one's own. */
  ghost function Preparing(s: State, i: Instance, m: Move): Option<Patch>
    requires i in s.shims
  {
    var me := s.shims[i];
    var p := me.point;
    match m
    case Lock =>
      if p.Queued? && s.lock.None? then
        Some(Patch(if me.desktop == 0 then Leaving else Creating, s.disk, Some(i)))
      else None
    case MakeDirectory =>
      if !p.Creating? then None
      else if s.disk.NoDirectory? then Some(Patch(Writing, NoRecord, s.lock))
      else Some(Patch(Reading, s.disk, s.lock))
    case WriteRecord =>
      if p.Writing? then Some(Patch(Retiring, Stored(Childless(i, me.desktop)), s.lock)) else None
    case WriteFails => if p.Writing? then Some(Patch(Unlinking(Goal.Leave), s.disk, s.lock)) else None
    case LegacyRetired => if p.Retiring? then Some(Patch(Acquired, s.disk, s.lock)) else None
    case RetireFails =>
      if p.Retiring? then Some(Patch(Comparing(Childless(i, me.desktop), Goal.Leave), s.disk, s.lock))
      else None
    case _ => None
  }

  /** Reading somebody else's record and waiting until its processes are seen dead. */
  ghost function TakingOver(s: State, i: Instance, m: Move): Option<Patch>
    requires i in s.shims
  {
    var p := s.shims[i].point;
    match m
    case Read =>
      if !p.Reading? then None
      else Some(Patch(if s.disk.Stored? then Judging(s.disk.record) else Discarding, s.disk, s.lock))
    case Discard => if p.Discarding? then Some(Patch(Creating, NoDirectory, s.lock)) else None
    case Judge => if p.Judging? then Some(Patch(JudgeOwner(s, i, p.owner), s.disk, s.lock)) else None
    case ObserveOwner =>
      if p.AwaitOwner? then
        Some(Patch(AwaitChild(p.owner, p.phase, p.owner.shim in s.live), s.disk, s.lock))
      else None
    case ObserveChild(timedOut) =>
      if p.AwaitChild? then
        var alive := p.ownerAlive || (p.owner.child.Some? && p.owner.child.value in s.live);
        Some(Patch(AfterObservation(p.owner, p.phase, alive, timedOut), s.disk, s.lock))
      else None
    case Fail => if Fallible(p) then Some(Patch(Leaving, s.disk, s.lock)) else None
    case _ => None
  }

  /** The process that holds a PID. */
  ghost function Holder(s: State, pid: nat): (q: Instance)
    requires PidExists(s, pid)
    ensures q in s.live && q.pid == pid
  {
    var q :| q in s.live && q.pid == pid;
    q
  }

  /** The rest of the targets, or what a takeover does after the last one. */
  function NextTarget(owner: Record, phase: Phase, targets: seq<Instance>): Point {
    if |targets| > 1 then Signalling(owner, phase, targets[1..], Opening) else AfterSignals(owner, phase)
  }

  function AfterSignals(owner: Record, phase: Phase): Point {
    if phase == Group then Terminating(owner, Forced) else AwaitOwner(owner, phase)
  }

  /** Signalling the recorded Shim, or every process seen in the recorded child's group that started no
      earlier than the child. Processes are listed one by one, and any of them may exit, or have its PID
      reused, before its turn comes. */
  ghost function Signals(s: State, i: Instance, m: Move): Option<Patch>
    requires i in s.shims
  {
    var p := s.shims[i].point;
    match m
    case LookUp =>
      if !p.Terminating? then None
      else if p.phase != Group then
        Some(Patch(if p.owner.shim in s.live then Signalling(p.owner, p.phase, [p.owner.shim], Opening)
                   else AfterSignals(p.owner, p.phase), s.disk, s.lock))
      else if p.owner.child.Some? && p.owner.child.value in s.live && p.owner.child.value in s.groups then
        Some(Patch(Listing(p.owner, s.groups[p.owner.child.value], []), s.disk, s.lock))
      else Some(Patch(AfterSignals(p.owner, p.phase), s.disk, s.lock))
    case Collect(q) =>
      if p.Listing? && p.owner.child.Some? && q in s.live && q in s.groups && s.groups[q] == p.group
         && q.start >= p.owner.child.value.start
      then Some(Patch(Listing(p.owner, p.group, p.found + [q]), s.disk, s.lock))
      else None
    case Listed =>
      if !p.Listing? then None
      else Some(Patch(if p.found == [] then AfterSignals(p.owner, Group)
                      else Signalling(p.owner, Group, p.found, Opening), s.disk, s.lock))
    case Open =>
      if !p.Signalling? || !p.hand.Opening? || p.targets == [] then None
      else if p.targets[0].pid == 0 then Some(Patch(Leaving, s.disk, s.lock))
      else if !PidExists(s, p.targets[0].pid) then
        Some(Patch(NextTarget(p.owner, p.phase, p.targets), s.disk, s.lock))
      else
        Some(Patch(p.(hand := Inspecting(Holder(s, p.targets[0].pid))), s.disk, s.lock))
    case Inspect =>
      if !p.Signalling? || !p.hand.Inspecting? || p.targets == [] then None
      else if !PidExists(s, p.targets[0].pid) then
        Some(Patch(NextTarget(p.owner, p.phase, p.targets), s.disk, s.lock))
      else if p.targets[0] !in s.live then Some(Patch(Leaving, s.disk, s.lock))
      else Some(Patch(p.(hand := Sending(p.hand.fd)), s.disk, s.lock))
    case Send =>
      if p.Signalling? && p.hand.Sending? then
        Some(Patch(NextTarget(p.owner, p.phase, p.targets), s.disk, s.lock))
      else None
    case _ => None
  }

  /** The kernel delivers to the process the descriptor is bound to, if that still lives. */
  ghost function Delivered(s: State, i: Instance, m: Move): State
    requires i in s.shims
  {
    var p := s.shims[i].point;
    if m.Send? && p.Signalling? && p.hand.Sending? && p.hand.fd in s.live then
      s.(signalled := s.signalled + {Delivery(p.owner, p.hand.fd)})
    else s
  }

  /** `remove_owner_if_matches`: read the record, then take away the record and the directory. */
  ghost function Removing(s: State, i: Instance, m: Move): Option<Patch>
    requires i in s.shims
  {
    var p := s.shims[i].point;
    match m
    case Compare =>
      if !p.Comparing? then None
      else Some(Patch(if s.disk == Stored(p.owner) then Erasing(p.owner, p.goal) else Resume(p.goal),
                      s.disk, s.lock))
    case Erase => if p.Erasing? then Some(Patch(Unlinking(p.goal), NoRecord, s.lock)) else None
    case Unlink => if p.Unlinking? then Some(Patch(Resume(p.goal), NoDirectory, s.lock)) else None
    case _ => None
  }

  /** The Shim's own end: starting or publishing the child fails, unlocking, `Drop`. */
  ghost function Ending(s: State, i: Instance, m: Move): Option<Patch>
    requires i in s.shims
  {
    var me := s.shims[i];
    var p := me.point;
    match m
    case SpawnFails =>
      if p.Acquired? then Some(Patch(Comparing(Childless(i, me.desktop), Goal.Leave), s.disk, s.lock)) else None
    case PublishFails(stamped) =>
      if !p.Spawned? then None
      else Some(Patch(Reaping(p.child, if stamped then WithChild(i, me.desktop, p.child)
                                       else Childless(i, me.desktop)), s.disk, s.lock))
    case Reaped =>
      if p.Reaping? && p.child !in s.live then
        Some(Patch(Comparing(p.memory, Goal.Leave), s.disk, s.lock))
      else None
    case Unlock => if p.Unlocking? then Some(Patch(Running(p.child), s.disk, None)) else None
    case ChildExited =>
      if p.Running? && p.child !in s.live then Some(Patch(Dropping(p.child), s.disk, s.lock)) else None
    case TryLock =>
      if !p.Dropping? then None
      else if s.lock.Some? then Some(Patch(Released, s.disk, s.lock))
      else Some(Patch(Comparing(WithChild(i, me.desktop, p.child), Goal.Leave), s.disk, Some(i)))
    case DropFails => if p.Dropping? then Some(Patch(Released, s.disk, s.lock)) else None
    case Leave => if p.Leaving? then Some(Patch(Released, s.disk, None)) else None
    case _ => None
  }

  function Moved(s: State, i: Instance, q: Patch): State
    requires i in s.shims
  {
    Goto(s, i, q.point).(disk := q.disk, lock := q.lock)
  }

  ghost function Advance(s: State, i: Instance, m: Move): Option<State>
    requires i in s.shims
  {
    var p := s.shims[i].point;
    if m.Spawn? then
      // The child leads a process group of its own.
      if p.Acquired? && Startable(s, m.child) then
        Some(Goto(Born(s, m.child, m.child.pid), i, Spawned(m.child)).(spawned := s.spawned[m.child := i]))
      else None
    else if m.Publish? then
      // The record is re-read first: publishing over somebody else's record is an error.
      if !p.Spawned? || s.disk != Stored(Childless(i, s.shims[i].desktop)) then None
      else
        var record := WithChild(i, s.shims[i].desktop, p.child);
        Some(Moved(s, i, Patch(Unlocking(p.child), Stored(record), s.lock))
             .(published := s.published[p.child := record]))
    else if Preparing(s, i, m).Some? then Some(Moved(s, i, Preparing(s, i, m).value))
    else if TakingOver(s, i, m).Some? then Some(Moved(s, i, TakingOver(s, i, m).value))
    else if Signals(s, i, m).Some? then Some(Moved(Delivered(s, i, m), i, Signals(s, i, m).value))
    else if Removing(s, i, m).Some? then Some(Moved(s, i, Removing(s, i, m).value))
    else if Ending(s, i, m).Some? then Some(Moved(s, i, Ending(s, i, m).value))
    else None
  }

  /** Dying releases the file lock; a child not yet published loses its Shim for good. */
  function Kill(s: State, p: Instance): State {
    var unpublished :=
      if p in s.shims && (s.shims[p].point.Spawned? || s.shims[p].point.Reaping?)
      then {s.shims[p].point.child} else {};
    s.(live := s.live - {p},
       lock := if s.lock == Some(p) then None else s.lock,
       orphans := s.orphans + unpublished)
  }

  ghost function Apply(s: State, a: Action): (r: Option<State>) {
    match a
    case Begin(p, group) => if Startable(s, p) then Some(Born(s, p, group)) else None
    case Join(p, group) =>
      if p in s.live then Some(s.(groups := s.groups[p := group], joined := s.joined + {(p, group)})) else None
    case Exit(p) => if p in s.live then Some(Kill(s, p)) else None
    case StartShim(p, group, desktop, basename) =>
      if Startable(s, p) then Some(Born(s, p, group).(shims := s.shims[p := Shim(desktop, basename, Queued)]))
      else None
    case Act(i, m) => if i in s.shims && i in s.live then Advance(s, i, m) else None
  }

  /** Runs a schedule; None when some action is not enabled where the schedule places it. */
  ghost function Exec(s: State, schedule: seq<Action>): Option<State>
    decreases |schedule|
  {
    if schedule == [] then Some(s)
    else match Apply(s, schedule[0])
      case None => None
      case Some(s') => Exec(s', schedule[1..])
  }

  ghost predicate Named(schedule: seq<Action>, names: set<string>) {
    forall a :: a in schedule && a.StartShim? ==> a.basename in names
  }

  ghost predicate Reachable(s: State, names: set<string>) {
    exists schedule :: Named(schedule, names) && Exec(INIT, schedule) == Some(s)
  }

  // ---- The invariant -----------------------------------------------------------------------

  predicate Holding(p: Point) {
    !(p.Queued? || p.Running? || p.Dropping? || p.Released?)
  }

  predicate ChildDead(live: set<Instance>, owner: Record) {
    owner.child.Some? ==> owner.child.value !in live
  }

  /** What a live Shim knows at each point. While it holds the lock nobody else touches the disk. */
  predicate Knows(live: set<Instance>, spawned: set<Instance>, disk: Disk, i: Instance, desktop: nat, p: Point) {
    match p
    case Writing => disk == NoRecord
    case Retiring => disk == Stored(Childless(i, desktop))
    case Acquired => disk == Stored(Childless(i, desktop))
    case Spawned(c) => disk == Stored(Childless(i, desktop)) && c in spawned
    case Reaping(c, memory) => disk == Stored(Childless(i, desktop)) && memory.shim == i && c in spawned
                               && (memory.child.Some? ==> memory.child == Some(c))
    case Unlocking(c) => disk == Stored(WithChild(i, desktop, c)) && c in spawned
    case Running(c) => disk == Stored(WithChild(i, desktop, c)) && c in spawned
    case Dropping(c) => c !in live && c in spawned
    case Discarding => !disk.Stored?
    case Judging(o) => disk == Stored(o)
    case Terminating(o, _) => disk == Stored(o)
    case Listing(o, _, _) => disk == Stored(o)
    case Signalling(o, _, _, _) => disk == Stored(o)
    case AwaitOwner(o, _) => disk == Stored(o)
    case AwaitChild(o, _, alive) => disk == Stored(o) && (!alive ==> o.shim !in live)
    case Comparing(o, g) =>
      && ChildDead(live, o)
      && if g == Retry then disk == Stored(o) && o.shim !in live
         else o.shim == i && (o.child.Some? ==> o.child.value in spawned)
    case Erasing(o, g) =>
      disk == Stored(o) && ChildDead(live, o) && if g == Retry then o.shim !in live else o.shim == i
    case Unlinking(_) => !disk.Stored?
    case _ => true
  }

  /** `p` has been in a group that `c` has been in, and started no earlier. */
  ghost predicate Comrade(joined: set<(Instance, nat)>, c: Instance, p: Instance) {
    p.start >= c.start && exists g: nat :: (c, g) in joined && (p, g) in joined
  }

  /** A process a takeover from this owner may signal. */
  ghost predicate Target(joined: set<(Instance, nat)>, owner: Record, p: Instance) {
    p == owner.shim || (owner.child.Some? && Comrade(joined, owner.child.value, p))
  }

  /** What a live Shim knows of the processes it is about to signal. Each has been handed out, so its
      instance never comes back; an open descriptor is bound to it unless it is dead. */
  ghost predicate Aims(live: set<Instance>, used: set<Instance>, joined: set<(Instance, nat)>, p: Point) {
    match p
    case Listing(o, g, found) =>
      o.child.Some? && (o.child.value, g) in joined
      && forall q :: q in found ==> q in used && q.start >= o.child.value.start && (q, g) in joined
    case Signalling(o, _, targets, hand) =>
      && targets != [] && (forall q :: q in targets ==> q in used && Target(joined, o, q))
      && (hand.Inspecting? ==> hand.fd.pid == targets[0].pid && (targets[0] in live ==> hand.fd == targets[0]))
      && (hand.Sending? ==> hand.fd == targets[0])
    case _ => true
  }

  ghost predicate Aimed(s: State, i: Instance)
    requires i in s.shims
  {
    Aims(s.live, s.used, s.joined, s.shims[i].point)
  }

  ghost predicate AllAimed(s: State) {
    forall i :: i in s.shims && i in s.live ==> Aimed(s, i)
  }

  ghost predicate OnePerPid(s: State) {
    forall p, q :: p in s.live && q in s.live && p.pid == q.pid ==> p == q
  }

  predicate Informed(s: State, i: Instance)
    requires i in s.shims
  {
    Knows(s.live, s.spawned.Keys, s.disk, i, s.shims[i].desktop, s.shims[i].point)
  }

  ghost predicate Exclusive(s: State) {
    && (s.lock.Some? ==> s.lock.value in s.live && s.lock.value in s.shims
                         && Holding(s.shims[s.lock.value].point))
    && (forall i :: i in s.shims && i in s.live && Holding(s.shims[i].point) ==> s.lock == Some(i))
  }

  ghost predicate AllInformed(s: State) {
    forall i :: i in s.shims && i in s.live ==> Informed(s, i)
  }

  /** A record on disk names a Shim and a child whose instances have really been handed out. */
  ghost predicate Recorded(disk: Disk, s: State) {
    disk.Stored? ==>
      var r := disk.record;
      r.shim in s.shims && (r.child.Some? ==> r.child.value in s.published)
  }

  ghost predicate Accounted(s: State) {
    && s.live <= s.used && s.shims.Keys <= s.used && s.spawned.Keys <= s.used
    && s.published.Keys <= s.spawned.Keys && s.shims.Keys !! s.spawned.Keys
  }

  /** A live published child is named by the record on disk. */
  ghost predicate Pinned(s: State) {
    forall c :: c in s.published ==>
      s.published[c].child == Some(c) && (c in s.live ==> s.disk == Stored(s.published[c]))
  }

  /** A live child nobody published still has its Shim holding it, unless it was orphaned. */
  ghost predicate Held(s: State) {
    forall c :: c in s.spawned && c in s.live && c !in s.published && c !in s.orphans ==>
      var i := s.spawned[c];
      i in s.live && i in s.shims
      && (s.shims[i].point == Spawned(c) || (s.shims[i].point.Reaping? && s.shims[i].point.child == c))
  }

  /** Every signal of a takeover reached the recorded Shim or a process of the recorded child's group. */
  ghost predicate Targeted(s: State) {
    forall d :: d in s.signalled ==> Entitled(s, d.owner, d.target)
  }

  ghost predicate Entitled(s: State, owner: Record, p: Instance) {
    && owner.shim in s.shims && (owner.child.Some? ==> owner.child.value in s.published)
    && p in s.used && Target(s.joined, owner, p)
  }

  ghost predicate Grouped(s: State) {
    s.live <= s.groups.Keys && forall p :: p in s.groups ==> (p, s.groups[p]) in s.joined
  }

  /** What takeovers need to signal only whom they mean to. */
  ghost predicate Careful(s: State) {
    AllAimed(s) && OnePerPid(s) && Targeted(s) && Grouped(s)
  }

  ghost predicate OneBasename(s: State) {
    forall i, j :: i in s.shims && j in s.shims ==> s.shims[i].basename == s.shims[j].basename
  }

  ghost predicate Inv(s: State) {
    Exclusive(s) && AllInformed(s) && Recorded(s.disk, s) && Accounted(s) && Pinned(s) && Held(s) && OneBasename(s)
  }

  function Child(p: Point): Option<Instance> {
    if p.Spawned? || p.Reaping? then Some(p.child) else None
  }

  /** The disk may be rewritten by the lock holder when the record it loses pins nothing live. */
  ghost predicate MayRewrite(s: State, i: Instance)
    requires i in s.shims
  {
    && Holding(s.shims[i].point)
    && (s.disk.Stored? ==> (s.disk.record.shim == i || s.disk.record.shim !in s.live)
                           && ChildDead(s.live, s.disk.record))
  }

  /** A patch that keeps the invariant. */
  ghost predicate Orderly(s: State, i: Instance, q: Patch)
    requires i in s.shims
  {
    var p := s.shims[i].point;
    && (if Holding(q.point) then q.lock == Some(i) && (s.lock.None? || s.lock == q.lock)
        else q.lock == if Holding(p) then None else s.lock)
    && (q.disk == s.disk || MayRewrite(s, i))
    && Recorded(q.disk, s)
    && (Child(p).None? || Child(q.point) == Child(p) || Child(p).value !in s.live)
    && Knows(s.live, s.spawned.Keys, q.disk, i, s.shims[i].desktop, q.point)
  }

  lemma MovedKeepsInv(s: State, i: Instance, q: Patch)
    requires Inv(s) && i in s.shims && i in s.live && Orderly(s, i, q)
    ensures Inv(Moved(s, i, q))
  {
    var s' := Moved(s, i, q);
    MovedExclusive(s, i, q);
    forall j | j in s'.shims && j in s'.live ensures Informed(s', j) {
      if j != i { MovedKeepsInformed(s, i, q, j); }
    }
    MovedKeepsChildren(s, i, q);
  }

  lemma MovedExclusive(s: State, i: Instance, q: Patch)
    requires Exclusive(s) && i in s.shims && i in s.live && Orderly(s, i, q)
    ensures Exclusive(Moved(s, i, q))
  {
  }

  lemma MovedKeepsInformed(s: State, i: Instance, q: Patch, j: Instance)
    requires Exclusive(s) && i in s.shims && i in s.live && Orderly(s, i, q)
    requires j in s.shims && j in s.live && j != i && Informed(s, j)
    ensures Informed(Moved(s, i, q), j)
  {
    if q.disk != s.disk {
      assert !Holding(s.shims[j].point);
    }
  }

  lemma MovedKeepsChildren(s: State, i: Instance, q: Patch)
    requires Pinned(s) && Held(s) && i in s.shims && i in s.live && Orderly(s, i, q)
    ensures Pinned(Moved(s, i, q)) && Held(Moved(s, i, q))
  {
  }

  lemma HolderHasLock(s: State, i: Instance)
    requires Exclusive(s) && i in s.shims && i in s.live && Holding(s.shims[i].point)
    ensures s.lock == Some(i)
  {
  }

  lemma PreparingOrderly(s: State, i: Instance, m: Move)
    requires Exclusive(s) && Recorded(s.disk, s)
    requires i in s.shims && i in s.live && Informed(s, i) && Preparing(s, i, m).Some?
    ensures Orderly(s, i, Preparing(s, i, m).value)
  {
    hide Exclusive;
    if Holding(s.shims[i].point) { HolderHasLock(s, i); }
  }

  lemma NothingRecorded(s: State)
    ensures Recorded(NoDirectory, s) && Recorded(NoRecord, s)
  {
  }

  lemma TakingOverOrderly(s: State, i: Instance, m: Move)
    requires Exclusive(s) && Recorded(s.disk, s) && OneBasename(s)
    requires i in s.shims && i in s.live && Informed(s, i) && TakingOver(s, i, m).Some?
    ensures Orderly(s, i, TakingOver(s, i, m).value)
  {
    hide Exclusive, JudgeOwner, Recorded, OneBasename;
    HolderHasLock(s, i);
    NothingRecorded(s);
    if m.Judge? {
      JudgeOrderly(s, i);
    }
  }

  lemma JudgeOrderly(s: State, i: Instance)
    requires Recorded(s.disk, s) && OneBasename(s) && i in s.shims && Informed(s, i) && s.lock == Some(i)
    requires s.shims[i].point.Judging?
    ensures Orderly(s, i, Patch(JudgeOwner(s, i, s.shims[i].point.owner), s.disk, s.lock))
  {
  }

  lemma RemovingOrderly(s: State, i: Instance, m: Move)
    requires Exclusive(s) && Recorded(s.disk, s)
    requires i in s.shims && i in s.live && Informed(s, i) && Removing(s, i, m).Some?
    ensures Orderly(s, i, Removing(s, i, m).value)
  {
    hide Exclusive, Recorded;
    NothingRecorded(s);
    HolderHasLock(s, i);
  }

  lemma EndingOrderly(s: State, i: Instance, m: Move)
    requires Exclusive(s) && Recorded(s.disk, s)
    requires i in s.shims && i in s.live && Informed(s, i) && Ending(s, i, m).Some?
    ensures Orderly(s, i, Ending(s, i, m).value)
  {
    hide Exclusive, Recorded;
    NothingRecorded(s);
    if Holding(s.shims[i].point) { HolderHasLock(s, i); }
  }

  lemma SignalsOrderly(s: State, i: Instance, m: Move)
    requires Exclusive(s) && Recorded(s.disk, s)
    requires i in s.shims && i in s.live && Informed(s, i) && Signals(s, i, m).Some?
    ensures Orderly(s, i, Signals(s, i, m).value)
  {
    hide Exclusive;
    HolderHasLock(s, i);
  }

  lemma DeliveredKeepsInv(s: State, signalled: set<Delivery>)
    requires Inv(s)
    ensures Inv(s.(signalled := signalled))
  {
    var s' := s.(signalled := signalled);
    forall j | j in s'.shims && j in s'.live ensures Informed(s', j) {
      assert Informed(s, j);
    }
  }

  lemma SignalsKeepsInv(s: State, i: Instance, m: Move)
    requires Inv(s) && i in s.shims && i in s.live && Signals(s, i, m).Some?
    ensures Inv(Moved(Delivered(s, i, m), i, Signals(s, i, m).value))
  {
    hide Signals, Orderly, Delivered;
    var q := Signals(s, i, m).value;
    assert Informed(s, i);
    SignalsOrderly(s, i, m);
    MovedKeepsInv(s, i, q);
    DeliveredKeepsInv(Moved(s, i, q), Delivered(s, i, m).signalled);
    DeliveredOnlyLogs(s, i, m);
    hide Inv;
  }

  lemma DeliveredOnlyLogs(s: State, i: Instance, m: Move)
    requires i in s.shims
    ensures Delivered(s, i, m) == s.(signalled := Delivered(s, i, m).signalled)
  {
  }

  /** A process starting with a fresh identity never revives one that was seen dead. */
  lemma BornKeepsInv(s: State, p: Instance, group: nat)
    requires Inv(s) && p !in s.used
    ensures Inv(Born(s, p, group))
  {
    var s' := Born(s, p, group);
    forall j | j in s'.shims && j in s'.live ensures Informed(s', j) {
      assert Informed(s, j);
    }
  }

  lemma JoinKeepsInv(s: State, p: Instance, group: nat)
    requires Inv(s)
    ensures Inv(s.(groups := s.groups[p := group], joined := s.joined + {(p, group)}))
  {
    var s' := s.(groups := s.groups[p := group], joined := s.joined + {(p, group)});
    forall j | j in s'.shims && j in s'.live ensures Informed(s', j) {
      assert Informed(s, j);
    }
  }

  function SpawnedState(s: State, i: Instance, child: Instance): State
    requires i in s.shims
  {
    Born(s, child, child.pid).(shims := s.shims[i := s.shims[i].(point := Spawned(child))],
                               spawned := s.spawned[child := i])
  }

  lemma SpawnInforms(s: State, i: Instance, child: Instance)
    requires Inv(s) && i in s.shims && i in s.live && s.shims[i].point == Acquired && child !in s.used
    ensures AllInformed(SpawnedState(s, i, child))
  {
    var s' := SpawnedState(s, i, child);
    forall j | j in s'.shims && j in s'.live ensures Informed(s', j) {
      assert Informed(s, j);
    }
  }

  lemma SpawnKeepsInv(s: State, i: Instance, child: Instance)
    requires Inv(s) && i in s.shims && i in s.live && Advance(s, i, Spawn(child)).Some?
    ensures Inv(Advance(s, i, Spawn(child)).value)
  {
    hide AllInformed, Knows, Recorded, Pinned, Held, Exclusive;
    SpawnInforms(s, i, child);
    SpawnHolds(s, i, child);
  }

  lemma SpawnHolds(s: State, i: Instance, child: Instance)
    requires Exclusive(s) && Accounted(s) && Recorded(s.disk, s) && Pinned(s) && Held(s) && i in s.shims
    requires i in s.live && child !in s.used && s.shims[i].point == Acquired
    ensures var s' := SpawnedState(s, i, child); Exclusive(s') && Recorded(s'.disk, s') && Pinned(s') && Held(s')
  {
  }

  function PublishedState(s: State, i: Instance, c: Instance): State
    requires i in s.shims
  {
    var record := WithChild(i, s.shims[i].desktop, c);
    s.(shims := s.shims[i := s.shims[i].(point := Unlocking(c))], disk := Stored(record),
       published := s.published[c := record])
  }

  lemma PublishInforms(s: State, i: Instance, c: Instance)
    requires Inv(s) && i in s.shims && i in s.live && s.shims[i].point == Spawned(c)
    ensures AllInformed(PublishedState(s, i, c))
  {
    var s' := PublishedState(s, i, c);
    assert Informed(s, i);
    forall j | j in s'.shims && j in s'.live ensures Informed(s', j) {
      assert Informed(s, j);
    }
  }

  lemma PublishKeepsInv(s: State, i: Instance)
    requires Inv(s) && i in s.shims && i in s.live && Advance(s, i, Publish).Some?
    ensures Inv(Advance(s, i, Publish).value)
  {
    hide AllInformed, Knows, Recorded, Pinned, Held, Exclusive;
    var c := s.shims[i].point.child;
    InformedOfChild(s, i);
    PublishInforms(s, i, c);
    PublishHolds(s, i, c);
  }

  lemma InformedOfChild(s: State, i: Instance)
    requires AllInformed(s) && i in s.shims && i in s.live && s.shims[i].point.Spawned?
    ensures s.shims[i].point.child in s.spawned
  {
    assert Informed(s, i);
  }

  lemma PublishHolds(s: State, i: Instance, c: Instance)
    requires Exclusive(s) && Accounted(s) && Recorded(s.disk, s) && Pinned(s) && Held(s) && i in s.shims
    requires i in s.live && s.shims[i].point == Spawned(c) && c in s.spawned
    requires s.disk == Stored(Childless(i, s.shims[i].desktop))
    ensures var s' := PublishedState(s, i, c); Exclusive(s') && Recorded(s'.disk, s') && Pinned(s') && Held(s')
  {
  }

  lemma AdvanceKeepsInv(s: State, i: Instance, m: Move)
    requires Inv(s) && i in s.shims && i in s.live && Advance(s, i, m).Some?
    ensures Inv(Advance(s, i, m).value)
  {
    if m.Spawn? { SpawnKeepsInv(s, i, m.child); }
    else if m.Publish? { PublishKeepsInv(s, i); }
    else if Preparing(s, i, m).Some? {
      assert Informed(s, i);
      PreparingOrderly(s, i, m);
      MovedKeepsInv(s, i, Preparing(s, i, m).value);
    } else if TakingOver(s, i, m).Some? {
      assert Informed(s, i);
      TakingOverOrderly(s, i, m);
      MovedKeepsInv(s, i, TakingOver(s, i, m).value);
    } else if Signals(s, i, m).Some? {
      SignalsKeepsInv(s, i, m);
    } else if Removing(s, i, m).Some? {
      assert Informed(s, i);
      RemovingOrderly(s, i, m);
      MovedKeepsInv(s, i, Removing(s, i, m).value);
    } else {
      assert Informed(s, i);
      EndingOrderly(s, i, m);
      MovedKeepsInv(s, i, Ending(s, i, m).value);
    }
  }

  lemma KillKeepsInv(s: State, p: Instance)
    requires Inv(s) && p in s.live
    ensures Inv(Kill(s, p))
  {
    var s' := Kill(s, p);
    forall j | j in s'.shims && j in s'.live ensures Informed(s', j) {
      assert Informed(s, j);
    }
    forall c | c in s'.spawned && c in s'.live && c !in s'.published && c !in s'.orphans
      ensures var i := s'.spawned[c];
              i in s'.live && i in s'.shims && Child(s'.shims[i].point) == Some(c)
    {
      assert c in s.live && c !in s.orphans;
    }
  }

  lemma StartKeepsInv(s: State, p: Instance, group: nat, desktop: nat, name: string)
    requires Inv(s) && p !in s.used && (forall i :: i in s.shims ==> s.shims[i].basename == name)
    ensures Inv(Born(s, p, group).(shims := s.shims[p := Shim(desktop, name, Queued)]))
  {
    BornKeepsInv(s, p, group);
    var b := Born(s, p, group);
    var s' := b.(shims := s.shims[p := Shim(desktop, name, Queued)]);
    forall j | j in s'.shims && j in s'.live ensures Informed(s', j) {
      if j != p { assert Informed(b, j); }
    }
  }

  ghost predicate AllNamed(s: State, name: string) {
    forall i :: i in s.shims ==> s.shims[i].basename == name
  }

  lemma AdvanceKeepsNames(s: State, i: Instance, m: Move, name: string)
    requires AllNamed(s, name) && i in s.shims && Advance(s, i, m).Some?
    ensures AllNamed(Advance(s, i, m).value, name)
  {
    hide Preparing, TakingOver, Signals, Removing, Ending, Delivered, AllNamed;
    var s' := Advance(s, i, m).value;
    DeliveredOnlyLogs(s, i, m);
    NamesStay(s, s', i, name);
  }

  lemma NamesStay(s: State, s': State, i: Instance, name: string)
    requires AllNamed(s, name) && i in s.shims && i in s'.shims && s'.shims == s.shims[i := s'.shims[i]]
    requires s'.shims[i].basename == s.shims[i].basename
    ensures AllNamed(s', name)
  {
  }

  lemma ApplyKeepsInv(s: State, a: Action, name: string)
    requires Inv(s) && AllNamed(s, name) && Apply(s, a).Some? && (a.StartShim? ==> a.basename == name)
    ensures Inv(Apply(s, a).value) && AllNamed(Apply(s, a).value, name)
  {
    hide Exclusive, AllInformed, Recorded, Pinned, Held, OneBasename, Advance;
    match a {
      case Begin(p, group) => BornKeepsInv(s, p, group);
      case Join(p, group) => JoinKeepsInv(s, p, group);
      case Exit(p) => KillKeepsInv(s, p);
      case StartShim(p, group, desktop, _) => StartKeepsInv(s, p, group, desktop, name);
      case Act(i, m) =>
        AdvanceKeepsInv(s, i, m);
        AdvanceKeepsNames(s, i, m, name);
    }
  }

  lemma {:induction false} ExecKeepsInv(s: State, schedule: seq<Action>, name: string)
    requires Inv(s) && AllNamed(s, name) && Exec(s, schedule).Some? && Named(schedule, {name})
    ensures Inv(Exec(s, schedule).value)
    decreases |schedule|
  {
    if schedule != [] {
      ApplyKeepsInv(s, schedule[0], name);
      ExecKeepsInv(Apply(s, schedule[0]).value, schedule[1..], name);
    }
  }

  lemma ReachableInv(s: State, name: string)
    requires Reachable(s, {name})
    ensures Inv(s)
  {
    var schedule :| Named(schedule, {name}) && Exec(INIT, schedule) == Some(s);
    ExecKeepsInv(INIT, schedule, name);
  }

  // ---- Whom a takeover signals -------------------------------------------------------------

  /** One state follows another without handing an identity out again. */
  ghost predicate Grows(s: State, s': State) {
    && s.shims.Keys <= s'.shims.Keys && s.published.Keys <= s'.published.Keys
    && s.used <= s'.used && s.joined <= s'.joined
    && forall q :: q in s'.live ==> q in s.live || q !in s.used
  }

  lemma TargetStays(joined: set<(Instance, nat)>, joined': set<(Instance, nat)>, owner: Record, p: Instance)
    requires Target(joined, owner, p) && joined <= joined'
    ensures Target(joined', owner, p)
  {
    if p != owner.shim {
      var g: nat :| (owner.child.value, g) in joined && (p, g) in joined;
      assert (owner.child.value, g) in joined' && (p, g) in joined';
    }
  }

  lemma AimsStay(s: State, s': State, p: Point)
    requires Aims(s.live, s.used, s.joined, p) && Grows(s, s')
    ensures Aims(s'.live, s'.used, s'.joined, p)
  {
    if p.Signalling? {
      forall q | q in p.targets ensures Target(s'.joined, p.owner, q) {
        TargetStays(s.joined, s'.joined, p.owner, q);
      }
    }
  }

  lemma TargetedStays(s: State, s': State)
    requires Targeted(s) && Grows(s, s') && s'.signalled == s.signalled
    ensures Targeted(s')
  {
    forall d | d in s'.signalled ensures Entitled(s', d.owner, d.target) {
      assert Entitled(s, d.owner, d.target);
      TargetStays(s.joined, s'.joined, d.owner, d.target);
    }
  }

  /** A step under which every Shim keeps its point, or takes one that aims well. */
  lemma CarefulStays(s: State, s': State)
    requires Careful(s) && Grows(s, s') && s'.signalled == s.signalled && OnePerPid(s') && Grouped(s')
    requires forall i :: i in s'.shims && i in s'.live ==>
               (i in s.shims && i in s.live && s.shims[i].point == s'.shims[i].point) || Aimed(s', i)
    ensures Careful(s')
  {
    hide Targeted, OnePerPid, Grouped, Grows, Aims;
    TargetedStays(s, s');
    forall i | i in s'.shims && i in s'.live ensures Aimed(s', i) {
      if !Aimed(s', i) {
        assert Aimed(s, i);
        AimsStay(s, s', s.shims[i].point);
      }
    }
  }

  lemma MovedKeepsCareful(s: State, i: Instance, q: Patch)
    requires Careful(s) && i in s.shims && Aims(s.live, s.used, s.joined, q.point)
    ensures Careful(Moved(s, i, q))
  {
    hide Aims, Targeted;
    CarefulStays(s, Moved(s, i, q));
  }

  /** Only the steps of signalling lead to a point at which something is aimed at. */
  lemma OthersAimAtNothing(s: State, i: Instance, m: Move)
    requires i in s.shims
    ensures Preparing(s, i, m).Some? ==> Aims(s.live, s.used, s.joined, Preparing(s, i, m).value.point)
    ensures TakingOver(s, i, m).Some? ==> Aims(s.live, s.used, s.joined, TakingOver(s, i, m).value.point)
    ensures Removing(s, i, m).Some? ==> Aims(s.live, s.used, s.joined, Removing(s, i, m).value.point)
    ensures Ending(s, i, m).Some? ==> Aims(s.live, s.used, s.joined, Ending(s, i, m).value.point)
  {
  }

  lemma ListingAims(s: State, i: Instance, m: Move)
    requires Inv(s) && Careful(s) && i in s.shims && i in s.live && Signals(s, i, m).Some?
    requires m.LookUp? || m.Collect? || m.Listed?
    ensures Aims(s.live, s.used, s.joined, Signals(s, i, m).value.point)
  {
    hide Pinned, Held, OneBasename, Targeted, OnePerPid, Exclusive;
    assert Aimed(s, i) && Informed(s, i);
    var p := s.shims[i].point;
    if m.Listed? {
      forall q | q in p.found ensures Target(s.joined, p.owner, q) {
        assert (p.owner.child.value, p.group) in s.joined && (q, p.group) in s.joined;
      }
    }
  }

  lemma DeliveryAims(s: State, i: Instance, m: Move)
    requires Careful(s) && i in s.shims && i in s.live && Signals(s, i, m).Some?
    requires m.Open? || m.Inspect? || m.Send?
    ensures Aims(s.live, s.used, s.joined, Signals(s, i, m).value.point)
    ensures m.Send? ==> s.shims[i].point.hand.fd == s.shims[i].point.targets[0]
  {
    hide Targeted, Target, Grouped;
    assert Aimed(s, i);
    var targets := s.shims[i].point.targets;
    assert forall q :: q in targets[1..] ==> q in targets;
  }

  /** A delivery reaches the very instance that was looked up or listed, never one that was given its PID
      in between. */
  lemma SendIsEntitled(s: State, i: Instance)
    requires Inv(s) && Careful(s) && i in s.shims && i in s.live && Signals(s, i, Send).Some?
    ensures Careful(Delivered(s, i, Send))
  {
    hide Pinned, Held, OneBasename, Exclusive, Target;
    assert Aimed(s, i) && Informed(s, i);
    var s' := Delivered(s, i, Send);
    forall d | d in s'.signalled ensures Entitled(s', d.owner, d.target) {
      if d in s.signalled {
        assert Entitled(s, d.owner, d.target);
      }
    }
    forall j | j in s'.shims && j in s'.live ensures Aimed(s', j) {
      assert Aimed(s, j);
    }
  }

  lemma SignalsKeepCareful(s: State, i: Instance, m: Move)
    requires Inv(s) && Careful(s) && i in s.shims && i in s.live && Signals(s, i, m).Some?
    ensures Careful(Moved(Delivered(s, i, m), i, Signals(s, i, m).value))
  {
    hide Inv, Careful, Aims, Signals, Delivered;
    SignalsMoves(s, i, m);
    if m.LookUp? || m.Collect? || m.Listed? {
      ListingAims(s, i, m);
    } else {
      DeliveryAims(s, i, m);
      if m.Send? { SendIsEntitled(s, i); }
    }
    DeliveredOnlyLogs(s, i, m);
    MovedKeepsCareful(Delivered(s, i, m), i, Signals(s, i, m).value);
  }

  lemma SignalsMoves(s: State, i: Instance, m: Move)
    requires i in s.shims && Signals(s, i, m).Some?
    ensures m.LookUp? || m.Collect? || m.Listed? || m.Open? || m.Inspect? || m.Send?
    ensures !m.Send? ==> Delivered(s, i, m) == s
  {
  }

  lemma BornKeepsCareful(s: State, p: Instance, group: nat)
    requires Careful(s) && Accounted(s) && Startable(s, p)
    ensures Careful(Born(s, p, group))
  {
    hide Aims, Targeted;
    CarefulStays(s, Born(s, p, group));
  }

  lemma AdvanceKeepsCareful(s: State, i: Instance, m: Move)
    requires Inv(s) && Careful(s) && i in s.shims && i in s.live && Advance(s, i, m).Some?
    ensures Careful(Advance(s, i, m).value)
  {
    hide Exclusive, AllInformed, Recorded, Pinned, Held, OneBasename, Careful, Aims, Preparing, TakingOver, Signals,
         Removing,
         Ending, Delivered;
    if m.Spawn? {
      BornKeepsCareful(s, m.child, m.child.pid);
      SpawnKeepsCareful(Born(s, m.child, m.child.pid), i, m.child);
    } else if m.Publish? {
      PublishKeepsCareful(s, i, s.shims[i].point.child);
    } else {
      OthersAimAtNothing(s, i, m);
      if Preparing(s, i, m).Some? { MovedKeepsCareful(s, i, Preparing(s, i, m).value); }
      else if TakingOver(s, i, m).Some? { MovedKeepsCareful(s, i, TakingOver(s, i, m).value); }
      else if Signals(s, i, m).Some? { SignalsKeepCareful(s, i, m); }
      else if Removing(s, i, m).Some? { MovedKeepsCareful(s, i, Removing(s, i, m).value); }
      else { MovedKeepsCareful(s, i, Ending(s, i, m).value); }
    }
  }

  lemma SpawnKeepsCareful(s: State, i: Instance, child: Instance)
    requires Careful(s) && i in s.shims
    ensures Careful(Goto(s, i, Spawned(child)).(spawned := s.spawned[child := i]))
  {
    hide Targeted;
    CarefulStays(s, Goto(s, i, Spawned(child)).(spawned := s.spawned[child := i]));
  }

  lemma PublishKeepsCareful(s: State, i: Instance, c: Instance)
    requires Careful(s) && i in s.shims
    ensures Careful(PublishedState(s, i, c))
  {
    hide Targeted;
    CarefulStays(s, PublishedState(s, i, c));
  }

  lemma QueuedAims(s: State)
    ensures Aims(s.live, s.used, s.joined, Queued)
  {
  }

  lemma ApplyKeepsCareful(s: State, a: Action)
    requires Inv(s) && Careful(s) && Apply(s, a).Some?
    ensures Careful(Apply(s, a).value)
  {
    hide Exclusive, AllInformed, Recorded, Pinned, Held, OneBasename, Targeted, Aims, Advance;
    var s' := Apply(s, a).value;
    match a {
      case Begin(p, group) => BornKeepsCareful(s, p, group);
      case Join(_, _) => CarefulStays(s, s');
      case Exit(_) => CarefulStays(s, s');
      case StartShim(p, group, desktop, name) =>
        BornKeepsCareful(s, p, group);
        QueuedAims(s');
        CarefulStays(Born(s, p, group), s');
      case Act(i, m) => AdvanceKeepsCareful(s, i, m);
    }
  }

  lemma {:induction false} ExecKeepsCareful(s: State, schedule: seq<Action>, name: string)
    requires Inv(s) && Careful(s) && AllNamed(s, name) && Exec(s, schedule).Some? && Named(schedule, {name})
    ensures Careful(Exec(s, schedule).value)
    decreases |schedule|
  {
    hide Inv, Careful, AllNamed, Apply;
    if schedule != [] {
      assert schedule[0] in schedule && forall a :: a in schedule[1..] ==> a in schedule;
      ApplyKeepsInv(s, schedule[0], name);
      ApplyKeepsCareful(s, schedule[0]);
      ExecKeepsCareful(Apply(s, schedule[0]).value, schedule[1..], name);
    }
  }

  lemma ReachableCareful(s: State, name: string)
    requires Reachable(s, {name})
    ensures Careful(s)
  {
    var schedule :| Named(schedule, {name}) && Exec(INIT, schedule) == Some(s);
    ExecKeepsCareful(INIT, schedule, name);
  }

  // ---- The properties ----------------------------------------------------------------------

  /** Lease exclusion. Whatever the schedule, when `acquire` returns every child an earlier lease
      published is dead, and so is every child ever started unless its Shim was killed in the gap
      between starting it and publishing it. */
  lemma AcquireExcludes(s: State, name: string, i: Instance)
    requires Reachable(s, {name})
    requires i in s.shims && i in s.live && s.shims[i].point == Acquired
    ensures forall c :: c in s.published ==> c !in s.live
    ensures forall c :: c in s.spawned && c in s.live ==> c in s.orphans
  {
    ReachableInv(s, name);
    assert Informed(s, i);
  }

  /** Two live Host Runtime children are never both published; nor are there two live children at
      all, published or not, outside the orphaned ones. */
  lemma OneHostRuntime(s: State, name: string, c: Instance, d: Instance)
    requires Reachable(s, {name}) && c in s.live && d in s.live
    requires c in s.spawned && d in s.spawned
    requires c in s.published || c !in s.orphans
    requires d in s.published || d !in s.orphans
    ensures c == d
  {
    ReachableInv(s, name);
    if c !in s.published { assert Informed(s, s.spawned[c]); }
    if d !in s.published { assert Informed(s, s.spawned[d]); }
  }

  /** No stolen lease. From publication until it begins to drop the lease, a live Shim finds its
      own record on disk, naming its own child. */
  lemma LeaseNotStolen(s: State, name: string, i: Instance)
    requires Reachable(s, {name}) && i in s.shims && i in s.live && s.shims[i].point.Running?
    ensures s.disk == Stored(WithChild(i, s.shims[i].desktop, s.shims[i].point.child))
  {
    ReachableInv(s, name);
    assert Informed(s, i);
  }

  /** Nobody takes away a record that still protects something: an action that removes or replaces
      another Shim's record does so only once that Shim and its recorded child are both dead. */
  lemma RemovalIsSafe(s: State, name: string, a: Action)
    requires Reachable(s, {name}) && Apply(s, a).Some? && (a.StartShim? ==> a.basename == name)
    requires s.disk.Stored? && Apply(s, a).value.disk != s.disk
    ensures a.Act?
    ensures a.shim != s.disk.record.shim ==> s.disk.record.shim !in s.live
    ensures s.disk.record.child.Some? ==> s.disk.record.child.value !in s.live
  {
    ReachableInv(s, name);
    hide Reachable;
    assert a.Act?;
    var i := a.shim;
    assert Informed(s, i);
    if Preparing(s, i, a.move).Some? { PreparingOrderly(s, i, a.move); }
    else if TakingOver(s, i, a.move).Some? { TakingOverOrderly(s, i, a.move); }
    else if Signals(s, i, a.move).Some? { SignalsOrderly(s, i, a.move); }
    else if Removing(s, i, a.move).Some? { RemovingOrderly(s, i, a.move); }
    else if Ending(s, i, a.move).Some? { EndingOrderly(s, i, a.move); }
    hide Preparing, TakingOver, Ending, AllInformed, Exclusive, Pinned, Held;
  }

  /** Whatever exits, joins a group or is given a PID while a takeover is at work, each of its signals
      reaches the recorded Shim, or a process that started no earlier than the recorded child, was
      published by that Shim, and has been in its process group: never a namesake of one of them. */
  lemma OnlyTargetsSignalled(s: State, name: string, d: Delivery)
    requires Reachable(s, {name}) && d in s.signalled
    ensures d.owner.shim in s.shims
    ensures d.target != d.owner.shim ==>
              && d.owner.child.Some? && d.owner.child.value in s.published
              && d.target.start >= d.owner.child.value.start
              && exists g: nat :: (d.owner.child.value, g) in s.joined && (d.target, g) in s.joined
  {
    ReachableCareful(s, name);
    assert Entitled(s, d.owner, d.target);
  }

  // ---- Why one basename is needed ----------------------------------------------------------

  lemma {:induction false} ExecJoin(s: State, first: seq<Action>, rest: seq<Action>)
    requires Exec(s, first).Some?
    ensures Exec(s, first + rest) == Exec(Exec(s, first).value, rest)
    decreases |first|
  {
    if first == [] {
      assert first + rest == rest;
    } else {
      assert (first + rest)[1..] == first[1..] + rest;
      ExecJoin(Apply(s, first[0]).value, first[1..], rest);
    }
  }

  lemma ExecMore(s0: State, schedule: seq<Action>, s: State, a: Action)
    requires Exec(s0, schedule) == Some(s) && Apply(s, a).Some?
    ensures Exec(s0, schedule + [a]) == Apply(s, a)
  {
    ExecJoin(s0, schedule, [a]);
    assert [a][1..] == [];
  }

  lemma StartsReachable(names: set<string>)
    ensures Reachable(INIT, names)
  {
    assert Named([], names) && Exec(INIT, []) == Some(INIT);
  }

  lemma Go(s: State, a: Action, names: set<string>) returns (s': State)
    requires Reachable(s, names) && Apply(s, a).Some? && (a.StartShim? ==> a.basename in names)
    ensures s' == Apply(s, a).value && Reachable(s', names)
  {
    s' := Apply(s, a).value;
    var schedule :| Named(schedule, names) && Exec(INIT, schedule) == Some(s);
    ExecMore(INIT, schedule, s, a);
    assert Named(schedule + [a], names);
  }

  lemma GoPreparing(s: State, i: Instance, m: Move, q: Patch, names: set<string>) returns (s': State)
    requires Reachable(s, names) && i in s.shims && i in s.live && Preparing(s, i, m) == Some(q)
    ensures s' == Moved(s, i, q) && Reachable(s', names)
  {
    s' := Go(s, Act(i, m), names);
  }

  lemma GoTakingOver(s: State, i: Instance, m: Move, q: Patch, names: set<string>) returns (s': State)
    requires Reachable(s, names) && i in s.shims && i in s.live && TakingOver(s, i, m) == Some(q)
    ensures s' == Moved(s, i, q) && Reachable(s', names)
  {
    s' := Go(s, Act(i, m), names);
  }

  lemma GoEnding(s: State, i: Instance, m: Move, q: Patch, names: set<string>) returns (s': State)
    requires Reachable(s, names) && i in s.shims && i in s.live && Ending(s, i, m) == Some(q)
    ensures s' == Moved(s, i, q) && Reachable(s', names)
  {
    s' := Go(s, Act(i, m), names);
  }

  lemma GoRemoving(s: State, i: Instance, m: Move, q: Patch, names: set<string>) returns (s': State)
    requires Reachable(s, names) && i in s.shims && i in s.live && Removing(s, i, m) == Some(q)
    ensures s' == Moved(s, i, q) && Reachable(s', names)
  {
    s' := Go(s, Act(i, m), names);
  }

  /** From the head of the loop on a clean disk: make the directory, start a child, publish it. */
  lemma Publishes(s: State, i: Instance, c: Instance, names: set<string>) returns (s': State)
    requires Reachable(s, names) && i in s.shims && i in s.live && s.lock == Some(i)
    requires s.shims[i].point == Creating && s.disk == NoDirectory && Startable(s, c)
    ensures Reachable(s', names)
    ensures s'.live == s.live + {c} && s'.used == s.used + {c} && s'.lock == None
    ensures s'.disk == Stored(WithChild(i, s.shims[i].desktop, c))
    ensures s'.shims == s.shims[i := s.shims[i].(point := Running(c))]
    ensures s'.published.Keys == s.published.Keys + {c} && s'.groups == s.groups[c := c.pid]
            && s'.spawned == s.spawned[c := i]
  {
    hide Reachable;
    var own := Childless(i, s.shims[i].desktop);
    s' := GoPreparing(s, i, MakeDirectory, Patch(Writing, NoRecord, Some(i)), names);
    s' := GoPreparing(s', i, WriteRecord, Patch(Retiring, Stored(own), Some(i)), names);
    s' := GoPreparing(s', i, LegacyRetired, Patch(Acquired, Stored(own), Some(i)), names);
    s' := PublishesChild(s', i, c, names);
  }

  lemma GoSpawn(s: State, i: Instance, c: Instance, names: set<string>) returns (s': State)
    requires Reachable(s, names) && i in s.shims && i in s.live && s.shims[i].point == Acquired && Startable(s, c)
    ensures s' == SpawnedState(s, i, c) && Reachable(s', names)
  {
    s' := Go(s, Act(i, Spawn(c)), names);
  }

  lemma GoPublish(s: State, i: Instance, c: Instance, names: set<string>) returns (s': State)
    requires Reachable(s, names) && i in s.shims && i in s.live && s.shims[i].point == Spawned(c)
    requires s.disk == Stored(Childless(i, s.shims[i].desktop))
    ensures s' == PublishedState(s, i, c) && Reachable(s', names)
  {
    s' := Go(s, Act(i, Publish), names);
  }

  lemma PublishesChild(s: State, i: Instance, c: Instance, names: set<string>) returns (s': State)
    requires Reachable(s, names) && i in s.shims && i in s.live && s.lock == Some(i)
    requires s.shims[i].point == Acquired && s.disk == Stored(Childless(i, s.shims[i].desktop)) && Startable(s, c)
    ensures Reachable(s', names)
    ensures s'.live == s.live + {c} && s'.used == s.used + {c} && s'.lock == None
    ensures s'.disk == Stored(WithChild(i, s.shims[i].desktop, c))
    ensures s'.shims == s.shims[i := s.shims[i].(point := Running(c))]
    ensures s'.published.Keys == s.published.Keys + {c} && s'.groups == s.groups[c := c.pid]
            && s'.spawned == s.spawned[c := i]
  {
    hide Reachable;
    s' := GoSpawn(s, i, c, names);
    s' := GoPublish(s', i, c, names);
    s' := GoEnding(s', i, Unlock, Patch(Running(c), s'.disk, None), names);
  }

  lemma Arrives(s: State, i: Instance, name: string, names: set<string>) returns (s': State)
    requires Reachable(s, names) && name in names && Startable(s, i) && s.lock == None
    ensures Reachable(s', names)
    ensures s' == Born(s, i, i.pid).(lock := Some(i), shims := s.shims[i := Shim(1, name, Creating)])
  {
    hide Reachable;
    s' := Go(s, StartShim(i, i.pid, 1, name), names);
    s' := GoPreparing(s', i, Lock, Patch(Creating, s.disk, Some(i)), names);
  }

  lemma Reads(s: State, j: Instance, names: set<string>) returns (s': State)
    requires Reachable(s, names) && j in s.shims && j in s.live && s.lock == Some(j)
    requires s.shims[j].point == Creating && s.disk.Stored?
    ensures Reachable(s', names) && s' == Moved(s, j, Patch(Judging(s.disk.record), s.disk, Some(j)))
  {
    hide Reachable;
    s' := GoPreparing(s, j, MakeDirectory, Patch(Reading, s.disk, Some(j)), names);
    s' := GoTakingOver(s', j, Read, Patch(Judging(s.disk.record), s.disk, Some(j)), names);
  }

  /** A live owner whose executable has another basename is taken for a corrupt record. */
  lemma MistakesOwner(s: State, j: Instance, names: set<string>) returns (s': State)
    requires Reachable(s, names) && j in s.shims && j in s.live && s.lock == Some(j)
    requires s.shims[j].point == Creating && s.disk.Stored?
    requires var o := s.disk.record.shim;
             o in s.live && o in s.shims && s.shims[o].basename != s.shims[j].basename && o.pid != j.pid
    ensures Reachable(s', names) && s' == Moved(s, j, Patch(Creating, NoDirectory, Some(j)))
  {
    hide Reachable;
    var disk, o := s.disk, s.disk.record;
    s' := Reads(s, j, names);
    assert JudgeOwner(s', j, o) == Comparing(o, Retry);
    s' := GoTakingOver(s', j, Judge, Patch(Comparing(o, Retry), disk, Some(j)), names);
    s' := Removes(s', j, names);
  }

  lemma Removes(s: State, j: Instance, names: set<string>) returns (s': State)
    requires Reachable(s, names) && j in s.shims && j in s.live && s.lock == Some(j)
    requires s.disk.Stored? && s.shims[j].point == Comparing(s.disk.record, Retry)
    ensures Reachable(s', names) && s' == Moved(s, j, Patch(Creating, NoDirectory, Some(j)))
  {
    hide Reachable;
    var disk, o := s.disk, s.disk.record;
    s' := GoRemoving(s, j, Compare, Patch(Erasing(o, Retry), disk, Some(j)), names);
    s' := GoRemoving(s', j, Erase, Patch(Unlinking(Retry), NoRecord, Some(j)), names);
    s' := GoRemoving(s', j, Unlink, Patch(Creating, NoDirectory, Some(j)), names);
  }

  /** The first Shim of all runs its child. */
  lemma Runs(name: string, i: Instance, c: Instance, names: set<string>) returns (s: State)
    requires i.pid != c.pid && name in names
    ensures Reachable(s, names) && s.live == {i, c} && s.used == {i, c} && s.groups == map[i := i.pid, c := c.pid]
    ensures s.disk == Stored(WithChild(i, 1, c)) && s.lock == None && s.shims == map[i := Shim(1, name, Running(c))]
    ensures s.spawned == map[c := i] && s.published.Keys == {c}
  {
    hide Reachable;
    StartsReachable(names);
    s := Arrives(INIT, i, name, names);
    s := Publishes(s, i, c, names);
  }

  lemma LeavesHelper(name: string, i: Instance, c: Instance, h: Instance) returns (s: State)
    requires i.pid != c.pid && h.pid != i.pid && h.pid != c.pid
    ensures Reachable(s, {name}) && s.live == {c, h} && s.used == {i, c, h}
            && s.groups == map[i := i.pid, c := c.pid, h := c.pid]
    ensures s.disk == Stored(WithChild(i, 1, c)) && s.lock == None && s.shims.Keys == {i} && s.spawned.Keys == {c}
  {
    hide Reachable;
    s := Runs(name, i, c, {name});
    s := Abandons(s, i, c, h, {name});
  }

  /** The child forks a helper and its Shim dies. */
  lemma Abandons(s: State, i: Instance, c: Instance, h: Instance, names: set<string>) returns (s': State)
    requires Reachable(s, names) && s.live == {i, c} && i != c && s.lock == None && Startable(s, h) && h != i && h != c
    requires i in s.shims && s.shims[i].point == Running(c)
    ensures Reachable(s', names) && s'.live == {c, h} && s'.used == s.used + {h} && s'.groups == s.groups[h := c.pid]
    ensures s'.disk == s.disk && s'.lock == None && s'.shims == s.shims && s'.spawned == s.spawned
  {
    hide Reachable;
    s' := Go(s, Begin(h, c.pid), names);
    s' := Go(s', Exit(i), names);
  }

  /** Two Shims started under different names run two Host Runtimes side by side. */
  lemma TwoBasenamesOverlap(m: string, n: string) returns (s: State, c: Instance, d: Instance)
    requires m != n
    ensures Reachable(s, {m, n})
    ensures c != d && c in s.published && d in s.published && c in s.live && d in s.live
  {
    hide Reachable;
    var i, j := Instance(10, 1), Instance(11, 2);
    c, d := Instance(20, 3), Instance(21, 4);
    s := Runs(m, i, c, {m, n});
    s := Intrudes(s, j, n, {m, n});
    s := Publishes(s, j, d, {m, n});
  }

  lemma Intrudes(s: State, j: Instance, name: string, names: set<string>) returns (s': State)
    requires Reachable(s, names) && name in names && Startable(s, j) && s.lock == None && s.disk.Stored?
    requires var o := s.disk.record.shim;
             o in s.live && o in s.shims && s.shims[o].basename != name && o.pid != j.pid
    ensures Reachable(s', names)
    ensures s' == Born(s, j, j.pid).(lock := Some(j), disk := NoDirectory,
                                        shims := s.shims[j := Shim(1, name, Creating)])
  {
    hide Reachable;
    s' := Arrives(s, j, name, names);
    s' := MistakesOwner(s', j, names);
  }

  ghost predicate Excludes(s: State) {
    forall c, d :: c in s.published && d in s.published && c in s.live && d in s.live ==> c == d
  }

  /** Exclusion holds on every schedule exactly when the competing Shims share one basename. */
  lemma ExclusionNeedsOneBasename(names: set<string>)
    ensures (forall s :: Reachable(s, names) ==> Excludes(s))
            <==> (forall m, n :: m in names && n in names ==> m == n)
  {
    if m, n :| m in names && n in names && m != n {
      var s, c, d := TwoBasenamesOverlap(m, n);
      var schedule :| Named(schedule, {m, n}) && Exec(INIT, schedule) == Some(s);
      assert Named(schedule, names);
      assert Reachable(s, names) && !Excludes(s);
    } else {
      var name := if names == {} then "" else var n :| n in names; n;
      forall s | Reachable(s, names) ensures Excludes(s) {
        var schedule :| Named(schedule, names) && Exec(INIT, schedule) == Some(s);
        assert Named(schedule, {name});
        ReachableInv(s, name);
        forall c, d | c in s.published && d in s.published && c in s.live && d in s.live ensures c == d {
          OneHostRuntime(s, name, c, d);
        }
      }
    }
  }
}
