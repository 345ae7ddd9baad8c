# Verification model of the codexhost process, session and transport protocols

This project models the parts of codexhost that keep state across processes, calls or chunks, and proves
what they are for. `dafny verify dfyconfig.toml` checks all of it.

| file | what it models |
|---|---|
| `Lease.dfy`, `LeaseProgress.dfy` | the Local Host Runtime lease: Shims competing for one owner record under a file lock, with crashes at any step and PID reuse, as a transition system; what it never does, and what its steps achieve |
| `ProcessTree.dfy`, `DesktopTree.dfy`, `Ledger.dfy` | descendant discovery over a system snapshot, the Desktop tree and its roots, and the ownership ledger of a supervised tree (Linux) |
| `Signals.dfy` | signal delivery through pidfds (Linux), as a transition system |
| `OutputChannel.dfy` | the two-queue output channel of a Harness session |
| `SessionTrace.dfy`, `TraceLaws.dfy` | the outputs of a session, the grammar they follow, and what the grammar means for positions in a trace |
| `HarnessSession.dfy`, `HarnessAdapter.dfy` | the in-process session and adapter: turns, items, interactions, fault, history, fork, rollback |
| `SessionCalls.dfy`, `AdapterCalls.dfy` | every sequence of calls on a session, and every run of an adapter with all its sessions |
| `Bridge.dfy`, `BridgeCalls.dfy` | the Remote Control bridge: states, server-request identities across restarts, ownership caches, routing; and every run of it |
| `WindowsQuoting.dfy`, `EnvironmentBlock.dfy` | Windows command lines and environment blocks, with the readers they are meant for |
| `BrokerFraming.dfy` | newline framing under any chunking, with the size limit |
| `OwnerRecord.dfy` | the owner-record text format and its two decoders |
| `Arguments.dfy` | the Shim's two option parsers |
| `Wrappers.dfy`, `Sequences.dfy`, `Sorting.dfy`, `Decimal.dfy` | options and results, searching, the stable sort, decimal numbers |

## How the protocols are modelled

Lease and signal delivery are labelled transition systems: a schedule is any sequence of actions, and a
property holds of every state some schedule reaches. A process is a PID with its start time; a PID may be
handed out again once its holder is dead, never with the same start time. The lock is exclusive and dies with
its holder, a record is replaced atomically, and a timed wait ends in "seen dead" or in an error. A process is in
one process group at a time and may change it; the Host Runtime leads a group of its own. A takeover lists that
group process by process and delivers each signal in three steps (open, inspect, send) with anything in between. A Shim drops
its lease only after its child has exited. Shims may die anywhere; a child whose Shim died between starting
and publishing it is counted among the orphans, which the exclusion law names and excepts.

The session, channel, bridge, adapter, ledger and frame reader are classes whose fields change as the source's
do. Each session and each bridge carries a ghost trace of what it has emitted, and `Valid()` says that the
trace follows the grammar (or the log laws); every method keeps it, and a dispatcher over all calls says so for
every sequence of calls. A session's stored turns are an object of their own, extended in place and copied by
every reader, and the adapter's invariant says that no two sessions share one. JSON values, timers, Unicode lower-casing and the JSON validity of a frame or line are parameters.

## Where a promise needs a condition

- Lease exclusion holds on every schedule exactly when the competing Shims share one executable basename
  (`Lease.ExclusionNeedsOneBasename`): a live owner under another name is taken for a corrupt record.
- A Shim released after dropping its lease has left its own record behind only if another held the lock when it
  tried, or the file system failed it (`LeaseProgress.DropLeavesOnlyIfRefused`).
- A Shim that has read a record is turned away exactly when the record carries its own PID, or a live codexhost
  Shim of another live Desktop (`LeaseProgress.TurnsAway`); a dead owner's record whose PID the Shim was given is
  never taken over.
- A forced takeover kills more than the recorded Shim and child: everything in the child's process group that
  started no earlier, such as a helper the child forked (`LeaseProgress.HelpersAreSignalled`), and nothing else
  (`Lease.OnlyTargetsSignalled`). A group is known by its number only.
- The Desktop tree is exact for a snapshot exactly when no circle of parent links runs through matching
  processes only (`DesktopTree.TreeExactWithoutCycles`); the root snapshots are exactly the topmost matching
  processes exactly when no matching process with a parent that does not match stands below such a circle
  (`DesktopTree.RootsAreTopmost`).
- A command published as an ephemeral turn follows the trace grammar exactly when no turn is open
  (`TraceLaws.EphemeralNeedsIdle`); the source does not check for one.
- The channel refines one sequence unless it queues an `undefined`, which a later read loses
  (`OutputChannel.EmitRefines`, `OutputChannel.QueuedUndefinedIsLost`).
- The processes an observation returns are pairwise different exactly as far as the ledger's surviving entries
  are; a tree starts with such a ledger exactly when the entries it is given have different PIDs and none has the
  root's PID without being the root (`Ledger.ObservedProcessTree.WithOwnedProcesses`).
- Rollback equals the fork before the last turn exactly from two turns on (`HarnessAdapter.RollbackIsFork`).
- A request on a thread travels as the thread was last sighted (`Bridge.RoutedByLastSighting`). Listings, thread
  starts and the host's own requests have rules of their own (`Bridge.OwnRequestsAreBridged`,
  `Bridge.PolicyBridge.RoutedSend`).
- A ready report makes the bridge ready in any state, also after a failure or disposal; it does not revive a
  rejected promise (`Bridge.PolicyBridge.BecomeReady`).
- A command line passed as a terminated string is read back exactly when no argument holds a NUL
  (`WindowsQuoting.RoundTrip`).
- Frames the writer accepts can be refused by the reader when a chunk carries more than one of them;
  `BrokerFraming.DeliversThePieces` and `BrokerFraming.RefusedForSize` give the exact condition, and
  `BrokerFraming.TogetherTooLarge` the smallest instance.
- An owner record is read back exactly when the child's id and start time are both present or both absent
  (`OwnerRecord.RoundTrip`).

## Model

| member | source | states |
|---|---|---|
| Lease.AcquireExcludes | crates/shim/src/local_runtime_lease.rs:164-279 | on every schedule of Shims with one basename, when `acquire` returns every child published earlier is dead, and any other live child is an orphan of a crashed Shim |
| Lease.OneHostRuntime | crates/shim/src/local_runtime_lease.rs:164-299 | no two Host Runtime children are live together, published or about to be, except orphans |
| Lease.LeaseNotStolen | crates/shim/src/local_runtime_lease.rs:307-322 | from publication until it begins to drop the lease, a live Shim finds its own record on disk, whatever delayed drops and contenders do |
| Lease.RemovalIsSafe | crates/shim/src/local_runtime_lease.rs:353-362 | an action that changes a stored record is taken by its own Shim or after that Shim's death, and never while the recorded child lives |
| Lease.OnlyTargetsSignalled | crates/shim/src/local_runtime_lease.rs:691-765 | every signal of a takeover reaches the recorded Shim, or a process that has been in the recorded child's process group and started no earlier than that published child |
| LeaseProgress.HelpersAreSignalled | crates/platform/src/process_termination.rs:49-93 | a reachable takeover signals a process the child forked, which is neither a Shim nor a child anybody started |
| Lease.SendIsEntitled | crates/platform/src/process.rs:489-523 | what is sent through a descriptor reaches the instance that was looked up or listed, never one that was given its PID in between |
| Lease.ApplyKeepsCareful | crates/platform/src/process_termination.rs:49-93 | every step of every Shim, every death, start and change of process group keeps what signalling relies on |
| Lease.TwoBasenamesOverlap | crates/shim/src/local_runtime_lease.rs:589-607 | two Shims under different basenames reach a state with two live published children |
| Lease.ExclusionNeedsOneBasename | crates/shim/src/local_runtime_lease.rs:249-265 | exclusion holds in every reachable state if and only if there is at most one basename |
| Lease.ApplyKeepsInv | crates/shim/src/local_runtime_lease.rs:164-373 | every step of every Shim, every death and every process start keeps the protocol's invariant |
| LeaseProgress.DropRemoves | crates/shim/src/local_runtime_lease.rs:307-322 | with the lock free a dropping Shim's own moves take its record, and no other, off the disk, free the lock and end in release |
| LeaseProgress.DropLeavesOnlyIfRefused | crates/shim/src/local_runtime_lease.rs:316-321 | on every schedule a Shim released after dropping has its record still on disk only if the lock was held when it tried, or the file system failed |
| LeaseProgress.FailedSpawnRemoves | crates/shim/src/lib.rs:774-784 | a Shim that cannot start its child takes its record away and frees the lock |
| LeaseProgress.FailedPublishRemoves | crates/shim/src/lib.rs:786-792 | so does one whose publication fails, for the record it remembers, once its child is dead |
| LeaseProgress.FailedStartRemoves | crates/shim/src/local_runtime_lease.rs:199-216 | a Shim that cannot write its record or retire the legacy owner leaves an empty disk and a free lock |
| LeaseProgress.AcquiresUnowned | crates/shim/src/local_runtime_lease.rs:186-223 | without an owner directory, or with an unreadable one, a Shim's own moves lead to acquisition |
| LeaseProgress.TakesOverFromDead | crates/shim/src/local_runtime_lease.rs:249-258 | from a dead owner's record there is a continuation to acquisition in which a live recorded child is signalled and dies |
| LeaseProgress.TakesOverFromLive | crates/shim/src/local_runtime_lease.rs:268-279 | from a live owner of the same basename and Desktop there is one in which the recorded Shim is signalled |
| LeaseProgress.ForcesOwner | crates/shim/src/local_runtime_lease.rs:691-713 | an owner that outlives the grace has its child and then its Shim killed before acquisition |
| LeaseProgress.OnlyDesktopsEnter | crates/shim/src/local_runtime_lease.rs:172-177 | on every schedule a Shim without a Desktop never gets past the lock |
| LeaseProgress.TurnsAway | crates/shim/src/local_runtime_lease.rs:246-276 | exactly when a Shim that has read a record gives up at once |
| ProcessTree.DescendantsAreLeast | crates/platform/src/process.rs:194-213 | roots and PIDs found are the least set closed under "parent is in the set", cycles or duplicates notwithstanding |
| ProcessTree.DescendantsAreLineage | crates/platform/src/process.rs:194-213 | with unique PIDs the processes found are exactly the non-roots that a line of parent links joins to a root |
| ProcessTree.DescendantsOnce | crates/platform/src/process.rs:194-213 | no process is returned twice |
| ProcessTree.DescendantSnapshots | crates/platform/src/process.rs:194-213 | the Launcher's loop over two vectors terminates and computes that closure, in order |
| ProcessTree.ListenerDescendants | crates/shim/src/remote_lifecycle.rs:314-331 | the remote listener's loop over a hash set yields the same sequence with the root in front |
| DesktopTree.TreeExactWithoutCycles | crates/platform/src/process.rs:216-237 | the tree is exactly the matching processes and their descendants if and only if no parent cycle consists of matching processes |
| DesktopTree.TreeListsOnce | crates/platform/src/process.rs:216-237 | the tree is sorted by PID without duplicates |
| DesktopTree.TopmostAreRoots | crates/platform/src/process.rs:240-251 | a matching process without a matching proper ancestor is a root |
| DesktopTree.RootsAreTopmost | crates/platform/src/process.rs:240-251 | the roots are exactly the matching processes without a matching proper ancestor, even through other processes, if and only if no matching process with a non-matching parent stands below a matching cycle |
| DesktopTree.RootsAreTopmostWithoutCircles | crates/platform/src/process.rs:240-251 | in particular they are without any matching cycle |
| Ledger.OwnedIsLeast | crates/platform/src/process.rs:366-425 | ownership is the least set holding the surviving ledger instances and the root, closed under parent links |
| Ledger.StaysOwned | crates/platform/src/process.rs:335-436 | over every run of observations, successful or failing, an owned process present in every later snapshot stays owned, reparented or not, root exited or not |
| Ledger.ReadoptedByLineage | crates/platform/src/process.rs:366-425 | a process the ledger does not hold, such as a reuse of a retired PID, becomes owned exactly by a current line of parent links |
| Ledger.Refresh | crates/platform/src/process.rs:366-379 | the ledger keeps exactly the root entry and the instances still present, with their current data |
| Ledger.FindForeign | crates/platform/src/process.rs:385-419 | the group members, and one that neither ledger nor lineage accounts for if there is any |
| Ledger.Account | crates/platform/src/process.rs:366-435 | on success the processes returned are exactly the owned ones, each once when the surviving entries differ; an unattributed group member makes it fail and adopts nothing |
| Ledger.ObservedProcessTree.Observe | crates/platform/src/process.rs:335-436 | exact error conditions of an observation, the ledger and root it leaves, and the processes it returns, each once as long as ledger PIDs differ, which it keeps |
| Ledger.ObservedProcessTree.Escaped | crates/platform/src/process.rs:461-473 | exact error conditions, the ledger left behind, and the owned processes that no line of parent links joins to the root, each once |
| Ledger.ObservedProcessTree.WithOwnedProcesses | crates/platform/src/process.rs:304-324 | the ledger is what was given and the root, and exactly when its PIDs are pairwise different |
| Ledger.LineageWithin | crates/platform/src/process.rs:461-473 | below the root, the closure over owned processes equals the closure over all processes |
| Signals.OnlyListedSignalled | crates/platform/src/process.rs:475-523 | in every interleaving of open, inspect and send with exits and PID reuse, the k-th delivery reaches the k-th listed instance and no other |
| Signals.SurvivorsWereSignalled | crates/platform/src/process.rs:475-523 | after a call that succeeds, a listed process that existed at the start and is still live has been signalled |
| Signals.ReusedPidStopsTheCall | crates/platform/src/process.rs:501-514 | while another process holds a listed PID no schedule takes the call past it, and nothing is sent in its round |
| Signals.InspectionFails | crates/platform/src/process.rs:510-514 | the inspection of a reused PID fails the call |
| Signals.UndisturbedRound | crates/platform/src/process.rs:487-523 | an undisturbed round signals a live listed process and passes over a free PID |
| OutputChannel.EmitRefines | packages/harness-adapter/src/output-channel.ts:22-28 | emitting keeps the refinement of one sequence with a read index if and only if it does not queue an `undefined` |
| OutputChannel.EndRefines | packages/harness-adapter/src/output-channel.ts:30-35 | ending resolves exactly the reads beyond the emitted values as done |
| OutputChannel.ReadRefines | packages/harness-adapter/src/output-channel.ts:37-42 | a read takes the next value in order, waits, or is done |
| OutputChannel.ChannelRefines | packages/harness-adapter/src/output-channel.ts:22-42 | over every sequence of calls the channel is one sequence with a read index, and at most one queue is non-empty |
| OutputChannel.QueuedUndefinedIsLost | packages/harness-adapter/src/output-channel.ts:38-39 | a queued `undefined` leaves the read that should receive it waiting |
| OutputChannel.HarnessOutputChannel.Emit | packages/harness-adapter/src/output-channel.ts:22-28 | the queues and promises after an emit |
| OutputChannel.HarnessOutputChannel.End | packages/harness-adapter/src/output-channel.ts:30-35 | the loop over waiting reads resolves every one of them |
| TraceLaws.OneOpenTurn | packages/harness-adapter/src/testing.ts:392-424 | in a grammatical trace, between two turn starts the first turn completes |
| TraceLaws.ItemCompletesOnce | packages/harness-adapter/src/testing.ts:562-574 | each started item completes exactly once before its turn does |
| TraceLaws.InteractionClosesOnce | packages/harness-adapter/src/testing.ts:897-907 | each opened interaction closes exactly once before its turn completes |
| TraceLaws.NothingAfterFault | packages/harness-adapter/src/testing.ts:692-697 | a fault is the last output |
| TraceLaws.CompletionReplays | packages/harness-adapter/src/testing.ts:444-580 | folding the updates onto the started item gives exactly the item in its completion |
| TraceLaws.CompletedItemHolds | packages/harness-adapter/src/testing.ts:444-560 | a completed item holds its started text or output followed by everything appended in emission order, or the last tool output or subagents put in place, and is otherwise as started |
| TraceLaws.HistoryEntry | packages/harness-adapter/src/testing.ts:922-966 | the k-th turn of a trace's history is the k-th finished turn's completed snapshots in emission order, with its outcome and checkpoint |
| TraceLaws.EphemeralNeedsIdle | packages/harness-adapter/src/testing.ts:256-266 | an ephemeral command keeps the trace grammatical if and only if no turn is open |
| HarnessSession.StoredHistory | packages/harness-adapter/src/testing.ts:945-959 | in every session state, the stored turn of a completed native turn holds exactly the completed snapshots, the outcome and the checkpoint its outputs announced |
| HarnessSession.OwnKeysDiffer | packages/harness-adapter/src/testing.ts:924-932 | the turns a session adds have pairwise different keys |
| HarnessSession.ClosingReverses | packages/harness-adapter/src/testing.ts:909-920 | ending a turn completes its open items in the reverse of the order they were started in |
| HarnessSession.EmptyTextExactly | packages/harness-adapter/src/testing.ts:400-410 | the joined input is empty exactly for no input and for one empty input |
| HarnessSession.FakeHarnessSession.constructor | packages/harness-adapter/src/testing.ts:187-245 | a new session has emitted nothing and starts from the given history |
| HarnessSession.FakeHarnessSession.StartTurn | packages/harness-adapter/src/testing.ts:381-442 | which refusal applies first; an accepted turn's state and outputs: its start, one agent message, then planned usage, question and approval in this order |
| HarnessSession.FakeHarnessSession.AppendText | packages/harness-adapter/src/testing.ts:444-453 | text goes to the end of the first open agent message, in its place, and is announced as one update |
| HarnessSession.FakeHarnessSession.StartReasoning | packages/harness-adapter/src/testing.ts:455-465 | reasoning starts empty and its text is an update |
| HarnessSession.FakeHarnessSession.CompleteItem | packages/harness-adapter/src/testing.ts:562-574 | the item leaves the open items and is the next completed snapshot |
| HarnessSession.FakeHarnessSession.Respond | packages/harness-adapter/src/testing.ts:706-729 | an interaction is answered once; a refused response changes nothing |
| HarnessSession.FakeHarnessSession.SucceedTurn | packages/harness-adapter/src/testing.ts:658-671 | throws without effect exactly on open tools or pending interactions, otherwise ends the turn |
| HarnessSession.FakeHarnessSession.CompleteCancellation | packages/harness-adapter/src/testing.ts:673-682 | needs a cancellation request, closes interactions, completes items last-started first, records the turn |
| HarnessSession.FakeHarnessSession.FailTurn | packages/harness-adapter/src/testing.ts:684-690 | the same for a failed turn |
| HarnessSession.FakeHarnessSession.Fault | packages/harness-adapter/src/testing.ts:692-697 | the open turn fails first, the fault comes last and once, and the session is closed |
| HarnessSession.FakeHarnessSession.Close | packages/harness-adapter/src/testing.ts:699-704 | closing twice emits nothing more |
| HarnessSession.FakeHarnessSession.Cancel | packages/harness-adapter/src/testing.ts:873-884 | cancelling marks the turn, or ends it at once when so prepared |
| HarnessSession.FakeHarnessSession.SelectModel | packages/harness-adapter/src/testing.ts:731-776 | which refusal applies first, and the model afterwards |
| HarnessSession.FakeHarnessSession.PublishAutonomousTurn | packages/harness-adapter/src/testing.ts:268-281 | an autonomous turn is recorded with its input and no items |
| HarnessSession.FakeHarnessSession.FinishTurn | packages/harness-adapter/src/testing.ts:922-966 | one record with the next key and checkpoint, then the completion with that checkpoint |
| HarnessSession.FakeHarnessSession.ReadSnapshot | packages/harness-adapter/src/testing.ts:306-323 | a read succeeds exactly when the session is open and its outputs show no turn in progress, and gives a copy that holds every finished turn with the items the outputs completed |
| HarnessSession.FakeHarnessSession.PersistedSnapshot | packages/harness-adapter/src/testing.ts:325-327 | a copy of the stored turns in any state |
| HarnessSession.FakeHarnessSession.Arrange | packages/harness-adapter/src/testing.ts:329-358 | what is arranged for later calls, and nothing else |
| SessionCalls.PerformAll | packages/harness-adapter/src/testing.ts:692-704 | over every sequence of calls outputs and stored turns only grow, and a closed or faulted session stays closed, emits nothing and stores nothing |
| HarnessAdapter.CheckpointOfTurn | packages/harness-adapter/src/testing.ts:1194-1196 | checkpoint k is found at turn k and no other checkpoint is found |
| HarnessAdapter.DerivedRenames | packages/harness-adapter/src/testing.ts:1232-1257 | deriving a history renames its identities, renumbers its checkpoints from one and changes nothing else |
| HarnessAdapter.ForkHasFirstTurns | packages/harness-adapter/src/testing.ts:1194-1216 | a fork at k has the first k turns up to renaming, and exists exactly for 1 to the number of turns |
| HarnessAdapter.ForkOfFork | packages/harness-adapter/src/testing.ts:1194-1257 | the fork at j of the fork at k, with j at most k, is the fork at j |
| HarnessAdapter.RollbackIsFork | packages/harness-adapter/src/testing.ts:1150-1169 | rolling back equals forking before the last turn if and only if there are two turns or more |
| HarnessAdapter.DerivedIdsDiffer | packages/harness-adapter/src/testing.ts:1235-1242 | derived item identities determine session, turn and item |
| HarnessAdapter.DerivedDistinct | packages/harness-adapter/src/testing.ts:1232-1257 | in a derived history all items have different identities and all turns different keys |
| HarnessAdapter.DerivedApart | packages/harness-adapter/src/testing.ts:1235-1242 | no item identity of one session's derived history occurs in another's |
| HarnessAdapter.DerivedNeverFresh | packages/harness-adapter/src/testing.ts:972-980 | nor is it ever the identity of an item a session starts itself |
| HarnessAdapter.FakeHarnessAdapter.Open | packages/harness-adapter/src/testing.ts:1057-1217 | which refusal applies first; otherwise the known session, or a new one with the fork's or rollback's history, in which no identity occurs twice |
| AdapterCalls.PerformOn | packages/harness-adapter/src/testing.ts:1219-1277 | any call on one session keeps the adapter's invariant and every other session's stored turns and outputs |
| AdapterCalls.Run | packages/harness-adapter/src/testing.ts:1057-1277 | in every run of calls, forks and rollbacks, a session not itself called keeps its stored turns and outputs |
| HarnessAdapter.FakeHarnessAdapter.Close | packages/harness-adapter/src/testing.ts:1279-1286 | closing the adapter closes every session |
| Bridge.OuterIdsDiffer | packages/desktop-control/src/renderer-draft-prewarm-runtime.ts:239 | an outer identity determines process handle and ordinal, whatever the handle looks like |
| Bridge.AskingGrows | packages/desktop-control/src/renderer-draft-prewarm-runtime.ts:238-243 | passing a server request on issues an outer identity never issued before |
| Bridge.ReplyingGrows | packages/desktop-control/src/renderer-draft-prewarm-runtime.ts:570-577 | handing a reply over keeps "at most once, and with the inner identity that was asked" |
| Bridge.RestartKeepsLog | packages/desktop-control/src/renderer-draft-prewarm-runtime.ts:151-165 | restarting the ordinal from one under a fresh handle keeps all outer identities distinct |
| Bridge.ReplyAnswersItsFrame | packages/desktop-control/src/renderer-draft-prewarm-runtime.ts:238-243 | in every run a reply handed over has the inner identity of an earlier frame, the only one issued under its outer identity, and is the only reply under it |
| Bridge.RoutedByLastSighting | packages/desktop-control/src/renderer-draft-prewarm-runtime.ts:484-502 | from the sighting of a thread until something else is learnt of it, its requests go over the bridge if it was external and directly if not |
| BridgeCalls.RouteHolds | packages/desktop-control/src/renderer-draft-prewarm-runtime.ts:484-541 | over every run that teaches nothing contrary the route of a sighted thread's requests does not change |
| Bridge.RoutedByLookup | packages/desktop-control/src/renderer-draft-prewarm-runtime.ts:474-483 | a request on an unknown thread is looked up first and then goes the way the answer says |
| Bridge.OwnRequestsAreBridged | packages/desktop-control/src/renderer-draft-prewarm-runtime.ts:484-487 | the host's own requests, and listings that name no unknown thread, always go over the bridge |
| Bridge.UnnamedFollowsSelection | packages/desktop-control/src/renderer-draft-prewarm-runtime.ts:495-501 | what names no thread goes over the bridge exactly if it is thread-scoped and a draft model is selected |
| Bridge.OthersFollowKnownThreads | packages/desktop-control/src/renderer-draft-prewarm-runtime.ts:474-502 | any other request is never looked up and goes over the bridge exactly if it names a known external thread |
| Bridge.ThreadNamed | packages/desktop-control/src/renderer-draft-prewarm-runtime.ts:425-429 | which thread the parameters name |
| Bridge.LocalHostsGoDirect | packages/desktop-control/src/renderer-draft-prewarm-runtime.ts:484-485 | without a remote-control host nothing is bridged and nothing is looked up |
| Bridge.PolicyBridge.RoutedSend | packages/desktop-control/src/renderer-draft-prewarm-runtime.ts:515-532 | only unknown threads are looked up, and a thread start that names no unknown thread goes over the bridge exactly if its model begins with `codexhost/`, it has an account, or a draft selection applies to it, and directly otherwise |
| Bridge.PolicyBridge.Select | packages/desktop-control/src/renderer-draft-prewarm-runtime.ts:605-612 | only codexhost models are selected, and whether the selection changed |
| Bridge.PolicyBridge.SelectAccount | packages/desktop-control/src/renderer-draft-prewarm-runtime.ts:613-620 | only non-empty accounts of the listed characters are selected |
| BridgeCalls.PerformAll | packages/desktop-control/src/renderer-draft-prewarm-runtime.ts:128-582 | every run with fresh process handles keeps the bridge's invariant and takes back nothing it did or learnt |
| Bridge.IssuedNeverDispatched | packages/desktop-control/src/renderer-draft-prewarm-runtime.ts:579-581 | no reply under an identity the bridge has issued ever reaches the original dispatcher |
| Bridge.RemoveLeavesOthers | packages/desktop-control/src/renderer-draft-prewarm-runtime.ts:249-250 | an answer takes away exactly the request it answers and leaves the others in order |
| Bridge.SetFinds | packages/desktop-control/src/renderer-draft-prewarm-runtime.ts:384 | a request is found by its identity, and the others as before |
| Bridge.SeeingKeepsOwned | packages/desktop-control/src/renderer-draft-prewarm-runtime.ts:193-203 | the two caches hold exactly what was learnt last of each thread, so they stay disjoint |
| Bridge.TakingKeepsBuffered | packages/desktop-control/src/renderer-draft-prewarm-runtime.ts:266-270 | lines taken and buffer are together always the stream received |
| Bridge.PolicyBridge.FailBridge | packages/desktop-control/src/renderer-draft-prewarm-runtime.ts:128-150 | every outstanding request fails once, the process is killed if it may run, a second failure does nothing |
| Bridge.PolicyBridge.ResetFailedBridge | packages/desktop-control/src/renderer-draft-prewarm-runtime.ts:151-165 | only a failed bridge starts over |
| Bridge.PolicyBridge.StartBridge | packages/desktop-control/src/renderer-draft-prewarm-runtime.ts:312-366 | each process handle is spawned at most once |
| Bridge.PolicyBridge.BecomeReady | packages/desktop-control/src/renderer-draft-prewarm-runtime.ts:218-229 | a ready report sets the state from any state and resolves only a pending promise |
| Bridge.PolicyBridge.HandleBridgeFrame | packages/desktop-control/src/renderer-draft-prewarm-runtime.ts:213-257 | what each kind of frame does to state, requests, outputs and caches |
| Bridge.PolicyBridge.ConsumeBridgeOutput | packages/desktop-control/src/renderer-draft-prewarm-runtime.ts:258-281 | every complete line is taken once and in order up to the first invalid one, exactly the frames on those lines are handled, and no character is lost |
| Bridge.PolicyBridge.HandleOuterNotification | packages/desktop-control/src/renderer-draft-prewarm-runtime.ts:282-311 | only notifications of the current process handle are handled; those of an earlier process change nothing |
| Bridge.PolicyBridge.ObserveResult | packages/desktop-control/src/renderer-draft-prewarm-runtime.ts:173-212 | what an answered request teaches about threads |
| Bridge.PolicyBridge.DispatchAppServerResponse | packages/desktop-control/src/renderer-draft-prewarm-runtime.ts:566-582 | an awaited reply goes to the writer, a stale or duplicate reserved one nowhere, any other to the original dispatcher |
| Bridge.PolicyBridge.RouteThreadStart | packages/desktop-control/src/renderer-draft-prewarm-runtime.ts:503-514 | the draft selection is written into a thread start and the account is used up |
| Bridge.PolicyBridge.Dispose | packages/desktop-control/src/renderer-draft-prewarm-runtime.ts:625-656 | outstanding requests fail, a running process is killed, everything learnt is forgotten |
| WindowsQuoting.QuoteWindowsArgument | crates/platform/src/windows_desktop.rs:236-261 | the loop computes the quoted form, unquoted only when non-empty and free of spaces, tabs and quotes |
| WindowsQuoting.QuotedOnlyWhenNeeded | crates/platform/src/windows_desktop.rs:238-240 | an argument is left as it is exactly when it is not empty and holds no space, tab or quote |
| WindowsQuoting.CommandLineReadsBack | crates/platform/src/windows_desktop.rs:263-269 | the Microsoft rules read every list of arguments back, whatever a doubled quote means |
| WindowsQuoting.CommandLineInjective | crates/platform/src/windows_desktop.rs:263-269 | different argument lists have different command lines |
| WindowsQuoting.RoundTrip | crates/platform/src/windows_desktop.rs:263-269 | as a terminated string it is read back if and only if no argument holds a NUL |
| EnvironmentBlock.WindowsEnvironmentBlock | crates/platform/src/windows_desktop.rs:271-306 | accepted if and only if every name and value is acceptable, and then the block of the sorted environment |
| EnvironmentBlock.AcceptableExactly | crates/platform/src/windows_desktop.rs:274-286 | a variable is accepted exactly when its one-entry block decodes to it |
| EnvironmentBlock.PrecedesAtFirstDifference | crates/platform/src/windows_desktop.rs:288-293 | keys are ordered by prefix or by their first difference |
| EnvironmentBlock.BlockReadsBack | crates/platform/src/windows_desktop.rs:294-305 | an accepted block decodes, up to its end, to the sorted environment; the empty one to none |
| EnvironmentBlock.SortedByKey | crates/platform/src/windows_desktop.rs:287-293 | the sorted environment is a permutation in non-decreasing order of lower-cased names |
| EnvironmentBlock.StableByKey | crates/platform/src/windows_desktop.rs:287-293 | variables with equal lower-cased names keep their order |
| BrokerFraming.FrameReader.Data | packages/harness-broker/src/framing.ts:21-50 | one chunk is handled as the specification function says |
| BrokerFraming.DeliversThePieces | packages/harness-broker/src/framing.ts:15-51 | however a stream is cut, reading stays open if and only if every chunk fits and every piece parses, and then delivers exactly the non-empty pieces |
| BrokerFraming.RefusedForSize | packages/harness-broker/src/framing.ts:23-27 | the exact condition of a size refusal |
| BrokerFraming.ShortRunsFit | packages/harness-broker/src/framing.ts:23-27 | with longest run plus longest chunk within the limit every chunk fits and the stream is not refused for size |
| BrokerFraming.LongRunRefused | packages/harness-broker/src/framing.ts:23-27 | a run over the limit is refused under every chunking, and for size when every piece is acceptable |
| BrokerFraming.WrittenFramesAreRead | packages/harness-broker/src/framing.ts:5-13 | what the writer sends the reader delivers if and only if every chunk fits |
| BrokerFraming.FrameByFrameFits | packages/harness-broker/src/framing.ts:5-13 | frames the writer accepts fit when they arrive one by one |
| BrokerFraming.WriterMatchesReader | packages/harness-broker/src/framing.ts:5-13 | the writer accepts exactly the frames a reader does not refuse for size when they come alone |
| BrokerFraming.TogetherTooLarge | packages/harness-broker/src/framing.ts:21-27 | two written frames in one chunk are refused if and only if together they exceed the limit |
| OwnerRecord.RoundTrip | crates/shim/src/local_runtime_lease.rs:66-115 | decoding an encoded record gives it back if and only if child id and child start time are both there or both not |
| OwnerRecord.ReleasedReadsProjection | crates/shim/src/local_runtime_lease.rs:779-793 | the released decoder reads every record written now as its three fields |
| OwnerRecord.VersionTwoReadsBack | crates/shim/src/local_runtime_lease.rs:80-114 | the same fields under version two are read as the same record, and by the released decoder not at all |
| OwnerRecord.ReleasedTextReadsBack | crates/shim/src/local_runtime_lease.rs:91-99 | a released Shim's text is read as a version-one record by both decoders |
| OwnerRecord.ReturnsDoNotMatter | crates/shim/src/local_runtime_lease.rs:81-85 | carriage returns before line feeds make no difference |
| OwnerRecord.DecodersAgree | crates/shim/src/local_runtime_lease.rs:80-114 | on any text the two decoders agree up to projection, except version two, and exactly when only the released one reads it |
| Arguments.AppServerSubcommandIndex | crates/shim/src/lib.rs:277-324 | the index is that of `app-server` behind supported global options only, and none if there is no such place |
| Arguments.AttachedExactly | crates/shim/src/lib.rs:313-317 | an attached option is an option of the table, an equals sign and a value |
| Arguments.OneSubcommandFrom | crates/shim/src/lib.rs:303-323 | there is at most one such place |
| Arguments.ShouldStartHostRuntime | crates/shim/src/lib.rs:333-373 | true if and only if every option behind the subcommand is known and has its value |
| Arguments.IsDefaultRemoteUnixListener | crates/shim/src/lib.rs:377-439 | true if and only if that holds and the options contain no `--stdio` and exactly one listener, `unix://`, in either spelling |

## Left out

- Version-one owner records in the lease: migration, the startup grace and legacy mapping-store retirement. Released Shims write without the lock; here every record on disk is exact or unreadable, and retiring the legacy store succeeds or fails nondeterministically.
- Lease: a process group is a number; if the child's group empties between being read and being listed and its number is taken over, processes of the new group count as members.
- Lease: files of the owner directory other than the record, and file-system errors as values; an error ends `acquire` and releases the lock.
- The macOS branches of group adoption and signalling, and the Windows branches of process discovery.
- `terminate_tree` and the wait loops around it: timing, and the order "root last".
- The retry loops of `process_identity.rs`: an observation of a recorded process is one atomic step that says live, missing or reused.
- `wait_for_child` and signal forwarding in the proxy: the lease model keeps only the order acquire, spawn, publish, wait for the child's end, drop.
- Session: thinking-option and permission-mode selection, usage refreshing, `setStateForSnapshot`, and the optional attributes of questions, approvals and tools; they follow the pattern of the members modelled.
- HarnessSession.FakeHarnessSession.SelectModel: the thinking options and the resolved label that a selection also rewrites are not part of the model's state.
- SessionCalls.PerformAll: passes over an ephemeral command during a turn, the one call the trace grammar excludes.
- AdapterCalls.Run: closing the adapter, which calls close on every session, is not a step of these runs.
- HarnessSession.FakeHarnessSession.PublishEphemeralCommand: requires that no turn is open; `TraceLaws.EphemeralNeedsIdle` says what happens otherwise.
- Session: the promises around its methods. Every method runs to its end before the next one, as the source's bodies do between awaits.
- Output channel: that a second consumer is refused.
- Adapter: inspection, and handing the thinking option and permission mode on to the new session; only their catalog checks are modelled.
- Bridge: the asynchronous writer behind `writeBridgeFrame`, its timeouts and the initialization handshake. A reply counts as handed over when it is given to the writer; that a request settles, or that a queued write reaches the process it was meant for, is not claimed.
- Bridge: stderr capture, base64 and UTF-8 decoding, and the sharing of one pending ownership lookup.
- Bridge: that process handles are fresh is an assumption about random identifiers.
- WindowsQuoting.QuoteWindowsArgument: arguments that are not valid Unicode, which the source returns unchanged or replaces lossily.
- Unicode lower-casing of environment names is a parameter; its values compare by code point, as Rust strings do.
- JSON: `accepts` and `decode` stand for what the parser and the frame handler accept.
