# Ouisync in Dafny

A model of the concurrent and order-theoretic core of Ouisync, with proofs over every run, every
interleaving or every input. Each module models one part of the repository. Code that changes state
step by step is a class whose methods are proved against a step function; the theorems are about
all sequences of such steps.

- `Rendezvous`: the cancel-safe one-shot channel of the transport layer, at the granularity of single
  lock, flag and `Notify` operations, with either future dropped wherever it can be suspended.
- `ConnectionDriver`: the driver behind a TCP connection, which hands incoming and outgoing streams to
  callers over those channels. A run interleaves the driver with every atomic step of every channel.
- `ConnectionCallers`: who gets which stream or error from the driver, against a journal of the run.
- `Throttle`: the rate-limiting stream adapter, with a declarative specification of one poll.
- `VersionVector`, `Versioned`: the happened-before order on versions and the selection of the
  entries that nothing outdates.
- `BlockTracker`: the worker that decides when a peer's block offer is requested.
- `StateMonitor`, `MonitorPaths`, `LocateRace`, `StaleMonitors`: the tree of monitors with two reference
  counts per node and the cascading drop, what its handles stand for, `locate` running step by step
  beside other operations, and the tree after a count that `locate` got wrong.
- `ServerConnection`: requests, subscriptions and cancels on one client connection of the service.
- `Semaphore`, `Client`: the C++ client's callbacks and its single send buffer.
- `ConflictName`: names of conflicting versions and their parser.

Where the code does less than its documentation, or a caller, may expect, the model follows the code:

- `net/src/sync.rs:7-11` promises that the value of a cancelled `send` is still received. A `send`
  future dropped before its first poll has stored nothing, and its value is lost
  (`Rendezvous.LostIff`, `Rendezvous.UnpolledSendLosesValue`).
- `send` after a `closed()` that had to wait can sleep for good (`Rendezvous.LostWakeupIff`). The
  driver never does this (`ConnectionDriver.DriverNeverHangs`).
- `lib/src/sync.rs:232-246` shows emissions of an item a period apart. With a slow consumer they can
  be closer; `Throttle.SpacingIff` says exactly when, and the rate bound holds all the same. A stream of
  new items can keep an item that is due from coming out (`Throttle.Starvation`);
  `Throttle.HeldIsEmitted` says which polls count.
- A requirement in greedy mode also requests blocks whose offers are still pending
  (`BlockTracker.GreedyRequireTakesPending`, `BlockTracker.GreedyRequireNotifies`).
- The parser of conflict names accepts upper-case digits, which are never written
  (`ConflictName.CreateParsed`).
- `locate` counts its handle only after it has found the node. If the last handle is dropped in
  between, `unwrap` panics, or a child made anew under the same id gets the count
  (`LocateRace.FinishSoundIff`, `LocateRace.RaceRightIff`). After that an entry can outlive its node, and
  the next call that finds it panics, against the comment at `state_monitor/src/lib.rs:189-190`
  (`StaleMonitors.PanicIff`, `StaleMonitors.ScheduleStales`).
- A client may use an id again only while nothing is handled and no stream is open under it. Otherwise
  responses come out of turn, or one of the messages gets none (`ServerConnection.ReuseIff`).
- A permit requested from a semaphore that is already destroyed can be granted beside a live one
  (`Semaphore.ExclusionIff`). In the client every pending send keeps the semaphore alive.

`dafny verify dfyconfig.toml` checks the whole project.

## Model

| member | source | states |
|---|---|---|
| `Rendezvous.ExecInv` | `net/src/sync.rs:28-99` | every interleaving of send, recv, closed and both drops, cancelled at any await, keeps the channel invariant: flags, whereabouts of the value and pending signals agree |
| `Rendezvous.ExactlyOnePlace` | `net/src/sync.rs:28-45` | a value given to `send` is at exactly one of: send future, slot, receiver, back with the sender, lost; no other value is anywhere |
| `Rendezvous.LostIff` | `net/src/sync.rs:7-11` | a value is at none of the four places where someone can still get it if and only if both sides were dropped without a transfer or, at some step of the run, the send future was dropped before its first poll |
| `Rendezvous.UnstoredMeansUnpolled` | `net/src/sync.rs:28-30` | a sender ends with its value never stored exactly in the runs that drop the send future unpolled |
| `Rendezvous.UnpolledSendLosesValue` | `net/src/sync.rs:7-29` | a reachable run in which the second case loses the value although the receiver is waiting, against the documented guarantee |
| `Rendezvous.Agreement` | `net/src/sync.rs:28-92` | `send` Ok means the receiver took that value; Err(v) returns the offered v to a sender whose receiver never got it; `recv` Ok returns the offered value; `recv` Err means nothing was ever stored |
| `Rendezvous.OutcomesAreFinal` | `net/src/sync.rs:28-99` | what either side has reported, and what was stored, is never revised by any later steps |
| `Rendezvous.EndCauses` | `net/src/sync.rs:28-99` | in every run, a side ends as dropped exactly when it or the future it runs is dropped, `send` reports at its check and nowhere else, `recv` returns a value exactly at its notification and an error exactly at its test of the flag |
| `Rendezvous.LostWakeupIff` | `net/src/sync.rs:32-56` | a sender parked in `send` misses its wakeup if and only if an earlier `closed()` returned by consuming the receiver's notification; a receiver never misses one |
| `Rendezvous.SendAfterClosedHangs` | `net/src/sync.rs:48-56` | a reachable run in which `send` after such a `closed()` is parked for good although the receiver is gone |
| `Rendezvous.ClosedReturnsIff` | `net/src/sync.rs:48-56` | in every run `closed()` returns, in whatever step, if and only if its test finds that the receiver is gone |
| `Rendezvous.ClosedCompletes` | `net/src/sync.rs:48-56` | once the receiver is gone `closed()` returns after its next test, which a waiting one reaches in one poll |
| `Rendezvous.ClosedCancelled` | `net/src/sync.rs:48-56` | a `closed()` that is dropped leaves the sender as it was, with any notification it had been given |
| `Rendezvous.EveryWakeIsFinal` | `net/src/sync.rs:32-45` | neither wait loop goes round twice: a woken `send`, `recv` or `closed` always returns |
| `Rendezvous.RecvCompletes` | `net/src/sync.rs:71-92` | once the sender is gone `recv` ends within five of its own steps, with the value if one was stored, cancelled `send` or not, and with an error otherwise |
| `Rendezvous.SendCompletes` | `net/src/sync.rs:28-45` | once the receiver is gone an uncancelled `send` ends within six of its own steps, Ok if the value was taken and Err with that value if not |
| `Rendezvous.SendMeetsRecv` | `net/src/sync.rs:28-92` | a `send` and a `recv` that are both at work meet: from any reachable point and under any schedule of their turns all but thirteen turns are spent waiting, and neither can go on only when both have returned, with Ok and with the value unless one was cancelled |
| `Rendezvous.StuckMeansDone` | `net/src/sync.rs:32-92` | the two never wait for each other: while one of them has not returned, a turn of one of them changes something |
| `Rendezvous.Channel.Perform` | `net/src/sync.rs:28-99` | the code of each atomic step, run on the fields of the shared object, does what the specification says and keeps the invariant |
| `Rendezvous.Channel.PerformTx` | `net/src/sync.rs:28-64` | the sender's steps on the fields, one lock, flag or notify operation at a time |
| `Rendezvous.Channel.PerformRx` | `net/src/sync.rs:76-99` | the receiver's steps on the fields |
| `ConnectionDriver.StreamsConserved` | `net/src/tcp.rs:191-247` | while the driver runs, with callers cancelled at any await, each stream accepted or opened is in exactly one of: stored results, `outgoing_result`, a send in flight, a caller's hands; nothing else is anywhere |
| `ConnectionDriver.DeliveryIsFinal` | `net/src/tcp.rs:96-138` | a stream in a caller's hands stays there whatever the driver does next |
| `ConnectionDriver.NothingWaitsNeedlessly` | `net/src/tcp.rs:200-228` | at the outer select no caller waits while a result is stored, and at most one error is stored at any time |
| `ConnectionDriver.SpareNeverOverwritten` | `net/src/tcp.rs:193-247` | a filled `outgoing_result` only ever changes by being sent whole to the next caller |
| `ConnectionDriver.DriverNeverHangs` | `net/src/tcp.rs:200-247` | the driver never sends after a `closed()` that waited, so a send to a caller that has gone returns within six steps, delivered or handed back |
| `ConnectionDriver.LoopsEnd` | `net/src/tcp.rs:199-247` | the inner loop and the send of an outgoing stream end with callers alive or gone: from any reachable point, however the driver and the caller it sends to are scheduled, at most sixteen steps per waiting caller and fifteen more change anything, and some step does as long as the driver is in the loop or the send |
| `ConnectionDriver.LoopLowers` | `net/src/tcp.rs:200-247` | every such step that changes something lowers the work that is left, including a result handed back and a caller put back |
| `ConnectionCallers.NobodyForgotten` | `net/src/tcp.rs:199-257` | over every run: a call for a stream is still before the driver, or its caller has received an item, or was gone at some point; a call to close is before the driver until that has stopped |
| `ConnectionCallers.OnlyTheGoneAreDiscarded` | `net/src/tcp.rs:238-241` | over every run: the driver gives up an outgoing call only if its caller is gone |
| `ConnectionCallers.StreamsReachTheirKind` | `net/src/tcp.rs:200-247` | over every run: a caller of `incoming` has only accepted streams, a caller of `outgoing` only opened ones |
| `ConnectionCallers.ServedInOrder` | `net/src/tcp.rs:200-234` | over every run: an incoming result goes out newest first and to the caller who waits for the shortest time, and commands are taken in the order in which they were sent |
| `ConnectionCallers.ErrorsAreHeard` | `net/src/tcp.rs:200-247` | no error of the connection is swallowed: from any point at which one is stored or being sent, at every later point one is, or a caller of its kind that had not been served has received one |
| `ConnectionCallers.FailuresAreErrors` | `net/src/tcp.rs:213-241` | a failure to accept or to open a stream is stored or sent as an error at once |
| `ConnectionCallers.StopsIff` | `net/src/tcp.rs:211-257` | the driver stops exactly for a call to close, when the peer closes, and when all handles are gone |
| `ConnectionCallers.CallersStep` | `net/src/tcp.rs:199-257` | each step keeps what was asked, the origin of every stream, who waits and the order of results and callers in agreement with the history |
| `ConnectionDriver.ExecInv` | `net/src/tcp.rs:183-259` | the invariant of the driver and all its channels together, over every run |
| `ConnectionDriver.StepInv` | `net/src/tcp.rs:199-258` | each step of the driver, of a caller or of a channel keeps it |
| `ConnectionDriver.OkOnly` | `net/src/tcp.rs:215-218` | keeps every stream and no error |
| `ConnectionDriver.OkOnlyDistinct` | `net/src/tcp.rs:215-218` | dropping errors keeps the stored results pairwise distinct |
| `ConnectionDriver.RetainOk` | `net/src/tcp.rs:216-218` | the loop behind `retain` computes exactly the results that are Ok, in order |
| `ConnectionDriver.Driver.ServeNextCaller` | `net/src/tcp.rs:200-209` | one iteration of the inner loop: last waiting caller, last stored result, and the caller put back if there is none |
| `ConnectionDriver.Driver.FinishSend` | `net/src/tcp.rs:202-204` | a refused item goes back to where it came from |
| `ConnectionDriver.Driver.StoreIncoming` | `net/src/tcp.rs:213-222` | an incoming stream or the latest error is stored |
| `ConnectionDriver.Driver.HandleCommand` | `net/src/tcp.rs:230-257` | dispatch of the next command, reusing `outgoing_result` |
| `ConnectionDriver.Driver.SendOpened` | `net/src/tcp.rs:238-246` | the opened stream wins the inner select and is sent |
| `Throttle.RunInv` | `lib/src/sync.rs:297-392` | over every run of polls: `ready` and `delays` agree, an armed sleep is the earliest deadline, and an item waits inside exactly when it has arrived since it was last emitted |
| `Throttle.PendingExactlyWhenOwed` | `lib/src/sync.rs:297-392` | nothing is lost or invented: a copy waits if and only if one is owed, and only owed or just arrived items are emitted |
| `Throttle.OnePendingCopy` | `lib/src/sync.rs:306-332` | an item has at most one copy in `ready`, and none there while its delay holds one back |
| `Throttle.EmissionsBounded` | `lib/src/sync.rs:302-387` | emissions of an item plus the copy owed never exceed its arrivals |
| `Throttle.IdleOutcomes` | `lib/src/sync.rs:345-391` | Pending and end of stream mean nothing can be emitted now; the end comes only with nothing owed; the sleep is armed at the earliest deadline, if there is one |
| `Throttle.HeldIsEmitted` | `lib/src/sync.rs:302-391` | every arrival is followed by an emission, whatever arrives meanwhile: a held back item is emitted at the latest by the open poll (nothing in `ready`, deadline over) whose number is one more than that of the delays ahead of it, and by no poll that is not open |
| `Throttle.ReadyIsEmitted` | `lib/src/sync.rs:345-348` | an item in `ready` is emitted by the poll that follows as many polls as there are lower ids, whatever arrives |
| `Throttle.HeldEmittedIff` | `lib/src/sync.rs:355-391` | a poll emits a held back item if and only if `ready` is empty, its deadline is over and nothing due is ahead of it |
| `Throttle.OpenIff` | `lib/src/sync.rs:303-348` | a poll finds `ready` empty if and only if it was empty before and every arrival has its window still running |
| `Throttle.AbsorbAhead` | `lib/src/sync.rs:303-343` | nothing that arrives gets ahead of what is held back |
| `Throttle.Starvation` | `lib/src/sync.rs:320-348` | the bound counts open polls only, and has to: from any state with an item due there are runs of any length, each poll bringing one new item, that never emit it |
| `Throttle.StarvationStart` | `lib/src/sync.rs:320-348` | such a state is reached from a new adapter |
| `Throttle.OwedItemsDrain` | `lib/src/sync.rs:302-391` | a period after any point, each poll without arrivals emits one of the items owed there, none twice, until all are out |
| `Throttle.RateBound` | `lib/src/sync.rs:308-332` | by clock T at most 1 + (T - first arrival) / period emissions of an item, for every run and however slow the consumer |
| `Throttle.EmissionsSpaced` | `lib/src/sync.rs:378-387` | an item is not emitted again before the end of its window, a full period away unless it had been waiting in `ready` since an earlier poll |
| `Throttle.SpacingIff` | `lib/src/sync.rs:232-246` | a continuation with two emissions of an item less than a period apart exists if and only if the first had been waiting in `ready` with its window ending less than a period from that poll |
| `Throttle.SlowConsumer` | `lib/src/sync.rs:232-246` | such a run: period 10, the same item emitted at 9 and at 10 |
| `Throttle.DueIsEmitted` | `lib/src/sync.rs:345-391` | an item that is due has a continuation at the same clock that emits it |
| `Throttle.BlockedUntil` | `lib/src/sync.rs:308-391` | whatever arrives, an item in its window is not emitted before the window ends |
| `Throttle.ArriveNew` | `lib/src/sync.rs:320-332` | the test of `is_ready` in the vacant branch never succeeds: an item without a delay is not ready |
| `Throttle.AbsorbValid` | `lib/src/sync.rs:303-343` | taking in any number of arrivals keeps the invariant and owes exactly those items more |
| `Throttle.DeliverValid` | `lib/src/sync.rs:345-391` | the delivery loop keeps the invariant and pays exactly what it emits |
| `Throttle.Throttler.PollNext` | `lib/src/sync.rs:297-392` | the two loops of `poll_next` over the fields meet the declarative specification of a poll and terminate at a fixed clock |
| `Throttle.Throttler.Emit` | `lib/src/sync.rs:345-391` | the second loop, with sleeping, expiry of delays and choice of the first due item, delivers as specified |
| `Throttle.Throttler.First` | `lib/src/sync.rs:355-365` | the scan finds the least delay by deadline, then entry id |
| `Throttle.Throttler.Take` | `lib/src/sync.rs:305-334` | the effect of one arrival |
| `Throttle.Throttler.Contains` | `lib/src/sync.rs:280-287` | the scan of `ready` decides membership |
| `VersionVector.PartialCmpCorrect` | `lib/src/version_vector.rs:103-126` | the short-circuiting fold, over the keys in any order, decides the pointwise order with absent meaning 0 |
| `VersionVector.TryFoldMeaning` | `lib/src/version_vector.rs:103-126` | the fold tells whether some pair goes up and whether some goes down, and stops exactly when both do |
| `VersionVector.LeqPointwise` | `lib/src/version_vector.rs:19-26` | happened-before is pointwise comparison over all writers |
| `VersionVector.MergedIsJoin` | `lib/src/version_vector.rs:64-72` | `merge` is the least upper bound |
| `VersionVector.SubThenPlusIsMerge` | `lib/src/version_vector.rs:80-86` | subtracting and adding back never overflows and equals the merge |
| `VersionVector.SubEmptyIff` | `lib/src/version_vector.rs:80-90` | the difference is empty if and only if nothing is ahead |
| `VersionVector.HistoryIsChain` | `lib/src/version_vector.rs:42-72` | any history of insert, increment, merge and += without overflow only moves forward, strictly if it increments |
| `VersionVector.ApplyMeaning` | `lib/src/version_vector.rs:42-72` | what each operation does to each writer, by arithmetic: an increment adds exactly one to its writer and nothing to others, an insert is the larger of the two, += adds; and exactly when it overflows |
| `VersionVector.Merged` | `lib/src/version_vector.rs:64-72` | pointwise maximum, with the writers of both |
| `VersionVector.Plus` | `lib/src/version_vector.rs:149-165` | pointwise sum, with the writers of both |
| `VersionVector.VersionVector.Insert` | `lib/src/version_vector.rs:42-45` | in place: the version never goes down |
| `VersionVector.VersionVector.Increment` | `lib/src/version_vector.rs:53-56` | in place: strictly forward, by one at one writer |
| `VersionVector.VersionVector.Merge` | `lib/src/version_vector.rs:68-72` | the loop over the other vector yields the merge |
| `VersionVector.VersionVector.AddAssign` | `lib/src/version_vector.rs:159-165` | the loop over the other vector yields the sum |
| `Versioned.BelowIsStrictOrder` | `lib/src/versioned.rs:33-45` | version order refined by either tie-breaker is a strict partial order below the version order, and Greater is its converse |
| `Versioned.Partition` | `lib/src/versioned.rs:67-112` | `max` is exactly the input without the entries some input dominates, in order; `max` and `min` together are the input as a multiset; each of `min` is below some of `max` |
| `Versioned.KeptIff` | `lib/src/versioned.rs:29-123` | exactly what is kept: inputs whose version no other input outdates and, among inputs of one version, all without a tie-breaker, and with it those of the preferred branch if there are any and otherwise those of the greatest branch id |
| `Versioned.KeptInOrder` | `lib/src/versioned.rs:77-109` | the kept entries come in the order of the input, each as often as it occurs there |
| `Versioned.BelowMeaning` | `lib/src/versioned.rs:33-45` | one entry yields to another exactly if its version is outdated, or equal and it loses the tie by branch |
| `Versioned.Place` | `lib/src/versioned.rs:77-109` | one round of the outer loop: the new entry is dropped, or kept and whatever is below it pushed out |
| `Versioned.Sift` | `lib/src/versioned.rs:78-102` | the inner loop with in-place removal stops exactly if something kept is above the new entry |
| `Versioned.KeepMaximalIncremental` | `lib/src/versioned.rs:115-123` | selecting early gives the same sequence: keep(keep(a) ++ b) = keep(a ++ b) |
| `Versioned.KeepMaximalOrderFree` | `lib/src/versioned.rs:115-123` | which entries are kept does not depend on the order of the input |
| `Versioned.KeptVersionsMergeToAll` | `lib/src/versioned.rs:115-123` | the kept versions merge to the same vector as all versions |
| `Versioned.DominatedByMaximal` | `lib/src/versioned.rs:67-112` | whatever is dominated is dominated by an entry that is kept |
| `Versioned.KeptAreIncomparable` | `lib/src/versioned.rs:67-112` | no kept entry is below another |
| `Versioned.KeepMaximalSnoc` | `lib/src/versioned.rs:77-109` | the effect of one more entry on the selection |
| `BlockTracker.NeverStranded` | `lib/src/block_tracker.rs:183-271` | in every reachable state a stored approved offer implies lazy mode and a block not required |
| `BlockTracker.CellsAreIndependent` | `lib/src/block_tracker.rs:156-271` | a run of the worker acts on each client and block like the documented life of one offer |
| `BlockTracker.OrderInsensitive` | `lib/src/block_tracker.rs:198-271` | while the mode stays lazy, a client that joined and stays is notified of a block if and only if the block is required and the client's offer was approved or was pending and then approved, in whatever order these come |
| `BlockTracker.NotificationsAccounted` | `lib/src/block_tracker.rs:222-258` | notifications sent plus the offer held never exceed the offers received |
| `BlockTracker.NotifiedMeansApproved` | `lib/src/block_tracker.rs:198-271` | each notification on its own, in every run: a command notifies a present client once if and only if the block is wanted after it and an offer was made and approved since the last one was consumed, or it is a new requirement in greedy mode on a pending offer |
| `BlockTracker.HistoryHolds` | `lib/src/block_tracker.rs:222-271` | what is held for a client is what it has offered since the last notification, approved exactly if that was approved since |
| `BlockTracker.GreedyRequireNotifies` | `lib/src/block_tracker.rs:198-216` | a run in which a block is notified without any approval |
| `BlockTracker.GreedyRequireTakesPending` | `lib/src/block_tracker.rs:198-216` | a pending offer is notified without approval exactly by a new requirement in greedy mode |
| `BlockTracker.RemovedIsSilent` | `lib/src/block_tracker.rs:179-181` | a removed client is not notified again until it is inserted anew |
| `BlockTracker.StepCell` | `lib/src/block_tracker.rs:156-271` | each command acts on each client and block by itself |
| `BlockTracker.StandingCommands` | `lib/src/block_tracker.rs:175-220` | after any run a client is known, a block required and the mode lazy exactly if the history holds the command for it and none that ends it since |
| `BlockTracker.Worker.HandleCommand` | `lib/src/block_tracker.rs:156-173` | dispatch of one command on the fields |
| `BlockTracker.Worker.HandleOffer` | `lib/src/block_tracker.rs:222-258` | a new or upgraded offer is stored, or notified at once if the block is wanted |
| `BlockTracker.Worker.HandleApprove` | `lib/src/block_tracker.rs:260-271` | all clients' offers of the block are accepted or marked approved |
| `BlockTracker.Worker.AcceptEverywhere` | `lib/src/block_tracker.rs:198-216` | the loop over the clients accepts exactly the matching offers, one notification each |
| `BlockTracker.Worker.AcceptAllApproved` | `lib/src/block_tracker.rs:307-315` | on the switch to greedy mode exactly the approved offers are notified and dropped |
| `BlockTracker.Worker.Require` | `lib/src/block_tracker.rs:198-216` | a block is required once, and offers of it are accepted |
| `BlockTracker.Worker.ChangeMode` | `lib/src/block_tracker.rs:183-196` | the switch of mode |
| `StateMonitor.CountsExact` | `state_monitor/src/lib.rs:154-207` | after any operations the count a parent keeps equals the live references to the child: handles, children's parent fields, values' monitors |
| `StateMonitor.ValueCountsExact` | `state_monitor/src/lib.rs:226-260` | a value slot exists exactly while a value is behind it, and counts them |
| `StateMonitor.EveryNodeIsLocated` | `state_monitor/src/lib.rs:346-362` | every live node is located from the root by its own path and by no other |
| `StateMonitor.AliveIffHeldBelow` | `state_monitor/src/lib.rs:297-322` | a node is alive if and only if some handle or value is held at it or below it |
| `StateMonitor.Release` | `state_monitor/src/lib.rs:297-322` | the cascading drop terminates and keeps the invariant |
| `StateMonitor.ReleaseFrame` | `state_monitor/src/lib.rs:297-322` | a drop removes no other object than the parent fields of the nodes it frees |
| `StateMonitor.FreedIff` | `state_monitor/src/lib.rs:297-322` | the kept count reaches zero exactly when the last reference is dropped |
| `StateMonitor.EntryExists` | `state_monitor/src/lib.rs:389-399` | the entry behind every `unwrap` and `unreachable!` is there |
| `MonitorPaths.TreeIsBook` | `state_monitor/src/lib.rs:154-262` | the tree of nodes and counts is nothing but a book of paths: after any operations the handles and values that exist are those of the book, each stands at its path (a child one id below the handle it was made on, a clone at the same path, what `locate` returns at the path followed, a value at its path under its name), and a path leads to a node exactly if somebody holds a monitor or a value at or below it |
| `MonitorPaths.LocatedIffAlive` | `state_monitor/src/lib.rs:346-362` | `locate` finds a node exactly where somebody holds a monitor or a value at or below it |
| `MonitorPaths.StepAgrees` | `state_monitor/src/lib.rs:154-322` | each operation on the tree does what its entry does to the book |
| `LocateRace.RaceRightIff` | `state_monitor/src/lib.rs:213-218` | over every interleaving of operations and of calls of `locate`, level by level: nothing panics and every count is right if and only if each call finds at its last step that its node still owns its entry |
| `LocateRace.FinishSoundIff` | `state_monitor/src/lib.rs:389-399` | after anything in between, the last step of `locate` panics if and only if the parent has no entry under the id, and keeps every count right if and only if the entry is still that of the node found |
| `LocateRace.OwnsIffReferred` | `state_monitor/src/lib.rs:123-140` | the node owns its entry exactly while something counted refers to it |
| `LocateRace.StepRight` | `state_monitor/src/lib.rs:154-399` | every other step keeps all counts right while calls of `locate` hold uncounted references |
| `LocateRace.LevelReturns` | `state_monitor/src/lib.rs:346-362` | one level of a call leads to the child that a lookup finds at that moment, or ends the call, and touches no other call |
| `LocateRace.FinishReturns` | `state_monitor/src/lib.rs:213-218` | the handle returned is for the node the call has reached |
| `LocateRace.Miscount` | `state_monitor/src/lib.rs:389-399` | if another node has taken the entry, its count is one too high afterwards |
| `LocateRace.LocatePanics` | `state_monitor/src/lib.rs:389-399` | whenever the last counted handle is dropped after the node was found, `unwrap` fires |
| `LocateRace.LocateMiscounts` | `state_monitor/src/lib.rs:389-399` | whenever the child is made again before the last step, the new node's count goes wrong |
| `LocateRace.PanicRun` | `state_monitor/src/lib.rs:213-218` | a run in which `unwrap` fires |
| `LocateRace.MiscountRun` | `state_monitor/src/lib.rs:213-218` | a run in which a count goes wrong |
| `StaleMonitors.CountsPerKey` | `state_monitor/src/lib.rs:154-399` | through wrong counts, over every run without a panic: there is an entry under an id exactly if some monitor belongs to an old or new node with that parent and id, and its count is the number of all these monitors |
| `StaleMonitors.PanicIff` | `state_monitor/src/lib.rs:189-191` | exactly which steps panic from any reachable point: clones, values and drops never; making a child and one level of `locate` if and only if the node of the entry they find is gone; the last step of `locate` if and only if no monitor with the key of its node is left |
| `StaleMonitors.PerformKeeps` | `state_monitor/src/lib.rs:154-399` | each step that does not panic keeps the counts per key, and a node alive exactly while something refers to it |
| `StaleMonitors.PerformReturns` | `state_monitor/src/lib.rs:154-362` | the handles and nodes that the operations return, wrong counts or not: a child of the id, the same node for a clone, the child one level down, and the node reached |
| `StaleMonitors.Discard` | `state_monitor/src/lib.rs:297-322` | the cascading drop finds every entry it needs, wrong counts or not, ends, and keeps the invariant |
| `StaleMonitors.DiscardFrame` | `state_monitor/src/lib.rs:297-322` | dropping only takes references away, and touches only entries of the node and its ancestors |
| `StaleMonitors.LastLeavesStale` | `state_monitor/src/lib.rs:316-321` | dropping the last reference to the node of an entry leaves the entry behind without a node if and only if a monitor of another node counts in it |
| `StaleMonitors.ScheduleStales` | `state_monitor/src/lib.rs:186-191` | from every reachable point and every handle without a child of an id, a schedule of seven steps around one call of `locate` that does not panic, and after which making the child panics |
| `StaleMonitors.BearInv` | `state_monitor/src/lib.rs:163-207` | a child with a new node keeps the invariant |
| `StateMonitor.Monitors.BeginLocate` | `state_monitor/src/lib.rs:213-218` | `locate` begins at the node of its handle |
| `StateMonitor.Monitors.DescendLocate` | `state_monitor/src/lib.rs:346-362` | one level down, or no result and the reference let go |
| `StateMonitor.Monitors.FinishLocate` | `state_monitor/src/lib.rs:389-399` | the entry under the id is incremented whatever node it belongs to, or `unwrap` panics |
| `StateMonitor.MakeChildInv` | `state_monitor/src/lib.rs:154-207` | finding or creating a child keeps the invariant |
| `StateMonitor.AddValueInv` | `state_monitor/src/lib.rs:226-260` | adding a value keeps the invariant |
| `StateMonitor.RemoveValueInv` | `state_monitor/src/lib.rs:459-476` | taking a value out leaves its monitor droppable |
| `StateMonitor.Monitors.MakeNonUniqueChild` | `state_monitor/src/lib.rs:154-207` | the operation on the fields |
| `StateMonitor.Monitors.CloneHandle` | `state_monitor/src/lib.rs:288-295` | a clone counts itself |
| `StateMonitor.Monitors.DropRef` | `state_monitor/src/lib.rs:297-322` | the loop up the tree does what the recursive drop does |
| `StateMonitor.Monitors.DropOne` | `state_monitor/src/lib.rs:297-322` | one level of the drop: decrement or remove the entry, free the node |
| `StateMonitor.Monitors.IncrementRefcount` | `state_monitor/src/lib.rs:389-399` | the count in the parent goes up by one |
| `StateMonitor.Monitors.LocateNode` | `state_monitor/src/lib.rs:346-362` | the loop along the path finds what the recursive definition finds |
| `StateMonitor.Monitors.MakeMonitoredValue` | `state_monitor/src/lib.rs:226-260` | the operation on the fields |
| `StateMonitor.Monitors.CloneMonitoredValue` | `state_monitor/src/lib.rs:409-424` | a clone of a value counts itself and its monitor |
| `StateMonitor.Monitors.DropMonitoredValue` | `state_monitor/src/lib.rs:459-476` | the value leaves its slot, then its monitor is dropped |
| `ServerConnection.RequestProtocol` | `service/src/connection.rs:38-117` | while the connection lasts, an accepted request whose id no other message carries is unanswered exactly while its handler runs, subscribed exactly while its stream is open, and gone once cancelled; no response with its id comes out of order |
| `ServerConnection.ReuseIff` | `service/src/connection.rs:68-177` | ids may be used again: after messages that were all read while their id was at rest (no handler running and no stream open under it), one more message with the id is served, however the run goes on without the id, if and only if the id is at rest when it is read. Served: every message with the id gets its first response or is withdrawn by a successful cancel, in the order of the messages, and no first response comes inside an open stream or item outside of one |
| `ServerConnection.ServedIffAtRest` | `service/src/connection.rs:68-177` | over whole runs and any number of messages: an id is served at every point, whatever might have followed, if and only if each of its messages was read at rest |
| `ServerConnection.ExecTidy` | `service/src/connection.rs:68-177` | as long as messages are read at rest, the account of an id (asked, settled, stream open) agrees with the handlers and streams of the connection after every run |
| `ServerConnection.UnrestShows` | `service/src/connection.rs:90-98` | a message read while its id is not at rest has a continuation after which the id is not served: at once, or when the handler is done |
| `ServerConnection.FreshIsAtRest` | `service/src/connection.rs:68-157` | an id that only one message carries was at rest when that was read |
| `ServerConnection.DistinctIdsAreFresh` | `service/src/connection.rs:90-98` | a client that never repeats an id sends exactly as many messages with it as there are places where it occurs, at most one |
| `ServerConnection.SubscribedReuse` | `service/src/connection.rs:90-98` | a run in which a request under the id of an open subscription is answered in the middle of the stream |
| `ServerConnection.SequentialReuse` | `service/src/connection.rs:90-98` | a run in which a request under the id of an answered one is answered as well, and both are served |
| `ServerConnection.MalformedReuse` | `service/src/connection.rs:132-145` | a run in which a message is rejected under the id of a running request, and the rejection comes before the reply |
| `ServerConnection.CancelReuse` | `service/src/connection.rs:75-89` | a run in which a cancel of something else carries the id of a running request, and is answered before it |
| `ServerConnection.PendingReuse` | `service/src/futures_map.rs:42-44` | a run in which a second request drops the handler of the first, and one of the two is never answered |
| `ServerConnection.OneInitialReply` | `service/src/connection.rs:68-177` | a message of any kind is being handled, has got exactly one first response, or was cancelled before any, and exactly one of these |
| `ServerConnection.EventsAreBracketed` | `service/src/connection.rs:106-117` | events and the closing item come only after the confirmation, and never after a closing item or a cancel answered true |
| `ServerConnection.OverIsOver` | `service/src/connection.rs:106-117` | in every run in which at most one message carries an id: once it is answered for good, ended or cancelled, no response of any kind carries the id |
| `ServerConnection.EveryCancelIsAnswered` | `service/src/connection.rs:75-89` | the answers to cancels in the log are the cancels read so far, one each and in order |
| `ServerConnection.CancelRecord` | `service/src/connection.rs:75-89` | a cancel removes its target from handlers and subscriptions, answers true exactly if it was there, and touches no other id |
| `ServerConnection.StepCoherent` | `service/src/connection.rs:38-177` | each input keeps what the connection holds for an id in agreement with what its client has seen |
| `ServerConnection.LogIsAnswers` | `service/src/connection.rs:38-187` | the log of a connection that lasts is the answers to its inputs in order and nothing else; a cancel is answered true exactly if its target was requested, and has neither been answered, cancelled nor swept with its finished stream since |
| `ServerConnection.TerminatedIff` | `service/src/connection.rs:38-62` | a connection ends exactly at a failed read or at an answer that cannot be written |
| `ServerConnection.Connection.HandleRequest` | `service/src/connection.rs:68-157` | requests, cancels, malformed and failed reads on the fields |
| `ServerConnection.Connection.HandleEvent` | `service/src/connection.rs:106-117` | an event, or the closing item, is sent |
| `ServerConnection.Connection.HandleAction` | `service/src/connection.rs:159-177` | a completed handler replies or turns into a subscription |
| `ServerConnection.Connection.SendResponse` | `service/src/connection.rs:179-187` | a failed write terminates the connection |
| `Semaphore.MutualExclusion` | `bindings/cpp/ouisync/semaphore.hpp:28-109` | at most one successful permit exists, and none beside a handoff in flight, in every run that asks only while the semaphore exists |
| `Semaphore.Fifo` | `bindings/cpp/ouisync/semaphore.hpp:28-61` | requests are let in in the order of the calls, none skipped, in every run |
| `Semaphore.FatesAreTrue` | `bindings/cpp/ouisync/semaphore.hpp:28-109` | after every run each request is in exactly one place, once: waiting, handed over, holding a permit or done with it; it is handed over as the front waiter of a dropped permit or at the destruction, and its permit is a success exactly if the semaphore existed when it was let in |
| `Semaphore.DestroyEmptiesQueue` | `bindings/cpp/ouisync/semaphore.hpp:40-46` | the destruction hands over every waiter and leaves none |
| `Semaphore.WaitersAreNotStranded` | `bindings/cpp/ouisync/semaphore.hpp:28-61` | a waiting request implies the flag and a permit or handoff whose end will serve it, even after the destruction |
| `Semaphore.EveryWaiterIsServed` | `bindings/cpp/ouisync/semaphore.hpp:28-38` | as long as holders drop their permits, as many turns as there are waiters serve them all |
| `Semaphore.AbortedMeansDestroyed` | `bindings/cpp/ouisync/semaphore.hpp:48-61` | the error code is given only after the destruction |
| `Semaphore.NoSuccessAfterDestruction` | `bindings/cpp/ouisync/semaphore.hpp:40-61` | after the destruction no request made so far ever becomes a success, however the run goes on |
| `Semaphore.LateRequestBreaksExclusion` | `bindings/cpp/ouisync/semaphore.hpp:91-109` | a run in which a request initiated after the destruction is let in beside a live permit |
| `Semaphore.LateRequestSafeIff` | `bindings/cpp/ouisync/semaphore.hpp:91-109` | such a request keeps the exclusion if and only if the flag is set or no successful permit is left |
| `Semaphore.ExclusionIff` | `bindings/cpp/ouisync/semaphore.hpp:28-109` | over all runs: there is at most one success at every point if and only if every request after the destruction finds the flag set or no successful permit left |
| `Semaphore.Shared.GetPermit` | `bindings/cpp/ouisync/semaphore.hpp:91-109` | immediate grant or queueing, on the fields |
| `Semaphore.Shared.OnPermitDestroyed` | `bindings/cpp/ouisync/semaphore.hpp:28-38` | hand over to the front of the queue or clear the flag |
| `Semaphore.Shared.OnSemaphoreDestroyed` | `bindings/cpp/ouisync/semaphore.hpp:40-46` | the loop serves all waiters in order |
| `Semaphore.Shared.RunPosted` | `bindings/cpp/ouisync/semaphore.hpp:48-61` | the posted handler gets a permit, aborted if the semaphore is gone by then |
| `Client.ExactlyOnce` | `bindings/cpp/ouisync/client.cpp:268-340` | under any interleaving of responses, send failures, cancellations and the end of the receive job each handler is completed at most once, exactly once when it is no longer registered, and none is left once disconnected |
| `Client.NothingLeft` | `bindings/cpp/ouisync/client.cpp:210-226` | nothing is registered once the client is disconnected |
| `Client.AnswersMatch` | `bindings/cpp/ouisync/client.cpp:165-183` | a handler is only ever given the response to its own request |
| `Client.StoriesAreTrue` | `bindings/cpp/ouisync/client.cpp:161-340` | every completion by its cause, over every run: a response completes the handler of its request with that response; the reply to a cancel request completes the cancelled handler as aborted, as a protocol error or with the failure, by its kind; and a handler fails otherwise only by a failed write, the end of the receive job or a call when disconnected |
| `Client.DisconnectedIff` | `bindings/cpp/ouisync/client.cpp:210-226` | the client is disconnected exactly if its receive job has ended |
| `Client.CancelledIsNeverAnswered` | `bindings/cpp/ouisync/client.cpp:280-318` | a request cancelled while registered is never completed with a response, whatever comes later |
| `Client.BufferIsStable` | `bindings/cpp/ouisync/client.cpp:89-112` | at most one write is in progress; while it lasts the send buffer holds its message and no step rewrites it |
| `Client.WrittenInOrder` | `bindings/cpp/ouisync/client.cpp:86-112` | messages are written in the order of the sends, none skipped and none twice, and all of them once the semaphore is free |
| `Client.SendsAreRequests` | `bindings/cpp/ouisync/client.cpp:268-340` | what is sent is one message per call on a connected client, with its id and content, and one cancel request per cancellation of a registered request, in order |
| `Client.IdsAreUsedOnce` | `bindings/cpp/ouisync/client.cpp:416-418` | no two messages ever go out under one id, cancel requests included, and an id drawn is new |
| `Client.SemaphoreIsUsed` | `bindings/cpp/ouisync/client.cpp:86-112` | the semaphore behaves as one of its own in which every send asks once, so all that holds of semaphores holds here |
| `Client.WritingIff` | `bindings/cpp/ouisync/client.cpp:93-107` | a send is being written exactly while it holds the permit and its write has not come back |
| `Client.StepAccounted` | `bindings/cpp/ouisync/client.cpp:268-340` | each step keeps every handler registered once or completed once |
| `Client.ClientState.Invoke` | `bindings/cpp/ouisync/client.cpp:268-340` | registration before sending, or immediate failure when disconnected |
| `Client.ClientState.CancelSlot` | `bindings/cpp/ouisync/client.cpp:280-318` | the handler moves to a cancel request under a fresh id |
| `Client.ClientState.OnResponse` | `bindings/cpp/ouisync/client.cpp:165-183` | the handler registered for the id is taken out and completed |
| `Client.ClientState.OnWritten` | `bindings/cpp/ouisync/client.cpp:323-339` | a failed write fails the handler still registered for the message |
| `Client.ClientState.OnPermit` | `bindings/cpp/ouisync/client.cpp:93-107` | the buffer is filled and written when the permit arrives |
| `Client.ClientState.Send` | `bindings/cpp/ouisync/client.cpp:86-112` | a send asks for the permit and writes at once if it is granted |
| `Client.ClientState.EndReceiveJob` | `bindings/cpp/ouisync/client.cpp:210-226` | the loop fails every registered handler, in any order of the map, and disconnects |
| `ConflictName.ParseCreated` | `lib/src/conflict.rs:8-46` | for every name, whatever separators it contains, parsing the created name returns that name and the first four bytes of the branch id |
| `ConflictName.ParsedSuffix` | `lib/src/conflict.rs:24-46` | a suffix is found only in name ++ ".v" ++ eight hex digits, and is their value |
| `ConflictName.ParseMeaning` | `lib/src/conflict.rs:24-46` | any such input is split there |
| `ConflictName.ParsedPlain` | `lib/src/conflict.rs:24-46` | anything else is returned unchanged, and is not of that form |
| `ConflictName.CreateIsInjective` | `lib/src/conflict.rs:8-20` | two created names are equal if and only if the names and the first four bytes are |
| `ConflictName.CreateParsed` | `lib/src/conflict.rs:8-46` | a parsed name is created again if and only if its digits are in lower case |
| `ConflictName.UpperCaseIsNotRecreated` | `lib/src/conflict.rs:24-46` | a name with upper-case digits that is parsed and not created again |
| `ConflictName.CreatedName` | `lib/src/conflict.rs:8-20` | formatting with a width and truncating the ellipsis leaves the digits of the first four bytes |
| `ConflictName.LastSeparator` | `lib/src/conflict.rs:25-31` | the last separator, and none after it |
| `ConflictName.UnhexHex` | `lib/src/macros.rs:57-61` | decoding the printed digits gives the bytes back |

## Left out

- Other transports (`net/src/quic.rs`, `net/src/udp.rs`, `net/src/unified.rs`), STUN, yamux, sockets, TLS, msgpack, HMAC and storage: calls into libraries or I/O, replaced by opaque values and nondeterministic success or failure.
- The service state, configuration store, repository registry, command line, file system mount and language bindings other than the C++ client: mostly routine bookkeeping and I/O.
- `broadcast_hash_set` of `lib/src/sync.rs`: easier than the adapter beside it.
- Rendezvous: memory orderings weaker than sequential consistency; poisoning of the mutex.
- ConnectionDriver: the bound of the command queue, and the streams still stored when the driver stops, which are dropped with it.
- LocateRace: what happens after a panic.
- StaleMonitors: the counts of values, and the borrow that keeps the handle of a call of `locate` alive; runs that violate it are included.
- Throttle.DueIsEmitted: gives one continuation that emits the item; `Throttle.HeldIsEmitted` is about all of them.
- Throttle: timer granularity; a sleep is over once the clock has reached its deadline.
- VersionVector.HistoryIsChain: overflow of the 64-bit versions is the `None` result of a history and excluded by precondition.
- Versioned: the collection that receives outdated entries, beyond its multiset of contents.
- BlockTracker: the order of notifications to different clients within one command; unbounded channels are a multiset of what was sent.
- StateMonitor: each public operation other than `locate` is one atomic step. Contents of values, change notifications and the text form of ids are not modelled, nor is the order of the child and value maps.
- ServerConnection: the contents of replies, and the order in which ready handlers and streams are picked.
- Client: subscription channels, the frame format, executors that run callbacks of one client in parallel, and the branch for an aborted permit, which is out of reach because every pending send keeps the client state and its semaphore alive.
- Semaphore: an executor that discards posted handlers without running them.
- ConflictName: strings are their UTF-8 bytes; `HexFmt` with a width is modelled as `lib/src/macros.rs:147-152` shows it.
