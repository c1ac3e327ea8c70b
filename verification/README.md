# HAMMER2 for Linux: a verified model of its lock, its message protocol and two of its scripts

Four parts of the port are modelled and proved here, each in the form the source has.

* **The CCMS thread lock** (`hammer2_ccms.c`), a recursive shared/exclusive lock with upgrade, built on one
  spinlock, a sleep primitive and a wakeup. It is modelled twice. `CcmsModel` is a step system: any number of
  threads, each with its own program counter through the source's functions, interleaved at every read, write,
  spin and sleep. `CcmsLock` is the same lock as an object with the source's fields, one method per function,
  each proved to leave what an uninterrupted run of the step system leaves. The sleep is a parameter: `keyed`
  says whether a sleeper queues where `wakeup()` looks. `CcmsRefinement` and `CcmsSharing` say what a request is
  answered in terms of what the threads hold, and `CcmsUndo` which call undoes which.
* **The dmsg transactions** (`dmsg.h`, `kern_dmsg.c`). `DmsgTrans` is two ends and two ordered links, with message
  ids used again. `DmsgStates`, `DmsgTeardown`, `DmsgFailure`, `DmsgReach`, `DmsgIocom` and `DmsgForest` are one end's tree
  of stacked transaction states with their reference counts, and its teardown; `DmsgRuns` is runs of it.
* **The HM2 reply** (`hammer2_remote.c`, `dmsg.h`). `Hm2Reply` is a channel that may lose, repeat, reorder or redeliver
  any frame ever sent; `Hm2Flow` is one reply over a faultless link, with the window of sixteen, each step of it a step
  of `Hm2Reply`. Both have the source's `int` windows.
* **Two scripts.** `CoreText`, `CoreDepth`, `CoreCollapse`, `CoreDiff` and `CoreReflow` model how `hammer2-core-diff.py` joins
  lines into statements; `SpinAudit` models the region scan of `hammer2-spin-audit.py`.

`Base` holds sums and quantification over sequences.

In the rows about the tree of states, a state is failed when it is marked ABORTING; told when its owner has then had a
DELETE, real or simulated; due when that comes once the message that is being sent, or waits to be, has gone out.  It
leaves when failed if it was not failed before, is not new, is not closed by its peer, and is closed by this end or its
owner answers.  A state lingers that is closed both ways and on its parent's list.  The law of a step on one state is
`DmsgTeardown.LawAt` for all the others: such a state is hit only if its parent is the one or is hit, then has all its
children failed and has left its list exactly if it was to, and is otherwise unchanged but for DYING.

## What the proofs found

Each of these is a place where the code and its own documentation part, with the exact condition proved.

* **The lock's wakeups do not reach its sleepers.** `ssleep()` sleeps on a wait queue of its own stack frame, while
  `wakeup()` wakes the pool of the address (`hammer2_os.h:1034-1073`, `1478-1484`). No wakeup is lost in any run, and every
  run can go on without a sleep ending by itself, exactly when the two are keyed to the same channel
  (`CcmsShim.NoLostWakeupIffKeyed`, `CcmsShim.NoDeadlockIffKeyed`). With the shim as it is a sleeper comes back by a timeout
  or a signal and nothing else (`CcmsShim.OnlyTimeoutWakes`); with them every call still returns
  (`CcmsDrain.EveryCallReturns`).
* **Upgraders do not wait for each other.** The comment at `hammer2_ccms.c:364-368` says that two upgraders holding shared
  locks deadlock; the code gives up the shared hold before it waits, and every one of any number of upgraders gets in
  (`CcmsDrain.UpgradersAllGetIn`), whatever other threads ask of the lock meanwhile (`CcmsCrowd.UpgraderGetsIn`).
* **A bad state divides the two lock calls.** The blocking one reports it and returns, the non-blocking one returns EBUSY;
  on all other requests they agree (`CcmsSolo.TryLockAgrees`).
* **A transaction opened under a failed one is never told.** `dmsg.h:142-148` has the sub-transactions of a closed one
  terminated. A state of this end's own making inherits DYING (`kern_dmsg.c:1885`); one that the peer opens does not
  (`kern_dmsg.c:963-988`), and a failure passes over what is below a state failed before (`kern_dmsg.c:1410`). So every
  state below a closed one, and below the root at the end of the link, has been told or is to be when its message has
  been sent, as long as the peer has opened none under a state that had been told (`DmsgIocom.Iocom.CleanupRx`,
  `DmsgIocom.Iocom.Teardown`); one that it does open there is not told, however often the failure is repeated
  (`DmsgIocom.Iocom.RxCreate`, `DmsgRuns.LateCreate`). `DmsgRuns.LateRun` is a run from a new connection after which the
  writer's loop at `kern_dmsg.c:615-618` has a state to wait for for good.
* **A tree of transactions can lose its root.** `dmsg.h:798-800` says that a state keeps its parent while it has
  children. The cleanup after a received DELETE takes a closed state off its parent's list without looking
  (`kern_dmsg.c:1330-1338`). A child leaves the list when failed exactly if it was not failed before, is not new, has not
  been closed by its peer, and this end has closed it or its owner answers the simulated DELETE from its callback
  (the guards at `kern_dmsg.c:1410`, `1437` and `1459`; `DmsgFailure.LeftExact`). The tree stays under its root exactly
  when no state within reach of the failure that leaves its list has a child that does not (`DmsgReach.WholeIff`,
  `DmsgIocom.Iocom.CleanupRx`). `DmsgRuns.OrphanRun` is a run from a new connection that loses it.
* **A closed state can stay on its list.** The cleanup after a sent DELETE does look (`kern_dmsg.c:1772-1773`), and leaves a
  state with children on the list; when the last child goes nothing takes it off, although the comment above that
  line has the topology torn down then (`DmsgForest.LastChildStrands`, `DmsgForest.StrandedStays`). Every entry point leaves
  it where it is, the failure of everything under the root at the end of the link among them
  (`DmsgIocom.Iocom.Teardown`), save the cleanup of a received message that held that very state already, and a new
  CREATE sent on it. `DmsgRuns.StrandRun` is a run that leaves one behind.
* **The depth count reads escapes wrongly.** The literal expression at `hammer2-core-diff.py:77` asks for two backslashes
  and a character where C has one and a character. It ends a C literal where C does exactly when no run of
  backslashes in it is one longer than a multiple of three, and one before a quote of the literal's own kind is a
  multiple of six long or one short of it (`CoreDepth.SameEndIff`). Otherwise what is in the literal counts
  (`CoreDepth.EscapeExample`), or its closing quote hides the code after it (`CoreDepth.HiddenExample`); on texts whose
  literals hold no backslash the depth is C's (`CoreDepth.EscapelessDepth`).
* **The spin audit reads one release per line.** A release that stands behind the release of another lock is not
  seen, and the region runs on past it. A file's records are right exactly when no line read for a region hides the
  release of that region's lock in this way (`SpinAudit.AuditRightIff`).
* **A refusal can end the next call.** The tag and sequence of a frame are tested for feeds only
  (`hammer2_remote.c:1408-1424`), and a refusal has neither. One that comes again ends whatever call has the message id
  then, with the link up and the call's own request being served (`Hm2Reply.LateRefusal`); an open call can be ended in
  this way exactly when a request on its id has been refused (`Hm2Reply.BreaksIffRefused`).
* **A frame without a transaction is dropped.** The comment at `kern_dmsg.c:735-738` calls its error fatal to the
  connection; the reader's loop tests another flag and overwrites the error (`kern_dmsg.c:355`, `459`). The model follows
  the loop.
* **A reply ends at 2^31 - 16 feeds.** The windows are of type `int`: at the last multiple of sixteen the server can send
  no more, so the 32-bit sequence number never wraps (`Hm2Reply.NeverWraps`), and a reply is delivered whole exactly
  when it has no more feeds than that (`Hm2Flow.FullDelivery`).

## Model

| member | source | states |
|---|---|---|
| `CcmsSafety.Safety` | src/sys/fs/hammer2/hammer2_ccms.c:90-323 | in every state of every run, for any number of threads and either sleep, the counting invariant: `count` is the sum of the holds, `upgrade` the sum of the upgraders, one exclusive owner excludes every other hold, `td` names it, the spin is with the one thread inside a spin section, and every completed call met its contract |
| `CcmsSafety.NextKeepsInv` | src/sys/fs/hammer2/hammer2_ccms.c:90-323 | every single event (a call, one step of a thread, a timeout, a hand-off) keeps that invariant |
| `CcmsTheorems.OwnerAccount` | src/sys/fs/hammer2/hammer2_ccms.c:90-128 | with an exclusive owner `count` is minus its depth, nobody else holds anything, and `upgrade` is the waiting upgraders plus one if the owner came in by upgrade |
| `CcmsTheorems.NoOwnerAccount` | src/sys/fs/hammer2/hammer2_ccms.c:90-128 | without an owner `count` is the number of shared holds, `upgrade` the number of waiting upgraders, and `td` is empty outside a spin section |
| `CcmsTheorems.AssertionsHold` | src/sys/fs/hammer2/hammer2_ccms.c:166-317 | no assertion of the lock fails and no not-locked arm is reached in any run of callers that release what they hold |
| `CcmsTheorems.PanicsIff` | src/sys/fs/hammer2/hammer2_ccms.c:191-285 | from any fields and any hold, an upgrade or an unlock that is not interrupted takes the not-locked arm if and only if the count is zero, and then changes nothing |
| `CcmsTheorems.QueryIff` | src/sys/fs/hammer2/hammer2_ccms.c:166-178 | from any fields, a temporary release goes on to the unlock with the state the count says, or returns INVALID if and only if the count is zero; the query of ownership says yes if and only if the count is negative and the caller is the owner named |
| `CcmsTheorems.HandOffAsserts` | src/sys/fs/hammer2/hammer2_ccms.c:287-292 | setting the owner finds the lock exclusive as it asserts, and moves exactly the owner's hold to the new owner |
| `CcmsTheorems.SpinDiscipline` | src/sys/fs/hammer2/hammer2_ccms.c:107-127 | each thread takes only a free spin, gives back only its own, alternates the two, and has none at a return |
| `CcmsTheorems.CallContracts` | src/sys/fs/hammer2/hammer2_ccms.c:90-323 | every completed call of every thread changed that thread's own hold as its function promises and returned the promised code, whatever the others did meanwhile, and calls chain |
| `CcmsTheorems.RoundTrips` | src/sys/fs/hammer2/hammer2_ccms.c:166-317 | any well-nested stretch of a thread's calls (lock/unlock, upgrade/downgrade, temp_release/temp_restore, at any depth) has given back the hold it started from, under any interference |
| `CcmsTheorems.PairRestores` | src/sys/fs/hammer2/hammer2_ccms.c:166-242 | an opening call and its undoing call with the returned state give back the hold |
| `CcmsTheorems.UpgradeThenRelease` | src/sys/fs/hammer2/hammer2_ccms.c:297-317 | upgrade followed by unlock_upgraded with the returned state is one release of the hold before the upgrade |
| `CcmsRefinement.Refines` | src/sys/fs/hammer2/hammer2_ccms.c:90-323 | every step of the lock is one allowed move of an abstract reader/writer lock with upgrade, or none |
| `CcmsRefinement.RunRefines` | src/sys/fs/hammer2/hammer2_ccms.c:90-323 | over whole runs the parties are a reader/writer lock: one writer or readers, never both; while an upgrade waits a thread that is neither a holder nor an upgrader becomes a holder only by a hand-off from the owner |
| `CcmsRefinement.TestIff` | src/sys/fs/hammer2/hammer2_ccms.c:107-119 | in every state of the invariant the test of a wait loop lets a thread out if and only if what the threads hold allows its move: nobody exclusive and nobody waiting to upgrade for shared, no holder either for exclusive, no holder for an upgrade |
| `CcmsSharing.RequestIff` | src/sys/fs/hammer2/hammer2_ccms.c:90-164 | a request for a known state by a thread that is not the owner is granted, by the blocking and the non-blocking call, if and only if the holds of all threads let it in, other shared holders being no obstacle to a shared one; if not, the one sleeps and the other returns EBUSY with the hold it had |
| `CcmsSharing.UpgradeIff` | src/sys/fs/hammer2/hammer2_ccms.c:191-221 | an upgrade is granted at once if and only if no other thread holds the lock |
| `CcmsSharing.OwnedIff` | src/sys/fs/hammer2/hammer2_ccms.c:319-323 | any thread may ask whether it owns the lock and is told so if and only if it holds it exclusively |
| `CcmsUndo.RequestUndone` | src/sys/fs/hammer2/hammer2_ccms.c:90-164 | at every depth, a request that is let in may be followed by an unlock, and the two leave the hold and the lock as they were |
| `CcmsUndo.UpgradeUndone` | src/sys/fs/hammer2/hammer2_ccms.c:191-242 | so do an upgrade and a downgrade to what it returned, from the only shared hold and from an exclusive hold of any depth |
| `CcmsUndo.TempUndone` | src/sys/fs/hammer2/hammer2_ccms.c:166-178 | so do a temporary release and the restoring of what it returned, if nobody waits to upgrade or the lock stays owned |
| `CcmsUndo.UnlockUpgradedIsBoth` | src/sys/fs/hammer2/hammer2_ccms.c:297-317 | giving back an upgraded hold leaves the fields and the hold that a downgrade and an unlock leave |
| `CcmsWakeup.NoWakeupLost` | src/sys/fs/hammer2/hammer2_ccms.c:107-127 | with a keyed sleep no thread sleeps on a condition that has ended unless a wakeup for it is on its way, in any state of any run |
| `CcmsWakeup.NoDeadlock` | src/sys/fs/hammer2/hammer2_ccms.c:90-317 | with a keyed sleep, until every thread has finished, some thread can take a step or give back what it holds, without any sleep ending by itself |
| `CcmsUpgrade.UpgradeExclusion` | src/sys/fs/hammer2/hammer2_ccms.c:186-221 | while `upgrade` is positive, whoever holds the lock or waits to upgrade did so at the start of the stretch or has been handed the lock by its owner in it |
| `CcmsUpgrade.MembersNeverGrow` | src/sys/fs/hammer2/hammer2_ccms.c:186-292 | and the number of such threads does not grow, hand-offs included |
| `CcmsUpgrade.OnlyMembersGetIn` | src/sys/fs/hammer2/hammer2_ccms.c:186-221 | between an upgrader's start and its grant only threads that held the lock or were upgrading at the start, or were handed it since, are exclusive |
| `CcmsUpgrade.LastHolderTakesLock` | src/sys/fs/hammer2/hammer2_ccms.c:191-221 | the last shared holder to upgrade does not sleep on itself: two steps later it is exclusive |
| `CcmsDrain.DrainBounded` | src/sys/fs/hammer2/hammer2_ccms.c:186-317 | with either sleep, a run in which threads only finish their calls, release, and come back from sleeps by a timeout or signal is no longer than a rank of the state it starts from plus six for each such return |
| `CcmsDrain.EveryCallReturns` | src/sys/fs/hammer2/hammer2_ccms.c:90-317 | with either sleep, when such a run can go no further (for the shipped sleep: nor can any sleep end), every call in progress at its start has returned with the effect of its contract |
| `CcmsDrain.UpgradersAllGetIn` | src/sys/fs/hammer2/hammer2_ccms.c:186-221 | when nobody asks for the lock anew, the next completed call of every thread waiting to upgrade at the start of such a run is that upgrade, granted exclusive from one shared hold, however many of them there were |
| `CcmsDrain.DrainExists` | src/sys/fs/hammer2/hammer2_ccms.c:90-317 | from every state of the invariant, with either sleep, there is such a run to a state in which all threads have finished, with no more returns from sleep than the rank |
| `CcmsCrowd.MovesBounded` | src/sys/fs/hammer2/hammer2_ccms.c:186-317 | while a thread waits to upgrade and the threads that hold the lock, wait to upgrade or have yet to wake the channel only finish their calls and release, those make no more moves than a rank of theirs at the start plus six for each sleep of theirs that ends by itself, whatever all other threads call and do |
| `CcmsCrowd.InvolvedCanMove` | src/sys/fs/hammer2/hammer2_ccms.c:107-285 | with the spin free one of them can move, with a keyed sleep without any sleep ending by itself |
| `CcmsCrowd.UpgraderGetsIn` | src/sys/fs/hammer2/hammer2_ccms.c:186-221 | so a run that ends with the spin free and none of them able to move has granted the upgrade, within that bound |
| `CcmsSolo.TryLockAgrees` | src/sys/fs/hammer2/hammer2_ccms.c:90-164 | in every state of the invariant the non-blocking lock returns 0 exactly where the blocking one would not sleep, with the same fields and hold, and otherwise EBUSY with nothing changed, if and only if the state asked for is a known one or the caller owns the lock |
| `CcmsShim.NoLostWakeupIffKeyed` | src/sys/fs/hammer2/hammer2_os.h:1034-1073 | no wakeup is lost in any run if and only if the sleep is keyed to the channel that is woken |
| `CcmsShim.NoDeadlockIffKeyed` | src/sys/fs/hammer2/hammer2_os.h:1034-1073 | every state of every run has all threads finished, or one that can step or release without a sleep ending by itself, if and only if the sleep is so keyed |
| `CcmsShim.OnlyTimeoutWakes` | src/sys/fs/hammer2/hammer2_os.h:1034-1073 | with a queue of its own a sleeper is untouched by every event but the end of its own sleep by timeout or signal |
| `CcmsShim.StuckWithoutTimeout` | src/sys/fs/hammer2/hammer2_os.h:1034-1073 | over any run without that it stays asleep |
| `CcmsLock.CcmsCst.constructor` | src/sys/fs/hammer2/hammer2_ccms.c:65-70 | the fields of a new lock, and the invariant |
| `CcmsLock.CcmsCst.Lock` | src/sys/fs/hammer2/hammer2_ccms.c:90-128 | given the states found after each sleep: the fields and every thread's hold afterwards are those of the step system's call through them; whether the lock was granted |
| `CcmsLock.CcmsCst.LockCode` | src/sys/fs/hammer2/hammer2_ccms.c:90-128 | the same for the fields alone, from any fields at all |
| `CcmsLock.CcmsCst.WaitLoop` | src/sys/fs/hammer2/hammer2_ccms.c:109-119 | the loop ends at the first sleep that finds the condition over, with the fields found there |
| `CcmsLock.CcmsCst.Ssleep` | src/sys/fs/hammer2/hammer2_os.h:1034-1073 | the sleeper comes back with the spin to the fields the others left, which are given |
| `CcmsLock.CcmsCst.TryLock` | src/sys/fs/hammer2/hammer2_ccms.c:134-164 | the step system's call; EBUSY leaves every field |
| `CcmsLock.CcmsCst.TempRelease` | src/sys/fs/hammer2/hammer2_ccms.c:166-178 | one level is dropped and the state held is returned; an unlocked lock is left alone |
| `CcmsLock.CcmsCst.Upgrade` | src/sys/fs/hammer2/hammer2_ccms.c:191-221 | given the states found after each sleep: the step system's call through them, the state to give back, whether it was granted |
| `CcmsLock.CcmsCst.Downgrade` | src/sys/fs/hammer2/hammer2_ccms.c:223-242 | the step system's call |
| `CcmsLock.CcmsCst.Unlock` | src/sys/fs/hammer2/hammer2_ccms.c:247-285 | the step system's call; an unlocked lock is left alone |
| `CcmsLock.CcmsCst.Release` | src/sys/fs/hammer2/hammer2_ccms.c:247-285 | the fields after one release, in every case of depth, last hold and waiting threads |
| `CcmsLock.CcmsCst.SetOwn` | src/sys/fs/hammer2/hammer2_ccms.c:287-292 | the hand-off of the step system, from an owner outside any call to a thread that holds nothing |
| `CcmsLock.CcmsCst.SetOwnCode` | src/sys/fs/hammer2/hammer2_ccms.c:287-292 | the fields afterwards from any fields with a negative count: the caller is the owner and nothing else changes |
| `CcmsLock.CcmsCst.UnlockUpgraded` | src/sys/fs/hammer2/hammer2_ccms.c:297-317 | the step system's call |
| `CcmsLock.CcmsCst.Owned` | src/sys/fs/hammer2/hammer2_ccms.c:319-323 | true exactly when the calling thread holds the lock exclusively |
| `CcmsLock.CcmsCst.Wakeup` | src/sys/fs/hammer2/hammer2_os.h:1478-1484 | every queued sleeper is woken, or none, as the sleep is keyed |
| `Hm2Reply.Integrity` | src/sys/fs/hammer2/hammer2_remote.c:1363-1477 | over a channel that loses, repeats, reorders and redelivers, across reuse of message ids: what a call has is at every moment a prefix of what its server sent, and all of it with the server's verdict once the call is closed; a call that ends otherwise ends with the link, or its own request or an earlier one on its id was refused |
| `Hm2Reply.NextKeepsInv` | src/sys/fs/hammer2/hammer2_remote.c:341-525 | every event of client, server and channel keeps the invariant behind it; a frame without a transaction is dropped, and one with a transaction whose call is over ends the link |
| `Hm2Reply.OpenIff` | src/sys/fs/hammer2/hammer2_remote.c:1254-1268 | in every run a call is open if and only if the link is up and the client has it on its message id, so none is open once the link has ended; a frame without a call ends the link and every call if and only if a transaction is known for it, and else changes nothing |
| `Hm2Reply.DeliverIff` | src/sys/fs/hammer2/hammer2_remote.c:1363-1477 | for any frame on a call's message id: the link stays up if and only if a feed is of the call, next in turn, within the window and has memory, or a close is of the call and in turn; what the call has afterwards and how it stands; other calls are untouched |
| `Hm2Reply.Backlog` | src/sys/fs/hammer2/hammer2_remote.c:1425-1430 | with the checks or without them, whatever is sent and delivered, a client never has more than sixteen chains its consumer has not taken, nor more than 2^31 - 16 in all |
| `Hm2Reply.WholeIff` | src/sys/fs/hammer2/hammer2_remote.c:510-525 | every call that ends with a verdict has the whole list of feeds if and only if the verdict is not an error with the end mark |
| `Hm2Reply.InPlaceFeed` | src/sys/fs/hammer2/hammer2_remote.c:1408-1423 | a feed that passes the tag and sequence checks is the call's own next one |
| `Hm2Reply.InPlaceClose` | src/sys/fs/hammer2/hammer2_remote.c:1408-1423 | a close that passes them comes when nothing is missing |
| `Hm2Reply.NeverWraps` | src/sys/fs/hammer2/hammer2_remote.c:535-553 | a server never sends more than 2^31 - 16 feeds, so no two feeds of a reply have the same sequence number |
| `Hm2Reply.ProtectedIffChecked` | src/sys/fs/hammer2/hammer2_remote.c:1408-1424 | every list of feeds is received faithfully in every run if and only if the tag and sequence checks are made |
| `Hm2Reply.LateFeedTaken` | src/sys/fs/hammer2/hammer2_remote.c:1408-1424 | without them, whatever a call is to be fed, a late feed of the call before on its message id is taken as its first |
| `Hm2Reply.BreaksIffRefused` | src/sys/fs/hammer2/hammer2_remote.c:1408-1450 | in every reachable state with the link up, one event can break off an open call and leave the link up if and only if a request on its message id has been refused |
| `Hm2Reply.LateRefusal` | src/sys/fs/hammer2/hammer2_remote.c:1408-1450 | for every list of feeds, a run in which a refusal of an earlier call breaks off a call that is being served and was never refused |
| `Hm2Flow.FlowSafety` | src/sys/fs/hammer2/hammer2_remote.c:980-1003 | over every run the client has a prefix of the server's list, the frames in flight are the difference, and the two windows differ by the continuations in flight |
| `Hm2Flow.NoSeventeenthFeed` | src/sys/fs/hammer2/hammer2_remote.c:535-553 | the server is never more than sixteen feeds past the continuations it has received, and the client never refuses one |
| `Hm2Flow.FlowProgress` | src/sys/fs/hammer2/hammer2_remote.c:1558-1612 | for a reply of at most 2^31 - 16 feeds, until the consumer has all of it some step is possible: window and continuation never block each other |
| `Hm2Flow.FullDelivery` | src/sys/fs/hammer2/hammer2_remote.c:980-1003 | every run is finite, and one that can go no further has delivered every feed in order with the server's verdict if and only if there are at most 2^31 - 16 of them |
| `Hm2Flow.ClosedAsksNoMore` | src/sys/fs/hammer2/hammer2_remote.c:1583-1592 | after the close has been received no continuation is asked for again |
| `Hm2Flow.FlowReachable` | src/sys/fs/hammer2/hammer2_remote.c:980-1003 | every state of every faultless run is the call, the request and the frames in flight of a state that `Hm2Reply` reaches by the events of the steps |
| `DmsgTrans.IdSafety` | src/sys/fs/hammer2/kern_dmsg.c:839-1166 | over every run a received command CREATE finds no open transaction of that initiator and id, every other frame finds the transaction it was sent for with CREATE expected exactly when it carries it and DELETE not yet received, and no frame is refused |
| `DmsgTrans.NetSafety` | src/sys/sys/dmsg.h:116-152 | the invariant behind it: each id of each initiator has at most one transaction in flight behind the tail of a finished one |
| `DmsgTrans.RefusedIff` | src/sys/fs/hammer2/kern_dmsg.c:839-1166 | a frame is refused if and only if it opens a transaction that there is, opens or closes one that there is not, or closes a direction that has not been opened; a refused or one-off frame changes nothing |
| `DmsgTrans.TwiceIff` | src/sys/fs/hammer2/kern_dmsg.c:839-1166 | a CREATE or DELETE that is taken and comes again is refused if and only if it is a command's CREATE or has closed the transaction |
| `DmsgTrans.OneShot` | src/sys/sys/dmsg.h:116-152 | with both links empty, a command and its reply of one message each may be sent and received, and leave both ends as they were |
| `DmsgTrans.ClosedIsQuiet` | src/sys/sys/dmsg.h:118-121 | an id its initiator may use again has no old reply on its way, and one gone at both ends no frame at all |
| `DmsgTrans.EarlyReleaseCollides` | src/sys/sys/dmsg.h:118-121 | an end that dropped its state with its own DELETE would meet an open transaction |
| `DmsgStates.PutKeeps` | src/sys/fs/hammer2/kern_dmsg.c:1808-1832 | dropping a reference keeps forest and counts, and frees a state only when it has no list, no parent, no tree and no holder |
| `DmsgStates.UnparentKeeps` | src/sys/fs/hammer2/kern_dmsg.c:1351-1373 | leaving the parent's list keeps forest and counts, the parent losing a reference with its last child |
| `DmsgStates.InsertKeeps` | src/sys/fs/hammer2/kern_dmsg.c:1864-1888 | a new state on a list keeps forest and counts |
| `DmsgIocom.Iocom.constructor` | src/sys/fs/hammer2/kern_dmsg.c:91-109 | a connection starts with its root state alone |
| `DmsgIocom.Iocom.Alloc` | src/sys/fs/hammer2/kern_dmsg.c:1834-1888 | a new transaction's state, new, held, in its tree and on its parent's list, nothing sent or received, dying if its parent is, and the rest unchanged; counts and forest kept, all that lingers, and that what is below a told state has been told or is due |
| `DmsgIocom.Iocom.AllocOn` | src/sys/fs/hammer2/kern_dmsg.c:1891-1895 | a message on a transaction that exists holds its state; the same are kept |
| `DmsgIocom.Iocom.RxCreate` | src/sys/fs/hammer2/kern_dmsg.c:963-988 | the same for one the peer opens, received and closed by the peer if its CREATE came with DELETE, neither new nor dying; but that what is below a told state has been told stays so exactly when the parent has not been told |
| `DmsgIocom.Iocom.MsgTx` | src/sys/fs/hammer2/kern_dmsg.c:1555-1704 | CREATE recorded on transmission; a command's resets what has been received, and the state is no longer new but interlocked |
| `DmsgIocom.Iocom.MsgRx` | src/sys/fs/hammer2/kern_dmsg.c:1130-1163 | CREATE and DELETE recorded on receipt; closed both ways, the state leaves its lookup tree; all that lingers is kept |
| `DmsgIocom.Iocom.SubqDelete` | src/sys/fs/hammer2/kern_dmsg.c:1351-1373 | the heap after leaving the parent's list, counts and forest kept |
| `DmsgIocom.Iocom.MarkDying` | src/sys/fs/hammer2/kern_dmsg.c:1487-1498 | only DYING changes, only in the subtree, and every newly marked state's children are marked |
| `DmsgIocom.Iocom.TxClose` | src/sys/fs/hammer2/kern_dmsg.c:1738-1776 | the heap after this end's DELETE: off the tree when closed both ways, off the list too unless it has children |
| `DmsgIocom.Iocom.Abort` | src/sys/fs/hammer2/kern_dmsg.c:1421-1479 | the state is told that its peer is gone, or marked if new; it is closed both ways, out of its tree and off its list if it was to leave, and where it was if not; the law of a step holds for every other state: hit or not by its parent, failed with all its children, off its list exactly if it was to leave, otherwise unchanged but for DYING |
| `DmsgIocom.Iocom.FailChildren` | src/sys/fs/hammer2/kern_dmsg.c:1310-1339 | every child is failed before the state leaves its parent's list, which it does exactly when it is closed both ways; the law of a step for every other state |
| `DmsgIocom.Iocom.SimulateFailure` | src/sys/fs/hammer2/kern_dmsg.c:1387-1419 | it terminates, with restarts and nested failures, for any owners' answers; every child is failed; by the law of a step every state below not under one failed before is hit, and leaves its list exactly if it was to; nothing else changes but the parent's list; counts and forest are kept |
| `DmsgIocom.Iocom.CleanupRx` | src/sys/fs/hammer2/kern_dmsg.c:1302-1343 | the whole cleanup after a received message: after a DELETE the children left are exactly those that do not leave when failed, none if and only if all were to; all have been told or are due, and so has every state below if the peer has opened none under a told state; the tree stays under its root if and only if no state within reach that leaves, nor this one if it does, has a child that does not; a state closed both ways is off its list and any other where it was |
| `DmsgIocom.Iocom.CleanupTx` | src/sys/fs/hammer2/kern_dmsg.c:1713-1796 | the whole cleanup after a sent message, with the abort deferred to it: the heap where none was; where one was and the state is not new it is told, gone if this end has closed it or its owner answers, and its children as after a received DELETE; what lingers stays on its list |
| `DmsgIocom.Iocom.Teardown` | src/sys/fs/hammer2/kern_dmsg.c:615-623 | failing everything under the root: the states left on its list are exactly those that do not leave when failed, none if and only if all were to; what is below told states has been told or is due if and only if it was before, and then every state below the root; the tree stays under its root if and only if no state within reach that leaves has a child that does not; no state that lingers or is left behind is taken off its list |
| `DmsgFailure.LeftExact` | src/sys/fs/hammer2/kern_dmsg.c:1408-1416 | after the scan a child is on the list if and only if it was and was failed before, new, closed by its peer, or neither closed by this end nor answered for |
| `DmsgFailure.EmptiedIff` | src/sys/fs/hammer2/kern_dmsg.c:1310-1339 | so the list is empty if and only if every child was to leave |
| `DmsgFailure.InsertSettledIff` | src/sys/fs/hammer2/kern_dmsg.c:963-988 | a new state leaves what is below told states told if and only if it is due itself or its parent has not been told |
| `DmsgFailure.BelowTold` | src/sys/fs/hammer2/kern_dmsg.c:1408-1416 | a child of a told state is left as it is by every step on any state but the two |
| `DmsgReach.HitIff` | src/sys/fs/hammer2/kern_dmsg.c:1408-1416 | a failure of all below a state hits exactly the states on a way down from it that meets none failed before |
| `DmsgReach.WholeIff` | src/sys/fs/hammer2/kern_dmsg.c:1326-1338 | it leaves the tree under its root if and only if no state it hits that leaves its list, nor its top if that leaves, has a child that does not |
| `DmsgReach.ToldBelowIff` | src/sys/sys/dmsg.h:142-148 | every state below, at any depth, has been told or is to be when a message has been sent, if and only if that is so of the children and of the children of every told state below |
| `DmsgReach.QuietTold` | src/sys/sys/dmsg.h:142-148 | and has been told if nothing is being sent |
| `DmsgForest.RootPath` | src/sys/sys/dmsg.h:787-801 | in a tree under its root there is a path from the root to every state that is open, has children or is on a list |
| `DmsgForest.AnchoredInsert` | src/sys/fs/hammer2/kern_dmsg.c:1864-1888 | a new transaction stays under the root exactly when its parent does |
| `DmsgForest.AnchoredUnparent` | src/sys/fs/hammer2/kern_dmsg.c:1326-1338 | a closed state leaving its list keeps the tree under the root exactly when it has no children |
| `DmsgForest.AnchoredTxClosed` | src/sys/fs/hammer2/kern_dmsg.c:1738-1776 | this end's DELETE always keeps it |
| `DmsgForest.AnchoredTracked` | src/sys/fs/hammer2/kern_dmsg.c:1130-1163 | so does tracking a received message |
| `DmsgForest.AnchoredDrop` | src/sys/fs/hammer2/kern_dmsg.c:1808-1832 | and dropping a reference |
| `DmsgForest.TxClosedLingers` | src/sys/fs/hammer2/kern_dmsg.c:1755-1774 | a state closed by its own DELETE is on its list when the message has let go exactly when it has children |
| `DmsgForest.LastChildStrands` | src/sys/fs/hammer2/kern_dmsg.c:1351-1373 | when a child goes, its parent is left closed, childless and on the list exactly when it was staying with that child alone |
| `DmsgForest.TxClosedStrands` | src/sys/fs/hammer2/kern_dmsg.c:1755-1774 | the same when the child goes by its own DELETE and its message lets go |
| `DmsgForest.StrandedStays` | src/sys/fs/hammer2/kern_dmsg.c:1387-1419 | no step on another state takes it off, whether or not it is below that state |
| `DmsgRuns.OrphanRun` | src/sys/fs/hammer2/kern_dmsg.c:1326-1338 | a run of entry points from a new connection: a transaction closed by the peer last is off the root's list with an open one below it |
| `DmsgRuns.StrandRun` | src/sys/fs/hammer2/kern_dmsg.c:1755-1774 | a run of entry points from a new connection: one closed by this end last is closed, childless and still on the root's list after its child has closed and the link has ended |
| `DmsgRuns.LateCreate` | src/sys/fs/hammer2/kern_dmsg.c:963-988 | in every connection, a transaction that the peer opens under a told state is open, unmarked and in its lookup tree after any number of failures of all below the root |
| `DmsgRuns.LateRun` | src/sys/fs/hammer2/kern_dmsg.c:615-623 | a run of entry points from a new connection that comes to this, the two transactions above closed by both ends |
| `DmsgRuns.OneShotIn` | src/sys/fs/hammer2/kern_dmsg.c:963-988 | in every connection, a command of one message from the peer under the root or an open transaction, and the one-message reply to it, leave every state as it was |
| `DmsgRuns.OneShotOut` | src/sys/fs/hammer2/kern_dmsg.c:1555-1704 | and so do a command of one message sent by this end under a transaction that is not dying, and the reply received to it |
| `CoreText.StripOuter` | script/hammer2-core-diff.py:130 | only space at the two ends is removed, and the result has none there |
| `CoreText.RewriteSpace` | script/hammer2-core-diff.py:133-135 | the two word tables and the keyword spacing treat the two sides of any run of space apart |
| `CoreText.WordsBorder` | script/hammer2-core-diff.py:133-134 | a pass over the words treats the two sides of any character that is in no word apart |
| `CoreText.WordsOne` | script/hammer2-core-diff.py:133-134 | on a single word it is the table's function, whatever the table |
| `CoreText.RewriteParen` | script/hammer2-core-diff.py:133-135 | the three passes treat the two sides of a parenthesis apart, and put a space before it if and only if a keyword stands right behind it in the original |
| `CoreText.RewriteCall` | script/hammer2-core-diff.py:62 | for a word before a parenthesis: the table's word, and the space if and only if it is one of the six keywords |
| `CoreText.RewriteRenamed` | script/hammer2-core-diff.py:43-54 | each name of the original tree comes out as the port's, which comes out as it is |
| `CoreText.RewriteAliased` | script/hammer2-core-diff.py:65-69 | each type alias as its spelling, which comes out as it is |
| `CoreText.RewriteUnlisted` | script/hammer2-core-diff.py:133-135 | and every other word unchanged |
| `CoreCollapse.DepthCollapse` | script/hammer2-core-diff.py:141-149 | collapsing runs of space does not change the depth |
| `CoreDepth.DepthIsRunningSum` | script/hammer2-core-diff.py:141-146 | the depth of the whole pending statement is the running sum over its lines when no literal crosses a line |
| `CoreDepth.LiteralHides` | script/hammer2-core-diff.py:77-83 | nothing in a literal of either quote without escapes is counted |
| `CoreDepth.CrossingLiteralDiffers` | script/hammer2-core-diff.py:141-146 | two lines with a literal across them whose whole depth is not the sum |
| `CoreDepth.SameEndIff` | script/hammer2-core-diff.py:77-83 | a literal that C ends somewhere is ended there by the script if and only if none of its runs of backslashes is one longer than a multiple of three, and each before a quote of its kind is 0 or 5 modulo six long |
| `CoreDepth.TameDepth` | script/hammer2-core-diff.py:77-83 | on texts all of whose literals are such, and with no backslash after a quote that is never closed, the script's depth is that of C |
| `CoreDepth.EscapelessDepth` | script/hammer2-core-diff.py:77-83 | so it is on every text whose literals hold no backslash |
| `CoreDepth.EscapeExample` | script/hammer2-core-diff.py:77-83 | a complete call with an escape in its literal is taken as unfinished: depth 1 and not 0 |
| `CoreDepth.HiddenExample` | script/hammer2-core-diff.py:77-83 | one whose escaped literal hides code after it: depth -1 and not 0 |
| `CoreDiff.Normalise` | script/hammer2-core-diff.py:126-157 | the loop over raw lines computes the join of the kept lines, each complete statement and the pending rest with its space collapsed and then finished in its own way, which are given |
| `CoreDiff.KeptIff` | script/hammer2-core-diff.py:126-132 | a line is dropped if and only if it is blank or, with any space, the mark, any space and the word `include` not continued |
| `CoreDiff.NormalisedWord` | script/hammer2-core-diff.py:126-157 | the whole of a file of one word, with any space around it, is the tables' word, finished as a statement or as a pending storage class |
| `CoreDiff.StorageJoins` | script/hammer2-core-diff.py:72 | a complete line joins the complete line after it if and only if it is one of the five storage classes alone |
| `CoreReflow.BreakIff` | script/hammer2-core-diff.py:136-154 | the joining state after a line with a run of space in it is, up to how space is collapsed, the state after its two halves if and only if the pending depth at the break is positive, or the left half is a storage class starting a statement and the two together are not one |
| `CoreReflow.Reflow` | script/hammer2-core-diff.py:121-157 | such a break of a raw line at any run of space, whatever the space around it, leaves the result of the whole file unchanged |
| `CoreReflow.ReflowMany` | script/hammer2-core-diff.py:121-157 | so does any number of them |
| `CoreReflow.JoiningConserves` | script/hammer2-core-diff.py:126-157 | the statements are the kept lines in order, none lost, added or moved, each the shortest run of lines that is complete, and the pending rest has no complete prefix |
| `SpinAudit.NormIgnores` | script/hammer2-spin-audit.py:56-58 | space anywhere in a lock expression and marks of reference before it do not change which lock it names |
| `SpinAudit.NormOfName` | script/hammer2-spin-audit.py:56-58 | a name without space or mark is itself |
| `SpinAudit.SameLockIff` | script/hammer2-spin-audit.py:56-58 | two expressions name one lock if and only if, their space left out, they are the same name behind any number of marks |
| `SpinAudit.FindCalls` | script/hammer2-spin-audit.py:79-80 | the sleeping calls found are exactly the listed names right before a parenthesis, also across lines |
| `SpinAudit.Scan` | script/hammer2-spin-audit.py:69-78 | a region is resolved if and only if a line whose first release is of its lock comes before the function ends, and its body is exactly the lines between |
| `SpinAudit.AuditFile` | script/hammer2-spin-audit.py:65-83 | the two lists are the resolved and the unresolved records of the file in line order |
| `SpinAudit.Audit` | script/hammer2-spin-audit.py:61-84 | and of all files in order |
| `SpinAudit.OneRecordEach` | script/hammer2-spin-audit.py:61-84 | every acquire line of every file has exactly one record, in one of the lists, and no other line any |
| `SpinAudit.AuditSays` | script/hammer2-spin-audit.py:61-84 | every record of either list has the file, line, kind and lock of an acquire line and the span to the first line after it that ends the function or first releases the lock; its calls are exactly those that stand between; and it is in the resolved list if and only if the region does not end with the function |
| `SpinAudit.CallsIff` | script/hammer2-spin-audit.py:79-80 | a call is found in a region if and only if a listed name stands in it right before a parenthesis, on one line or with the name last on its line and the parenthesis first on the next that is not empty |
| `SpinAudit.NoCallMissed` | script/hammer2-spin-audit.py:72-80 | every sleeping call on a line between is reported |
| `SpinAudit.ResolvedIsRelease` | script/hammer2-spin-audit.py:75-78 | on files whose lines release one lock each, resolved means that a release comes before the function ends |
| `SpinAudit.EndsRightIff` | script/hammer2-spin-audit.py:69-78 | a region is ended by the scan at the first line that releases its lock anywhere, or with the function, if and only if no line read on the way hides a release of it behind another lock's |
| `SpinAudit.AuditRightIff` | script/hammer2-spin-audit.py:65-83 | every record of a file, with span, sleep set and list, is right if and only if no line read for a region hides a release of that region's lock |

## Left out

- The kernel threads of the lock test, `kthread_*` and logging (`hammer2_ccms.c:325-429`): plumbing around the lock.
- What `hpanic` and a failed `KKASSERT` do: `hpanic` returns, and the assertions are proved instead.
- The 32-bit width of `count` and `upgrade`, the 64-bit width of the call's tag and of message ids: those are unbounded here. The windows and the sequence number of an HM2 reply have the source's width.
- Weak memory: every read and write of a lock field is one step of one order.
- A hand-off of ownership is one step: the source's caller has to keep the old owner quiet across it.
- CcmsLock.CcmsCst.Lock: what the other threads do during a sleep is given by the caller as the states found after each sleep, because the object runs one thread; the step system has the threads themselves.
- CcmsLock.CcmsCst.Upgrade: the same.
- CcmsLock.CcmsCst.Ssleep: the same; the fields found after the sleep are an argument.
- CcmsLock.CcmsCst.SetOwn: on the object with its threads the hand-off needs a quiet owner and a free receiver, as the invariant does; `SetOwnCode` has the function itself for any caller.
- CcmsLock.CcmsCst.TempRelease: restoring a state of INVALID, which releasing an unlocked lock returns, takes the bad-state arm; callers that hold nothing are kept out of the step system.
- Deadlines, cancellation and refusal of an HM2 request are one event each in `Hm2Reply` and absent from `Hm2Flow`, where neither end gives up.
- A request is served at most once: `Hm2Reply` has the command direction deliver it so.
- The payload of a feed is a name: its size checks, errors and copies are not modelled, save that running out of memory for it ends the link.
- Abort after DELETE with id reuse (`dmsg.h:160-168`) is outside `DmsgTrans`, as are one-off messages and lost links.
- In `DmsgTrans` a frame is sent and its state updated in one step, which is what the INTERLOCK flag arranges; the transmit queue before it is not modelled.
- DmsgIocom.Iocom.SimulateFailure: one thread works at a time, and an owner's callback either ends its own direction or does nothing; it opens no new transaction.
- DmsgIocom.Iocom.MarkDying: that all states below are marked holds for the newly marked ones only, because a transaction the peer opens under a dying state is not marked (`kern_dmsg.c:963-988`).
- DmsgIocom.Iocom.MsgRx: the wait for a message of the state's that is being sent is a precondition.
- Hm2Reply.DeliverIff: a feed for which not even the frame can be allocated is counted as received, like one without memory for its data; the count of a call that is broken off is not read again.
- CcmsCrowd.UpgraderGetsIn: whether a thread ever gets the spin while others take it over and over is a matter of the spinlock, which is not modelled; the spin is free at the end of the run.
- CRC, alignment, kTLS, sockets, the LNK, BLK, VOP and AUTH commands, byte order.
- Comment stripping, the licence header, the prototype and return rewrites, `difflib` and printing of `hammer2-core-diff.py`.
- CoreDiff.Normalise: the prototype and return rewrites of a statement, after its space is collapsed, are two function parameters.
- CoreDepth.TameDepth: one way only. The two depths can also be equal on a text where the two readings of a literal differ, because what they differ on happens to balance; where they differ is exact (`SameEndIff`).
- Space and words outside ASCII in both scripts.
- The regular expressions of `hammer2-spin-audit.py`: a line is given by what they find. The sleeping calls are a set; the source sorts them.
- A sleeping call on the acquire line itself or on the release line is outside the region, as in the source.
- `h2-voldata.py` and `hammer2-provenance.py`, the chain, flush, freemap and cluster code: not modelled.
