# Tributaries: a verified model of the settle stage, the router and the demux

`tributaries` is the umbrella crate that turns raw change records from watched trees into
per-subscription event streams. This project models its three sans-I/O engines in Dafny and proves
what they promise, over all inputs, all runs and all interleavings.

- **The settle/debounce coalescer** (`tributaries/src/coalesce/mod.rs`). `Coalescer.dfy` is the stage
  as it runs: a class whose methods update a buffer keyed by (subscription, path), a deadline index,
  per-subscription counters, a ready queue and an admission counter in place. Its invariant `Valid`
  says two things: the index and the counters are exact and every cap holds
  (`CoalescerTables.Consistent`), and every subscription's share of the tables is the state that a
  much simpler machine has reached on the same history (`CoalescerTables.Shows`). That machine,
  `Settle.dfy`, is one list of pending slots and one queue per subscription, with no index, no
  counters and no sequence numbers. The theorems about all runs are proved of it and so hold of the
  class, whose invariant establishes their premises; the runs that fail are shown to be runs of the class
  by performing them on it (`ClassRuns.dfy`): meaning (`SettleMeaning.dfy`, and for every timing
  of a stream `SettleSchedules.dfy`), epoch order (`SettleEpochs.dfy`, `SettleOrder.dfy`, and under the
  owner's drain discipline `SettlePrompt.dfy`), caps (`SettleCaps.dfy`), the ledger of admissions
  (`SettleLedger.dfy`), what each burst amounts to and when it is due (`SettleBursts.dfy`). `SalvageCounts.dfy`
  counts the keys that come back from a removal.
  `Driver.dfy` is the owner's push-drain-sleep loop around the class.
- **Attribution and fan-out** (`tributaries/src/route/mod.rs`, with the mints and rebasing of
  `tributaries/src/event/mod.rs` and the coherence rule of `tributaries/src/source/mod.rs`).
  `Route.dfy` holds the loop, the projections and the geometry; `RouteMeaning.dfy` proves that
  projecting commutes with restricting the tree, and joins the router to the settle stage.
- **The demux routing task** (`tributaries/src/demux/mod.rs`). `Demux.dfy` is a transition system: the
  task is a program counter that parks on awaited sends; producers, consumers, lane calls, drops and
  lost notices are steps that may fall anywhere in between. `DemuxSafety.dfy` proves the protocol's
  invariants over every sequence of steps, `DemuxReleases.dfy` what releases do to the table, and
  `DemuxProgress.dfy` what the parties can count on. `DemuxLoop.dfy` is the loop as it runs, a class with the
  select, the delivery and the barrier of the source and no program counter, and proves that whatever
  the others do at its awaits and between the select's two polls, it performs a run of that system. `DemuxOrder.dfy` proves what a lane
  receives once the call that registered it has returned.

The premises are the ones the source documents: the clock never goes back
(`tributaries/src/coalesce/mod.rs:345-346`), a subscription's stamps climb on the way in
(`tributaries/src/coalesce/mod.rs:48-50`), a policy changes only while its subscription holds nothing (the
source asks for more: before its first event, `tributaries/src/coalesce/mod.rs:23-25`), a raw change's key and
location agree (`tributaries/src/source/mod.rs:1522-1541`), and the demux is the sole drainer of its stream.

## Where the code and its documentation differ

1. **Epochs do go backwards across drains.** `tributaries/src/coalesce/mod.rs:70-85` promises that a consumer
   never sees a subscription's epochs go backwards. Each single drain climbs (`EachDrainRises`), and nothing
   after a move or rescan is older than it (`SignalsDominateWholeRun`), but two drains together need
   not climb: a path forced out by its hold cap overtakes an older change that is still settling.
   `PolicyAlwaysRisesExactly` gives the exact condition on a policy: every run the class can do under it
   climbs if and only if its quiet window or its maximum hold is zero, or there is room for at most one
   buffered entry, by its own cap or by the structural one. The owner task drains after every record
   (`tributaries/src/driver/mod.rs:7776-7802`); under that discipline, `PromptPolicyRisesExactly`, the windows
   need only be at most one tick of the clock. `OvertakeInTheClass` and `OvertakePromptly` drive the class
   through the runs that fail for every other policy. `UncappedRunRises` gives a condition on a run: no
   settle deadline is cut short by the hold cap.
2. **Create-then-remove is not always a transient.** The collapse table annihilates the pair. If the
   consumer already knew the key, the removal is lost (`DishonestCreateLosesARemoval`).
   `MeaningPreservedExactly` says of a run when coalescing preserves meaning, both ways: exactly when no
   removal cancels a buffered creation at a key the consumer has been told about. `ScheduleSafetyExactly` says
   it of a stream, for all policies and timings at once: exactly when no creation at a known key is followed,
   with no signal in between, by the removal of that key. With a drain after every record, `PromptSafetyExactly`,
   a zero window is safe for every stream, and under any two positive windows the condition is the same.
   `LoseInTheClass` drives the class through a run that loses the removal.
3. **The router produces that case by itself.** A rename from outside a subscription over an existing
   name inside it is delivered as a creation; a removal of that name within the window then leaves the
   consumer stale (`OverwritingMoveInIsLost`). `SubtreeOnEverySchedule` is the exact condition end to end, from
   the history of the tree to what a debounced consumer knows, for every timing, and `DebouncedSubtreeExactly`
   the exact condition on one run. It is enough that every announced creation lands on an empty name
   (`DebouncedConsumerKnowsItsSubtree`); renames over a name inside the subscription, and anything outside
   it, always qualify (`OverwritingInsideIsFree`).
4. **One event can miss a lane, and a lane behind a stop receives nothing.** `tributaries/src/demux/mod.rs:376-382`
   promises that events emitted after `lane` returns reach the lane. The select polls control and then the
   stream, and a call can return, and an event arrive, between the two polls: that event goes past the lane
   (`OneEventCanMiss`, from every state in which a select waits on an empty queue and an empty stream). It is
   at most that one: when no stop was requested before, every later event reaches the lane, and all of them do
   if the stream was not empty, or the task was delivering, when the call returned (`LaneReceivesWhatFollows`).
   When a stop was requested before, it is taken first and the lane never receives anything
   (`LaneBehindAStopReceivesNothing`), although events emitted after the call returned may still be routed, to
   rest, by the barrier.

## Model

| member | source | states |
|---|---|---|
| `SettleMeaning.MeaningPreservedExactly` | tributaries/src/coalesce/mod.rs:358-413 | over every run without loss, whatever a consumer starts from and however it re-reads, the stage says at every moment what the raw stream says if and only if no removal cancels a buffered creation at a key already told |
| `SettleMeaning.CoalescingPreservesMeaning` | tributaries/src/coalesce/mod.rs:342-346 | if creations are announced only where nothing was, replaying emitted, owed and pending events gives the map that replaying the admissions gives, at every moment; after a final flush the emitted events alone do |
| `SettleMeaning.OutputIsWellFormed` | tributaries/src/coalesce/mod.rs:27-51 | a well-formed lifecycle history comes out as a well-formed lifecycle history with the same meaning, over every run without loss |
| `SettleMeaning.DishonestCreateLosesARemoval` | tributaries/src/coalesce/mod.rs:618-626 | every creation at a known key followed by its removal leaves the consumer believing in a key that is gone |
| `SettleMeaning.ObserveFaithful` | tributaries/src/coalesce/mod.rs:584-626 | one settling change keeps the stage faithful exactly when it is not such a cancellation: all nine rows of the collapse table |
| `SettleMeaning.ObserveSlot` | tributaries/src/coalesce/mod.rs:688-696 | a collapse leaves other keys alone and leaves its own key with the newest change's effect and the net lifecycle kind |
| `SettleMeaning.SiftReplay` | tributaries/src/coalesce/mod.rs:441-485 | emitting the due part early does not change what the whole list says |
| `SettleSchedules.ScheduleSafetyExactly` | tributaries/src/coalesce/mod.rs:36-46 | a stream keeps its meaning on every run the class can do with it, under every policy and timing, if and only if no creation at a name the consumer has is followed, with no signal in between, by that name's removal |
| `SettleSchedules.PromptSafetyExactly` | tributaries/src/driver/mod.rs:7776-7802 | with a drain after every record, a stream keeps its meaning under two windows, whatever the cap and timing, if and only if one of them is zero or the stream is not risky |
| `SettleSchedules.SafeRun` | tributaries/src/coalesce/mod.rs:531-637 | on every run of such a stream the stage is faithful at every step, and every buffered creation at a known name shows in the stream |
| `SettleSchedules.RiskyScheduleFails` | tributaries/src/coalesce/mod.rs:618-626 | for every risky stream, and every policy with room for its keys, a run of admissions and drains loses the removal, within the cap; a promptly drained one does if both windows are positive |
| `SettleEpochs.SignalsDominateWholeRun` | tributaries/src/coalesce/mod.rs:54-66 | whatever the run, sheds and drops included, nothing emitted after a move, a rescan or an unknown kind carries an older epoch, in any later drain |
| `SettleEpochs.EachDrainRises` | tributaries/src/coalesce/mod.rs:441-485 | after any run, what one drain or one flush emits for a subscription climbs in epoch |
| `SettleOrder.UncappedRunRises` | tributaries/src/coalesce/mod.rs:70-85 | on a run where no settle deadline is cut short by the hold cap, everything a subscription is ever sent climbs, across all drains |
| `SettleOrder.PolicyAlwaysRisesExactly` | tributaries/src/coalesce/mod.rs:701-710 | every run the class can do under a policy climbs if and only if its quiet window or its maximum hold is zero, or its own cap or the structural one is at most one entry |
| `SettleOrder.CappedTraceEmits` | tributaries/src/coalesce/mod.rs:701-710 | for every policy with both windows positive, a five-step trace emits epoch 3 before epoch 2 |
| `SettlePrompt.PromptPolicyRisesExactly` | tributaries/src/driver/mod.rs:7776-7802 | with a drain after every record, every run the class can do under a policy climbs if and only if its quiet window or its maximum hold is at most one tick, or its own cap or the structural one is at most one entry |
| `SettlePrompt.PromptTraceEmits` | tributaries/src/coalesce/mod.rs:701-710 | for every policy with both windows above one tick, a promptly drained run emits epoch 3 before epoch 2 |
| `SettleBursts.HeldExactlyUntilDue` | tributaries/src/coalesce/mod.rs:701-710 | on every run each pending slot is due at the earlier of a quiet window after the newest admission of its group and a maximum hold after the first, in plain arithmetic; a drain leaves it pending exactly if both are still to come, and emits it otherwise |
| `SettleBursts.BoundedHold` | tributaries/src/coalesce/mod.rs:67-69 | after any run under one policy every pending deadline lies between the start of its burst and the start plus the maximum hold, and is the earlier of that cap and the quiet window after the newest change of its group; after a drain it lies in the future |
| `CoalescerTables.EntriesAreBursts` | tributaries/src/coalesce/mod.rs:531-637 | in every valid state each buffered entry is a burst of its own admissions: it carries what they amount to, its hold is measured from the first, and it is due at that earlier of the two instants |
| `SettleOrder.CollapseKeepsStart` | tributaries/src/coalesce/mod.rs:579-605 | a surviving collapse keeps the instant its burst began and takes the newest epoch |
| `SettleLedger.EveryAdmissionOnce` | tributaries/src/coalesce/mod.rs:342-357 | over every run, each admission is in exactly one group of exactly one class: pending, owed, emitted, cancelled, shed or dropped; nothing else is in any |
| `SettleLedger.EverythingIsExplained` | tributaries/src/coalesce/mod.rs:531-637 | whatever is pending, owed or emitted is the collapse-table fold of its own group of admissions at one key, oldest first; a dropped group is such a burst that still stood for an event; the only groups that vanish are creations met by a removal; a hold is measured from the group's first admission |
| `SettleBursts.EmittedStaysAttributable` | tributaries/src/coalesce/mod.rs:584-617 | on every run each emitted event, field by field: a creation is its group's first admission and a removal its newest, but for a creation's stamp; a modification is the first admission after the group's last removal, or the first of all, under the newest stamp, unless that is a creation after a removal, which becomes a modification with no change id and no class; anything else is its one admission |
| `SettleBursts.EveryBurstStandsExactly` | tributaries/src/coalesce/mod.rs:688-696 | the same of whatever is pending or owed; and each cancelled group is a creation, then anything but a removal, then a removal |
| `SettleLedger.SignalsStayWhole` | tributaries/src/coalesce/mod.rs:359-374 | a move or rescan is never folded, cancelled or held back: it is owed or emitted whole, alone and exactly once, unless its subscription is dropped |
| `Settle.RunSound` | tributaries/src/coalesce/mod.rs:203-207 | on every run there is one pending slot per key, of a lifecycle kind and of its own subscription |
| `CoalescerTables.TablesExact` | tributaries/src/coalesce/mod.rs:196-219 | in every valid state the index is exactly the set of (deadline, key) pairs of the buffer, each counter is the true count and absent exactly at zero, and the structural and per-subscription caps hold |
| `CoalescerTables.TablesMeanTheStream` | tributaries/src/coalesce/mod.rs:342-346 | in every valid state reached without loss by an honest stream, what the tables hold, after what was emitted, tells a consumer exactly what the admitted stream tells it |
| `CoalescerTables.TablesKeepEpochs` | tributaries/src/coalesce/mod.rs:48-66 | in every valid state whose stamps climbed on the way in, nothing emitted after a signal is older than it, and what the next drain takes from the tables climbs |
| `CoalescerTables.TablesRise` | tributaries/src/coalesce/mod.rs:70-85 | in every valid state reached under one such policy, everything a subscription was ever sent climbs |
| `SettleCaps.CapBounds` | tributaries/src/coalesce/mod.rs:546-578 | at every moment of every run that opens entries only below its caps, a subscription holds no more than either |
| `CoalescerTables.UnsettledHoldsNothing` | tributaries/src/coalesce/mod.rs:23-25 | in every valid state a subscription without a settling policy holds nothing, so a passed-through event never overtakes a pending one |
| `CoalescerTables.ScanExact` | tributaries/src/coalesce/mod.rs:814-821 | the part of an ordered walk that starts at the subscription's least key and stops at another subscription is exactly that subscription's entries |
| `CoalescerTables.DuePrefix` | tributaries/src/coalesce/mod.rs:460-476 | the prefix of the index that is due names exactly the buffered entries whose deadline has passed |
| `CoalescerTables.DrainOk` | tributaries/src/coalesce/mod.rs:441-485 | taking the due entries out of the tables is the simple machine's drain, for every subscription at once |
| `CoalescerTables.FreshOk` | tributaries/src/coalesce/mod.rs:546-578 | opening an entry below both caps keeps the tables exact and is the simple machine's observation |
| `CoalescerTables.FoldOk` | tributaries/src/coalesce/mod.rs:579-637 | re-filing a collapsed entry under its new deadline and sequence keeps the tables exact and is the simple machine's fold |
| `CoalescerTables.CancelOk` | tributaries/src/coalesce/mod.rs:618-626 | removing an annihilated entry keeps the tables exact, leaving a gap in the sequence |
| `CoalescerTables.SignalOk` | tributaries/src/coalesce/mod.rs:359-374 | flushing the whole subscription and queueing the signal is the simple machine's signal, and other subscriptions do not notice |
| `CoalescerTables.DropOk` | tributaries/src/coalesce/mod.rs:762-806 | dropping a subscription is the simple machine's drop and leaves every other entry in place |
| `CoalescerTables.FlushAllOk` | tributaries/src/coalesce/mod.rs:501-526 | emptying the tables in (subscription, sequence) order is the simple machine's flush |
| `BufferView.SortedTakeIsPending` | tributaries/src/coalesce/mod.rs:513-521 | taking a buffer's entries in (subscription, sequence) order gives each subscription its own line in admission order |
| `BufferView.PendingRemove` | tributaries/src/coalesce/mod.rs:618-626 | removing one entry removes its key from its own subscription's line and from no other |
| `BufferView.KeepOthersReady` | tributaries/src/coalesce/mod.rs:796-805 | filtering the ready queue empties one subscription's share and leaves every other share, in order |
| `BufferView.SortPicks` | tributaries/src/coalesce/mod.rs:477-478 | sorting collected entries gives a sorted list of the same entries |
| `Ordering.FirstDue` | tributaries/src/coalesce/mod.rs:426-426 | the index's first element is the earliest deadline |
| `Ordering.RangeStart` | tributaries/src/coalesce/mod.rs:812-817 | the least key of a subscription bounds exactly the keys of that and later subscriptions |
| `Coalescing.Coalescer.constructor` | tributaries/src/coalesce/mod.rs:246-256 | a new coalescer is valid and empty |
| `Coalescing.Coalescer.SetPolicy` | tributaries/src/coalesce/mod.rs:263-275 | registers one subscription's posture, resolved against the default, and no other's; allowed whenever the subscription holds nothing, which includes the documented time before its first event |
| `Coalescing.Coalescer.DecPerSub` | tributaries/src/coalesce/mod.rs:659-677 | decrements a counter that is always there, and never stores a zero |
| `Coalescing.Coalescer.Admit` | tributaries/src/coalesce/mod.rs:358-413 | keeps the stage valid, takes the one step of the simple machine its kind and policy call for, and signals overflow exactly for a settling change at a fresh key when a cap is full (the default policy's, or 1024, or its own), leaving all but the admission counter unchanged; what joins the ready queue joins behind the rest, due now |
| `Coalescing.Coalescer.Coalesce` | tributaries/src/coalesce/mod.rs:531-637 | the settling branch: opens, folds, cancels or sheds, with the same exact overflow condition |
| `Coalescing.Coalescer.Fold` | tributaries/src/coalesce/mod.rs:579-637 | folds into the entry the key already has, keeping index and counters exact; a surviving entry keeps its start, takes the newest stamp and number, and is due at the earlier of the quiet window from now and the hold from its start |
| `Coalescing.Coalescer.NextDeadline` | tributaries/src/coalesce/mod.rs:424-433 | one index probe and one queue probe give the minimum over all pending deadlines, absent exactly when nothing is pending |
| `Coalescing.Coalescer.PopReady` | tributaries/src/coalesce/mod.rs:445-452 | the whole ready queue is due and leaves in order |
| `Coalescing.Coalescer.CollectDue` | tributaries/src/coalesce/mod.rs:463-477 | the due prefix of the index, sorted, is exactly the set of entries whose deadline has passed |
| `Coalescing.Coalescer.EmitEntries` | tributaries/src/coalesce/mod.rs:478-483 | takes the listed entries out of buffer, index and counters and emits them in order |
| `Coalescing.Coalescer.DrainReady` | tributaries/src/coalesce/mod.rs:441-485 | emits the ready queue, then exactly the due entries, each subscription's run contiguous and in admission order; what stays is exactly what is not yet due |
| `Coalescing.Coalescer.CollectAll` | tributaries/src/coalesce/mod.rs:501-521 | every entry once, sorted, and two copies of every buffered key |
| `Coalescing.Coalescer.FlushEverything` | tributaries/src/coalesce/mod.rs:501-526 | emits everything pending, leaves the stage empty, and hands back each path exactly twice for every entry buffered under it |
| `Coalescing.Coalescer.FlushEntries` | tributaries/src/coalesce/mod.rs:718-735 | moves exactly one subscription's entries to the ready queue in admission order; the recorded count was exact |
| `Coalescing.Coalescer.MoveToReady` | tributaries/src/coalesce/mod.rs:722-726 | takes the listed entries out of buffer and index, in order, into the ready queue |
| `Coalescing.Coalescer.FlushSubscription` | tributaries/src/coalesce/mod.rs:718-735 | the public flush keeps the stage valid and is the simple machine's flush of one subscription; what it moves joins the ready queue behind the rest, due now |
| `Coalescing.Coalescer.SubscriptionEntries` | tributaries/src/coalesce/mod.rs:814-821 | the range scan returns exactly that subscription's entries, each once |
| `Coalescing.Coalescer.DiscardEntries` | tributaries/src/coalesce/mod.rs:764-788 | takes the listed entries out and hands back each event with three copies of its key |
| `Coalescing.Coalescer.DiscardReady` | tributaries/src/coalesce/mod.rs:796-805 | takes one subscription's tickets out of the ready queue, leaving the others in order |
| `Coalescing.Coalescer.DropSubscription` | tributaries/src/coalesce/mod.rs:762-806 | removes everything of one subscription, touches nothing of any other, and hands back every event and each of its buffered paths exactly three times, and no other path |
| `Coalescing.Coalescer.ForgetSubscription` | tributaries/src/coalesce/mod.rs:284-289 | the same, and the policy goes too |
| `ClassRuns.Perform` | tributaries/src/coalesce/mod.rs:358-526 | under any default and policy, a fresh coalescer goes through any history of one subscription that obeys the clock, the dispatch and both caps, operation by operation, and hands out exactly what the history emits |
| `ClassRuns.OvertakeInTheClass` | tributaries/src/coalesce/mod.rs:701-710 | for every policy with two positive windows and room for two entries, the class itself sends epoch 3 before epoch 2 |
| `ClassRuns.OvertakePromptly` | tributaries/src/driver/mod.rs:7776-7802 | the same with a drain after every record, for windows above one tick |
| `ClassRuns.LoseInTheClass` | tributaries/src/coalesce/mod.rs:618-626 | on every stream that becomes risky at its last event, under every policy with room for its keys, the class itself ends up telling something else than the stream |
| `Driver.AdmitAll` | tributaries/src/driver/mod.rs:7779-7789 | appends exactly one admission per delivery, in order and at this instant, and returns, in order, exactly the subscriptions whose admission was shed; makes nothing overdue, and leaves only the subscriptions it mentions waiting for a drain |
| `Driver.PushAll` | tributaries/src/driver/mod.rs:7776-7802 | appends the admissions, one drain, and one drop per shed admission, in that order and nothing else; whatever shed is dropped after it shed and then holds nothing in buffer, queue or counters, and nothing else is dropped; nothing due at this instant is left, and each subscription told at most one thing is promptly drained |
| `Driver.PushedDropsWhatShed` | tributaries/src/driver/mod.rs:7795-7797 | in one record's stretch of the log every shed admission is followed by its subscription's drop, and every drop follows such an admission |
| `Driver.Drive` | tributaries/src/driver/mod.rs:3153-3166 | sleeping to the next deadline or the next record, with any bounded overrun, ends with every record read and everything held handed out; each record is read at the instant it is there or as soon after as the driver is free, and the driver sleeps past none; no drain comes later after a pending deadline than the overrun allows; and every subscription is promptly drained |
| `Driver.NeverHeldPastItsCap` | tributaries/src/coalesce/mod.rs:67-69 | whatever is still held when the driver drains is past its hold cap by at most the driver's overrun, unless it was overdue when the driver began |
| `Route.FanOut` | tributaries/src/route/mod.rs:331-387 | for a list without repeats, a listed subscriber whose key resolves and whom the change affects is sent exactly its one projected, rebased delivery if the change is a rescan or its gate admits that delivery, and otherwise nothing; an unlisted, unresolvable or unaffected one is sent nothing; deliveries follow the list; with repeats, one share per listing |
| `Route.EachSubscriberItsShare` | tributaries/src/route/mod.rs:331-387 | the same of one subscriber: sent its delivery exactly when listed, resolvable and affected, and the change is a rescan or its gate admits it |
| `Route.GateSeesOnlyDeliveries` | tributaries/src/route/mod.rs:379-384 | the gate is consulted only about projected, rebased, non-rescan deliveries, a rescan does not depend on it, and against a fan-out that admits everything exactly the deliveries it rejects are missing |
| `Route.RescanGeometry` | tributaries/src/route/mod.rs:432-453 | a delivered rescan reaches a key exactly when the loss and the subscription both cover it, and nothing is delivered exactly when no key is in both |
| `Route.EndpointsNamedExactly` | tributaries/src/route/mod.rs:396-421 | a delivery names exactly the endpoints the subscription covers and the source has not reserved, one at a time; there is none exactly when there is no such endpoint |
| `Route.NothingLeaks` | tributaries/src/route/mod.rs:46-57 | no delivery of any kind bears on a key outside the subscription |
| `Route.CoordinateIsTheSubscriptions` | tributaries/src/route/mod.rs:366-378 | for a coherent change, subscription key plus delivered location is the delivered key; above the captured root, and for an unstated move source, the location is empty |
| `Route.WideningIsInvisible` | tributaries/src/route/mod.rs:70-86 | two captures of one change under different roots at or above the subscription deliver the same event |
| `Route.UnlocatedStaysEmpty` | tributaries/src/source/mod.rs:1540-1541 | a change with no location is never given one |
| `Route.RekeyedReadsAtRoot` | tributaries/src/source/mod.rs:1644-1663 | a change re-keyed onto a root keeps its stamp, id and class and reads, below that root, at the coordinate its new key names |
| `Route.DeliveryCarries` | tributaries/src/event/mod.rs:239-349 | every field of every delivery but its location: the change's own stamp and no value; the change itself to whoever sees all of it, a removal or a creation to whoever sees one end of a move; the id unless a move was split, the class unless a rescan was clamped |
| `Route.LocationIsTheEnd` | tributaries/src/event/mod.rs:351-393 | for every change, coherent or not, the delivered location is the stated one short of one segment per level the subscription lies below the captured root, or empty; it is empty above that root |
| `RouteMeaning.FanOutCommutes` | tributaries/src/route/mod.rs:88-120 | for every tree, change, subscription and reservation, in all four coverage cases of a move, telling the subscriber its delivery is restricting the changed tree to what it may see |
| `RouteMeaning.StreamTracksSubtree` | tributaries/src/route/mod.rs:18-25 | replaying a subscriber's stream over its part of the tree gives its part of the tree after the whole history |
| `RouteMeaning.FannedOutIsTheStream` | tributaries/src/route/mod.rs:331-387 | over a whole history, with the subscriber list free to change, what the fan-out sends a listed subscriber is its stream less exactly what its gate rejects |
| `RouteMeaning.FannedOutTellsTheSubtree` | tributaries/src/route/mod.rs:18-25 | with an admitting gate what the fan-out of a whole history sends a subscriber is its stream, and replaying it gives its part of the tree |
| `RouteMeaning.DebouncedSubtreeExactly` | tributaries/src/route/mod.rs:18-25 | router and settle stage together, for every lossless run of a history's stream: the stage is faithful throughout if and only if no removal cancels a creation at a name already told, and then a consumer knows exactly its part of the tree once the stage is flushed |
| `RouteMeaning.SubtreeOnEverySchedule` | tributaries/src/coalesce/mod.rs:342-346 | for every history, subscription and reservation, every timing of the stream is faithful if and only if the stream is not risky for the visible tree, and then every debounced consumer ends up with exactly its part of the tree |
| `RouteMeaning.StreamIsHonest` | tributaries/src/event/mod.rs:295-315 | if announced creations land on empty names, the stream only announces creations that are news |
| `RouteMeaning.DebouncedConsumerKnowsItsSubtree` | tributaries/src/event/mod.rs:295-315 | the condition on the history alone: if announced creations land on empty names, a debounced consumer knows exactly its part of the tree |
| `RouteMeaning.OverwritingInsideIsFree` | tributaries/src/route/mod.rs:88-107 | a rename over an existing name inside the subscription, and anything outside it, never announces a creation |
| `RouteMeaning.OverwritingMoveInIsLost` | tributaries/src/event/mod.rs:295-315 | a rename over an existing name, then that name's removal, within one window, leaves the consumer believing in a file that is gone |
| `DemuxSafety.EveryRun` | tributaries/src/demux/mod.rs:438-550 | every reachable state keeps the protocol's invariants together: flow, wiring of lanes, messages and table, what each channel was sent, one lane at a time, the table's bound, and when events are discarded |
| `DemuxSafety.Conservation` | tributaries/src/demux/mod.rs:575-599 | on every run what was produced is, in order, what was placed, what is in flight and what is queued; each lane and rest was sent exactly its placements, in order and within capacity; nothing is discarded unless the rest receiver is gone |
| `DemuxSafety.NoSplitDelivery` | tributaries/src/demux/mod.rs:128-130 | a lane takes only its own subscription's events, and between any two of them every event of that subscription went to that lane |
| `DemuxSafety.TableIsBounded` | tributaries/src/demux/mod.rs:118-127 | even if every drop notice is lost, the table never exceeds the most lanes live at once at any moment of the run; the gauge is exact and zero after exit |
| `DemuxSafety.LiveLaneKeepsItsClaim` | tributaries/src/demux/mod.rs:525-531 | no step takes a live lane out of the table except a new registration for its subscription or the task's exit, so a stale release never evicts a successor |
| `DemuxSafety.RegistrationDisplaces` | tributaries/src/demux/mod.rs:472-494 | a registration displaces its predecessor whether or not its own lane is still there, is installed exactly when it is, leaves no dead lane in the table, and keeps every other live one; the gauge is the new size |
| `DemuxReleases.ReleaseReleases` | tributaries/src/demux/mod.rs:525-531 | on every run, once the task has taken a release no entry names the released generation, every other entry is unchanged, and the gauge is the size of what is left |
| `DemuxReleases.TableHoldsOnlyLiveLanes` | tributaries/src/demux/mod.rs:233-248 | on every run on which no notice has been lost so far, whenever the control queue is empty every entry names a lane whose receiver is still there |
| `DemuxSafety.ShutdownBarrier` | tributaries/src/demux/mod.rs:495-524 | whatever is produced while the barrier stalls, the task routes exactly what had been produced when the stop was processed, in order, and leaves everything later on the stream, in order |
| `DemuxSafety.BarrierAlwaysDelivers` | tributaries/src/demux/mod.rs:516-522 | a barrier step that is owed a delivery always starts one and owes one fewer, so the early way out is never taken |
| `DemuxSafety.EndOfStreamRoutesEverything` | tributaries/src/demux/mod.rs:539-546 | a task that ends without a stop has placed everything ever produced |
| `DemuxProgress.StopIsReached` | tributaries/src/demux/mod.rs:340-367 | from every reachable state in which the task selects and no stop waits, a stop that finds room is reached after exactly the messages ahead of it and then owes exactly what the stream holds |
| `DemuxProgress.ControlQueueIsBounded` | tributaries/src/demux/mod.rs:31-31 | the control queue never holds more than sixteen messages |
| `DemuxProgress.RequestWaitsItsTurn` | tributaries/src/demux/mod.rs:369-378 | a registration or a stop that finds room on the open queue of a task still there waits behind everything requested before; without room the call changes nothing |
| `DemuxProgress.DeliveryWaitsOnlyForRoom` | tributaries/src/demux/mod.rs:575-599 | on every run an event in hand waits exactly while its channel is there and full; otherwise it is sent there, moved on to rest with its lane's claim gone, or discarded because there is no rest receiver |
| `DemuxProgress.LaneCatchesUp` | tributaries/src/demux/mod.rs:419-429 | a lane's receiver that goes on receiving takes, in order, everything the lane was ever sent, whether or not the task is still there |
| `DemuxProgress.RestCatchesUp` | tributaries/src/demux/mod.rs:419-429 | the same of rest |
| `DemuxProgress.DroppedLaneIsSentNothing` | tributaries/src/demux/mod.rs:233-248 | a lane that was dropped, or whose call was given up, is sent nothing from then on, whatever happens |
| `DemuxProgress.DroppedRestIsSentNothing` | tributaries/src/demux/mod.rs:455-456 | once the rest receiver is dropped rest is sent nothing, whatever happens |
| `DemuxProgress.EndOfStreamEndsTheTask` | tributaries/src/demux/mod.rs:539-546 | a selecting task leaves once the stream has ended and is empty; every lane keeps what it was sent |
| `DemuxProgress.ClosedHandleIsNoStop` | tributaries/src/demux/mod.rs:457-460 | dropping the handle only makes the task stop selecting on control |
| `DemuxLoop.Router.Retain` | tributaries/src/demux/mod.rs:480-480 | the in-place sweep leaves exactly the entries whose receiver is still there |
| `DemuxLoop.Router.HandleControl` | tributaries/src/demux/mod.rs:472-536 | after a release no entry names its generation and every other is unchanged; after a registration its lane holds the claim exactly if it is still there, and another claim stays exactly if its lane is; the gauge is the table's size, and queue and table stand where the run so far leaves the transition system |
| `DemuxLoop.Router.SendLane` | tributaries/src/demux/mod.rs:582-585 | the awaited lane send, whatever the others do meanwhile, ends in a placement, in a failure on a dropped receiver, or parked |
| `DemuxLoop.Router.SendRest` | tributaries/src/demux/mod.rs:593-598 | an unclaimed event is placed in rest, discarded once the rest receiver is gone, or parked |
| `DemuxLoop.Router.Deliver` | tributaries/src/demux/mod.rs:575-599 | one delivery, across all its awaits, is a stretch of a run that begins at the pull and ends with the event placed |
| `DemuxLoop.Router.DrainOwed` | tributaries/src/demux/mod.rs:495-524 | the barrier loop, with the others acting at every await and before every poll, is a stretch of a run that ends with the task gone |
| `DemuxLoop.Router.Run` | tributaries/src/demux/mod.rs:438-550 | for every script of what the others do, at awaits and between the select's two polls, the loop performs a run of the transition system in which the others did exactly the part of the script consumed and every pull followed a poll that found control empty; it leaves, or the script ran out |
| `DemuxLoop.Router.PollStream` | tributaries/src/demux/mod.rs:468-538 | between the control poll and the stream poll the others may act, and the stream poll still follows one that found control empty |
| `DemuxOrder.LaneReceivesWhatFollows` | tributaries/src/demux/mod.rs:376-382 | on every run of the loop, a lane whose call returned with no stop ahead, still there and not re-registered, was placed every event of its subscription produced since and placed, but for at most the first, and that one only if the stream was empty and the task idle when the call returned |
| `DemuxOrder.OneEventCanMiss` | tributaries/src/demux/mod.rs:468-538 | from every state in which a select waits on an empty queue and an empty stream there is such a run on which the first event goes past the lane |
| `DemuxOrder.LaneBehindAStopReceivesNothing` | tributaries/src/demux/mod.rs:495-524 | on every run, a lane whose call returned after a stop was requested never receives anything |

## Left out

- The owner driver beyond its push, drain and timer path, the subsumption engine, the `Monitor`, `FsSource` and every OS backend.
- Epoch stamping by the driver and parked rescans: stamps enter the settle stage already climbing; a shed subscription is dropped, but neither the rescan it is then owed nor the suppression of what the same record's drain handed out for it is modelled.
- Aborting the routing future, which is documented as a lossy hard stop.
- The demux channels as shared objects: lanes, queues and the stream are values of the world the loop reads and writes between awaits; their own implementation is not modelled.
- Event in-place update: `rebase_location`, `anchor_location_at_root`, `set_epoch` and `set_value` return a new event.
- Liveness beyond the driver loop: that a consumer ever drains a full lane is not assumed, so a stalled delivery may stay stalled; `DeliveryWaitsOnlyForRoom` and `LaneCatchesUp` say what it waits for.
- Clock saturation through `far_future`, `u64` and `usize` wrap-around: instants, epochs, counters and lengths are unbounded naturals.
- Generic key components, values, handles and change ids are naturals; a location segment is spelled like the key component it names.
- A move relocates the one key it names; the keys below a moved directory are not relocated with it.
- What a consumer does on a rescan or on an unknown kind is an arbitrary function of what it knows and the event; what a rescan recovers is not modelled.
- `Salvage` internals and destructor order: only which keys and events come back.
- `Filter`, `Interest`, `WatchView`, `Stamped`: the gate is an arbitrary predicate, and the tree-restriction theorems are stated before the gate.
- Options validation, serde and clap faces, glob compilation, error enums, `InstanceId`, the C probes.
- Cost claims (how many index entries a tick inspects).
