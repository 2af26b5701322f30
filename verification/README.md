# Unmanned weighbridge: model and proofs

The controller of an unmanned truck weighbridge takes positions, tags, plates and scale frames, decides when a truck may enter,
when its weight counts and when it may leave, drives lights, barriers and a buzzer over Modbus, and keeps every weighing in a
local database until the central system has it. A truck is weighed twice: full on the way in (A to B), empty on the way back
(B to A). This project models the parts that carry the safety and bookkeeping guarantees, and proves them.

How it is laid out:

- `Domain`, `Pairing`: shared values; plate keys and the rules that make two passes a pair.
- `Ledger`, `LedgerProofs`, `Coordination`, `Interleaving`: the database as tables with unique keys, its transactions, the
  coordinator's calls as sequences of transactions, and any number of calls interleaving. `Provenance`, `StoreHistory`: what a
  ticket gathers from its passes, and what the columns of the store say of the past. `Queue`, `Clock`: the order of the queue,
  and whether it is the order of the times. `Store` holds the store, the coordinator and the other callers of the store as
  objects, proved against those functions.
- `EngineSpec`, `EngineProofs`, `EngineTheorems`, `EngineReentry`, `EngineOverrides`, `EngineExamples`: the physical-pass state
  machine as a function of state and event, its invariant, what follows over every run, when a truck is let in again, what
  overrides may bridge, and a concrete run. `EngineLaws`, `EngineExits`, `EngineRules`: what an accepted position, a completed
  transaction and the engine's other judgements rest on, told from observations, faults and overrides alone. `Engine` is the
  engine as an object.
- `TwoPass`, `TwoPassProofs`, `TwoPassOutcomes`, `TwoPassRefusals`, `TwoPassExamples`: the two-way wrapper and the commit bridge
  around engine and store, and what a refused completion leaves. `Views`: binding, direction and snapshot told from the facts.
  `Bridge` and `Workflow` are the objects.
- `RemoteOutputs`, `Control`, `ControlProofs`: coils, write order, audit gate and output reconciler, under any pattern of failing
  writes (with or without effect) and failing audit appends. `Reports`: what a poll reports of each device. `SharedAddresses`,
  `InterlockMappings`: which address mappings are safe. `Hardware` holds the objects.
- `System`: everything together, with every other caller in between. `SiteReports`: what the reports do to it. `Mirror`: a return as
  the mirror image of a pass inwards.
- `Journal`: both hash-chained journals. `Recorder`, `RecorderProofs`, `FaultLog`, `Readers`, `ReaderProofs`: the audit recorder, when its
  log of faults is right, and what a reader of its other entries knows. `RecorderObject` is the recorder as an object.

Conventions. Times are integers, 0 is the zero time; weights are integers in kilograms. What a step draws from outside is a
parameter (the clock, fresh identifiers, the registry, the fate of a disk or of a Modbus write), so a theorem holds for every
possibility. Engine theorems are stated for states with the invariant `Inv`; `EngineProofs.EveryStateInv` shows that every
reachable state has it, and `TwoPassProofs.EveryWorldInv` and `Systems.SiteIsInterlocked` do the same for the larger systems. The
engine model carries two history fields the program does not have: `marks`, what was authorised and offered in this transaction, and
`frames`, the scale frames processed while weighing.

## Model

| member | source | states |
|---|---|---|
| `Pairing.NormalizeVehicleKey` | internal/adapters/sqlitestore/cycle_store.go:544-552 | the builder loop computes the key that maps over the string, for any upper-casing and letter test |
| `Pairing.NormalizeCycleIdentity` | internal/domain/cycle.go:195-206 | the rune loop keeps exactly ASCII letters and digits, upper-cased |
| `Pairing.KeysAgreeOnAscii` | internal/domain/cycle.go:195-206 | on ASCII plates the store's key and the pair rules' key are the same |
| `Pairing.PairAcceptance` | internal/domain/cycle.go:104-161 | the cascade accepts exactly sound pairs within the limits, with net = first weight - second weight |
| `Pairing.VerdictExactly` | internal/domain/cycle.go:104-161 | each status as an equivalence on the passes and the policy: COMPLETE, WRONG_TRUCK when in turn but not the same truck, PAIR_TIME_INVALID when in turn, the same truck and referenced but not timely, and PAIR_WEIGHT_INVALID otherwise |
| `Pairing.AcceptedPairIsIntrinsicallyValid` | internal/adapters/sqlitestore/cycle_store.go:256-259 | a pair valid under any policy is valid under the empty one with the same figures, so the store's re-check never rejects it |
| `Pairing.LatePairNeverValid` | internal/domain/cycle.go:141-143 | a return weighed after the window never pairs |
| `LedgerProofs.OpenKeepsExactly` | internal/adapters/sqlitestore/cycle_store.go:93-139 | opening any cycle keeps every table consistent with every other exactly when it is refused, and then changes nothing, or its plate and tag are those of its first pass and it has no second; what is stored stays either way |
| `LedgerProofs.CallKeeps` | internal/adapters/sqlitestore/cycle_store.go:141-171 | calling keeps consistency and never reopens a finished cycle |
| `LedgerProofs.MarkKeepsExactly` | internal/adapters/sqlitestore/cycle_store.go:341-363 | marking any status keeps consistency exactly unless COMPLETE itself is marked; a refusal changes nothing |
| `LedgerProofs.CompletionKeepsExactly` | internal/adapters/sqlitestore/cycle_store.go:249-339 | completing any cycle with any ticket is all or nothing, and keeps consistency exactly when it is refused or cycle and ticket are of this store; then the cycle was CALLED, is COMPLETE, and has its one ticket |
| `LedgerProofs.AckKeeps` | internal/adapters/sqlitestore/store.go:338-356 | acknowledging keeps `synced_at` set exactly on acknowledged tickets |
| `LedgerProofs.AttemptKeeps` | internal/adapters/sqlitestore/store.go:330-336 | recording an attempt keeps consistency |
| `LedgerProofs.PassCount` | internal/adapters/sqlitestore/cycle_store.go:249-339 | COMPLETE cycles have exactly two stored passes, all others one |
| `LedgerProofs.TicketsRestateCycles` | internal/adapters/sqlitestore/cycle_store.go:475-513 | every ticket restates its cycle: figures, pass ids and raw references, with net > 0 |
| `LedgerProofs.TicketBijection` | internal/adapters/sqlitestore/cycle_store.go:449-473 | every ticket is for a COMPLETE cycle, every COMPLETE cycle has a ticket, and none has two; so the counts agree |
| `LedgerProofs.ItemBijection` | internal/adapters/sqlitestore/store.go:338-356 | every outbox item delivers its ticket, every ticket is delivered by an item and by no two: same payload, and marked synced exactly when acknowledged; so the counts agree |
| `LedgerProofs.FoundIsCalled` | internal/adapters/sqlitestore/cycle_store.go:188-225 | a cycle found is stored, CALLED and the one match |
| `LedgerProofs.FoundIsTheTruck` | internal/adapters/sqlitestore/cycle_store.go:188-225 | when the two plate keys agree, a cycle found is the only match and is never answered with WRONG_TRUCK |
| `LedgerProofs.WrongTruckExactly` | internal/domain/cycle.go:126-131 | a found cycle is answered with WRONG_TRUCK exactly when the pair rules' key is empty or tells the plates apart |
| `Coordination.FirstPassRecordedExactly` | internal/cycle/coordinator.go:30-36 | a first pass opens a cycle exactly when it is on the way in, of a readable plate, with a raw record, a positive weight and a time, and its identifiers are given and free |
| `Coordination.FirstPassOpens` | internal/adapters/sqlitestore/cycle_store.go:93-139 | it then adds one pass with its weight, mode, overrides and camera records and one queued cycle with that pass alone, and nothing else |
| `StoreHistories.OpeningFillsIn` | internal/adapters/sqlitestore/cycle_store.go:93-125 | a cycle opened without a plate, tag, station or time takes its first pass's, or the time of opening |
| `StoreHistories.SearchExactly` | internal/adapters/sqlitestore/cycle_store.go:188-225 | a search finds a cycle exactly when one row alone is called, has the plate's key and no tag that tells it apart; none exactly when the plate has no key or no row does; ambiguous exactly when several do |
| `StoreHistories.RefusalsExactly` | internal/cycle/coordinator.go:40-44 | why a return is refused before a cycle is found: not on the way back, a failing store, no called row that answers, or several |
| `StoreHistories.CallExactly` | internal/adapters/sqlitestore/cycle_store.go:141-171 | a call succeeds exactly for a queued or called row, and makes a queued one called at that time and nothing else |
| `StoreHistories.MarkExactly` | internal/adapters/sqlitestore/cycle_store.go:341-363 | a mark succeeds exactly for a row that is not COMPLETE, and changes its status and nothing else |
| `StoreHistories.AckExactly` | internal/adapters/sqlitestore/store.go:338-356 | an acknowledgement marks item and ticket with one time, clears the error, and changes nothing else |
| `Stores.Store.OpenCycle` | internal/adapters/sqlitestore/cycle_store.go:93-139 | a queued cycle and its first pass appear together, or nothing changes: bad first pass, missing identifier, reused pass or cycle |
| `Stores.Store.CallCycle` | internal/adapters/sqlitestore/cycle_store.go:141-171 | only a QUEUED cycle becomes CALLED; calling a CALLED one again succeeds and changes nothing; anything else is refused |
| `Stores.Store.MarkCycleStatus` | internal/adapters/sqlitestore/cycle_store.go:341-363 | any cycle but a COMPLETE one takes the status, nothing else changes |
| `Stores.Store.CompleteCycle` | internal/adapters/sqlitestore/cycle_store.go:249-339 | pass, cycle, ticket and outbox rows change together or not at all, and only for a durably CALLED cycle |
| `Stores.Store.AckSync` | internal/adapters/sqlitestore/store.go:338-356 | item and ticket are marked together, or an unknown item is refused |
| `Stores.Store.MarkSyncAttempt` | internal/adapters/sqlitestore/store.go:330-336 | an unacknowledged item counts the attempt; acknowledged items are left alone |
| `Stores.Store.FindCalledCycle` | internal/adapters/sqlitestore/cycle_store.go:188-225 | the answer is none, the unique match, or ambiguous |
| `Stores.Store.Scan` | internal/adapters/sqlitestore/cycle_store.go:201-224 | the row loop finds exactly the matches, stopping at the second |
| `Stores.Store.ListQueue` | internal/adapters/sqlitestore/cycle_store.go:227-247 | every queued or called row, once, and no other, called rows first, then by the texts of the times, then by id |
| `Clocks.FourDigitsExactly` | internal/adapters/sqlitestore/cycle_store.go:410 | on the Gregorian calendar a time has a year of four digits exactly before the first second of year 10000 |
| `Clocks.StampsExactly` | internal/adapters/sqlitestore/cycle_store.go:410 | two times up to year 9999 sort as texts in the right order exactly unless they lie in one second and the fraction of the earlier, without trailing zeros, is the beginning of the later one's; then they sort in the wrong order |
| `Clocks.FirstComeFirstServedExactly` | internal/adapters/sqlitestore/cycle_store.go:228 | of two trucks both called, or both not, the earlier sorts first exactly unless the later overtakes it in that way |
| `Clocks.PlaceInQueueExactly` | internal/adapters/sqlitestore/cycle_store.go:227-247 | so in the listing the earlier of them has the earlier place exactly unless overtaken |
| `Clocks.CalledComeFirst` | internal/adapters/sqlitestore/cycle_store.go:228 | a called row sorts before one that is not, whatever the times |
| `Clocks.QueueOrder` | internal/adapters/sqlitestore/cycle_store.go:227-247 | the whole order by place: called first; then by the time of the call or else of queueing, unless overtaken; then by the time of queueing, unless overtaken; then by id |
| `Clocks.WholeSecondIsOvertaken` | internal/adapters/sqlitestore/cycle_store.go:228 | it happens: a truck listed by a whole second sorts after every other alike of that second, in any year |
| `Stores.Store.PendingSync` | internal/adapters/sqlitestore/store.go:300-328 | the oldest unacknowledged items, up to the batch limit |
| `Stores.PendingIsExact` | internal/adapters/sqlitestore/store.go:300-328 | those are all unacknowledged items, once each, in id order, whatever their next attempt time |
| `Stores.BatchIsTheFirst` | internal/adapters/sqlitestore/store.go:301-303 | a batch is the first so many of a list for a limit from 1 to 1000, and the first 100 for any other |
| `Coordination.BeginPlansSoundly` | internal/cycle/coordinator.go:40-54 | what a return plans after its search is right for the store it saw |
| `Coordination.CompletionRefusedExactly` | internal/adapters/sqlitestore/cycle_store.go:249-339 | a planned completion is refused exactly when the disk fails, the row is no longer CALLED, or the id of its ticket or pass is missing or taken |
| `Coordination.ReturnIsAnsweredExactly` | internal/cycle/coordinator.go:44-50 | how a return is answered once its cycle is found, told from the passes: another truck is refused, a late one closes the window, a sound pair within the limits completes, everything else leaves the cycle called |
| `Coordination.LateReturnClosesItsCycle` | internal/cycle/coordinator.go:47 | the same truck returning after the window, with raw references, is answered that the window is over, and undisturbed its row becomes PAIR_TIME_INVALID |
| `Coordination.EndKeeps` | internal/cycle/coordinator.go:40-57 | its writing transaction is right in any later store the plan still fits, and success means called before, complete now |
| `Coordination.EndReturnsWhatIsStored` | internal/cycle/coordinator.go:54-57 | the cycle and the ticket handed back are the ones stored |
| `Coordination.ExpiryIsExact` | internal/cycle/coordinator.go:59 | an undisturbed expiry orphans exactly the queued or called cycles past the window that come before the first failing mark, counts them, fails exactly if there is one, and changes nothing else; without a failure those are all the overdue ones |
| `Coordination.ExpiryIsSound` | internal/cycle/coordinator.go:59 | no return weighed at or after the expiry time could have completed an orphaned cycle |
| `Coordinators.Coordinator.RecordFirstPass` | internal/cycle/coordinator.go:30-36 | the method does what its specification says to the store |
| `Coordinators.Coordinator.Call` | internal/cycle/coordinator.go:37 | the operator's call is one store transaction at the current time |
| `Coordinators.Coordinator.RecordSecondPass` | internal/cycle/coordinator.go:40-58 | the search, any transactions of other callers, and the writing transaction do to the store what the specification says, with its answer |
| `Coordinators.Coordinator.PlanSecondPass` | internal/cycle/coordinator.go:42-54 | search and verdict, with every early refusal, give the plan of the specification |
| `Coordinators.Coordinator.FinishSecondPass` | internal/cycle/coordinator.go:48-57 | the writing transaction and the answer, refused or not |
| `Coordinators.Callers.Do` | internal/cycle/coordinator.go:30-59 | one transaction of another caller changes the store and that caller as the interleaving says |
| `Coordinators.Coordinator.ExpireOrphans` | internal/cycle/coordinator.go:59 | no window means no expiry, a failing listing is reported, a missing time is now; otherwise the listing is the queue and its marks are those of the specification |
| `Coordinators.Coordinator.MarkOverdue` | internal/cycle/coordinator.go:59 | the loop marks the overdue cycles of a listing one transaction at a time, counting, until a mark fails |
| `Interleaving.EveryStateConsistent` | internal/adapters/sqlitestore/store.go:66 | every state reachable by any interleaving, failed transactions included, is consistent: status column and stored cycle agree, raw references match the passes |
| `Interleaving.CompleteIsFinal` | internal/adapters/sqlitestore/cycle_store.go:341-363 | a COMPLETE row never changes again |
| `Interleaving.CompletedOnceFromCalled` | internal/adapters/sqlitestore/cycle_store.go:249-339 | under every interleaving a cycle becomes COMPLETE at most once, and only from CALLED |
| `Interleaving.OnlyReturnsComplete` | internal/cycle/coordinator.go:40-57 | only the second transaction of a return completes a cycle |
| `Interleaving.OrphanStaysExactly` | internal/cycle/coordinator.go:47-48 | one transaction of any call leaves an orphan an orphan exactly unless it is the write-back of a return that was planned while the cycle was called |
| `Interleaving.OrphanHoldsExactly` | internal/cycle/coordinator.go:47-48 | over every interleaving an orphan holds throughout exactly when no step is such a write-back |
| `Interleaving.WriteBackIsPlannedExactly` | internal/cycle/coordinator.go:44-50 | a return plans such a write-back exactly when it finds the cycle called and turns it down for something other than WRONG_TRUCK |
| `Interleaving.ResurrectionHasItsBegin` | internal/cycle/coordinator.go:44-50 | every orphan that comes back does so by the return that earlier found it CALLED and turned it down |
| `Interleaving.OrphanCanBeResurrected` | internal/cycle/coordinator.go:48 | a concrete interleaving in which an orphaned cycle becomes CALLED again |
| `Provenance.EveryTicketIsFull` | internal/cycle/coordinator.go:51-54 | under every interleaving the ticket of every COMPLETE cycle has the first pass's overrides and camera followed by the second's, the plate, tag and station of the cycle, and the higher-ranked mode of the two |
| `Provenance.PassesAreFinal` | internal/adapters/sqlitestore/cycle_store.go:93-139 | a stored pass never changes |
| `Provenance.CommitKeepsThePass` | internal/twopass/bridge.go:45-55 | a commit that succeeds leaves a pass under the ticket's id with its station, plate, tag, weight, mode and overrides, the direction, and the camera records added for that transaction |
| `Provenance.ReleaseKeepsTheTransaction` | internal/engine/engine.go:545-584 | so when a frame releases the truck, the store has the pass with the transaction's plate, tag, mode, overrides and camera records and the weight of that frame |
| `Provenance.EveryWorldIsFull` | internal/twopass/bridge.go:45-55 | in every reachable world every ticket is full in that sense and every pass committed is still as it was |
| `StoreHistories.EveryRowHasItsPast` | internal/adapters/sqlitestore/cycle_store.go:93-171 | under every interleaving every row was opened by a first pass and carries its plate, tag, station and time; it was called while QUEUED, and carries the time of that call, exactly if it has a calling time, as every CALLED or COMPLETE row has |
| `StoreHistories.DeliveriesAreCounted` | internal/adapters/sqlitestore/store.go:330-356 | the columns of every outbox item are what its deliveries made them: the recorded attempts, the time and error of the last, the time of the last acknowledgement |
| `EngineProofs.StreakStep` | internal/engine/engine.go:225-247 | the counter's update rule computes the longest qualifying suffix |
| `EngineProofs.StreakSpread` | internal/engine/engine.go:236-244 | any two of the last n frames of a streak differ by at most n - 1 tolerances |
| `EngineProofs.ReadyAfterMeans` | internal/engine/engine.go:524-543 | a transaction that may weigh has an authorisation on proof and after it a readiness on proof |
| `EngineProofs.StepKeeps` | internal/engine/engine.go:101-348 | every event keeps the invariant; exit outputs come on only with a ticket the store took |
| `EngineProofs.EveryStateInv` | internal/engine/engine.go:101-348 | so does every run |
| `EngineTheorems.EveryTicketIsEarned` | internal/engine/engine.go:179-253 | every ticket offered is an audited, sound, stable frame above the minimum, after an entry authorised on full proof and then a moment with identity and position accepted |
| `EngineTheorems.OffersExactlyOnStreak` | internal/engine/engine.go:225-252 | a ticket is offered exactly when a weighed frame completes a streak of the configured length |
| `EngineTheorems.OfferedFramesAgree` | internal/engine/engine.go:225-252 | the frames behind an offer agree to within N - 1 tolerances |
| `EngineTheorems.LockoutIsForever` | internal/engine/engine.go:586-595 | no event of any kind leaves a lockout, puts an output on, or offers a ticket |
| `EngineTheorems.CommitReleases` | internal/engine/engine.go:567-583 | an accepted ticket opens the way out and only that |
| `EngineTheorems.ReleasedStep` | internal/engine/engine.go:370-484 | one event abandons a release exactly when it re-evaluates identity into a mismatch or an open entry guard |
| `EngineTheorems.ReleaseHoldsExactly` | internal/engine/engine.go:370-484 | over every run without a reset, the release holds throughout exactly when no event reopens it |
| `EngineTheorems.RoutineReleaseHolds` | internal/engine/engine.go:101-152 | with only position, scale and critical-fault events after a commit: no second ticket, never both barriers, only exit states, completion or lockout |
| `EngineTheorems.RoutineTransactionOffersOnce` | internal/engine/engine.go:545-584 | such a transaction offers exactly one ticket |
| `EngineReentry.AuthorizesExactly` | internal/engine/engine.go:454-484 | an event authorises entry exactly when identity is accepted, by it or before it, and deck, safety and scale allow |
| `EngineReentry.ReleasedOpensBoth` | internal/engine/engine.go:370-484 | after a release an event leaves both barriers asked to open exactly when the exit was, and it re-evaluates identity, accepts it, and the entry guard holds |
| `EngineReentry.BothOpenExactly` | internal/engine/engine.go:454-484 | over every run both barriers are asked to open at once exactly when some event authorises entry while the exit is open, without committing at once |
| `EngineReentry.TicketNeedsEntryExactly` | internal/engine/engine.go:524-584 | the transaction of a truck that is not let in offers a ticket exactly when an event authorises entry and then a streak ends |
| `EngineReentry.AnotherTicketExactly` | internal/engine/engine.go:545-584 | so after a ticket its transaction offers another exactly when entry is authorised anew and then a streak ends |
| `EngineOverrides.EveryOverrideIsRight` | internal/engine/engine.go:292-327 | in every reachable state every override is complete, of this transaction, never for the scale, given by an operator at least and by a supervisor for barriers and physical safety, and no active one is doubled; an accepted identity rests on both channels or on such an override |
| `EngineOverrides.GrantIsRight` | internal/engine/engine.go:300-318 | what the checks let through may be added without breaking that |
| `EngineOverrides.TicketOverridesAreRight` | internal/engine/engine.go:556-562 | so the overrides on every ticket were rightly given |
| `EngineLaws.PositionAcceptedExactly` | internal/engine/engine.go:486-522 | a position is accepted exactly when both deck sensors are unfaulted and see the truck, or one is faulty, the other is not and sees it, and an unexpired override confirms the position for the faulty one; then exactly the entry is withdrawn |
| `EngineLaws.StepRests` | internal/engine/engine.go:101-327 | whatever the event, a position newly accepted rests on just that |
| `EngineLaws.TicketWasOnDeck` | internal/engine/engine.go:524-584 | over every run each offered ticket was preceded, in its transaction, by a moment with just that on the position and the faults |
| `EngineExits.CompletesExactly` | internal/engine/engine.go:138-150 | a running transaction completes with exactly one kind of event: a position without the truck at the exit, after it was seen there, with safety clear or an unexpired override confirming the exit |
| `EngineExits.CompletedHasLeft` | internal/engine/engine.go:134-150 | over every run a completed transaction was authorised to leave and seen at the exit, and later gone from it with the exit clear in that sense |
| `EngineRules.FaultLocksExactly` | internal/engine/engine.go:255-273 | over a sound scale a fault locks a running transaction out exactly if it is of the scale, critical, or not overridable |
| `EngineRules.BarringFaultLocks` | internal/engine/engine.go:255-273 | such a fault locks out whatever the state, and stands in the engine and on the transaction |
| `EngineRules.UnsoundFrameLocks` | internal/engine/engine.go:186-206 | an unhealthy, faulted or overloaded frame locks the transaction out and leaves a critical scale fault no override can bridge, without a transaction too |
| `EngineRules.FrameIsReceived` | internal/engine/engine.go:179-215 | a frame without a raw record is refused and changes nothing; a sound one becomes the last frame and ends a scale fault |
| `EngineRules.RefusalLocks` | internal/engine/engine.go:545-584 | a ticket the store refuses, or has no store, locks out with nothing accepted; one it takes opens the way out, with its weight, id and time on the transaction |
| `EngineRules.UnsoundLastFrameLocks` | internal/engine/engine.go:454-543 | a truck that would be let in, or weighed, over an unsound last frame is locked out |
| `EngineRules.ModeExactly` | internal/engine/engine.go:597-614 | manual from two bridgeable faults on and then for good, degraded for one, normal for none; a lockout keeps its mode |
| `EngineRules.GrantExactly` | internal/engine/engine.go:292-327 | an override is granted exactly when it is for this transaction, complete, for an unbridged bridgeable fault, by a supervisor, or by an operator off barriers and physical safety while only one fault could be bridged |
| `EngineRules.BothChannelsDecide` | internal/engine/engine.go:379-415 | with both channels read the registry's plate for the tag decides: accepted, a mismatch that shuts the entry, or a person |
| `EngineRules.DegradedIdentity` | internal/engine/engine.go:417-451 | with one channel down identity needs the other and a confirmed override, in degraded mode; with both down it goes to a person; otherwise nothing changes |
| `EngineRules.ReadingsAreTaken` | internal/engine/engine.go:154-174 | a tag or plate from before the transaction is ignored, any other replaces the last |
| `EngineRules.StartsExactly` | internal/engine/engine.go:350-368 | a transaction starts exactly with a truck at the entry; over a barring fault locked out, otherwise identifying, with nothing decided and every standing fault |
| `EngineRules.ResetExactly` | internal/engine/engine.go:329-348 | a reset drops exactly a completed transaction and keeps faults and the last frame |
| `EngineExamples.BothOpen` | internal/engine/engine.go:275-290 | nine events after which one transaction asks for both barriers |
| `EngineExamples.OneTransactionCanCommitTwice` | internal/engine/engine.go:454-484 | eleven events after which it has committed twice |
| `Engines.Engine.constructor` | internal/engine/engine.go:49-71 | a new engine is idle, with the defaults filled in |
| `Engines.Engine.ObservePosition` | internal/engine/engine.go:101-152 | the handler, step by step, reaches exactly the state of the position event: start, approach, deck, exit |
| `Engines.Engine.ObserveRFID` | internal/engine/engine.go:154-163 | a tag that belongs to the transaction is kept and identity re-evaluated; others change nothing |
| `Engines.Engine.ObserveLPR` | internal/engine/engine.go:165-174 | the same for a plate |
| `Engines.Engine.ObserveScale` | internal/engine/engine.go:179-253 | the handler reaches exactly the state of the scale event, and bridge and store got exactly the ticket it offers |
| `Engines.Engine.ObserveFault` | internal/engine/engine.go:255-273 | a locking fault locks out, any other re-evaluates mode, position and identity |
| `Engines.Engine.ClearFault` | internal/engine/engine.go:275-290 | clearing never unlocks, and re-evaluates mode, position and identity |
| `Engines.Engine.AuthorizeOverride` | internal/engine/engine.go:292-327 | every refusal leaves the engine as it was; a grant is dated, added and acted on |
| `Engines.Engine.ResetCompleted` | internal/engine/engine.go:329-348 | only a completed transaction is dropped |
| `Engines.Engine.EvaluateIdentity` | internal/engine/engine.go:370-452 | the four identity cases in the source's order decide identity, state, outputs and mode |
| `Engines.Engine.EvaluatePosition` | internal/engine/engine.go:486-522 | both sensors, or one with a confirmed override for the other, accept the position and withdraw the entry |
| `Engines.Engine.TryAuthorizeEntry` | internal/engine/engine.go:454-484 | entry opens only on identity, safety, clear deck and empty stable scale; an unsound scale locks out |
| `Engines.Engine.TryReadyToWeigh` | internal/engine/engine.go:524-543 | weighing may begin only with identity, position and a sound scale; an unsound scale locks out |
| `Engines.Engine.CommitTicket` | internal/engine/engine.go:545-584 | the truck is released only if the store took the ticket, locked out otherwise |
| `Engines.Engine.AuxFaultCount` | internal/engine/engine.go:616-625 | the map loop counts exactly the overridable, uncritical faults off the scale |
| `Engines.Engine.HasOverride` | internal/engine/engine.go:637-652 | the nested loop finds an unexpired override with that evidence exactly if there is one |
| `Engines.Engine.AnyLocking` | internal/engine/engine.go:361-366 | the start-up loop finds a locking fault exactly if there is one |
| `Engines.Engine.Active` | internal/engine/engine.go:314-318 | the loop finds an active override for a device exactly if there is one |
| `Engines.Engine.Start` | internal/engine/engine.go:350-368 | a new transaction takes over the standing faults and starts locked out if one is locking |
| `Engines.Engine.UpdateMode` | internal/engine/engine.go:597-614 | more than one overridable fault makes the mode manual, which fewer faults do not undo; one degrades it, none restores it |
| `Engines.Engine.Lockout` | internal/engine/engine.go:586-595 | mode, state and outputs are locked together |
| `TwoPassProofs.CommitIsDurable` | internal/twopass/bridge.go:45-55 | a commit keeps the store right whatever runs between its transactions, and success leaves durable evidence |
| `TwoPassProofs.ActKeeps` | internal/twopass/workflow.go:37-52 | every action keeps the whole right; a transaction is never swapped for another and its direction never changes |
| `TwoPassProofs.EveryWorldInv` | internal/twopass/workflow.go:37-52 | so does every run |
| `TwoPassProofs.ReleaseNeedsDurableEvidence` | internal/twopass/bridge.go:45-55 | in every reachable world an exit output implies a stored pass with the accepted weight and raw reference: the first of a cycle on the way in, the second of a COMPLETE cycle with its ticket on the way back |
| `TwoPassProofs.DirectionIsFixed` | internal/twopass/workflow.go:41 | wrapper and bridge agree on the direction, fixed as long as the transaction lasts |
| `TwoPassProofs.DesiredShape` | internal/twopass/workflow.go:54-73 | the outputs shown are the engine's, turned round on a return, unless the mismatch blanks them |
| `TwoPassProofs.DesiredIsPaired` | internal/twopass/workflow.go:79 | in both directions a desired green comes with the same side's open request |
| `TwoPassProofs.LockoutBlanksOutputs` | internal/twopass/workflow.go:54-73 | after a lockout nothing is desired, in either direction, whatever happens |
| `Views.DirectionExactly` | internal/twopass/workflow.go:41 | a pass takes its direction from the end at which a truck is first seen alone, here and in the bridge; both ends or neither give none |
| `Views.BindingExactly` | internal/twopass/workflow.go:75 | after a position, tag or plate an identified return is bound exactly when the search works and one called row alone answers to its plate and tag, and to that row's cycle |
| `Views.OthersLeaveTheBinding` | internal/twopass/workflow.go:45-52 | no other action binds, unbinds or redirects a pass under way |
| `Views.CompletedIsForgotten` | internal/twopass/workflow.go:37-43 | a reset, or a position of an empty site, leaves nothing of a completed pass but what the store has: no direction, binding, outcome or camera records; no other position ends a transaction |
| `Views.AnswersExactly` | internal/twopass/bridge.go:38-42 | a camera record is taken, and its caller told so, exactly with a pass under way and camera and image named; a reset is refused exactly while a transaction is under way |
| `Views.OutcomeIsRemembered` | internal/twopass/bridge.go:45-55 | a commit in a direction is remembered under its transaction, as failed exactly when refused; without a direction it is refused and leaves no trace |
| `Views.SnapshotShowsThePass` | internal/twopass/workflow.go:54-64 | identity, readings, mode, overrides, weight and camera are shown as they are, and the sensors turned round on a return |
| `Views.MismatchExactly` | internal/twopass/workflow.go:71 | an unbound identified return, neither locked out nor complete, and only that, is shown as a queue mismatch with everything off |
| `Views.BusinessShown` | internal/twopass/workflow.go:58-69 | without an outcome the bound cycle is shown, with one its cycle and ticket; the business is complete exactly after a return that did not fail and has a ticket, with the cycle's figures |
| `TwoPassProofs.UncalledReturnExactly` | internal/twopass/workflow.go:71 | an unbound return shows a permissive output exactly when the engine desires one and identity is not accepted |
| `TwoPassExamples.UncalledReturnCanAskToOpen` | internal/twopass/workflow.go:71 | six events that get there |
| `TwoPassOutcomes.BusinessCompleteIsDurable` | internal/twopass/workflow.go:65-68 | when the snapshot calls the business complete, the cycle and ticket it names are stored and its weights are the stored ones |
| `TwoPassRefusals.RefusedExactly` | internal/twopass/bridge.go:51 | the completion of a return is refused exactly when one was planned and the disk fails, the row is no longer CALLED, or a ticket or pass id is taken, whatever other callers did |
| `TwoPassRefusals.CommitRemembersExactly` | internal/twopass/bridge.go:50-54 | the outcome remembered says COMPLETE and failed exactly when the store refused the completion |
| `TwoPassRefusals.UnfinishedCompleteExactly` | internal/twopass/workflow.go:63-69 | in every reachable world the snapshot shows a COMPLETE cycle without a complete business exactly when some step was such a refusal |
| `TwoPassExamples.RefusedCompletionShowsComplete` | internal/twopass/workflow.go:65-68 | eight events that get there, with the cycle CALLED in the store |
| `Bridges.CommitBridge.Commit` | internal/twopass/bridge.go:45-55 | the method does to bridge and store what the specification says, with other callers between the transactions of a return, and remembers the outcome |
| `Bridges.CommitBridge.AddEvidence` | internal/twopass/bridge.go:38-42 | appends exactly one well-formed camera record, or refuses |
| `Bridges.CommitBridge.SetDirection` | internal/twopass/bridge.go:35 | only the direction changes |
| `Bridges.CommitBridge.Reset` | internal/twopass/bridge.go:57 | forgets exactly that transaction, and the direction |
| `Workflows.Workflow.ObservePosition` | internal/twopass/workflow.go:37-44 | an empty site after completion resets, the first presence fixes the direction here and in the bridge, the engine sees the logical position, and a return is bound |
| `Workflows.Workflow.ObserveScale` | internal/twopass/workflow.go:48 | a frame goes through engine, bridge and store as one action of the whole, other callers in between; the answer is the engine's |
| `Workflows.Workflow.ObserveCamera` | internal/twopass/workflow.go:47 | evidence goes to the active transaction, or is refused: no active transaction, no camera or no image |
| `Workflows.Workflow.ObserveRFID` | internal/twopass/workflow.go:45 | after a tag a return is bound anew |
| `Workflows.Workflow.ObserveLPR` | internal/twopass/workflow.go:46 | after a plate a return is bound anew |
| `Workflows.Workflow.ObserveFault` | internal/twopass/workflow.go:49 | only the engine changes |
| `Workflows.Workflow.ClearFault` | internal/twopass/workflow.go:50 | only the engine changes |
| `Workflows.Workflow.AuthorizeOverride` | internal/twopass/workflow.go:51 | only the engine changes, and the answer is its verdict on the override |
| `Workflows.Workflow.Direct` | internal/twopass/workflow.go:41 | a direction is taken only while there is none and no pass is active, by wrapper and bridge together |
| `Workflows.Workflow.TryBindCalled` | internal/twopass/workflow.go:75 | a return with accepted identity binds the cycle found, or none |
| `Workflows.Workflow.ResetSession` | internal/twopass/workflow.go:76 | wrapper and bridge lose their direction together |
| `Workflows.Workflow.ResetCompleted` | internal/twopass/workflow.go:52 | only a completed transaction is forgotten; a running one is refused |
| `Workflows.Workflow.Snapshot` | internal/twopass/workflow.go:54-73 | the overlay is the specification's view |
| `RemoteOutputsProofs.OrderlyKeeps` | internal/adapters/modbustcp/io.go:75-82 | an orderly list of writes keeps the interlock wherever it stops and whatever the failing write did |
| `RemoteOutputsProofs.SafeStateKeeps` | internal/adapters/modbustcp/io.go:98-105 | from any coils a safe state that succeeds leaves exactly the two reds on; failing half way it keeps the interlock |
| `RemoteOutputsProofs.GateDecides` | internal/runtimeio/audited_outputs.go:59-61 | on working hardware the audit decides one thing: a permissive command whose intent cannot be recorded does nothing |
| `RemoteOutputsProofs.AuditFailureOnlyRestricts` | internal/runtimeio/audited_outputs.go:53-74 | on working hardware, no pattern of audit failures leaves outputs more permissive than a healthy audit |
| `RemoteOutputsProofs.EveryPermissiveWriteIsBacked` | internal/runtimeio/audited_outputs.go:53-74 | every permissive write has its own earlier intent on record, whatever fails |
| `SharedAddresses.SafeStateExactly` | internal/adapters/modbustcp/io.go:98-105 | on working hardware a safe state leaves exactly the two reds on if and only if no red shares its address with a coil that is not red |
| `InterlockMappings.InterlockExactly` | internal/runtimeio/controller.go:157-192 | even on hardware that never fails every run of lawful polls keeps the interlock if and only if no two outputs share an address: each of the 21 ways to share one has a run that breaks it |
| `InterlockMappings.RequestAndHorn` | internal/runtimeio/controller.go:198-211 | one of them: with a request on the buzzer's address, the end of the pulse closes the barrier under green |
| `ControlProofs.PollKeeps` | internal/runtimeio/controller.go:99-230 | one poll keeps the invariant, and without an error it determines the whole controller |
| `ControlProofs.EveryWriteIsInterlocked` | internal/runtimeio/controller.go:157-192 | over every run, after every single write since the first successful safe state: never red and green together, green only over an open request |
| `ControlProofs.SafeAppliedMeansKnown` | internal/runtimeio/controller.go:99-230 | whenever `safeApplied` holds, the applied outputs are the coils, and each side shows exactly one of red and green |
| `ControlProofs.GreenNeedsFeedback` | internal/runtimeio/controller.go:181-192 | after a poll without an error, green on implies open feedback in that poll's inputs |
| `ControlProofs.CoilsExactly` | internal/runtimeio/controller.go:157-211 | after a poll without an error and without contradictory feedback: requests as desired, green exactly where desired over feedback or no request, red where green is not, the buzzer only with every requested barrier, at least one, reporting open |
| `ControlProofs.UnlawfulExactly` | internal/runtimeio/controller.go:181-192 | green shows over no open request exactly when green is desired without open |
| `ControlProofs.NothingDesiredNothingPermitted` | internal/runtimeio/controller.go:99-230 | a poll that ends with nothing desired writes nothing permissive, and without an error leaves every permissive coil off |
| `ControlProofs.OnePulse` | internal/runtimeio/controller.go:198-211 | over a run of ready polls the buzzer is on exactly until edge + pulse: one pulse, no retrigger |
| `ControlProofs.NotReadyIsSilent` | internal/runtimeio/controller.go:203-207 | a poll without an error that is not ready silences the buzzer and arms the next edge |
| `ControlProofs.TimerRuns` | internal/runtimeio/controller.go:167-178 | the timer of a request runs from the poll that made it until the first open feedback, for good |
| `ControlProofs.TimeoutExactly` | internal/runtimeio/controller.go:213-226 | a critical fault of that very barrier, which no override bridges, is reported exactly when more than the timeout has passed since the request with no open feedback since |
| `Reports.PerformExactly` | internal/runtimeio/audited_outputs.go:53-74 | a command succeeds exactly when every write was acknowledged and, if permissive, intent and result were recorded; without the intent nothing is written |
| `Reports.BeginSpeaks` | internal/runtimeio/controller.go:99-128 | up to the position, a poll reports a critical fault of the remote I/O exactly if its inputs cannot be read or a write of the safe state failed, and clears it otherwise; and one of the audit exactly if an append failed |
| `Reports.FinishSpeaks` | internal/runtimeio/controller.go:130-241 | the rest reports the remote I/O exactly if it fails, as with any unacknowledged write, the audit exactly if an append failed, and each barrier that contradicts itself |
| `Reports.ConfirmationSpeaks` | internal/runtimeio/controller.go:213-226 | a requested barrier is cleared on feedback, and without it reported critical exactly when its time is up |
| `ControlProofs.WorkingPollDelivers` | internal/runtimeio/controller.go:99-230 | with working hardware and audit a poll ends without an error and the coils show exactly what is wanted |
| `Hardware.ModbusIO.SetSignal` | internal/adapters/modbustcp/io.go:75-82 | red goes before green comes, green goes before red comes, stopping at a failed write |
| `Hardware.ModbusIO.SafeState` | internal/adapters/modbustcp/io.go:98-105 | buzzer, both signals and both requests are made safe in that order, stopping at a failed write |
| `Hardware.ModbusIO.SetBuzzer` | internal/adapters/modbustcp/io.go:84-86 | one write |
| `Hardware.ModbusIO.RequestBarrier` | internal/adapters/modbustcp/io.go:88-94 | one write to that side's request coil |
| `Hardware.Plant.WriteSingleCoil` | internal/adapters/modbustcp/client.go:29-43 | an acknowledged write took effect, a failed one may or may not have |
| `Hardware.ModbusIO.ReadBlock` | internal/adapters/modbustcp/io.go:15-51 | the min/max loop: the block is read exactly when no two addresses are 2000 or more apart, and every input is the one at its own address |
| `Hardware.ModbusIO.ReadInputs` | internal/adapters/modbustcp/io.go:15-61 | every field is the input at its own address, an unmapped safety input reads false |
| `Hardware.AuditedOutputs.Perform` | internal/runtimeio/audited_outputs.go:53-74 | intent, execution and result in that order, with every failure |
| `Hardware.AuditedOutputs.SafeState` | internal/runtimeio/audited_outputs.go:43-51 | executed first, audited afterwards, never blocked by the audit |
| `Hardware.Controller.Step` | internal/runtimeio/controller.go:99-155 | a poll in all its early returns leaves controller, coils, audit and calls as the reconciler's function says |
| `Hardware.Controller.Reconcile` | internal/runtimeio/controller.go:157-230 | the phases in order, each with early return, leave exactly what the function says |
| `Hardware.Controller.Request` | internal/runtimeio/controller.go:162-179 | withdrawing a request withdraws green first; the timer starts with the request |
| `Hardware.Controller.Lamp` | internal/runtimeio/controller.go:185-192 | a signal is driven only when it changes |
| `Hardware.Controller.Sound` | internal/runtimeio/controller.go:198-211 | the pulse starts on a rising edge and is cut when not ready |
| `Hardware.Controller.Confirm` | internal/runtimeio/controller.go:213-226 | feedback stops the timer and clears the fault; an overrun raises it |
| `Hardware.Controller.IoFault` | internal/runtimeio/controller.go:232-241 | a failed output makes the next poll start from safe and tells the workflow |
| `Systems.SiteIsInterlocked` | internal/runtimeio/controller.go:99-230 | the interlock end to end: over every course of events, restarts, other callers, failing writes, appends and transactions |
| `Systems.LockoutDarkensTheSite` | internal/engine/engine.go:586-595 | once locked out, until a restart: no poll beginning afterwards writes anything permissive, no permissive coil comes on, and from the first poll without an error all are off for good, in either direction |
| `Systems.GreenMeansDurable` | internal/runtimeio/controller.go:181-192 | a green on the truck's way out after a poll without an error means the accepted weight was durable at that poll's snapshot and the barrier reported open |
| `SiteReports.PollDecides` | internal/runtimeio/controller.go:99-248 | undisturbed by others, what a poll last says of a device is what stands for it afterwards, and a critical report locks the running transaction out |
| `SiteReports.UnreadableInputsLockOut` | internal/runtimeio/controller.go:99-109 | unreadable inputs lock the running transaction out, with a critical fault of the remote I/O standing |
| `SiteReports.FailedPollLocksOut` | internal/runtimeio/controller.go:112-121 | so does any write of the poll that is not acknowledged, of the safe state or of an output, and any poll that fails |
| `SiteReports.FailedAppendLocksOut` | internal/runtimeio/audited_outputs.go:53-74 | any failed append of the output audit locks it out, with a critical fault of the audit store standing |
| `SiteReports.ContradictionLocksOut` | internal/runtimeio/controller.go:130-146 | a barrier reporting open and closed at once locks it out, with a critical fault of that very barrier standing |
| `SiteReports.TimeoutLocksOut` | internal/runtimeio/controller.go:213-248 | over every course without a restart: a barrier not reported open in time locks it out, with a critical fault of that very barrier standing |
| `SiteReports.FeedbackClears` | internal/runtimeio/controller.go:213-226 | a barrier requested open that reports open has no fault standing afterwards |
| `Systems.SwitchedOn` | internal/runtimeio/controller.go:82-97 | a site just switched on, over coils in any state, starts inside the invariant |
| `Mirrors.ReturnIsMirrored` | internal/twopass/workflow.go:77-79 | the swaps undo themselves, sensors come in reverse order, and driving swapped outputs against physical feedback is driving logical ones against swapped feedback |
| `Mirrors.RunIsMirrored` | internal/runtimeio/controller.go:99-230 | on working hardware, over every run of polls: swapped inputs and swapped wishes give mirrored coils and a mirrored controller, and errors in the same polls |
| `Journals.EveryFileVerifies` | internal/adapters/auditjournal/journal.go:49-82 | from nothing, with any restarts and failed appends, the file always verifies, numbered from 1, holding exactly the events appended |
| `Journals.AppendKeepsSound` | internal/adapters/rawjournal/journal.go:52-104 | one append to a journal in any state that is right grows it by exactly that record or not at all |
| `Journals.LastHashFixesAll` | internal/adapters/rawjournal/journal.go:205-243 | with an injective hash two verified chains of one length ending in one hash are equal record for record |
| `Journals.PrefixVerifies` | internal/adapters/auditjournal/journal.go:147-167 | every prefix of a verified file verifies |
| `Journals.Verify` | internal/adapters/auditjournal/journal.go:147-167 | succeeds exactly on a file that verifies, and otherwise names the first line that breaks it |
| `Journals.Journal.Append` | internal/adapters/auditjournal/journal.go:49-82 | the method changes file and memory as the specification says and returns the record's reference |
| `Journals.Journal.LoadTail` | internal/adapters/auditjournal/journal.go:124-145 | the scan resumes from the last record, or stops on an unreadable line |
| `Journals.Journal.Tail` | internal/adapters/auditjournal/journal.go:84-116 | the ring returns exactly the last min(n, limit) records in order |
| `Journals.TailIsTheLast` | internal/adapters/auditjournal/journal.go:84-86 | a limit from 1 to 10000 is itself, one below is 200 and one above is 10000: that many of the last, or all there are |
| `Recorders.KeysAreFaults` | internal/workflowaudit/recorder.go:83 | a fault key stands for one fault, even when reasons contain the separator |
| `Recorders.DiffFaults` | internal/workflowaudit/recorder.go:82 | the keyed loops compute the faults of one list missing from the other, sorted by device |
| `Recorders.FaultDiffIsExact` | internal/workflowaudit/recorder.go:80-82 | exactly those, in order |
| `Recorders.FaultsReplay` | internal/workflowaudit/recorder.go:80-82 | the faults after are the faults before, less those cleared, plus those set |
| `Recorders.FaultsReplayExactly` | internal/workflowaudit/recorder.go:71-72 | one action's entries, read for faults, give the faults afterwards exactly unless it replaced a fault by another of the same device and reason, which a cleared entry cannot tell apart |
| `Recorders.DiffReplaysExactly` | internal/workflowaudit/recorder.go:59-79 | replaying a recorded difference gives the state and outputs afterwards exactly when no transaction was swapped directly for another |
| `RecorderProofs.LogReplaysTheWorkflow` | internal/workflowaudit/recorder.go:51-56 | over every run without a failed append, replaying the log's WORKFLOW entries gives the live state and outputs after every action |
| `RecorderProofs.LogShowsFaultsExactly` | internal/workflowaudit/recorder.go:71-72 | over every run without a failed append the fault entries tell after every action which faults stand, if and only if no action makes such a replacement |
| `FaultLogs.MaskingExactly` | internal/engine/engine.go:193-273 | in every reachable world an action makes such a replacement exactly when it reports a fault, or an unsound frame reports the scale's, over a standing one of the same device and reason that differs otherwise: told before the action |
| `FaultLogs.LogIsRightExactly` | internal/workflowaudit/recorder.go:71-72 | so over every run without a failed append the fault entries are right after every action if and only if no action sets a fault over another in that way |
| `RecorderProofs.ScaleFailingTwiceMasks` | internal/engine/engine.go:193-203 | such a replacement happens: a scale that fails a second time with another health looks recovered in the log |
| `RecorderProofs.LostEntryLocksOut` | internal/workflowaudit/recorder.go:51-56 | an entry that cannot be appended locks the current transaction out in the same action |
| `Readers.ActionLearnedExactly` | internal/workflowaudit/recorder.go:64-76 | one action's entries give identity, position and binding always; overrides and shots exactly if they only grew; tag and plate exactly unless changed to a reading without text; weight and ticket exactly unless replaced |
| `Readers.StartLearnedExactly` | internal/workflowaudit/recorder.go:62-76 | the entries of a new transaction tell all of it, but a tag or plate without text |
| `ReaderProofs.ActGrows` | internal/engine/engine.go:292-327 | within a transaction an action changes the overrides only by the one it grants and the shots only by the one it adds |
| `ReaderProofs.ReaderKnows` | internal/workflowaudit/recorder.go:65-73 | over every run without a failed append, a reader of the log knows after every action identity, position, binding, every override in the order authorised, and every shot |
| `ReaderProofs.ReaderLosesExactly` | internal/workflowaudit/recorder.go:66-75 | and the tag, the plate, the accepted weight or the ticket after every action if and only if no action empties the reading, or replaces the weight or the ticket |
| `ReaderProofs.EmptyTagIsLost` | internal/workflowaudit/recorder.go:66 | it happens: a tag reading without text goes unrecorded |
| `ReaderProofs.SecondWeightIsLost` | internal/workflowaudit/recorder.go:74 | it happens: the weight of a second ticket in one transaction goes unrecorded |
| `ReaderProofs.RecordedIsTrue` | internal/workflowaudit/recorder.go:51-78 | whatever appends fail, every entry is true of what was shown before and after its action, down to states, grants, weights, figures and outputs |
| `RecorderObjects.Recorder.Record` | internal/workflowaudit/recorder.go:51-56 | snapshot, act, snapshot, append one by one, report the first failure; success is returned exactly when the action succeeded and every entry was appended |

## Where the code and its intent differ

The model follows the code. Each of these is shown by a concrete run or an exact condition above.

- Entry can be authorised again after a commit: identity is re-evaluated without a check of the state, also by the fault clearance of
  every poll. Both barriers can then be desired at once and one transaction can commit twice
  (`EngineExamples.OneTransactionCanCommitTwice`; exactly when: `EngineReentry.BothOpenExactly`, `EngineReentry.AnotherTicketExactly`).
- An orphaned cycle can become CALLED again, or PAIR_TIME_INVALID, when a rejected return marks it after the expiry
  (`Interleaving.OrphanCanBeResurrected`; exactly when: `Interleaving.OrphanHoldsExactly`, `Interleaving.WriteBackIsPlannedExactly`).
- The blanking of an uncalled return holds only while identity is accepted (`TwoPassExamples.UncalledReturnCanAskToOpen`; exactly
  when: `TwoPassProofs.UncalledReturnExactly`).
- The outbox query ignores the next attempt time (`Stores.PendingIsExact`).
- When completion fails in the store, the outcome the bridge remembers still carries a cycle with status COMPLETE; the snapshot then
  shows that status, though not a completed business (`TwoPassExamples.RefusedCompletionShowsComplete`; exactly when:
  `TwoPassRefusals.CommitRemembersExactly`, `TwoPassRefusals.UnfinishedCompleteExactly`).
- The I/O mapping parser does not reject two outputs on one address; the interlock needs distinct addresses
  (`SharedAddresses.SafeStateExactly`, `InterlockMappings.InterlockExactly`).
- The queue is sorted by time texts that drop trailing zeros, so a truck can be listed before one queued earlier in the same second
  (`Clocks.WholeSecondIsOvertaken`; exactly when: `Clocks.FirstComeFirstServedExactly`, `Clocks.PlaceInQueueExactly`).
- A cleared fault is recorded by device and reason alone, after the faults set by the same action; a fault replaced by one of the same
  device and reason is lost to a reader of the log (`RecorderProofs.ScaleFailingTwiceMasks`; exactly when:
  `FaultLogs.LogIsRightExactly`).
- The log has no entry for a tag or plate that changes to a reading without text, nor for a weight or a ticket that replaces another
  (`ReaderProofs.EmptyTagIsLost`, `ReaderProofs.SecondWeightIsLost`; exactly when: `ReaderProofs.ReaderLosesExactly`).

## Left out

- Hardware.Controller.Step: does not hold the workflow object; what the workflow desires and whether it took the position are inputs of the poll, and `Systems` joins the two.
- Engines.Engine.SyncFaultSlice: does not model the random order of the fault list; the list is in one fixed device order.
- The engine's transaction is a value that is replaced, not an object shared by pointer; aliasing of the scale reading is not modelled.
- The texts of times before the zero time and from year 10000 on.
- Integer overflow of 64-bit weights and durations, and saturation of time differences.
- Block-reason texts, update times, and reading quality and confidence figures.
- Devices outside the twelve the source names; override evidence as free text beyond trimming and case folding.
- Writes that take effect after they were reported as failed, and the concurrent safe state at shutdown.
- Partial or unsynced journal writes, a failed journal load that is retried, and journal sequence numbers beyond 64 bits.
- JSON, base64 and SHA-256 themselves; the hash is a function, injective where that is needed.
- SQL text, migrations, pragmas, the overrides and station-state tables, the legacy single-ticket commit and the line-based store.
- Modbus framing, dialling and timeouts; the scale line parser; registry and mapping parsers.
- The Central worker and its backoff, the HTTP interface, the operator screen, monitors, service host and process wiring.
