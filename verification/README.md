# Verified model of the V2bX accounting, isolation, observation and limiter core

V2bX is a proxy node that reports usage to a panel, isolates accounts on signed
command, samples request metadata and limits bandwidth. This project models the
four packages that keep state for that and proves what their protocols promise
over every run: `common/beuptransfer` (the durable accounting outbox),
`common/beupguard` (the isolation guard and its command controller),
`common/beupobserve` (the windowed observer) and the speed and device limits of
`limiter`.
`dafny verify dfyconfig.toml` checks all of it.

## How it is organised

Each protocol is a transition system on values, with the environment's choices as
step parameters: replies lost, deferred or garbled, writes that fail with the old
or the new file on disk, crashes, reboots, clock readings, other goroutines. The
main theorems are about every run of those systems. The objects that update
fields in place are classes; their methods keep the loops and the branch order of
the Go code and are proved equal to the value-level transition (or to a sequence
of transitions), so the theorems carry over to them.

| files | what they hold |
|---|---|
| `Text`, `Counters` | decimal and padded text, counter rows, `samples`, `delta`, the hashed text of a batch |
| `Journals`, `Opening`, `Delivery`, `Settlement`, `Receipts`, `Recoveries` | the journal and all checks of `Open`; what these checks demand; node, disk and panel with crashes; the billing theorems; what acknowledgements and the uncertain mark say about the run |
| `Outbox`, `Legacy`, `Sessions`, `Adapter` | the outbox, legacy payload, counter session and guard adapter as objects |
| `Guard`, `Commands`, `Controller`, `Authority`, `Isolation`, `Registry`, `Groups` | the guard and its flows; the command journal and its replay; a machine that crashes and reboots; which commands are obeyed and what is acknowledged; the controller object; a group call over several guards; concurrent group calls |
| `Sums`, `Windows`, `Observation`, `Readings`, `Reports`, `Evidence`, `Marks`, `Rooms`, `Observer` | the counters of one minute; producers, queue, lock and generation; clock readings and their order; report batches; what counters and marks say about the samples; when a sample is counted; the observer object |
| `Limiter` | owner records, cached buckets, the limiter object |

Conventions: SHA-256 is an injective constructor on its text, and the text is
proved uniquely decodable; signature verification with strict decoding is one
opaque partial function; maps that Go keys by the padded text of a row are keyed
by the identity, which `Counters.KeyOrder` justifies; boot time is in
nanoseconds, wall time in seconds, and the two readings of one controller step are
one instant; an operation name of a command is one of three constructors or
`Unknown`; `Drain` takes any adapter, so it is told whether it is handed the guard
adapter itself or a counter session over it, which need not be the one the process
holds (`Delivery.Via`); a login is bound before an inbound can present it, as the
adapter's `Bind` demands of its callers; integers are unbounded except where a width
matters (`Limiters.Wrap`, the 64-bit counters of `Counters`).

## Where the code falls short of a property

- A process resumed uncleanly for the first time in its epoch while the clock is at
  or before 1970 saves a journal that `Open` rejects for ever
  (`Journals.BeginWellFormed` gives the exact condition, `EarlyResumeSticks` the run).
- The first record of a command journal, if it is a block accepted while the wall
  clock is before 1970, is rejected at the next start
  (`Controllers.AcceptedReplays` exactly when, `Controllers.EarlyBlockSticks` the input).
  The run theorems of the outbox and of the controller exclude exactly these two steps.
- A drain of an identity without a committed row is recorded all the same; from then on
  no session opens on a new adapter, although it is saved first
  (`Sessions.StrandedDrain` the run, `Sessions.CounterSession.Begin` exactly when).
- `determineSpeedLimit` is "the minimum non-zero rate" unless one limit is negative
  while the other is not set: of 0 and -5 it returns 0
  (`Limiters.DetermineLeast`, `Limiters.DetermineNegative`). With three limits the
  verdict is wrong exactly when a positive node limit stands beside a single negative
  limit of the owner, or the product of the least one wraps (`Limiters.FairExactly`,
  `Limiters.LeastExactly`, `Limiters.WrappedRate`).
- "Existing closed" does not speak about flows on an inbound outside the guard's
  scope, which never reach the guard (`Controllers.UncoveredFlowRuns` the run under any
  scope, `Controllers.TruthfulExactly` exactly when: every served inbound is in scope).
- `Drain` proves through any adapter: after an unclean resume a drain handed the
  adapter below the session, or an older session, is still proved
  (`Settlement.ResumedDrainProved` the run, `Settlement.OtherAdapterProves` exactly
  when; `Settlement.UncertaintyStays` for drains handed the session the process holds).
- The observer says that the order of readings, not scheduling, decides what is a
  reversal of the clock. Number and reading are two actions, so a forward clock can be
  taken for a reversal at a minute boundary (`Readings.FalseReversal` the run,
  `Readings.NeverRefusedExactly` and `Readings.BoundaryExactly` exactly when not).
- A sample can be counted in a later minute than the one it was prepared in
  (`Readings.MovedSample` the run, `Readings.MovedExactly` exactly when).
- After an inspection has found an identity closed, a flow of it can still be served:
  the host lets a flow that it cannot attribute pass without asking the adapter, which
  spoils readiness for good (`Adapters.ClosedThenServed` the run,
  `Adapters.SilentForGood` exactly when not).
- The second capacity check of the observer's `Bind` can never fire
  (`Observation.BindRoom`).

## Model

| member | source | states |
|---|---|---|
| Counters.KeyOrder | common/beuptransfer/outbox.go:96 | for positive 64-bit UIDs the zero-padded key is injective and string order on keys is (UID, credential) order |
| Counters.SamplesSpec | common/beuptransfer/outbox.go:97-114 | `samples` returns `out` exactly when `out` is a permutation of the input that is valid, strictly ordered and at most the maximum long |
| Counters.CanonicalUnique | common/beuptransfer/outbox.go:97-114 | two strictly ordered arrangements of the same rows are equal, so the sorted form is unique |
| Counters.CanonicalByIndex | common/beuptransfer/outbox.go:97-114 | canonical rows are determined by the usage of each identity |
| Counters.CheckSamples | common/beuptransfer/outbox.go:97-114 | the loops (validate, sort a copy, look for neighbours with equal keys) compute `Samples`, errors included |
| Counters.DeltaSpec | common/beuptransfer/outbox.go:116-136 | `delta` succeeds iff no counter vanished or fell; its rows are canonical, keep the identities of `after` and carry the exact difference of every identity |
| Counters.ComputeDelta | common/beuptransfer/outbox.go:116-136 | the loop over the shrinking map of prior rows computes `Delta`, including the leftover check |
| Counters.OwnerDelta | common/beuptransfer/outbox.go:116-136 | per owner, committed plus the rows of the delta is the new total |
| Counters.WireTextInjective | common/beuptransfer/outbox.go:140-147 | the hashed text of validated batches is uniquely decodable: equal text means equal batches |
| Counters.AckNamesBatch | common/beuptransfer/outbox.go:140-148 | a digest, and an acknowledgement, of valid batches names one batch only |
| Journals.WellFormedReopens | common/beuptransfer/outbox.go:150-223 | a journal that satisfies the invariant passes every check of `Open` and reopens to itself |
| Opening.OpensExactly | common/beuptransfer/outbox.go:150-223 | `Open` accepts a stored journal iff it is of this scope and epoch, its last acknowledgement and pending batch are of this stream and in sequence, the batch carries under its own digest exactly through minus committed of every identity, all rows are valid and one per identity, promises are within 1000 and one per identity, and proofs and session fit; it then continues with it unchanged |
| Opening.OtherEpochRefused | common/beuptransfer/outbox.go:187-189 | a journal of another epoch, sound otherwise, fails with the epoch error |
| Opening.PromiseExactly | common/beuptransfer/reservation.go:33-63 | a request can be promised iff it is valid and promised already, or there is room and neither its name nor its identity is taken |
| Opening.BeginExactly | common/beuptransfer/counter_session.go:81-130 | a session begins iff the journal is untouched, or the session before is sealed (unsealed, if unclean) under another name with nothing pending; it keeps the uncertain mark and starts from what is committed |
| Journals.StageWellFormed | common/beuptransfer/outbox.go:287-318 | the journal persisted before sending satisfies the invariant, its pending batch being the recomputed delta |
| Journals.AdvanceWellFormed | common/beuptransfer/outbox.go:250-277 | advancing over an acknowledged batch keeps the invariant |
| Journals.HoldWellFormed | common/beuptransfer/drain.go:90-109 | recording a drain moves a reservation into it within 1000 promises and one per identity, and keeps the invariant |
| Journals.ProveWellFormed | common/beuptransfer/drain.go:111-185 | storing a final-usage proof keeps the invariant |
| Journals.ReserveWellFormed | common/beuptransfer/reservation.go:65-84 | a probe's reservation keeps the invariant |
| Journals.BeginWellFormed | common/beuptransfer/counter_session.go:81-130 | a begun or resumed session reopens iff it is not the first unclean resume under a clock at or before 1970 |
| Journals.EarlyResumeSticks | common/beuptransfer/counter_session.go:44-64 | the run that leaves such a journal |
| Journals.SealWellFormed | common/beuptransfer/counter_session.go:230-283 | sealing keeps the invariant |
| Settlement.RunKeeps | common/beuptransfer/outbox.go:150-318 | every step of flush, replay, drain, probe, begin, seal, crash, reopening and late panel commit keeps journal, panel and counters in agreement |
| Settlement.ExactlyOnce | common/beuptransfer/outbox.go:250-318 | over every run the panel's total per identity is `Committed`, or `Through` when the pending batch already landed, and no sequence number is booked twice |
| Settlement.OneBatchPerSequence | common/beuptransfer/outbox.go:231-318 | two different batches are never sent under one sequence number |
| Settlement.IssuedProper | common/beuptransfer/outbox.go:287-318 | over every run, every batch that is persisted, sent, queued or booked is addressed to the stream, numbered, has sorted valid rows and carries the digest of its own text |
| Settlement.OneBatchPerDigest | common/beuptransfer/outbox.go:140-148 | of all batches of a run, a digest and an acknowledgement name one only |
| Receipts.ReceiptsBooked | common/beuptransfer/outbox.go:250-277 | over every run, the last acknowledgement on disk and the receipt of every proof are those of the very batch booked under that number |
| Recoveries.MarkRecords | common/beuptransfer/counter_session.go:110-126 | over every run, the uncertain mark records all unclean resumes: how many, when the first, and which process was given up last |
| Settlement.OwnerLedger | common/beuptransfer/legacy.go:99-132 | per owner, the sum over all booked batches is the committed sum of that owner's credentials |
| Legacy.PayloadLedger | common/beuptransfer/legacy.go:99-132 | over every run, the payloads of all booked batches together report for each owner exactly what its credentials have committed |
| Legacy.IssuedPayable | common/beuptransfer/legacy.go:99-118 | of the batches of a run, exactly those with an owner total beyond 53 bits cannot be reported |
| Settlement.JournalClosure | common/beuptransfer/outbox.go:150-248 | whatever any run left on disk passes all checks of `Open` and reopens to the same state; a healthy process holds exactly that |
| Settlement.DrainFinality | common/beuptransfer/drain.go:81-185 | a proof's `Final` is all that was ever booked for its identity, and in every later state of the run proof, committed row, pending row and panel total still are exactly that |
| Settlement.ReservationPromise | common/beuptransfer/reservation.go:8-84 | a promised request is never refused in any later state, and promises stay within 1000 and one per identity |
| Settlement.ProbePromises | common/beuptransfer/reservation.go:65-84 | a successful probe has put such a promise on disk |
| Settlement.UncertaintyStays | common/beuptransfer/counter_session.go:97-130 | after an unclean resume every later session of the epoch is marked uncertain, and as long as drains are handed the session the process holds, exactly the same drains are proved in every later state |
| Settlement.OtherAdapterProves | common/beuptransfer/drain.go:81-185 | under that mark a drain that is otherwise ready is proved iff it is handed the adapter itself or a session without the mark |
| Settlement.ResumedDrainProved | common/beuptransfer/drain.go:81-185 | the run with crash, unclean resume and a drain handed the adapter itself that ends with a new proof in an uncertain epoch |
| Settlement.CumulativeStream | common/beuptransfer/counter_session.go:81-179 | whenever the session is sealed, nothing is pending and the panel has booked, per identity, the sum of every process's counters, all of them final snapshots if none was abandoned |
| Delivery.CombineSpec | common/beuptransfer/counter_session.go:149-179 | a session snapshot is canonical and is, for every identity, the carried base plus this process's counters |
| Sessions.CombineExactly | common/beuptransfer/counter_session.go:149-179 | a snapshot can be taken iff the raw counters are valid and one per identity, no sum overflows 64 bits and there are at most the maximum of identities in all |
| Outboxes.FlushKeeps | common/beuptransfer/outbox.go:287-318 | `flush` is replay, persist, send as steps of the run, so it keeps the invariant however it ends |
| Outboxes.FlushCommits | common/beuptransfer/outbox.go:287-318 | a successful flush has committed exactly the sorted totals with nothing pending |
| Outboxes.DeliverExactly | common/beuptransfer/outbox.go:250-277 | a replay succeeds iff nothing waits, or what waits is acknowledged and that is saved |
| Outboxes.FlushExactly | common/beuptransfer/outbox.go:287-318 | a flush succeeds iff the session is open, numbers are left, every call and save in it succeeds, and the totals are valid, one per identity, none vanished or fallen, every proved drain at exactly its final usage |
| Outboxes.Outbox.Open | common/beuptransfer/outbox.go:150-223 | a first journal is created iff scope and epoch are valid and it is saved; a stored one opens, unchanged, iff it is sound and of this very stream; any journal left by a run gives a valid outbox |
| Outboxes.Outbox.Save | common/beuptransfer/outbox.go:231-248 | a failed save leaves the old or the new journal on disk and poisons the outbox |
| Outboxes.Outbox.Replay | common/beuptransfer/outbox.go:250-277 | sends the exact pending batch again and advances only on its own acknowledgement |
| Outboxes.Outbox.FinalsKept | common/beuptransfer/outbox.go:301-309 | true iff every proved drain's final row is still exactly there |
| Outboxes.Outbox.Flush | common/beuptransfer/outbox.go:287-326 | the imperative flush is that sequence of steps, so that what is sent is proper, success is exactly when `FlushExactly` says and commits what `FlushCommits` says |
| Outboxes.Outbox.ProbeReady | common/beuptransfer/reservation.go:65-84 | saves before answering, also for a repeated probe, and is a step of the run |
| Outboxes.CheckReservations | common/beuptransfer/reservation.go:8-29 | the loops over drains and reservations accept iff at most 1000 promises exist and no two share an identity |
| Outboxes.CheckCapacity | common/beuptransfer/reservation.go:33-63 | the loops of `canReserve` decide capacity and identity clashes |
| Outboxes.HasFinal | common/beuptransfer/drain.go:187-198 | true iff exactly one row is that identity's and it is the final one |
| Outboxes.Outbox.Drain | common/beuptransfer/drain.go:81-185 | over the adapter object, with other goroutines acting before both inspections: succeeds iff the request can be promised, its hold is on disk, the fence is taken, both inspections are quiet, the flush is ready, the row is there and stable and the proof is saved (or the old proof still fits); the adapter is told nothing before the hold is on disk; no flow of the identity is then running, nor will be without a lasting mark; nothing else is proved; every outcome is reached by steps of the run |
| Outboxes.Outbox.ProveDrain | common/beuptransfer/drain.go:130-185 | succeeds iff the flush, the re-inspection of the adapter, the second snapshot and the final save all do, and changes only this drain |
| Outboxes.QuietMeans | common/beuptransfer/counter_session.go:181-193 | a quiet inspection, direct or through a session, is of this epoch, comes from no uncertain session, knows the identity and means that no flow of it is left |
| Outboxes.Outbox.FlushLegacySeal | common/beuptransfer/legacy.go:47-63 | nothing is sent when exactly these totals are acknowledged; succeeds iff they are or a flush of them is ready, and then they are committed with nothing pending |
| Outboxes.Outbox.FlushLegacy | common/beuptransfer/legacy.go:67-95 | succeeds iff a flush would, except that a proved drain may have grown by up to the threshold; then each identity whose change is within the threshold stays at what was committed and every other is committed in full |
| Outboxes.LegacyResidue | common/beuptransfer/legacy.go:67-95 | a row is held back iff its change is at most the threshold; that takes nothing back and leaves at most the threshold uncommitted |
| Outboxes.HoldBackRows | common/beuptransfer/legacy.go:76-92 | overwriting rows in place holds back exactly the small changes, without overflow of the sum |
| Legacy.LegacyPayload | common/beuptransfer/legacy.go:99-132 | per owner the payload is the sum of the batch's rows, owners with no change are absent, it fails iff the batch is invalid or a sum exceeds 2^53, and request id and digest are those of the request and report texts |
| Legacy.Aggregate | common/beuptransfer/legacy.go:99-118 | the totals by owner, and exactly when they fail |
| Legacy.RequestTextInjective | common/beuptransfer/legacy.go:119-120 | the text behind the request id fixes scope, epoch and sequence |
| Legacy.ReportTextInjective | common/beuptransfer/legacy.go:121-131 | the report digest fixes scope, request id and the total of every owner |
| Legacy.SumByOwner | common/beuptransfer/legacy.go:113-131 | the accumulation loop computes those sums and stops at the first that is too large |
| Legacy.OwnerSumPermuted | common/beuptransfer/legacy.go:113-131 | an owner's sum does not depend on the order of rows |
| Sessions.SnapshotRows | common/beuptransfer/counter_session.go:149-179 | filling the map in loops, in any iteration order, gives the combined snapshot |
| Sessions.CounterSession.Begin | common/beuptransfer/counter_session.go:81-145 | a session starts only on zero counters, is on disk first, carries the uncertain mark, and from then on no run of the adapter admits a session for an identity with a recorded drain; on a new adapter it opens iff it may begin, is saved and every drained identity has a committed row |
| Sessions.StrandedDrain | common/beuptransfer/drain.go:90-109 | the run that records a drain of an identity without a row |
| Sessions.CounterSession.Drain | common/beuptransfer/counter_session.go:149-193 | a new proof names the carried base plus the counters of this process, leaves no flow of its identity in the inner adapter, now or later without a lasting mark; through an uncertain session no proof is created and none is returned |
| Sessions.CounterSession.CheckClosed | common/beuptransfer/counter_session.go:208-225 | succeeds iff every row's identity is inspected as tracked, bound, refusing and idle in this epoch |
| Sessions.CounterSession.Seal | common/beuptransfer/counter_session.go:230-283 | success means two equal snapshots around a full flush, exactly that snapshot committed, nothing pending, all its identities found closed in the adapter in both rounds with others acting before each, no flow of them running then or later without a lasting mark, and the sealed session on disk |
| Sessions.CounterSession.SealOpen | common/beuptransfer/counter_session.go:246-283 | after the fencing, succeeds iff both snapshots can be taken and agree, every identity is closed in both rounds, the flush goes through and the seal is saved |
| Sessions.RestoreFences | common/beuptransfer/drain.go:64-79 | refused when poisoned or without an adapter; success keeps the identity of every recorded drain out of every later run of the adapter |
| Adapters.GuardAdapter.Bind | common/beuptransfer/adapter_guard.go:44-67 | accepted iff well formed, not quiescing, the login not another identity's and room left; otherwise (except while quiescing) a coverage failure sticks |
| Adapters.GuardAdapter.Track | common/beuptransfer/adapter_guard.go:69-79 | refused while quiescing or held, else decided by the guard |
| Adapters.GuardAdapter.NoteIdentityCoverageFailure | common/beuptransfer/adapter_guard.go:81-91 | a bound login marks its identity incomplete, an unknown one spoils the whole guard |
| Adapters.GuardAdapter.Fence | common/beuptransfer/adapter_guard.go:93-132 | held already is success; a sealed identity without binding is held in the adapter, any other by a manual lease in the guard |
| Adapters.GuardAdapter.FenceAll | common/beuptransfer/drain.go:73-77 | success holds every given identity, failure releases none; on an adapter without logins it succeeds iff every identity is held or restored |
| Adapters.GuardAdapter.Quiesce | common/beuptransfer/adapter_guard.go:154-174 | binding is closed for good, and success holds every bound and every restored identity |
| Adapters.GuardAdapter.RestoreSealedIdentities | common/beuptransfer/adapter_guard.go:178-193 | succeeds iff the adapter is fresh and the identities are valid and distinct, and then exactly these are known |
| Adapters.HeldStaysOut | common/beuptransfer/adapter_guard.go:44-132 | once held, an identity stays held and admits no session ever again, also when bound anew and however concurrent calls interleave |
| Adapters.QuiescedCloses | common/beuptransfer/adapter_guard.go:44-79 | once quiescing, no login is bound and none passes; with no call between its halves there is never another session |
| Adapters.GuardAdapter.Inspect | common/beuptransfer/adapter_guard.go:134-150 | the held flag, open sessions, readiness and bindings (a sealed identity counting as bound) |
| Adapters.InspectMeansSilent | common/beuptransfer/drain.go:25-29 | an inspection that says rejecting, tracked and none outstanding means that no flow of the identity is running, and that in every later state none is while readiness lasts, nor any tracked one |
| Adapters.InspectKnows | common/beuptransfer/adapter_guard.go:134-150 | an inspection counts a binding iff the identity is bound or restored, and none outstanding iff it has no session; when ready every running flow of it is tracked |
| Adapters.SilentForGood | core/xray/app/dispatcher/transfer.go:25-48 | from a state without flows, a held identity has none at any point of a run iff the host serves none of its flows without asking the adapter |
| Adapters.ClosedThenServed | core/xray/app/dispatcher/transfer_inbound.go:13-34 | the run in which an identity is bound, fenced and inspected as closed, and a flow of it that the host cannot attribute is then served; readiness is gone |
| Guards.Guard.Track | common/beupguard/guard.go:144-173 | admission, refusal while blocked, expiry of old leases and sticky failure counts |
| Guards.Guard.Apply | common/beupguard/guard.go:200-259 | installs a lease once, refuses conflicts and resurrections, and asks every session of the identity to close |
| Guards.Guard.Release | common/beupguard/guard.go:274-287 | ends only the lease it names |
| Guards.Guard.CheckTrackingReady | common/beupguard/guard.go:105-120 | ready iff no failure was counted and the bound inbounds are exactly the required ones |
| Guards.Guard.Outstanding | common/beupguard/guard.go:263-273 | the number of sessions of an identity |
| Guards.TrackExactly | common/beupguard/guard.go:144-173 | a flow is let in iff its login is bound, no lease of its identity stands and there is room; it then has one new session; any refusal but isolation is counted for good |
| Guards.ApplyExactly | common/beupguard/guard.go:200-259 | a lease is applied iff it is the standing one, or new, valid, of a bound identity without a standing lease and the history has room; it then stands and every session is asked to close; a refusal changes nothing |
| Guards.ReleaseExactly | common/beupguard/guard.go:274-287 | a release succeeds iff the lease was seen under that identity; it then does not stand and no other lease is touched |
| Guards.RunKeeps | common/beupguard/guard.go:144-259 | every tracked flow has its session, an untracked one has left a failure count, and while blocked all sessions were asked to close |
| Guards.BlockedShrinks | common/beupguard/guard.go:144-259 | while a lease is in force the identity's session set only shrinks, over any interleaving |
| Guards.NoFlowLeft | common/beupguard/guard.go:105-173 | blocked, ready and no session means that no flow of the identity, tracked or not, runs on an inbound in scope |
| Guards.ServedInScope | common/beupguard/registry.go:34-46 | when only inbounds in scope are served, every flow is on one |
| Guards.FailuresStick | common/beupguard/guard.go:299-301 | once a flow went untracked, tracking is never ready again |
| Commands.DigestInjective | common/beupguard/controller.go:127-129 | equal digests of verified envelopes mean equal envelopes |
| Authority.GenuineExactly | common/beupguard/controller.go:101-126 | an envelope is verified iff it decodes to a version 1 command for this node, of one of three operations, valid for at most 60 seconds, about a lease that can be asked for, a block one begun in the last 60 seconds |
| Authority.DiskLawful | common/beupguard/controller.go:158-208 | over every run, every record on disk is such a command, numbered by its place, accepted in time and under a usable boot clock, a block not before any earlier record |
| Authority.ReplayNotes | common/beupguard/controller.go:166-192 | replay has noted exactly the leases opened, ended and cancelled by the records |
| Commands.OncePerLease | common/beupguard/controller.go:188-219 | in an accepted journal each lease is opened once, released at most once, and only the very lease that was blocked can be released |
| Commands.JournalBounded | common/beupguard/controller.go:145-147 | an accepted journal has at most 8192 records, so the limit of 10000 is never met |
| Commands.HoldLength | common/beupguard/controller.go:101-126 | every accepted temporary hold has 481 to 605 seconds from acceptance to expiry |
| Commands.HoldLengthTight | common/beupguard/controller.go:101-126 | both ends of that range occur |
| Commands.PendingExact | common/beupguard/controller.go:158-208 | the pending map of the replay loop is exactly, per identity, the last block whose lease is not released |
| Controllers.AcceptedReplays | common/beupguard/controller.go:240-334 | a record `Execute` decides to write is accepted by replay iff it is not a first block before 1970 |
| Controllers.EarlyBlockSticks | common/beupguard/controller.go:160-165 | that block is written and no later start succeeds |
| Controllers.MirrorCommits | common/beupguard/controller.go:335-356 | committing a command changes the live state as replaying its record changes history |
| Controllers.Reached | common/beupguard/controller.go:134-364 | in every state of every run the live state mirrors the journal, also between check, write and commit |
| Controllers.JournalOpens | common/beupguard/controller.go:134-238 | every journal a run leaves on disk opens again and has at most 8192 records |
| Controllers.RestartRefines | common/beupguard/controller.go:209-238 | a restart in the same boot, from whatever state the process died in, rebuilds its durable state: the same history, reconciliation and exactly the leases still in force, with the same deadlines |
| Controllers.RebootRefines | common/beupguard/controller.go:209-227 | after a reboot, likewise from any state, the manual holds of the durable state survive unchanged and the pending temporary ones are exactly the reconcile set |
| Controllers.DurableMirrors | common/beupguard/controller.go:328-333 | the durable state is the live one, or, when a record is on disk that the process has not committed, the live one after that commit; it mirrors the journal on disk |
| Controllers.SettledDurable | common/beupguard/controller.go:328-333 | a process with no write under way or uncertain is its own durable state |
| Controllers.LeaseLifetime | common/beupguard/controller.go:209-227 | every live temporary lease ends 481 to 605 seconds of boot time after its acceptance, however often the process restarted |
| Controllers.HoldPersists | common/beupguard/controller.go:193-208 | in an accepted journal a pending hold stays until released or run out; no second block replaces it |
| Controllers.HeldWhileRecorded | common/beupguard/controller.go:134-364 | in any reachable state a recorded, unreleased, unexpired hold blocks its identity and refuses its flows |
| Controllers.DiskGrows | common/beupguard/controller.go:328-334 | the journal on disk is only ever extended |
| Controllers.AckHonest | common/beupguard/controller.go:365-399 | an acknowledgement with existing-closed implies that the named lease blocks the identity and that no flow of it, tracked or not, runs on an inbound in scope |
| Controllers.AckHonestServed | common/beupguard/controller.go:365-399 | over every run in which all served inbounds are in scope, existing-closed implies that no flow of the identity is running |
| Controllers.UncoveredFlowRuns | common/beupguard/registry.go:34-46 | under any scope, the run in which existing-closed is acknowledged while a flow of the identity runs on an inbound outside it |
| Controllers.TruthfulExactly | common/beupguard/controller.go:365-399 | over all keyrings and all runs that serve given inbounds under a scope: existing-closed always implies that no flow of the identity is running, iff every served inbound is in scope |
| Controllers.AckRejects | common/beupguard/controller.go:365-399 | "reject new" is true: the named lease is the standing one of the journal and every flow of the identity is refused |
| Authority.BlockedExactly | common/beupguard/controller.go:209-238 | in any reachable state an identity is blocked iff its standing block of the journal is in force, and by that lease |
| Authority.AckExactly | common/beupguard/controller.go:365-399 | every acknowledgement reports the state the journal gives the lease (not applied, isolated, superseded, interrupted by a reboot, ended), rejects new flows iff a block stands, counts the sessions of the standing lease, and is ready only with nothing to reconcile |
| Controllers.CommitAsksAll | common/beupguard/controller.go:335-362 | every session of the identity is asked to close, those opened during the journal write included |
| Controllers.HoldShrinks | common/beupguard/controller.go:240-364 | while a lease is in force the session set only shrinks, across all controller and traffic steps |
| Isolation.ExecuteIsSteps | common/beupguard/controller.go:240-364 | one call of `Execute` is the machine's submit, save and commit steps |
| Isolation.Controller.Execute | common/beupguard/controller.go:240-364 | the object does what the value-level call does; a command is written iff it is due: genuine, the next in number, in time, and allowed (a block only for a bound identity, ready tracking, nothing to reconcile, a valid new lease and no standing one); otherwise nothing changes, and it is answered iff this very envelope is in the journal |
| Authority.WritesExactly | common/beupguard/controller.go:240-327 | the command that is due is exactly what the first critical section lets through |
| Authority.RepeatsJournal | common/beupguard/controller.go:252-259 | an answer is repeated iff the envelope is in the journal, at the place its number names |
| Isolation.Controller.CheckCommand | common/beupguard/controller.go:278-327 | the checks with later errors overriding earlier ones |
| Isolation.Controller.Ack | common/beupguard/controller.go:365-399 | computes the acknowledgement whose honesty is proved above |
| Isolation.ReplayRecords | common/beupguard/controller.go:158-208 | the startup loop over records computes the replay, rejecting exactly the journals replay rejects |
| Isolation.Rebuild | common/beupguard/controller.go:209-227 | the loop over pending holds yields the restored leases and the reconcile set, or fails iff the boot clock moved back |
| Isolation.OpenController | common/beupguard/controller.go:134-238 | opens iff the journal, clock and fresh guard allow it, and installs exactly the rebuilt overlay |
| Authority.OpenExactly | common/beupguard/controller.go:134-238 | a controller opens iff name and boot clock are usable, the journal replays, no standing temporary hold of this boot lies in the future and the guard has seen nothing |
| Registries.Track | common/beupguard/registry.go:84-118 | the first covering guard that holds the identity refuses the flow and all earlier registrations are undone; otherwise each covering guard was asked once and the handle holds what was registered |
| Registries.Handle.Finish | common/beupguard/registry.go:93-101 | the completion removes exactly the registered sessions, once |
| Registries.UndoneLeavesNothing | common/beupguard/registry.go:102-117 | undoing leaves the sessions as before and forgets no failure |
| Registries.UndoneHolds | common/beupguard/registry.go:102-117 | asking a guard and undoing it changes no hold |
| Registries.RefusedLeavesNone | common/beupguard/registry.go:84-118 | a number handed out by a guard and given back is never in use again in it, whatever other calls do meanwhile, and nobody else's session is removed |
| Groups.SessionsAreTickets | common/beupguard/registry.go:84-118 | over every interleaving of any number of group calls and commands, the sessions of every guard are exactly the tickets of the calls that are not over; a refused or completed call has left none in any guard |
| Groups.ServedClear | common/beupguard/registry.go:84-118 | over every interleaving, a call that serves asked every guard that covers its inbound, and none of them held it at that moment |
| Groups.StandingHold | common/beupguard/registry.go:82-118 | a hold that stands in one covering guard throughout the call keeps it from serving in every interleaving |
| Groups.RefusedExactly | common/beupguard/registry.go:84-118 | a call is refused iff some covering guard held it when it was asked |
| Groups.RefusedForGood | common/beupguard/registry.go:84-118 | a refused call never serves, whatever the other guards say and whenever the hold ends |
| Windows.BookGood | common/beupobserve/observer.go:411-477 | booking keeps accepted equal to reported work, edges equal to stored targets and ports, `MaxTargetRequests` the true maximum and the refused pair the lexicographic maximum over single targets |
| Windows.RaiseGood | common/beupobserve/tcp_outcomes.go:60-96 | raising the pair by the touched target keeps it the lexicographic maximum of (ports, attempts) of one target |
| Windows.BookCounts | common/beupobserve/observer.go:418-468 | each booked event adds one to accepted or lost, touches one account, and both windows stay within 4096 accounts and 65536 edges |
| Observation.Conservation | common/beupobserve/observer.go:270-552 | over every interleaving, attempts are reported requests and dials plus reported drops plus unmapped plus what is queued, windowed, in flight or in the loss counter |
| Observation.Attribution | common/beupobserve/observer.go:301-409 | over every interleaving, every counted sample was observed while its label was bound to the subject it counts for; from the queue it is counted in the minute it was prepared in, from its own producer in the minute of the second reading |
| Evidence.EvidenceExactly | common/beupobserve/observer.go:385-477 | over every interleaving, every account, open or reported, is what the samples that touched it in its minute say: each counter the number of counted samples of its kind, each port set theirs, the credential the one they all came under |
| Evidence.ReportsExactly | common/beupobserve/observer.go:553-561 | so is every subject of every report: requests by protocol, distinct targets and ports, the maximum per target, dials by outcome, the worst refused target; the dial part is complete and names a credential iff all samples came under it |
| Evidence.TwoCredentials | common/beupobserve/observer.go:428-437 | samples under two credentials leave a dial part without credential that is not complete |
| Marks.MarksExactly | common/beupobserve/observer.go:516-552 | a report is partial iff its window was not watched from its beginning, was reset, or a sample that no window accounts for was lost while it was open or ahead; it has a clock gap iff it closed late or a sample was lost because of its minute |
| Rooms.RecordExactly | common/beupobserve/observer.go:385-477 | a sample is counted iff it is timely, bound and there is room, unmapped iff timely and not bound, a loss of no window iff not timely, and else lost in its window |
| Rooms.BookedExactly | common/beupobserve/observer.go:441-468 | an account has room iff its targets, ports and refused ports stay within 2048 and the edges of both windows within 65536 |
| Rooms.EnqueueExactly | common/beupobserve/observer.go:324-333 | a sample that finds the lock taken waits iff fewer than 512 do |
| Rooms.JudgeExactly | common/beupobserve/observer.go:349-372 | a reading is accepted iff its minute is open and the marker is not of an earlier number with a later minute; the marker follows exactly the later readings |
| Rooms.MinuteExactly | common/beupobserve/observer.go:316-322 | a reading is stamped with the whole minute next to it, toward zero |
| Rooms.SubjectExactly | common/beupobserve/observer.go:205-236 | a reference has a subject iff the registry names one that is not empty |
| Rooms.ApplyExactly | common/beupobserve/observer.go:205-266 | the reference each key has after a change |
| Readings.MovedExactly | common/beupobserve/observer.go:301-345 | a counted sample lies in another minute than the one it was prepared in iff its producer took the lock itself and its second reading showed another minute; a queued sample never moves |
| Readings.MovedSample | common/beupobserve/observer.go:334-344 | the run in which a sample prepared in minute 0 is counted in minute 60 |
| Observation.Limits | common/beupobserve/observer.go:411-477 | the caps hold in every state of every run, edges being the true count |
| Observation.BindingsFollow | common/beupobserve/observer.go:205-266 | bindings are at all times the authenticated references seen through the registry, at most 50000 of them |
| Observation.BindRoom | common/beupobserve/observer.go:228-232 | the second capacity check of `Bind` cannot fire |
| Observation.CloseConserves | common/beupobserve/observer.go:516-552 | closing, on time or after a stall, moves everything held into the report except the next minute |
| Observation.ResetKeeps | common/beupobserve/observer.go:270-293 | a reset turns accepted, lost and queued samples into visible loss and keeps unmapped ones |
| Readings.NeverRefusedExactly | common/beupobserve/observer.go:349-372 | no reading can be refused as a reversal, whatever the order of arrival, iff numbers are in the order of the minutes read |
| Readings.BoundaryExactly | common/beupobserve/observer.go:349-372 | under a clock that only goes forward this is so iff, of two readings on the two sides of a minute boundary, the earlier one has the smaller number |
| Readings.FalseReversal | common/beupobserve/observer.go:316-322 | the run in which the clock only goes forward, a number is taken before another one's reading, and a reading is refused and the window marked with a clock gap |
| Readings.ReversalInRun | common/beupobserve/observer.go:349-372 | in every state of every run a reading, the first one or the second under the lock, is refused as a reversal iff the marker standing then has a number at most its own and a later minute; the marker is no later than the window or stems from a reading; and if numbers agree with readings none was ever refused |
| Readings.MarkerForward | common/beupobserve/observer.go:349-372 | the marker never goes back and always stems from a reading |
| Reports.BuildReports | common/beupobserve/observer.go:553-588 | batches of at most 200 subjects hold every account once in ascending order with its counters, at least one batch exists, and their requests and dials add up to what was accepted |
| Reports.Split | common/beupobserve/observer.go:569-587 | the chunking loop: number of batches, manifest and contents |
| Observers.TouchTarget | common/beupobserve/tcp_outcomes.go:60-96 | the refused branch with its limits and running pair |
| Observers.RecordDial | common/beupobserve/tcp_outcomes.go:51-108 | counting a dial computes the account the theorems speak about |
| Observers.RecordRequest | common/beupobserve/observer.go:441-477 | likewise for a request |
| Observers.Observer.RecordPrepared | common/beupobserve/observer.go:385-477 | a sample is counted, lost, unmapped or dropped as `RecordExactly` says, and the accounts are then what `EvidenceExactly` says |
| Observers.Observer.DrainPending | common/beupobserve/observer.go:374-383 | the loop records up to the limit in queue order |
| Observers.DrainKeeps | common/beupobserve/observer.go:374-383 | draining neither gains nor loses a sample |
| Observers.Observer.ObserveEvent | common/beupobserve/observer.go:301-345 | one call leaves exactly the state that preparing, enqueueing or draining, re-reading and recording lead to |
| Observers.ObserveAdds | common/beupobserve/observer.go:301-345 | one call adds exactly one sample to what is held, within all limits, and changes no identity |
| Readings.ObserveIsSteps | common/beupobserve/observer.go:301-345 | such a call is a run of the system, so the theorems about runs hold for it |
| Observers.Observer.ObserveMinute | common/beupobserve/observer.go:349-372 | the retry loop ends with the verdict for the marker it last lost to |
| Observers.Observer.Bind | common/beupobserve/observer.go:205-236 | maps the key iff a slot and a subject exist, keeps bindings coherent, and moves the generation by two unless nothing changes |
| Observers.Observer.Unbind | common/beupobserve/observer.go:237-245 | removes one key coherently under a new generation |
| Observers.Observer.UnbindTag | common/beupobserve/observer.go:640-653 | removes exactly the keys of the tag, coherently |
| Observers.Observer.ReplaceRegistry | common/beupobserve/observer.go:249-266 | rebinds every reference through the new registry and resets the windows under a new generation |
| Observers.Observer.ResetWindows | common/beupobserve/observer.go:270-293 | the draining loop and counters of a reset |
| Observers.Observer.Snapshot | common/beupobserve/observer.go:500-589 | nothing closes early; otherwise the drained window is closed and its batches report exactly what the closed window reports |
| Limiters.DetermineLeast | limiter/dynamic.go:20-38 | the result is the least limit that is set iff no limit is negative while the other is unset |
| Limiters.DetermineNegative | limiter/dynamic.go:20-38 | of 0 and -5 the code returns 0 |
| Limiters.BytesExact | limiter/limiter.go:221 | the conversion to bytes is exact iff the 64-bit product does not wrap |
| Limiters.LeastExactly | limiter/limiter.go:182-221 | the least of node, owner and dynamic limit is found iff no negative one meets one that is not set |
| Limiters.FairExactly | limiter/limiter.go:162-233 | the verdict is unlimited or 125000 bytes per second for each megabit of the least limit set, the dynamic one only while it lasts; for products that do not wrap, iff no positive node limit stands beside a single negative limit of the owner; for limits that are not negative, iff the product of the least one does not wrap |
| Limiters.WrappedRate | limiter/limiter.go:221 | a node limit whose product wraps |
| Limiters.RejectedExactly | limiter/limiter.go:162-219 | a credential is turned away iff it is unknown, or the address is counted and new and its owner's devices are used up |
| Limiters.UpdateExactly | limiter/limiter.go:98-146 | what an update leaves, owner by owner and credential by credential |
| Limiters.DynamicExactly | limiter/limiter.go:148-160 | a dynamic limit reaches exactly the owner of a known credential |
| Limiters.TrimmedExactly | limiter/limiter.go:166 | an IPv4 address is the same in its IPv6 form |
| Limiters.LoadedLimits | limiter/limiter.go:57-75 | an owner's initial speed and device limit are the last ones set among its credentials |
| Limiters.LoadedOwners | limiter/limiter.go:57-75 | exactly the owners in the list get a record |
| Limiters.CacheCoherent | limiter/limiter.go:98-233 | after any sequence of updates, dynamic limits, expiries and checks every cached bucket has the rate of its owner's current limits |
| Limiters.CheckCurrent | limiter/limiter.go:162-233 | a check's answer is decided by the device limit and the limits in force at that time, cached or not |
| Limiters.AddLimiter | limiter/limiter.go:47-80 | credentials of an owner share one record and no bucket is cached |
| Limiters.Limiter.UpdateUser | limiter/limiter.go:98-146 | deletions, owner removal and additions over shared records keep aliasing and coherence |
| Limiters.Limiter.RemoveOwner | limiter/limiter.go:109-130 | an owner goes, with its bucket, iff no credential remains or comes |
| Limiters.Limiter.UpdateDynamicSpeedLimit | limiter/limiter.go:148-160 | changes the shared record and drops the bucket, or reports a missing credential |
| Limiters.Limiter.CheckLimit | limiter/limiter.go:162-233 | refuses by the device limit or returns the owner's one bucket, the same object until the limits change, at 125000 bytes per second for each megabit of the least limit that is set |
| Limiters.Limiter.AdmitDevice | limiter/limiter.go:186-219 | the address is recorded and taken off again on refusal, as the device rule says |
| Limiters.AdmitExact | limiter/limiter.go:186-219 | refused iff the address is new for its credential, was not online in the previous period and the owner's devices are used up; a refusal leaves no trace, anything else is on record for its owner, and takes only the owner's own address off the previous period |
| Limiters.Limiter.UpdateAliveList | limiter/limiter.go:269-273 | replaces the device counts and nothing else |

## Left out

- HTTP clients, wire signing and the panel API: network plumbing; the receiver contract is kept in `Delivery.Commit`.
- File stores, locks and key files: replaced by a save that leaves the old or the new content.
- SHA-256, HMAC, Ed25519, hex, base64, JSON and random identifiers: opaque or injective; shortening a hash to the legacy request id is a function parameter.
- Journal byte-size limits: they depend on JSON lengths and only add a refusal.
- `Worker`, `Runtime`, host controllers and periodic tasks: timers around the core.
- `Drain` with a nil adapter: it only adds a refusal.
- `OpenLegacy` and its epoch generation: it adds a random epoch to `Open`.
- Proxy cores and dispatchers: represented as counters and flows.
- Subscription grants in the guard (`authorizations`): unrelated to holds.
- Closing flows: a close callback counts as requested when it is collected; that the proxy then ends the flow is outside.
- `sort.Slice` is an insertion sort on values; the sorted form is unique, so any sort gives it, but sorting in place is not captured.
- Nested maps of the observer's windows are values in fields that are reassigned; pointers into them are not modelled.
- Registry validation in the observer's `New`: `Replace` takes a registry that was accepted.
- Report signing, delivery queue and loss diagnostics of the observer beyond their counters.
- Wrap-around of the observer's and guard's 64-bit event counters.
- `GetOnlineDevice` and rule matching of the limiter: reporting and regular expressions.
- `AddDynamicSpeedLimit`: it has no caller.
- `CounterSession.Seal` and `Quiesce`: when their fencing succeeds on an adapter with bound logins depends on the guard's leases and is not characterised; everything after the fencing is (`Sessions.CounterSession.SealOpen`).
