# T2Touch: verified models of the trust decisions

T2Touch drives Apple's T2 secure coprocessor over a message channel and serves fingerprint
verification to Linux. Most of its hard logic decides which state may be trusted after
interleavings, late callbacks, crashes and restarts. This project models that logic in Dafny and
proves what it promises, for every input, every interleaving and every run.

| module | models |
|---|---|
| `WorkerSleep` | the native worker, its import-only spare and the suspend quiesce, as a step system whose steps run from one `await` to the next |
| `DeviceSlots` | the claim, its generation, and the verify, enroll and delete slots under concurrent D-Bus calls |
| `DeviceHistories` | where published matches come from, how claims succeed one another, what an undisturbed verification achieves |
| `DeviceCalls` | what each device call and timer achieves when nothing disturbs it, and what a refused one leaves |
| `DeviceRaces` | exactly when a Release can end another sender's claim, and when a match can go to another claim |
| `Login1` | sleep-state reconciliation with login1 over an ordered bus |
| `InventoryCache` | the presentation cache of runtime projections |
| `RateLimiter` | the per-sender method rate limit |
| `StderrFraming` | line framing of the worker's stderr |
| `MatchEvent` | the byte-level parser of service events, and the stop policy |
| `MatchSession` | one match session: observation, per-result lockout export, cancel, drain, late-result reconciliation |
| `LockoutStore` | the append-only bio-lockout store, its seeding and the sensor-ahead recovery |
| `TemplateSync` | master-then-user Catacomb restore against any sensor |
| `RequestCodec` | the match request and password verification builders and their inverses |
| `ResultValidators` | the negative and required-identity validators against the stop policy |
| `SavedEvidence` | the private event encoding, its decoder and the replay of saved runs |
| `JournalSelectors` | the four recovery selectors over a directory of mutation journals |
| `FirstRun` | the restartable first-run dispatcher over durable phases |
| `ArchiveStream` | the length-bounded archive receive loop |
| `Bytes`, `WireValues`, `Wrappers` | bytes and little-endian integers, wire values, results |

How the models are built:

* Coroutines are tasks whose program counter names the `await` they are suspended at. Every task
  may also fail or be cancelled there, and timers may fire at any moment, so the modelled runs
  include every run of the event loop.
* What arrives from outside (sensor replies, callbacks, owner outcomes, chunks, tokens, clocks) is
  a parameter over which the theorems quantify.
* Objects whose fields the program updates are classes, and their sections between two awaits are
  proved equal to the step functions the theorems are about: in `Supervisor` the sleep notification,
  spare scheduling, discarding, ensure, spare start and quiesce; in `FprintDevice` claiming,
  departure, the stop chain with Release, verify, enroll and delete, but not the expiry timers; in
  `SleepMonitor` the four login1 handlers; in `ProjectionCache` both halves of a projection,
  invalidation and the sleep change.
* Python integers are `int`, clock values are `real`, digests are opaque injective tokens.

Findings that the proofs made explicit:

* `SecondStopIsRefused`: the loop over the callbacks that came with the start reply does not break
  on a stop, so a run can hold a second result; the negative validator refuses it.
* `StaleExactlyWhenExposed`: the authority token is not read again after a collection, so a hit can
  be stale, on exactly the histories in which a token leaves and returns around a servable window.
* `WindowsBoundedExactly`: the rate limit bounds half-open windows of ten seconds and closed windows
  shorter than that; a closed one of ten seconds can hold nine calls.
* `ReleaseEndsOnlyItsOwnClaimExactly`: Release clears the claim without a last owner check. It can
  end another sender's claim if and only if an operation slot is set when its owner check passes.
* `MatchKeepsItsClaimExactly`: a running verification can publish to a later claim of its sender if
  and only if some call already waits in the stop chain for something else.
* `Run` of `FirstRun.Invocation`: when the bundle is one step short of complete, the phase is not
  read again after the resume, so that invocation always stops and the next one becomes ready.
* `HandledIsSplitExactly`: whether an oversized stderr line survives depends on the chunks it
  arrives in; lines of at most 65536 bytes never depend on them.
* `MatchReadsBack`: a match request loses information exactly when the base flags already carry
  one of the two mode bits.

## Model

| member | source | states |
|---|---|---|
| `WorkerSleep.QuiescedUntilWake` | src/t2-fprintd.py:1035-1139 | in every run, once a quiesce reaches its last await with its sleep generation current, no worker, spare or start licence exists in any later state before a wake |
| `WorkerSleep.WorkersNeverLeak` | src/t2-fprintd.py:823-940 | in every reachable state each started process is exactly one of active worker, spare, discarded; at most one coroutine starts a spare |
| `WorkerSleep.StepKeepsInv` | src/t2-fprintd.py:815-940 | every atomic step keeps the lock, slot and conservation invariant |
| `WorkerSleep.StepKeepsQuiet` | src/t2-fprintd.py:915-940 | while asleep no step can start anything from a quiet state |
| `WorkerSleep.UndisturbedEnsure` | src/t2-fprintd.py:823-913 | from every state with the lock free, whatever the slots hold and whichever processes still run, the sections end in exactly the ensured state: a running worker is kept, a dead one retired, a running spare promoted, a dead one retired, otherwise one process started; asleep nothing happens |
| `WorkerSleep.FailedStartIsRetired` | src/t2-fprintd.py:859-913 | a started worker whose handshake fails or that has no stdout is retired, the slot empty and the lock free again |
| `WorkerSleep.UndisturbedSpareStarts` | src/t2-fprintd.py:915-940 | awake and without a spare, scheduling one ends with exactly one new process in the spare slot |
| `WorkerSleep.FailedSpareIsRetired` | src/t2-fprintd.py:859-913 | a spare whose handshake fails is retired and its slot empty again |
| `WorkerSleep.SleepLeadsToLock` | src/t2-fprintd.py:1035-1139 | from every reachable state a sleep notification can bring its quiesce to the start lock with its generation current, past a running earlier quiesce and a running spare start |
| `WorkerSleep.SleepCanQuiesce` | src/t2-fprintd.py:1035-1139 | from every reachable state a sleep notification can bring its own quiesce to the last await, generation current, with nothing running and nobody licensed to start anything |
| `WorkerSleep.CancelledTaskEnds` | src/t2-fprintd.py:859-913 | any coroutine that is cancelled unwinds to its end, leaving the other tasks as they were |
| `WorkerSleep.LockedQuiesceEmpties` | src/t2-fprintd.py:1072-1096 | with the lock free, a current quiesce retires whatever the two slots hold and reaches its last await |
| `WorkerSleep.Supervisor.SystemSleepChanged` | src/t2-fprintd.py:1098-1130 | the synchronous section equals the step: generation bumped, a quiesce queued behind a running one |
| `WorkerSleep.Supervisor.ScheduleNativeSpare` | src/t2-fprintd.py:915-940 | schedules at most one starter, none while asleep or with a spare present |
| `WorkerSleep.Supervisor.DiscardNativeWorker` | src/t2-fprintd.py:1141-1173 | empties exactly the slot holding the process and retires it once |
| `WorkerSleep.Supervisor.EnsureSection` | src/t2-fprintd.py:815-913 | each section of ensuring and starting the worker equals its step |
| `WorkerSleep.Supervisor.QuiesceSection` | src/t2-fprintd.py:1035-1096 | each section of the quiesce equals its step |
| `WorkerSleep.Supervisor.SpareSection` | src/t2-fprintd.py:859-913 | each section of a spare start equals its step |
| `DeviceSlots.OperationsAreExclusive` | src/t2-fprintd.py:1929-2020 | in every reachable state at most one of the three slots is set, at most one operation runs, and a running one holds its slot |
| `DeviceSlots.StepKeepsInv` | src/t2-fprintd.py:2195-2274 | every step, the enrollment start that reserves nothing included, keeps the slot invariant |
| `DeviceHistories.MatchesReachTheirStarter` | src/t2-fprintd.py:1930-2091 | every published match of every run was published from the verify slot, under its starter's claim, by an operation that an earlier step created for a VerifyStart call of that same sender, itself begun under that sender's claim |
| `DeviceHistories.StepOriginates` | src/t2-fprintd.py:1930-2060 | after any step every verify call and operation is an old one of the same sender, or began as a VerifyStart |
| `DeviceHistories.ClaimsNeverRecur` | src/t2-fprintd.py:1723-1820 | over any run a claim that was given up never comes back: it is the same claim if and only if the generation is the same |
| `DeviceRaces.ReleaseEndsOnlyItsOwnClaimExactly` | src/t2-fprintd.py:1889-1895 | in every run, a Release whose owner check passes now can go on to end a claim of another sender if and only if some operation slot is set now |
| `DeviceRaces.IdleReleaseIsOver` | src/t2-fprintd.py:1889-1895 | with every slot empty the check and the clearing are one step |
| `DeviceRaces.WaitingReleaseLoses` | src/t2-fprintd.py:2142-2171 | a Release that waits for any slot's task, whoever holds the claim lock, can be overtaken by a claim of another sender and end it |
| `DeviceRaces.MatchKeepsItsClaimExactly` | src/t2-fprintd.py:2030-2060 | in every run, a verification under a claim can publish its match to another claim than the present one if and only if some call already waits in the stop chain past it |
| `DeviceRaces.StepKeepsUndisturbed` | src/t2-fprintd.py:2151-2171 | with no such call, every step keeps the claim for as long as the operation runs |
| `DeviceRaces.StepKeepsLive` | src/t2-fprintd.py:2142-2171 | every step keeps that a slot's live task owns it, the lock is held by its user, and stop waits are for tasks that own the slot waited for or are over |
| `DeviceSlots.StopFailedKeepsInv` | src/t2-fprintd.py:2328-2352 | a failed or cancelled stop keeps the invariant, a worker's failure to stop that Release, departure and reaping ignore included |
| `DeviceSlots.PublishStep` | src/t2-fprintd.py:2042-2060 | a publishing step belongs to the verify slot's operation, under its sender's claim, with the other slots empty |
| `DeviceSlots.OwnerCheckSpansOneClaim` | src/t2-fprintd.py:1822-1887 | when the owner check passes, generation and claim were the same, and the caller's, in every state across its await |
| `DeviceSlots.GenerationOnlyGrows` | src/t2-fprintd.py:1811-1820 | over any run the claim generation never decreases, and an equal generation means an unchanged claim |
| `DeviceSlots.StepCountsClaims` | src/t2-fprintd.py:1723-1820 | each claim or clear raises the generation by one, nothing else does, and no claim overwrites another |
| `DeviceHistories.UndisturbedVerifyStarts` | src/t2-fprintd.py:1930-2020 | from an idle claim VerifyStart's three sections end with its operation running and in the slot |
| `DeviceHistories.UndisturbedMatchIsPublished` | src/t2-fprintd.py:2030-2091 | a match of the claimant's operation is published once, to the current claim; a non-match is not |
| `DeviceCalls.UndisturbedEnrollStarts` | src/t2-fprintd.py:2196-2274 | from an idle claim the sections of EnrollStart end with the enrollment running and in its slot, and nothing else changed |
| `DeviceCalls.UndisturbedDeleteStarts` | src/t2-fprintd.py:2381-2487 | from an idle claim the sections of DeleteEnrolledFinger end with the deletion running and in its slot |
| `DeviceCalls.RefusedStartChangesNothing` | src/t2-fprintd.py:1930-1940 | on a busy device, or when its check fails, each of the three starts ends with nothing changed |
| `DeviceCalls.LiveClaimIsRespected` | src/t2-fprintd.py:1723-1809 | a Claim while the claimant lives changes nothing |
| `DeviceCalls.DeadClaimIsReaped` | src/t2-fprintd.py:1723-1809 | a Claim over a claimant that is provably gone ends with the caller holding a new claim |
| `DeviceCalls.DepartureEndsOwnClaim` | src/t2-fprintd.py:2142-2149 | a departing sender ends its own idle claim and no other |
| `DeviceCalls.UndisturbedVerifyStops` | src/t2-fprintd.py:2151-2171 | VerifyStop waits for the running verification and frees its slot; the claim stays |
| `DeviceCalls.UndisturbedEnrollStops` | src/t2-fprintd.py:2328-2352 | EnrollStop does the same for the enrollment |
| `DeviceCalls.NothingToStop` | src/t2-fprintd.py:2151-2171 | a stop with nothing running is refused and changes nothing |
| `DeviceCalls.ReleaseWaitsForDeletion` | src/t2-fprintd.py:2354-2370 | Release waits for the running deletion, then clears the claim |
| `DeviceSlots.FprintDevice.VerifyStartSection` | src/t2-fprintd.py:1930-2020 | each section between awaits equals its step, failure paths giving the reservation back |
| `DeviceSlots.FprintDevice.EnrollStartSection` | src/t2-fprintd.py:2196-2274 | each section equals its step: no reservation, every slot checked again before the start |
| `DeviceSlots.FprintDevice.OperationSection` | src/t2-fprintd.py:2030-2091 | the verification's sections publish only after the owner check |
| `DeviceSlots.FprintDevice.StopSection` | src/t2-fprintd.py:2142-2171 | each section of VerifyStop, EnrollStop, Release, departure and reaping equals its step, ignored worker failures included |
| `DeviceSlots.FprintDevice.ClaimSection` | src/t2-fprintd.py:1723-1809 | each section of Claim and of a sender's departure equals its step |
| `DeviceSlots.FprintDevice.DeleteSection` | src/t2-fprintd.py:2381-2487 | each section of deletion equals its step |
| `Login1.AwakeOnOwnersWord` | src/t2-fprintd.py:2648-2743 | in every run, awake means the evidence came from the owner on record |
| `Login1.AwakeIsCurrent` | src/t2-fprintd.py:2770-2837 | awake is wrong only while a message that says so is still queued |
| `Login1.KnownStateIsCurrent` | src/t2-fprintd.py:2770-2837 | a state on the owner's word, awake or asleep, is the recorded owner's present state unless a message that says otherwise is still queued |
| `Login1.SignalIsObeyed` | src/t2-fprintd.py:2820-2837 | from every reachable quiet state the owner's resume signal wakes the backend and its suspend signal puts it to sleep |
| `Login1.ReconciliationBinds` | src/t2-fprintd.py:2665-2743 | from every state with a quiet bus a reconciliation about to ask can go on to bind the backend to the name holder's true state |
| `Login1.NewOwnerIsReconciled` | src/t2-fprintd.py:2770-2800 | a new owner schedules the reconciliation that binds the backend to it |
| `Login1.OwnerChangeForcesSleep` | src/t2-fprintd.py:2770-2800 | a recorded owner is replaced only by a step that leaves the backend asleep without evidence |
| `Login1.ReplyNeverOverridesNewer` | src/t2-fprintd.py:2700-2743 | a property reply is applied only if no sleep state was applied in any state since its query |
| `Login1.StepKeepsInv` | src/t2-fprintd.py:2665-2837 | every bus or coroutine step keeps the invariant tying record, queue and name holder |
| `Login1.SleepMonitor.OnOwnerReply` | src/t2-fprintd.py:2665-2712 | equals its step: a stale generation asks again, a pending signal of the owner is applied first |
| `Login1.SleepMonitor.OnPropertyReply` | src/t2-fprintd.py:2712-2743 | equals its step: applied only for the current owner and unchanged signal generation |
| `Login1.SleepMonitor.OnOwnerChanged` | src/t2-fprintd.py:2770-2800 | equals its step: new generation, sleeping, pending signal of another owner dropped |
| `Login1.SleepMonitor.OnSleepSignal` | src/t2-fprintd.py:2820-2837 | equals its step: kept pending without an owner, applied with its own value only from the owner |
| `InventoryCache.HitIsCurrent` | src/t2-fprintd.py:442-518 | in every run a hit's state token is the same at begin, store and serving and its authority is the current one; its request began and completed in this run, and no invalidation or sleep change happened since it began |
| `InventoryCache.RunRemembersBegins` | src/t2-fprintd.py:482-518 | every pending collection and the cached entry go back to requests of this run, at their generation and world |
| `InventoryCache.StaleExactlyWhenExposed` | src/t2-fprintd.py:482-518 | for every collector and every history of the world, some run over it ends in a stale hit if and only if a servable window of the history reads something else than now |
| `InventoryCache.FreshExactlyWhenNotExposed` | src/t2-fprintd.py:482-518 | whatever a collection computes, all hits over a history are fresh if and only if no token leaves within a servable window |
| `InventoryCache.HitEqualsFresh` | src/t2-fprintd.py:482-518 | on every history that is not exposed, a served projection is what a collection right now would give |
| `InventoryCache.NeverRecursIsNotExposed` | src/t2-fprintd.py:427-440 | tokens that never come back never expose the cache |
| `InventoryCache.RecurringAuthorityServesStale` | src/t2-fprintd.py:508-518 | a history in which the authority leaves and returns serves a projection of the other authority |
| `InventoryCache.StepKeepsInv` | src/t2-fprintd.py:442-518 | every begin, collection, completion, invalidation, sleep or outside change keeps the cache invariant |
| `InventoryCache.CompletionAnswers` | src/t2-fprintd.py:502-518 | a completed request is answered with what its collector gives on worlds since it began, cacheable or not, and refused exactly while asleep |
| `InventoryCache.UndisturbedRequest` | src/t2-fprintd.py:482-518 | an undisturbed request is answered with a fresh collection, which is cached for the next request exactly when the authority has a state token |
| `InventoryCache.ProjectionCache.BeginProjection` | src/t2-fprintd.py:482-501 | the section before the await equals its step |
| `InventoryCache.ProjectionCache.CompleteProjection` | src/t2-fprintd.py:508-518 | the section after it equals its step: stored only under an unchanged generation and token |
| `InventoryCache.ProjectionCache.SystemSleepChanged` | src/t2-fprintd.py:1098-1106 | a sleep change invalidates the cache and bumps its generation |
| `RateLimiter.WindowHoldsAtMostLimit` | src/t2-fprintd.py:1591-1613 | in any admitted history no half-open ten-second window holds more than eight calls of a sender |
| `RateLimiter.WindowsBoundedExactly` | src/t2-fprintd.py:1598-1605 | every admitted history keeps a closed window to the limit if and only if it is shorter than ten seconds, and a half-open one if and only if it is no longer |
| `RateLimiter.OneTooManyAdmitted` | src/t2-fprintd.py:1598-1605 | a full burst and one call ten seconds later are all admitted, nine calls within the closed window |
| `RateLimiter.MethodRate.RateLimitSender` | src/t2-fprintd.py:1591-1613 | the decision is that of a limiter that never forgets, whatever was pruned, evicted or rejected; beyond 64 senders only those with a fresh call stay |
| `RateLimiter.PruneAgrees` | src/t2-fprintd.py:1598-1605 | pruning to the window and appending keeps every later decision |
| `RateLimiter.EvictAgrees` | src/t2-fprintd.py:1606-1613 | evicting senders with no fresh stamp keeps every later decision |
| `StderrFraming.HandledIsSplitExactly` | src/t2-fprintd.py:751-770 | for any chunking the handled lines are the split of the stream if and only if the pending line fits at every chunk boundary |
| `StderrFraming.ShortLinesIgnoreChunks` | src/t2-fprintd.py:751-770 | with lines of at most 65536 bytes every chunking hands over the same lines |
| `StderrFraming.PumpConserves` | src/t2-fprintd.py:762-770 | handled bytes, newlines, buffer and discarded bytes always add up to the stream |
| `StderrFraming.PumpStream` | src/t2-fprintd.py:751-770 | the two loops compute that pump, the unterminated last line included |
| `MatchEvent.ResultImplications` | src/bridge-xpc-probe.py:353-451 | for every payload: matched implies valid implies accepted implies exact structure; match and no-match exclude each other; a match is exactly an enrolled record of the expected user with the ignored bit clear; every other field, the required and selected record included, says what the bytes at their offsets say |
| `MatchEvent.FieldsFromBytes` | src/bridge-xpc-probe.py:391-451 | every field of a result is the one its record's bytes tell: identity, required and selected record, flags, quality and matcher reason |
| `MatchEvent.StatusIsRead` | src/bridge-xpc-probe.py:300-352 | every legal status frame tells its code and detail length |
| `MatchEvent.StatusCodesAreGenuine` | src/bridge-xpc-probe.py:300-352 | a status code is told only by an event that is byte for byte such a frame |
| `MatchEvent.AcceptedEventsAreFrames` | src/t2_enrollment_protocol.py:213-232 | an accepted event is byte for byte the frame of its legal record |
| `MatchEvent.LegalFramesAreAccepted` | src/bridge-xpc-probe.py:300-390 | every legal frame is accepted and yields its record |
| `MatchEvent.LegalRecordsAre` | src/bridge-xpc-probe.py:353-390 | a record is a fixed body, or one followed by exactly its counted words |
| `MatchEvent.CommonFramesParse` | src/t2_enrollment_protocol.py:213-232 | a framed payload parses exactly when it is timestamped, at most a mebibyte, and holds a whole prefix if it is a status or recovery event |
| `MatchEvent.HeadersAreTold` | src/bridge-xpc-probe.py:284-325 | every event with a whole header is told with its type, version and timestamp, and an unchecked status code as soon as there is one |
| `MatchEvent.StatisticsAreRead` | src/bridge-xpc-probe.py:452-474 | a statistics event tells its first word exactly when its length agrees and a value follows |
| `MatchEvent.LockStateIsRead` | src/bridge-xpc-probe.py:475-490 | a lock-state event tells whether its first word is the expected user |
| `MatchEvent.SummariesAreConsistent` | src/bridge-xpc-probe.py:391-451 | the flag arithmetic of any summary satisfies all the implications |
| `MatchSession.Session.Run` | src/bridge-xpc-probe.py:3298-3589 | for every interleaving, the events of a session without failure are the start list plus the callbacks of the turns taken, in order and none dropped; no generation without an accepted result received before its export; one generation per accepted result of the whole list; a reported stop is the policy's first; without an observation phase failure is exactly an invalid or terminal event, an unquiet cancel or an unsettled result |
| `MatchSession.Session.Reconcile` | src/bridge-xpc-probe.py:781-807 | succeeds exactly on the channels that let every missing result, and every result arriving meanwhile, get its generation within the bound of 256; then counts agree over the whole list and nothing the channel carried was lost |
| `MatchSession.RoundsDecide` | src/bridge-xpc-probe.py:781-807 | rounds lead from a state that settles exactly to states that do, and keep everything their turns carried |
| `MatchSession.Session.Handle` | src/bridge-xpc-probe.py:3376-3447 | one more event handled keeps generations equal to accepted results of the processed prefix |
| `MatchSession.Session.ObserveInitial` | src/bridge-xpc-probe.py:3340-3400 | the first loop keeps the count and reports whether any handled event stops |
| `MatchSession.Session.Observe` | src/bridge-xpc-probe.py:3400-3447 | the second loop handles every callback it reads, in order, keeps the count, and stops at the first stopping event |
| `MatchSession.Session.Persist` | src/bridge-xpc-probe.py:3298-3332 | for an accepted result it succeeds exactly when the export is a record that every configured destination takes (only the store limits its length), and then adds one generation holding it; otherwise none |
| `MatchSession.Session.NextCallback` | src/bridge-xpc-probe.py:769-779 | exactly one turn decides: a queued callback is consumed first, else a callback read is appended and to be handled, a quiet period is none, anything else fails |
| `MatchSession.Session.Drain` | src/bridge-xpc-probe.py:249-280 | succeeds exactly on callbacks followed by a quiet period within the bound, and then appends those callbacks |
| `MatchSession.Session.Export` | src/bridge-xpc-probe.py:736-766 | succeeds exactly on a record reply; callbacks received during an export are kept even when it is rejected |
| `MatchSession.CountAppends` | src/bridge-xpc-probe.py:786-790 | the accepted results of a grown list are those of its parts |
| `MatchSession.TookMeans` | src/bridge-xpc-probe.py:249-280 | taking turns means, and only means, that the events grew by the callbacks those turns carried, in order |
| `LockoutStore.CommitMovesHead` | src/t2_biolockout_store.py:197-267 | a commit cut short anywhere retains every file; the head is the new generation exactly when its manifest was published, else unchanged |
| `LockoutStore.HistoryAdvances` | src/t2_biolockout_store.py:141-267 | over any history of interrupted commits nothing is removed and a readable head never breaks or moves backward |
| `LockoutStore.OrphanBlobKeepsHead` | src/t2_biolockout_store.py:141-195 | a blob without manifest neither becomes nor hides the head |
| `LockoutStore.HeadIsVouchedFor` | src/t2_biolockout_store.py:141-195 | the head is exactly a valid payload of 16 to 4096 bytes beside a manifest of its length and digest, with no manifest above; a payload its manifest does not vouch for is refused |
| `LockoutStore.LockoutLoader.Current` | src/t2_biolockout_store.py:141-195 | the scan returns the strictly validated generation of the highest manifest |
| `LockoutStore.LockoutLoader.Append` | src/t2_biolockout_store.py:197-267 | the commit loop equals the specified commit for every fault |
| `LockoutStore.LockoutLoader.SeedNative` | src/bridge-xpc-probe.py:1268-1277 | the E4 record enters only an empty store; an existing head is returned untouched |
| `LockoutStore.LockoutLoader.LoadHead` | src/bridge-xpc-probe.py:1280-1324 | succeeds exactly when the sensor takes the head, or with recovery allowed exports another record that is committed and taken; normal return is the store head; every failure has its own cause and the store grows only by that export |
| `LockoutStore.LockoutLoader.Setup` | src/bridge-xpc-probe.py:3037-3061 | no generation exactly for an empty store without native authority; otherwise the outcome is that of seeding an empty store and loading its head, and the store only advances |
| `TemplateSync.Synchronizer.Sync` | src/bridge-xpc-probe.py:2428-2711 | against any sensor: every load carries the committed payload of its own component and is of one last read as unloaded, master before user, under compatibility authority only over an empty live list; normal return lists the committed set; every failure is explained by the last exchange |
| `TemplateSync.Synchronizer.Restore` | src/bridge-xpc-probe.py:2514-2660 | at most one master and one user load in that order, each with its own payload, none when the live list matched; the user component ends loaded |
| `TemplateSync.Synchronizer.LoadComponent` | src/bridge-xpc-probe.py:2515-2552 | a load is sent exactly for the one loadable component whose loaded bit is clear |
| `TemplateSync.Synchronizer.RestoreUser` | src/bridge-xpc-probe.py:2554-2660 | after a user load both components were read back as loadable and loaded |
| `TemplateSync.Synchronizer.CompareLive` | src/bridge-xpc-probe.py:568-604 | no restore is needed exactly when a live identity exists or nothing is committed, and then the sets agree; one is needed only with nothing loaded |
| `TemplateSync.Synchronizer.FinalList` | src/bridge-xpc-probe.py:2662-2711 | success means the live list equals an earlier non-empty one and, where an authority demands it, the committed set |
| `TemplateSync.Synchronizer.ReadState` | src/bridge-xpc-probe.py:1346-1396 | the states returned are the strict parse of this read, groups only from protocol 2 |
| `TemplateSync.AppendExchange` | src/bridge-xpc-probe.py:2428-2711 | what one more command does to the loads, the last-read states and their lawfulness |
| `TemplateSync.OutcomeStays` | src/bridge-xpc-probe.py:2662-2711 | exchanges that load nothing and read no state change no verdict |
| `TemplateSync.UserStatesReadBack` | src/t2_catacomb_protocol.py:138-152 | a reply listing components is parsed to exactly them, the master under its own id, and refused if and only if one repeats |
| `TemplateSync.StatesForListed` | src/bridge-xpc-probe.py:2515-2552 | a listed component has exactly its listed state |
| `TemplateSync.ListedRecordsAre` | src/bridge-xpc-probe.py:518-565 | an identity list is exactly what a clean two-item reply of distinct 20-byte records of the user joins to |
| `RequestCodec.PasswordReadsBack` | src/t2-aks-tool.c:721-753 | every accepted request decodes to its session, handle, secret and optional context |
| `RequestCodec.BuildVerifyPassword` | src/t2-aks-tool.c:721-753 | refuses exactly an empty or over-long secret or a zero handle; otherwise every in-bounds write yields the layout of 32 + padded + context bytes |
| `RequestCodec.PutLE32` | src/t2-aks-tool.c:74-80 | the four byte stores write that little-endian word and nothing else |
| `RequestCodec.PutLE64` | src/t2-aks-tool.c:82-86 | two words write that little-endian double word and nothing else |
| `Bytes.ReadLE32` | src/t2-aks-tool.c:62-66 | reading inverts writing at any position of a buffer |
| `Bytes.ReadLE64` | src/t2-aks-tool.c:68-72 | reading inverts writing at any position of a buffer |
| `Bytes.WriteU64` | src/t2-aks-tool.c:62-86 | writing inverts reading |
| `RequestCodec.MatchReadsBack` | src/bridge-xpc-probe.py:174-209 | a built request decodes to its flags, user, credential and records if and only if the base flags lack both mode bits |
| `RequestCodec.BuildMatchRequest` | src/bridge-xpc-probe.py:174-209 | fails exactly on the first violated check, else yields the 68 or 72 + 20n byte layout, sent flags and count |
| `Bytes.SplitOfJoined` | src/bridge-xpc-probe.py:204-208 | joined 20-byte records split back |
| `RequestCodec.FlagsSeparate` | src/bridge-xpc-probe.py:190-203 | setting the mode bits on flags that lack them loses nothing |
| `ResultValidators.NegativeAgreesWithPolicy` | src/t2-native-match.py:413-449 | the validator accepts exactly the runs whose policy ran clean, first stopped on an event whose record bytes are a matcher no-match, and saw no result after it |
| `ResultValidators.StoppedNegativeSessionPasses` | src/bridge-xpc-probe.py:3376-3447 | a session that stopped on a matcher no-match with no later result is accepted |
| `ResultValidators.LaterResultIsRefused` | src/t2-native-match.py:413-449 | any result after the first stop is refused |
| `ResultValidators.SecondStopIsRefused` | src/t2-native-match.py:413-449 | one framed matcher no-match is accepted and two of them are refused |
| `ResultValidators.NegativeControl` | src/bridge-xpc-probe.py:3335-3382 | a session whose start reply carried two stops ends, and its summaries are refused whatever the channel does |
| `ResultValidators.NoMatchStops` | src/bridge-xpc-probe.py:391-404 | a frame without user and flags is a valid matcher no-match that stops the negative control |
| `ResultValidators.RequiredAgreesWithPolicy` | src/t2-native-match.py:488-530 | acceptance is exactly a first stop on an event whose record begins with the required identity, after records whose bytes tell quality or matcher no-matches, with no result after it |
| `ResultValidators.RequiredByBytes` | src/t2-native-match.py:488-530 | ending on the required match by the summaries is ending on it by the record bytes |
| `ResultValidators.SessionStopIsPolicyStop` | src/bridge-xpc-probe.py:115-132 | where a session stopped is where the policy first stops |
| `SavedEvidence.PrivateEventsRoundTrip` | src/t2-native-match.py:623-650 | decode after encode is the identity up to tuples-as-lists and printed keys if and only if no dictionary is keyed exactly bytes_hex and length |
| `SavedEvidence.EncodeIsRaw` | src/bridge-xpc-probe.py:818-832 | encoding is defined by the value's normal form |
| `SavedEvidence.RawReadsBack` | src/t2-native-match.py:623-650 | the decoder inverts the encoding of a normal value exactly when it is plain |
| `SavedEvidence.HexReadsBack` | src/t2-native-match.py:623-640 | bytes.fromhex inverts bytes.hex |
| `SavedEvidence.Resummarize` | src/t2-native-match.py:666-721 | succeeds exactly when the evidence is well formed and every retained summary is reproduced, and then returns the recomputed ones |
| `SavedEvidence.GenuineRunReplays` | src/t2-native-match.py:666-721 | a genuine saved run reproduces its summaries, with or without the required-identity field and whatever encoding changed in parts no summary reads |
| `SavedEvidence.SummaryIgnoresNormalizing` | src/bridge-xpc-probe.py:284-300 | a summary does not see what encoding changes if and only if the callback is no tuple and its status survives |
| `SavedEvidence.AlteredSummaryIsRejected` | src/t2-native-match.py:690-715 | any other difference in one retained summary is rejected |
| `SavedEvidence.OnlyRequiredFieldMayDiffer` | src/t2-native-match.py:690-715 | the comparison forgives only the absence of the required-identity field |
| `JournalSelectors.RecoveriesExclude` | src/t2-native-enroll.py:1566-1661 | on any directory at most one of post-reboot, publication and outcome-unknown accepts |
| `JournalSelectors.ObservedNarrowsUnknown` | src/t2-native-enroll.py:1755-1883 | observed-identity accepts exactly the outcome-unknown journals of this boot's terminal stage |
| `JournalSelectors.ScanOrderIrrelevant` | src/t2-native-enroll.py:1755-1883 | acceptance depends only on the multiset of entries |
| `JournalSelectors.AcceptanceIsUnique` | src/t2-native-enroll.py:1566-1661 | a selector accepts at most one journal |
| `JournalSelectors.PendingPostReboot` | src/t2-native-enroll.py:1566-1604 | the loop accepts exactly the sole private, reconciled, bound, version-2 enrollment |
| `JournalSelectors.PendingPublication` | src/t2-native-enroll.py:1607-1661 | accepts exactly the one verified enrollment beside nothing but unstarted version-2 ones |
| `JournalSelectors.PendingOutcomeUnknown` | src/t2-native-enroll.py:1828-1889 | accepts exactly the one ambiguous enrollment beside complete ones |
| `JournalSelectors.PendingObserved` | src/t2-native-enroll.py:1755-1825 | accepts exactly the one terminal ambiguity of this boot beside complete ones |
| `JournalSelectors.Scan` | src/t2_mutation_registry.py:160-222 | succeeds exactly when every entry is routed, and reports whether any blocks |
| `JournalSelectors.CanonicalNamesAre` | src/t2_mutation_registry.py:160-172 | a name of the form 8-4-4-4-12 plus suffix is canonical exactly when its groups are lower-case hexadecimal |
| `JournalSelectors.OneCandidate` | src/t2-native-enroll.py:1856-1872 | one candidate is collected exactly when one entry is chosen, once |
| `JournalSelectors.BoundFixesBindings` | src/t2-native-enroll.py:1566-1604 | a bound journal leaves nothing open but its version and boot |
| `FirstRun.OneShotsHappenOnce` | src/t2-native-first-run.py:166-177 | over any sequence of crashed or complete invocations create, replacement start and activation start each take effect at most once |
| `FirstRun.InvocationExtendsTrace` | src/t2-native-first-run.py:156-372 | each invocation's dispatches extend such a sequence |
| `FirstRun.Invocation.Run` | src/t2-native-first-run.py:156-372 | nothing is dispatched without root, the credential and a blank enrollment; every dispatch is guarded by absent or fitting journals; with succeeding owners readiness is exactly recoverability of the files found, each dispatch advances the phases, and the half-committed bundle is ready one invocation later |
| `FirstRun.Invocation.ProvisionStage` | src/t2-native-first-run.py:166-226 | with succeeding owners it passes exactly from no files or a committed provisioning |
| `FirstRun.Invocation.ReplaceStage` | src/t2-native-first-run.py:236-292 | a legacy mapping passes exactly over an open bundle and becomes current |
| `FirstRun.Invocation.BundleStage` | src/t2-native-first-run.py:293-322 | passes exactly when the phase read before any resume was complete |
| `FirstRun.Invocation.AuthorityStage` | src/t2-native-first-run.py:227-372 | readiness keeps the single trusted user and a current mapping |
| `FirstRun.OwnersLeaveRecoverable` | src/t2-native-first-run.py:156-372 | files left by completed owners stay recoverable under every owner first-run dispatches |
| `FirstRun.AchievedAdvances` | src/t2-native-first-run.py:199-354 | every succeeding dispatch strictly raises the durable rank |
| `ArchiveStream.ReceiveArchive` | src/t2-bridgeos-oslog.py:59-155 | succeeds exactly when some whole number of chunks is an optional wrapper plus an archive of the announced length that gzip reads, and writes that archive; unreadable is exactly a delivered archive that gzip rejects |
| `ArchiveStream.DeliveredAt` | src/t2-bridgeos-oslog.py:136-151 | what was delivered is one archive, whatever empty chunks follow |
| `ArchiveStream.EveryChunkingCompletes` | src/t2-bridgeos-oslog.py:100-147 | a stream of exactly that shape delivers its archive, and only it, under every chunking |
| `ArchiveStream.PayloadGrows` | src/t2-bridgeos-oslog.py:108-135 | once the start is told apart, later chunks only append; a refused start stays refused |

## Left out

- Sockets, subprocesses, process groups, argument parsing, environment variables and D-Bus marshalling: only the resulting events and steps are modelled.
- File ownership, modes, no-follow opens and fsync: files are private or not; a commit may be cut short at each publication boundary.
- SHA-256 and the JSON text of documents: digests are injective tokens and documents are parsed values.
- Timer scheduling and cancellation: expiry timers may fire at any moment their own check allows, which includes every real run.
- Finger names and slots in match gates, touch timing and live feedback: presentation of a verdict that is already decided.
- Inventory and diagnostic options of the probe that only copy replies into the result.
- Enrollment, deletion, activation and replacement owners: their journals and exits are parameters; `FirstRun` assumes of them only what each theorem names.
- The gzip format and the archive digest: whether an archive is readable is a parameter.
- Terminal user interfaces, the PAM prompt, audio feedback, adaptive sync and performance timing.
- Floating-point rounding of clock differences: times are real numbers.
- Login1.AwakeIsCurrent: assumes a bus that delivers in order and forwards sleep signals only of the name's current holder, as the match rule asks.
- MatchSession.Session.Observe: the observation deadline and a termination request are one bound on the number of rounds.
- JournalSelectors.PendingPublication: the registry scan and the loop read one snapshot of the directory.
- JournalSelectors.Scan: other mutation kinds are abstracted to whether their journal validates and blocks.
- TemplateSync.Synchronizer.Sync: a lost connection is a reply that nothing accepts.
- InventoryCache.HitEqualsFresh: assumes that a collection is a function of the two tokens it reads.
