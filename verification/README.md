# Digital Will: verified model

A Dafny model of the daemon's hard parts, with proofs about it. `dafny verify dfyconfig.toml` checks everything.

The centre is a protocol over SQLite rows. The scheduler loop, a bounded pool of goroutines, the API handlers, the
clock and crashes interleave; one step is one SQL statement (the program keeps a single connection), one channel
operation or one notifier call. The number of workers, wills, actions, rows, retries and the interval are arbitrary.

| files | what they hold |
|---|---|
| `Tables`, `Protocol` | the rows, what each statement does to a row, and all interleavings as a state machine |
| `WillService`, `ActionService`, `Scheduler` | the services and the scheduler as imperative classes. Every routine of the scheduler is proved to be a path of the protocol whatever runs between its statements, so the theorems about runs are theorems about these routines |
| `Executions`, `Lease`, `Drain` | one execution row seen alone: exclusion, absorption, the attempt ledger, the drain time |
| `WillLife` | one will seen alone: deadline, trigger at most once, one row per action |
| `Invariants`, `Projection`, `Paths` | what every reachable state keeps; every run of the system seen from one row, or from one will, is one of these lives |
| `ExecutionTheorems`, `WillTheorems`, `Endings` | the theorems about whole runs |
| `EarlyTriggers` | when TRIGGERED is written over an unfinished action, and what becomes of actions added too late |
| `Pickup`, `Attentive` | from the scans, the pool and the claims: how long a due row waits, and when the retry loop ends |
| `Objectives`, `TightBounds` | how long a passed deadline goes unnoticed and a claim lasts, and that both bounds are attained |
| `Backoff` | a retry time is waited for |
| `OwnerRequests`, `ActionOrder` | pausing, resuming and archiving over whole runs; the order of a will's actions |
| `Verdicts` | with one crypto_meta row, what the owner gave fixes which rows can be decrypted |
| `Traces` | concrete runs: the system does deliver, and every assumption of a theorem is needed |
| `AuditEncoding`, `AuditChain`, `AuditRaces` | the hash chain: unique decoding, what acceptance means, `Log` as two statements |
| `CryptoEngine`, `Envelope`, `Secrets` | passphrase, KEK, DEK, payload and config up to the notifier; which passphrase gets there, and that secrets do not move between wills |
| `Backup`, `Migration` | backup and restore over a file map; migration cut off between transactions |

How assumptions are stated. Some promises hold only if something outside the code behaves. Each such assumption is a
predicate on runs, and a run in `Traces` shows the conclusion failing without it: `KeepsLease` (a goroutine finishes
within 600 seconds of its claim; an SMTP delivery has no timeout), `Deterministically` (a row either can or cannot be
decrypted; `OneMetaDecides` proves it when there is one crypto_meta row), `Promptly` (no failure write of another
worker falls between a worker's load and its claim; `NoOtherClaimIsNotEnough` shows that it is failure writes, not
claims, that must stay out of that span), `ChecksInOrder` (check-ins are committed in the order of their
clock readings; `CurrentReadingsInOrder` discharges it when each is written at the second it reads). `LeaseIsNeeded`,
`VerdictIsNeeded`, `PromptnessIsNeeded` and `OrderIsNeeded` are the runs. The time bound on retries assumes `Serves`:
a retry scan in every window of a given length, at most ten due rows at each, a free slot at the row's turn, and a bound
on the time to the turn and to the claim; `RetriesRunDry` is a run that meets all its premises. The bounds in
`Objectives` assume ticks on time (`AsksEvery`) and a bound on the time to a will's turn (`TriesIn`). A clock reading
in the protocol may be any reading that is not in the future, so slow goroutines are covered; the clock itself does
not go back.

Hashing and encryption. SHA-256 is an arbitrary function into 64 hexadecimal digits; no theorem assumes it injective.
Each one concludes, or names two different texts with the same digest. AES-GCM is a ledger of sealed boxes: what was
sealed opens under the same key, nonce and associated data, and nothing else opens. PBKDF2 is an arbitrary function.

History variables (`tally`, `wlog`, `view`, `trail`, `seen`, `readAts`, `contents`, `configs`, `keys`) count or
remember what happened. No modelled statement reads them.

Where the code and its documents differ, the code is modelled, and a theorem says what follows:

- README.md line 158 says `VerifyChain` detects any tampering. A log cut off at the end is accepted
  (`PrefixAccepted`), and so is a rewritten one (`AnythingCanBeChained`). An edited row with its checksum recomputed
  is accepted at the end of the log, and before the end exactly when its hashed text is the old one, up to a collision
  (`EditReportedNext`). Such an edit exists for every row of every log, wherever it stands and with its checksum left
  alone: as nothing separates the hashed fields, the first character of the actor, or of the will identifier, can move
  to the field before it, and without either NULL and the empty identifier read the same (`UnnoticedEdit`). Among rows
  as the program writes them, with identifiers in UUID form, there is none (`VocabularyEditReported`). Two concurrent
  `Log` calls break the chain with no tampering at all (`ChainVerifiesIff`, `RaceHappens`).
- The handlers log the identifier a request names without looking it up, and the column is plain text. Unique decoding
  of all fields needs will identifiers in UUID form (`AmbiguousWithoutUuid`); the row id alone makes the concurrency
  theorem hold for whatever is logged (`TextDeterminesId`).
- Section 12.1 of Digitalwilldesigndoc.md wants TRIGGERED only when every action is COMPLETED or EXHAUSTED. The code
  reads the list of actions once, queues them and writes it. From everywhere in its loop it can be written too early,
  because an action may still be added (`AlwaysEarly`); if none is, then exactly when some action has no COMPLETED or
  EXHAUSTED row, which includes every action still to be queued (`TriggeredEarlyIff`). An action added once the list was
  read never gets an execution row (`AddedLate`, `LateActionStrands`). The same section makes ARCHIVED terminal; a
  `processWill` in flight overwrites it (`ArchivedForGoodIff` gives the exact condition).
- Section 13.3 promises delays of 0, 5 and 30 minutes. After a delivery the count has already been raised, so the
  5-minute entry is never served to a delivered row; the total is 0 for at most two retries, and otherwise
  1800 + (retries - 3) * 86400 seconds (`ServedTotal`, `ExhaustionIsExact`). No scan takes a row up before its retry
  time (`ScanKeepsBackoff`), and after a failure of the only goroutine under way for it a row is not claimed before
  that time (`BackoffIsKept`). If another one was already started, or a scan already had the row on its list, the claim
  may come a day early (`RetriedEarly`, `RetriedFromList`).
- Section 13.2 claims only from QUEUED. The scheduler claims from QUEUED or FAILED; `ClaimExecution` is not used.
- Pausing does not stop the deadline: a will resumed after it has passed is due at that moment (`PauseThenResume`).
- Activation sets the deadline to the current time, so an activated will is due at once, whatever its interval, until
  its first check-in (`DueNowIff`).
- Section 16 gives a passed deadline five minutes and an IN_PROGRESS row ten. The code acts on both only in a tick. A
  deadline goes unnoticed for at most one period of ticks and the will's turn (`DeadlineNoticedInTime`); that bound is
  attained, so five minutes are certain only if the two add up to no more (`DeadlineOverstays`). A claim lasts at most
  the ten minutes, a second and one period (`ClaimEndsInTime`), which is attained as well, so ten minutes are certain
  for no period (`ClaimOverstays`).
- A wrong passphrase leaves the engine initialized with the wrong key, and the right one is refused until a restart
  (`WrongPassphraseSticks`).
- An encrypted backup lies at the requested path plus `.enc`; restoring from the requested path fails
  (`RestoreFromGivenPath` gives the exact condition). When VACUUM INTO fails for a backup onto the database file itself,
  the copy empties that file (`TakeSnapshot`).
- The associated data of a config name the will but not the action, so a config copied to another action opens exactly
  when both belong to one will (`MovedConfigIff`).

## Model

| member | source | states |
|---|---|---|
| Executions.CellOkAlways | internal/action/service.go:205-241 | in every life of a row: FAILED has a retry time at most a day ahead, IN_PROGRESS a start time, COMPLETED and EXHAUSTED a completion time, none in the future; a worker whose load no failure write followed still holds the row's attempt count |
| Lease.LeaseAlways | internal/scheduler/scheduler.go:253-280 | under the lease and a fixed decryption verdict, at most one worker is between claim and write-back, and the row is IN_PROGRESS with that worker's start time |
| Lease.TerminalForever | internal/action/service.go:205-241 | COMPLETED and EXHAUSTED are absorbing although both finishing writes are unguarded |
| Lease.HopelessAlways | internal/scheduler/scheduler.go:226-251 | a row that cannot be decrypted is never claimed, keeps attempt 1, and is FAILED forever or, with one retry, EXHAUSTED; no lease is needed |
| Lease.LedgerAlways | internal/scheduler/scheduler.go:253-280 | the ledger: claims balance against attempt, resets, the present claim and overwritten counts; calls, successes and completions are bounded by them |
| Lease.OrderlyAlways | internal/scheduler/scheduler.go:184-191 | when no claim is overtaken nothing is lost, and every holder has the row's attempt count |
| Drain.ServedTotal | internal/action/service.go:225-231 | the delays served up to an attempt count add up to half an hour plus a day per further attempt |
| Drain.ExhaustedAfterQuota | internal/action/service.go:205-223 | a row exhausted without a reset had exactly max(1, retries - 1) claims and deliveries and the fixed total backoff |
| Drain.GivenUpInTime | internal/action/service.go:205-231 | a claimed row with no success and no reset is EXHAUSTED once the clock passes the drain bound, when deliveries and the wait for the next claim are bounded |
| WillLife.DeadlineAlways | internal/will/service.go:206-224 | once a check-in exists the deadline is one interval after the one on record, which is the latest if check-ins are committed in order |
| WillLife.SwitchSafeIff | internal/will/service.go:167-179 | the guard of the compare-and-swap leaves a full interval after every check-in exactly when the check-in on record is the latest |
| WillLife.OnceAlways | internal/will/service.go:167-179 | at most one win per will, each win in exactly one place, at most one execution row per action |
| WillLife.AbandonedForever | internal/scheduler/scheduler.go:111-119 | a won will in nobody's hands only ever gets archived |
| Invariants.RowsStay | internal/storage/migrations/001_initial.sql:20-71 | no step deletes a row or changes its references or settings, and no row returns to QUEUED |
| Invariants.InvAlways | internal/scheduler/scheduler.go:111-148 | in every reachable state tokens equal live goroutines and never exceed the pool, and nothing refers to a missing row |
| Projection.RowHasLife | internal/scheduler/scheduler.go:183-280 | every run seen from one execution row is a life of that row |
| Projection.WillHasHistory | internal/scheduler/scheduler.go:97-154 | every run seen from one will is a history of that will |
| ExecutionTheorems.MutualExclusion | internal/scheduler/scheduler.go:86-95 | lease mutual exclusion over all interleavings of ticks, workers and crashes |
| ExecutionTheorems.TerminalIsForever | internal/action/service.go:205-241 | in every run a COMPLETED or EXHAUSTED row keeps status and attempt, and if decryptable the whole row |
| ExecutionTheorems.AtMostOneSuccess | internal/scheduler/scheduler.go:268-279 | a success is recorded at most once, exactly when the row is COMPLETED; notifier successes are at most one more than stale resets |
| ExecutionTheorems.AttemptsConserved | internal/scheduler/scheduler.go:253-273 | claims == (attempt - 1) + resets + present claim + overwritten counts, in every run |
| ExecutionTheorems.CallsBounded | internal/action/service.go:205-223 | with no claim overtaken, notifier calls are at most max(1, retries - 1) + resets |
| ExecutionTheorems.UndecryptableNeverEnds | internal/scheduler/scheduler.go:226-251 | an undecryptable row is never delivered, keeps attempt 1, never becomes EXHAUSTED with more than one retry, and does at its first failure otherwise |
| ExecutionTheorems.ExhaustionIsExact | internal/action/service.go:205-231 | an exhausted row without resets had exactly the quota of deliveries and exactly the total backoff |
| Backoff.ScanKeepsBackoff | internal/scheduler/scheduler.go:156-162 | in every run a retry scan takes up only FAILED rows whose retry time has come, at most ten, and all of them when there are fewer |
| Backoff.NotBeforeRetryTime | internal/scheduler/scheduler.go:156-181 | when a row waits and nobody is under way for it, no goroutine is started for it before its retry time, in any continuation |
| Backoff.BackoffIsKept | internal/action/service.go:205-231 | when the only goroutine under way for a row records a failure, the next claim comes at least 1800 or 86400 seconds after a delivery, and 300, 1800 or 86400 seconds after a failed decryption |
| Pickup.ClaimedInTime | internal/scheduler/scheduler.go:156-181 | a FAILED row waits, from the first second in which it is due, at most one scan period, its turn and one claim |
| Pickup.FewAreFound | internal/scheduler/scheduler.go:158-162 | a scan that meets at most ten due rows takes up all of them |
| Pickup.RetriesEndInTime | internal/scheduler/scheduler.go:56-73 | the retry loop ends by the deliveries, the fixed backoff and one scan period, turn and claim per retry |
| Objectives.DeadlineNoticedInTime | internal/scheduler/scheduler.go:97-107 | a will stays ACTIVE past one deadline for at most a period of ticks and its turn in the tick |
| Objectives.ClaimEndsInTime | internal/scheduler/scheduler.go:86-95 | a row stays IN_PROGRESS since one claim for at most the lease, a second and a period of ticks |
| TightBounds.DeadlineOverstays | Digitalwilldesigndoc.md:989-989 | for every period and turn, a run with every tick and turn on time that uses the first bound up |
| TightBounds.ClaimOverstays | Digitalwilldesigndoc.md:990-990 | for every period, a run with every tick on time that uses the second bound up after the worker is gone |
| Attentive.AttendsServes | internal/scheduler/scheduler.go:168-180 | when the clock moves only while nothing is under way for the row, the scan period is the only delay |
| ExecutionTheorems.StampsAndPool | internal/action/service.go:205-241 | pool size and time stamps together, in every reachable state |
| ExecutionTheorems.FailedBecomesDue | internal/scheduler/scheduler.go:156-162 | every FAILED row is due at every reading a day later |
| WillTheorems.NeverTriggersEarly | internal/scheduler/scheduler.go:97-107 | the dead man's switch: a will enters PENDING_TRIGGER only by the compare-and-swap, and then a full interval has passed since every check-in that ever succeeded |
| WillTheorems.CurrentReadingsInOrder | internal/will/service.go:206-214 | check-ins written at the second they read the clock are committed in order |
| WillTheorems.SwitchExact | internal/will/service.go:167-224 | in every reachable state the switch is safe exactly when the check-in on record is the latest |
| OwnerRequests.RequestInColumns | internal/api/server.go:335-378 | in every run each owner request changes exactly its columns of its own will, and only from the right status |
| OwnerRequests.PausedStaysPaused | internal/api/server.go:361-368 | until somebody resumes it a paused will is PAUSED or ARCHIVED with everything else unchanged, and gets no execution row |
| OwnerRequests.ArchivedInTimeStays | internal/will/service.go:241-249 | a will archived before it was triggered stays ARCHIVED and unchanged forever, and gets no execution row |
| OwnerRequests.PauseThenResume | internal/will/service.go:137-165 | pausing and resuming gives the row back as it was, so it is due exactly when it would have been |
| WillTheorems.DueNowIff | internal/api/server.go:345-359 | in every reachable state an ACTIVE will can be triggered now if and only if it has no check-in or a full interval has passed since the one on record |
| WillTheorems.TriggeredAtMostOnce | internal/scheduler/scheduler.go:103-120 | one win and one processWill per will over any run, and every win is waiting, running, finished, dropped or killed |
| WillTheorems.OneRowPerAction | internal/scheduler/scheduler.go:133-137 | at most one execution row ever exists per action |
| ActionOrder.PositionsAlways | internal/storage/migrations/001_initial.sql:43-55 | no two actions of a will ever have the same position |
| ActionOrder.OneListing | internal/action/service.go:130-149 | in every reachable state the listing of a will is one definite list, strictly increasing in position |
| ActionOrder.QueuedInOrder | internal/scheduler/scheduler.go:127-137 | when an execution row is created, every row the will already has belongs to an action with a smaller position |
| WillTheorems.AbandonedWillStays | internal/scheduler/scheduler.go:111-119 | a dropped or killed win never gets an execution row in any continuation |
| WillTheorems.StrandedForever | internal/scheduler/scheduler.go:140-148 | a QUEUED row with no goroutine gets no delivery in any continuation |
| WillTheorems.SingleSlotStarves | internal/scheduler/scheduler.go:38-51 | with one worker no execution row ever leaves QUEUED |
| Endings.PendingEndsIff | internal/scheduler/scheduler.go:111-119 | a PENDING_TRIGGER will can still become TRIGGERED if and only if its win is in flight |
| Endings.ArchivedForGoodIff | internal/scheduler/scheduler.go:151-152 | an archived will can leave ARCHIVED again if and only if its win is in flight |
| Endings.WorkerFrees | internal/scheduler/scheduler.go:183-280 | from wherever a worker stands it can run to its end and give its slot back, leaving early only without a key |
| Endings.ProcessorEnds | internal/scheduler/scheduler.go:123-154 | from wherever processWill stands it can go on to the TRIGGERED write |
| Traces.TwoSlotsDeliver | internal/scheduler/scheduler.go:140-148 | for every pool of two or more there is a delivering run |
| EarlyTriggers.AlwaysEarly | internal/scheduler/scheduler.go:127-153 | while processWill is in its loop, some continuation within the assumptions writes TRIGGERED over an action without a COMPLETED or EXHAUSTED row |
| EarlyTriggers.TriggeredEarlyIff | internal/scheduler/scheduler.go:127-153 | when no action is added, there is such a continuation if and only if an action of the will is open now; an action still to be queued is open |
| EarlyTriggers.LateActionStrands | internal/action/service.go:88-128 | an action that the goroutine of a won will has not on its list never gets an execution row in any continuation |
| EarlyTriggers.AddedLate | internal/api/server.go:395-444 | an action added once the list of a won will has been read never gets an execution row |
| Traces.TriggeredUndelivered | internal/scheduler/scheduler.go:151-153 | for every pool of two or more: TRIGGERED with the only row still QUEUED |
| Traces.RetriesRunDry | internal/scheduler/scheduler.go:56-73 | a run that meets every premise of the retry bound and ends EXHAUSTED past it |
| Traces.LeaseIsNeeded | internal/scheduler/scheduler.go:86-95 | without the lease two goroutines hold one row |
| Traces.VerdictIsNeeded | internal/scheduler/scheduler.go:226-231 | without a fixed verdict two goroutines hold one row although the lease is kept |
| Traces.PromptnessIsNeeded | internal/scheduler/scheduler.go:184-191 | without promptness the attempt count goes down from 4 to 3 |
| Traces.NoOtherClaimIsNotEnough | internal/scheduler/scheduler.go:184-273 | with no other claim between a worker's load and its claim, the failure write of an earlier claim still makes three claims and calls stand against attempt 3 |
| Traces.RetriedEarly | internal/scheduler/scheduler.go:168-180 | with two goroutines started for a row, the second claims it a day before its retry time |
| Traces.RetriedFromList | internal/scheduler/scheduler.go:168-180 | so does a goroutine started from the list of a scan made before the failure |
| Traces.CrashRepeatsSuccess | internal/scheduler/scheduler.go:268-279 | a crash between delivery and record makes the notifier succeed twice |
| Traces.SingleSlotStrands | internal/scheduler/scheduler.go:140-148 | with one slot the row created is stranded |
| Traces.OrderIsNeeded | internal/will/service.go:206-214 | two check-ins committed in the opposite order of their readings trigger a will within an interval of a check-in |
| SchedulerProgram.Scheduler.constructor | internal/scheduler/scheduler.go:32-54 | starts in an initial state with at least one slot |
| SchedulerProgram.Scheduler.Start | internal/scheduler/scheduler.go:56-73 | its own steps are a tick, and then exactly one tick and one retry scan per beat, and they occur in this order on the path it is, whatever runs in between |
| SchedulerProgram.Scheduler.Tick | internal/scheduler/scheduler.go:79-121 | its own steps are the reset at its first clock reading, the sweep, one compare-and-swap per overdue will with a dispatch after each win, and the end; they occur in this order on its path |
| SchedulerProgram.Scheduler.Trigger | internal/scheduler/scheduler.go:103-120 | its own steps are one compare-and-swap and, when it won, one dispatch, on its path |
| SchedulerProgram.Scheduler.SwapToPending | internal/scheduler/scheduler.go:104-107 | won exactly when the will is ACTIVE with its deadline not after the reading at the statement; then it is PENDING_TRIGGER |
| SchedulerProgram.Scheduler.StartProcess | internal/scheduler/scheduler.go:111-119 | takes a slot and starts processWill, or drops the will at a full pool |
| SchedulerProgram.Scheduler.ProcessWill | internal/scheduler/scheduler.go:123-154 | its own steps are to list the actions, to create and offer one row for each, to write TRIGGERED and to give the slot back; afterwards every action the will had has its row |
| SchedulerProgram.Scheduler.ProcessRetries | internal/scheduler/scheduler.go:156-181 | its own steps are the scan at its first clock reading, one dispatch per row found, and the end, in this order on its path |
| SchedulerProgram.Scheduler.RetryAction | internal/scheduler/scheduler.go:183-280 | its own steps are exactly load, prepare, and then failure write, or claim and, if won, delivery and write-back, in this order on its path; it gives its slot back |
| SchedulerProgram.Scheduler.Claim | internal/scheduler/scheduler.go:253-266 | the claim is won exactly when the row is QUEUED or FAILED |
| SchedulerProgram.Scheduler.FailUnclaimed | internal/scheduler/scheduler.go:227-231 | writes the loaded attempt back with the retries read at load time, as the protocol does with the present ones |
| SchedulerProgram.Scheduler.WriteBack | internal/scheduler/scheduler.go:268-279 | completes the row or writes the raised attempt, as the protocol does |
| SchedulerProgram.Scheduler.Release | internal/scheduler/scheduler.go:114-114 | there is a token to give back, and the goroutine is gone |
| SchedulerProgram.Scheduler.HandleOwner | internal/api/server.go:335-378 | activation, check-in, pause and archiving are one step of the protocol with the clock read before anything else may run; which columns each changes, and from which status |
| SchedulerProgram.Scheduler.HandleCreateWill | internal/api/server.go:258-306 | creates a DRAFT row with three retries exactly with a key, a name, a positive interval, a known crypto_meta row and a DEK that opens |
| SchedulerProgram.Scheduler.HandleAddAction | internal/api/server.go:395-444 | adds an action exactly with a key, a crypto_meta row whose DEK opens, an existing will, a legal type and a free, non-negative position |
| SchedulerProgram.Daemon | internal/scheduler/scheduler.go:32-73 | from an empty database a run on which any number of beats occur, whatever ran in between: time stamps, one row per action, the pool bound, and starvation with one worker |
| WillService.WillTable.Create | internal/will/service.go:50-98 | each result under its condition; accepted exactly for a name, a positive interval, an unlocked engine and a known crypto_meta row, and then a DRAFT row with no deadline and three retries |
| WillService.WillTable.Transition | internal/will/service.go:137-165 | only the five legal changes, only from the status the caller believes in |
| WillService.WillTable.TransitionToPending | internal/will/service.go:167-179 | won exactly by an ACTIVE will whose deadline is not after the reading; no later caller can win it at any reading |
| WillService.WillTable.GetOverdue | internal/will/service.go:181-204 | every ACTIVE will whose deadline is not after the reading once, and no other |
| WillService.WillTable.Apply | internal/will/service.go:206-224 | for each request of the owner, exactly when it is accepted, the columns it then changes, and that nothing else changes |
| WillService.WillTable.UpdateStatus | internal/will/service.go:241-249 | writes the status whatever it was |
| ActionService.ActionTable.Create | internal/action/service.go:88-128 | refused exactly for an empty or unknown will, a negative or used position, a locked engine, a type other than the four or an unknown crypto_meta row |
| ActionService.ActionTable.ListByWill | internal/action/service.go:130-149 | every action of the will once, in order of position |
| ActionService.ActionTable.CreateExecution | internal/action/service.go:170-189 | a QUEUED row with attempt 1 |
| ActionService.ActionTable.ClaimExecution | internal/action/service.go:191-203 | won only from QUEUED |
| ActionService.ActionTable.Claim | internal/scheduler/scheduler.go:253-266 | won exactly from QUEUED or FAILED; the row is then IN_PROGRESS since the reading, and no second claim can be won on it |
| ActionService.ActionTable.FailExecution | internal/action/service.go:205-231 | EXHAUSTED at the limit, otherwise FAILED with a retry time 0, 300, 1800 or 86400 seconds ahead by the attempt count; no other column or row changes |
| ActionService.ActionTable.MarkCompleted | internal/action/service.go:233-241 | COMPLETED at the reading whatever the status was |
| ActionService.ActionTable.ResetStale | internal/scheduler/scheduler.go:86-95 | exactly the rows IN_PROGRESS since more than 600 seconds before the reading become FAILED and due at once, with their attempt kept; no other row changes |
| ActionService.ActionTable.DueRetries | internal/scheduler/scheduler.go:156-162 | only FAILED rows whose retry time is not after the reading, each once, at most as many as the limit, and all of them when there are fewer |
| AuditEncoding.NumberOfDigits | internal/audit/audit.go:81-81 | reading a decimal timestamp back gives the timestamp |
| AuditEncoding.ParseInverts | internal/audit/audit.go:75-83 | unique decoding of the separator-free text: previous checksum and every field can be read back |
| AuditEncoding.ChainInputInjective | internal/audit/audit.go:75-83 | equal hashed texts come from equal rows after equal checksums |
| AuditEncoding.AmbiguousWithoutUuid | internal/api/server.go:335-358 | for every clock reading from 2004 to 2033, a row and the row whose timestamp lost its first digit to the will identifier have the same hashed text |
| AuditEncoding.TextDeterminesId | internal/audit/audit.go:75-81 | equal hashed texts come from equal checksums and equal row ids, whatever the other fields hold |
| AuditChain.AuditService.Insert | internal/audit/audit.go:87-93 | appends with the next sequence number, and fails exactly on a repeated row id |
| AuditChain.AuditService.Log | internal/audit/audit.go:55-97 | appends the row chained to the last one and keeps an accepted log accepted |
| AuditChain.AuditService.VerifyChain | internal/audit/audit.go:99-139 | accepts exactly when every row's checksum recomputes, and otherwise reports the first row, with the least sequence number, that does not |
| AuditChain.PrefixAccepted | internal/audit/audit.go:109-138 | acceptance is prefix-closed |
| AuditChain.HeadDeterminesLog | internal/audit/audit.go:75-137 | two accepted logs with the same last checksum are equal row for row, or two hashed texts collide |
| AuditChain.EditReportedHere | internal/audit/audit.go:125-135 | an edited row whose checksum does not recompute is reported at that row |
| AuditChain.EditReportedNext | internal/audit/audit.go:125-136 | whatever is written into a row with its checksum recomputed: accepted at the end of the log, and before the end if and only if the hashed text is the old one, up to a collision; otherwise reported at the successor |
| AuditChain.VocabularyEditReported | internal/audit/audit.go:125-136 | an edit that stays among the rows the program writes is reported at its successor, or a collision is found |
| AuditChain.UnnoticedEdit | internal/audit/audit.go:75-83 | every row of every accepted log has an edit that is accepted wherever the row stands and with its checksum left alone |
| AuditChain.AnythingCanBeChained | internal/audit/audit.go:75-83 | any sequence of entries has an accepted chain |
| AuditRaces.DistinctChecksums | internal/storage/migrations/001_initial.sql:80-89 | stored checksums are pairwise different, because row ids are, or two hashed texts collide |
| AuditRaces.ChainVerifiesIff | internal/audit/audit.go:63-93 | with Log split into its two statements and any fields but the row id arbitrary, the log verifies if and only if no insert fell between the read and the insert of any call, up to a collision |
| AuditRaces.RaceHappens | internal/audit/audit.go:63-93 | two calls that both read the empty table disturb each other |
| CryptoEngine.OpensOnlyAsSealed | internal/crypto/crypto.go:114-170 | a sealed box opens to its text under its key and associated data, and under no other |
| CryptoEngine.Engine.Initialize | internal/crypto/crypto.go:48-73 | the four outcomes, each under its exact condition; the key kept is derived from passphrase, salt and iterations |
| CryptoEngine.Engine.DecryptDEK | internal/crypto/crypto.go:81-112 | gives a DEK exactly when the wrap was sealed under the current key, and then what was sealed |
| CryptoEngine.Engine.Shutdown | internal/crypto/crypto.go:185-193 | uninitialized with no key, so no DEK opens |
| CryptoEngine.Engine.HandleUnlock | internal/api/server.go:202-243 | the five replies, each under its exact condition; a failed check does not undo the initialization with the key of that passphrase |
| CryptoEngine.Engine.UnlockWrapped | internal/api/server.go:202-243 | when the DEK was wrapped under the key of one passphrase, that one unlocks, and any other exactly if it derives the same key |
| CryptoEngine.Engine.WrongPassphraseSticks | internal/api/server.go:202-243 | after a wrong passphrase the right one is not accepted and no DEK opens |
| Envelope.PrepareExact | internal/scheduler/scheduler.go:199-251 | a worker leaves, fails or delivers exactly what the owner gave, depending on the engine's key, the crypto_meta row it took and the content |
| Envelope.VaultAlways | internal/will/service.go:64-74 | every stored payload, config and wrapped DEK opens to what was sealed, in every run |
| Envelope.DeliveredAsGiven | internal/scheduler/scheduler.go:199-269 | every notifier call gets the content given to will.Create and the config given to action.Create; an empty will never gets there |
| Envelope.VerdictWithOneMeta | internal/scheduler/scheduler.go:199-231 | with one crypto_meta row a worker that does not leave delivers exactly when the will has content |
| Envelope.VerdictConstant | internal/scheduler/scheduler.go:199-251 | with one crypto_meta row the outcome for an action is the same at any two moments at which the worker does not leave |
| Verdicts.OneMetaDecides | internal/scheduler/scheduler.go:199-251 | with one crypto_meta row every run has a fixed decryption verdict: whether the will was created with content |
| Verdicts.ExclusiveWithOneMeta | internal/scheduler/scheduler.go:253-280 | with one crypto_meta row the lease alone gives mutual exclusion |
| Verdicts.EmptyWillNeverEnds | internal/will/service.go:226-229 | rows of a will without content are never delivered and, with more than one retry, never given up |
| Envelope.OtherMetaFails | internal/scheduler/scheduler.go:199-231 | with a second crypto_meta row of another DEK the worker that takes it records a failure |
| Secrets.DeliveryByPassphrase | internal/scheduler/scheduler.go:199-269 | end to end: what was stored under one passphrase reaches the notifier of a process unlocked with another exactly if both derive the same key, and with the same one always |
| Secrets.UnlockIsStep | internal/api/server.go:202-243 | the unlock step of the envelope is what HandleUnlock does to the engine |
| Secrets.ShutdownIsStep | internal/crypto/crypto.go:185-193 | the lock step is what Shutdown does, after which every worker leaves |
| Secrets.AadInjective | internal/will/service.go:230-237 | the associated data tell wills and crypto_meta rows apart when will identifiers hold no bar |
| Secrets.MovedPayloadFails | internal/will/service.go:230-239 | a payload copied into the row of another will is not delivered |
| Secrets.MovedConfigIff | internal/action/service.go:151-168 | a config copied to another action opens there if and only if both belong to the same will |
| Backup.BackupReads | internal/storage/backup.go:113-152 | a backup reads back as its snapshot |
| Backup.OtherPassphraseFails | internal/storage/backup.go:124-145 | another passphrase reads nothing unless it derives the same key |
| Backup.Backups.TakeSnapshot | internal/storage/backup.go:36-56 | what VACUUM INTO wrote, else the bytes of the database, or none when the path is the database itself; fails exactly without either |
| Backup.Backups.Finish | internal/storage/backup.go:58-103 | manifest and stored bytes as written, salt, nonce and ciphertext under a key of 600000 iterations; nothing in the clear stays behind an encrypted backup; no other file changes |
| Backup.Backups.CreateBackup | internal/storage/backup.go:30-111 | a backup of the VACUUM output or of the database bytes, one backup_created row in a still accepted audit log, and no other file touched |
| Backup.Backups.RestoreBackup | internal/storage/backup.go:113-166 | each outcome under its exact condition; what is restored has the checksum of the manifest, and no file but the database and its temporary copy changes; any failed check leaves every file as it was |
| Backup.Backups.BackupThenRestore | internal/storage/backup.go:30-166 | restoring a created backup puts the VACUUM output or the old database bytes back, and its audit log is an accepted beginning of the live one |
| Backup.Backups.RestoreFromGivenPath | internal/storage/backup.go:94-98 | restoring from the requested path works exactly without encryption, or with a leftover manifest of an empty database |
| Migration.RecordsMatchVersion | internal/storage/schema.go:50-82 | user_version is v exactly when versions 1 to v are each recorded once with their file's checksum |
| Migration.SchemaIsApplied | internal/storage/schema.go:55-59 | the schema is that of executing the scripts once each in order |
| Migration.Store.Migrate | internal/storage/schema.go:20-88 | wherever it is cut off the database is in step with some version, and each result comes under its condition |
| Migration.Store.Resume | internal/storage/schema.go:36-88 | any number of cut-off runs followed by a completing one end as one uninterrupted run, and the checksums verify |
| Migration.Store.VerifyChecksums | internal/storage/schema.go:97-124 | accepts exactly when every record matches its file up to letter case, and otherwise reports the first that does not |
| Migration.Store.VerifyEdited | internal/storage/schema.go:97-124 | after an edit of one applied file it accepts exactly if the checksum is the old one, and otherwise names that version |
| Migration.EqualFoldIff | internal/storage/schema.go:119-119 | equality up to case, character by character: equal, or the two cases of one letter |
| Migration.EqualFoldOfHex | internal/storage/schema.go:119-119 | on lower-case hexadecimal texts it is plain equality |
| Migration.EditedFileRejected | internal/storage/schema.go:97-124 | replacing an applied file is noticed exactly when its checksum is another text, given lower-case hexadecimal checksums, and removing it always |

## Left out

- SMTP, webhook and script delivery, templates: a notifier call succeeds or fails after any time. SIGNAL always fails there.
- HTTP routing, middleware, rate limits, tokens, JSON decoding of requests; update and list handlers; the CLI and the daemon wiring.
- `CalibratePBKDF2`, the configuration file, health and `Status`, `Stop`, the minimum tick interval of 10 seconds.
- SQL, file-system and random-number errors; statements and file writes either happen or the process dies between them.
- Columns nobody decides on: names, `updated_at`, `created_at`, `error_message`, `trigger_event_id`, action types, `rotated_at`.
- Audit calls of the scheduler and the handlers are pauses in the protocol; the log itself is modelled separately.
- SchedulerProgram.Scheduler.Yield: its body does nothing; it stands for everything else that runs, and callers use only its contract, which includes that the process is not restarted. Crashes are steps of the protocol, not of a routine.
- SchedulerProgram.Scheduler.Start: makes a given number of beats; the source loops until it is stopped.
- SchedulerProgram.Scheduler.HandleOwner: also covers resuming a paused will, which the transition table allows although no handler offers it.
- SchedulerProgram.Scheduler.HandleCreateWill: the crypto_meta row and its DEK are given as facts; `Envelope` models them.
- SchedulerProgram.Scheduler.HandleUnlock: the passphrase check is modelled in the crypto engine only.
- SchedulerProgram.Scheduler.RetryAction: decryption is the given outcome; the queries between load and claim read columns that never change and are one pause.
- Protocol: a tick may or may not be followed by a retry scan, creating a will needs no key, and a worker may leave before its claim at any time. For statements about all runs this only adds runs; the continuations built in `Endings` and `Traces` do not use it, and a worker leaves there only without a key.
- Protocol: attempts are natural numbers, as every run keeps them; the slice index of `calculateRetryDelay` for a negative attempt is not modelled.
- ExecutionTheorems.CallsBounded: assumes no failure write between load and claim instead of no other claim there: a claim won before the load whose failure write falls inside that span breaks the bound (`NoOtherClaimIsNotEnough`).
- AuditChain.EditReportedNext: the sequence number is not hashed, so edits of it are not covered.
- Envelope: the engine's key-length and nonce-length errors, and memory protection of keys.
- Backup.Backups.CreateBackup: the default path for an empty argument; `VACUUM INTO` is whatever bytes it wrote.
- Migration.Store.Migrate: a transaction is atomic and SQLite's own recovery is trusted.
