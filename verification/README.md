# ArenaCore's execution pipeline, modelled and verified

ArenaCore runs learners' programs. A request becomes a row in a database; workers, maintenance sweeps,
dispatchers, cancellers and readers then act on that row concurrently, each in its own transaction, while a
runner executes the program in containers and a judge turns what was observed into a verdict. This project
is a Dafny model of that pipeline and a set of proofs about it.

`dafny verify dfyconfig.toml` checks everything.

## How the model is built

* **One transaction, one step.** Every database transaction holds a row or advisory lock, so it is one atomic
  step with one clock reading. The clock never runs backwards and `randomUUID()` never repeats a token.
  A theorem about "any run" quantifies over every finite sequence of such steps.
* **Decisions and commits.** `Rows.Decide` says what a `JobStore` call does to the execution row, which event
  it emits, which outbox intent and notification it writes and what it answers. `Jobs.Apply` commits that to
  the row, the stored log, the outbox and the notifications.
* **Database and trace are kept apart.** `Jobs.Job` holds only what the database holds. `Jobs.World` adds what
  the proofs speak about: the full history of every attempt and every lease ever issued.
* **Imperative code stays imperative.** The store, the outbox table, the admission transaction, the socket
  client and the runner host are classes whose methods update fields; loops are loops. Each is proved against
  the step functions the theorems are about.
* **The outside world is arbitrary.** Docker results, container clean-up, queue delivery, which rows a locked
  sweep happens to see, event sizes and database look-ups are parameters.

| file | models |
|---|---|
| `Contracts.dfy`, `Text.dfy`, `Ordering.dfy` | shared vocabulary: states and transitions, UTF-8 and JSON sizes, sorting |
| `EventLog.dfy`, `Replay.dfy`, `Realtime.dfy` | the trimmed event log, replay after a cursor, the realtime stream |
| `Rows.dfy`, `StoreLaws.dfy`, `SqlLifecycle.dfy`, `Jobs.dfy`, `JobTheorems.dfy`, `JobStore.dfy`, `Worker.dfy` | the lease and attempt protocol |
| `Outbox.dfy`, `Dispatcher.dfy`, `Durability.dfy` | intents, the dispatchers that compete for them, and why none is ever stuck |
| `Sweeps.dfy`, `Admission.dfy` | maintenance over many jobs; creation, caps and quotas |
| `Judge.dfy`, `JudgeTheorems.dfy`, `Projection.dfy`, `JsonText.dfy` | the judge, its verdict, its public projection and the JSON it becomes |
| `Supervisor.dfy`, `RunnerServer.dfy` | the case loop and the runner process around it |
| `Leaderboard.dfy` | the competition scoreboard |

## What the proofs found in the code

* A dispatcher whose claim has expired but was not taken over can still write in its catch branch, because
  that update tests the token and not the expiry. `Dispatcher.ExpiredBackoffStillWrites` is a two-move
  run from a new job, `Dispatcher.BackoffNeedsOnlyTheToken` the exact condition; the acknowledgement has no such gap.
* A Docker client killed by a signal is reported with exit code -1, which the judge's schema refuses. For
  everything else the supervisor returns normally, the judge never raises a protocol error:
  `Supervisor.SupervisorOutputIsJudgeable` is an if-and-only-if, and `Supervisor.SignalledClientIsRejected` gives
  the case.
* Output comparison is symmetric but not transitive; `Judge.CompareChains` says exactly when two matches chain.
* The transition table has no edge from RUNNING to COMPILING, yet a re-claim takes it. It does so only together
  with the next attempt and after the lease has lapsed (`SqlLifecycle.TransitionsFollowTheTable`), which is what
  the database trigger allows.
* `recover`'s upsert never reaches its update branch (`JobTheorems.RecoverAlwaysInserts`).
* A queue timeout found by `claim` writes no EXECUTION_EXPIRED intent, `cancel` does not shorten the current
  lease, and null, CANCELLED and INTERNAL_ERROR verdicts count as wrong attempts on the leaderboard. The model
  follows the code in each case.

## Model

| member | source | states |
|---|---|---|
| `Contracts.TerminalStates` | packages/contracts/src/index.ts:100-108 | the terminal states are exactly those the transition table gives no way out of |
| `Text.RemovalIsExact` | apps/api/src/executions/job-store.ts:20-22 | removal drops exactly the control characters and keeps every other one, in order |
| `Text.ControlsAreExact` | apps/api/src/executions/job-store.ts:21 | which characters are removed: controls but tab and line feed, DEL and C1, bidirectional overrides and isolates |
| `Text.Utf8IsShortest` | packages/judge/src/judge.ts:20 | sizes are those of UTF-8: the fewest bytes whose payload holds the code point |
| `Text.SanitizingShrinks` | apps/api/src/executions/job-store.ts:20-22 | the whole sanitiser, ANSI stripping included, never lengthens text |
| `Text.SanitizingIsIdempotent` | apps/api/src/executions/job-store.ts:20-22 | sanitising twice is sanitising once, so text the judge cleaned is not changed again by the store |
| `Text.EscapingAtMostDoubles` | packages/judge/src/judge.ts:19 | JSON escaping of sanitised text adds at most one byte per byte |
| `EventLog.WindowIsLongestSuffix` | apps/api/src/executions/job-store.ts:47-51 | a suffix survives the trim exactly when it has at most 256 rows and 262144 bytes: the trim keeps the longest such suffix |
| `EventLog.WindowMonotone` | apps/api/src/executions/job-store.ts:47-51 | a later event never brings a trimmed row back into the window and never trims itself |
| `EventLog.AppendKeeps` | apps/api/src/executions/job-store.ts:41-54 | an append keeps: the log is expired left-overs followed by all of the history that is in the window and unexpired |
| `EventLog.RestartKeeps` | apps/api/src/executions/job-store.ts:69-71 | a new attempt starts from an emptied table and satisfies the log invariant |
| `EventLog.SweepKeeps` | apps/api/src/executions/job-store.ts:184 | deleting any set of expired rows, in any batch, keeps the log invariant |
| `EventLog.SweepIsExact` | apps/api/src/executions/job-store.ts:184 | a row survives a sweep exactly when it was not selected or has not expired |
| `EventLog.LogRefinesHistory` | apps/api/src/executions/job-store.ts:41-54 | what a reader sees of the stored log is exactly what it would see of the windowed full history, and is a contiguous run up to the last event |
| `JobStore.Trim` | apps/api/src/executions/job-store.ts:47-51 | the accumulate-and-discard loop, newest first, leaves exactly the longest suffix within both limits |
| `JobStore.AppendEvent` | apps/api/src/executions/job-store.ts:41-54 | numbers the event after the row's last one and stores it in the trimmed log |
| `JobStore.Settle` | apps/api/src/executions/job-store.ts:55-59 | the terminal write: final event, at most one fenced notification, outcome columns, cleared lease |
| `JobStore.ConsoleRefusal` | apps/api/src/executions/job-store.ts:94-100 | which console output is refused and with which error, for every input, malformed case identifiers and stream names included |
| `JobStore.BeginAttempt` | apps/api/src/executions/job-store.ts:68-72 | the next attempt has an emptied log with one event, a new token and a lease within the job deadline |
| `JobStore.AnswerClaim` | apps/api/src/executions/job-store.ts:63-67 | which claims are refused, which end the job and with which code, and which are granted |
| `JobStore.ClaimRow` | apps/api/src/executions/job-store.ts:60-75 | the branches of `claim` on a locked row agree with the claim step; a lease is returned exactly when the step claims |
| `JobStore.StoreResult` | apps/api/src/executions/job-store.ts:117-120 | the outcome columns, sanitised public results, final event and notification of an accepted result |
| `JobStore.JobStore.Insert` | apps/api/src/executions/executions.ts:47-50 | execution, first event and EXECUTION_CREATED intent appear together; no other job changes |
| `JobStore.JobStore.Claim` | apps/api/src/executions/job-store.ts:60-75 | the whole table after the call is the old one with the claim step applied to this row only |
| `JobStore.JobStore.Renew` | apps/api/src/executions/job-store.ts:76-85 | table and answer are those of the renew step: lease end capped by deadline and cancellation grace, LOST leaves no trace |
| `JobStore.JobStore.MarkRunning` | apps/api/src/executions/job-store.ts:86-93 | table and answer are those of the mark-running step |
| `JobStore.JobStore.Console` | apps/api/src/executions/job-store.ts:94-103 | table and answer are those of the console step, errors included |
| `JobStore.JobStore.Finish` | apps/api/src/executions/job-store.ts:104-123 | table and answer are those of the finish step, errors and late cancellation included |
| `JobStore.JobStore.Fail` | apps/api/src/executions/job-store.ts:124-130 | table and answer are those of the fail step |
| `JobStore.JobStore.Recover` | apps/api/src/executions/job-store.ts:131-141 | table and answer are those of the recover step, with the upsert as written |
| `JobStore.JobStore.Cancel` | apps/api/src/executions/job-store.ts:142-157 | table and answer are those of the cancel step for owner and stranger, queued, active and settled jobs |
| `JobStore.JobStore.MaintainRow` | apps/api/src/executions/job-store.ts:174-181 | one selected row: settled, or given its recovery intent, or left alone when not due |
| `JobStore.JobStore.MaintainRows` | apps/api/src/executions/job-store.ts:174-181 | the selected rows are swept one after the other |
| `JobStore.JobStore.ReofferIntents` | apps/api/src/executions/job-store.ts:182-183 | exactly the old published intents the job still waits for become unpublished |
| `JobStore.JobStore.DeleteEvents` | apps/api/src/executions/job-store.ts:184 | only expired events of the selected ones disappear |
| `JobStore.JobStore.Maintain` | apps/api/src/executions/job-store.ts:171-186 | the sweep is the sequence of its row steps, reoffers and deletions at one clock reading |
| `JobStore.JobStore.ExpireRow` | apps/api/src/executions/queued-maintenance.ts:20-26 | one queued job past its deadline: final event, outcome columns and EXECUTION_EXPIRED intent together |
| `JobStore.JobStore.ExpireQueuedJobs` | apps/api/src/executions/queued-maintenance.ts:8-29 | the expiry batch is the sequence of its row steps at one clock reading |
| `Rows.RowInvariant` | apps/api/src/executions/job-store.ts:60-181 | every call keeps: attempt at most 3, lease only while active, never past the deadline and at most 30 seconds ahead, outcome columns exactly when terminal, results only when finished and public, and failure codes that tell the truth |
| `Rows.DecisionShape` | apps/api/src/executions/job-store.ts:41-181 | sequence numbers advance by one or restart with a new attempt; a row becomes terminal exactly with its final event, which carries the stored outcome; terminal rows are never written |
| `Rows.WriteShape` | apps/api/src/executions/job-store.ts:131-181 | plain outbox inserts happen only when a queued job is settled, and `recover`'s upsert only under a valid lease for its own attempt |
| `Rows.InvalidLeaseChangesNothing` | apps/api/src/executions/job-store.ts:30-33 | a worker call under a lease that is not valid writes no row, event, intent or notification |
| `Rows.AuthorityNeverReturns` | apps/api/src/executions/job-store.ts:30-33 | a lease that is not valid now is not valid after any next transaction of anyone |
| `Rows.ClaimGrants` | apps/api/src/executions/job-store.ts:60-75 | a claim is granted exactly for a queued job in time or a live one with a lapsed lease, without cancel request, below three attempts and before the deadline; the issued lease is valid at once |
| `Rows.GrantIsLongest` | apps/api/src/executions/job-store.ts:72 | a granted lease gets the latest end that 30 seconds and the job deadline allow |
| `Rows.OnlyRenewalExtends` | apps/api/src/executions/job-store.ts:60-141 | no call but a renewal extends a lease; without one it keeps its end or ends now |
| `Rows.NeverQueuedAgain` | apps/api/src/executions/job-store.ts:60-181 | no job goes back into the queue |
| `Rows.RequestNeedsOwner` | apps/api/src/executions/job-store.ts:142-157 | a cancel request is made by the owner, of an active job, when that is available, and is dated by the call |
| `Rows.RenewalIsLongest` | apps/api/src/executions/job-store.ts:76-85 | a renewal gives the latest end that 30 seconds, the deadline and the cancellation grace allow, and is refused exactly when none is left |
| `Rows.CancelLeavesAuthority` | apps/api/src/executions/job-store.ts:142-157 | a cancel request of an active job is recorded and leaves exactly the same leases valid |
| `Rows.CancellationIsBounded` | apps/api/src/executions/job-store.ts:174-178 | fifteen seconds after a cancel request the sweep selects the job whatever its lease and ends it as CANCELLATION_TIMEOUT |
| `Rows.CancellationSticks` | apps/api/src/executions/job-store.ts:104-157 | after a cancel request no call starts an attempt, drops the request or finishes the job |
| `Rows.CancelledNeedsAuthority` | apps/api/src/executions/job-store.ts:104-157 | CANCELLED is written to an active job only by a valid lease holder and to a queued one only by its owner |
| `StoreLaws.ClaimEnds` | apps/api/src/executions/job-store.ts:63-67 | a claim that is not granted ends exactly the live jobs no unexpired lease protects, with the code of the reason, and leaves all others alone |
| `StoreLaws.ClaimStarts` | apps/api/src/executions/job-store.ts:68-72 | a granted claim starts the next attempt with an emptied outcome, one status event and nothing else written |
| `StoreLaws.InvalidLeaseReplies` | apps/api/src/executions/job-store.ts:76-141 | under a lease that is not valid nothing is written, and what each call answers |
| `StoreLaws.MarkRunningLaw` | apps/api/src/executions/job-store.ts:86-93 | exactly a compiling job without cancel request is moved to RUNNING, and only its state changes |
| `StoreLaws.ConsoleLaw` | apps/api/src/executions/job-store.ts:94-103 | under a valid lease, exactly when output is refused, an error or stored, and that the stored event has the sanitised text |
| `StoreLaws.FinishLaw` | apps/api/src/executions/job-store.ts:107-121 | a cancel request wins, private output is an error, and otherwise exactly the reported verdict, metrics and sanitised cases are stored |
| `StoreLaws.FinishRefusesInput` | apps/api/src/executions/job-store.ts:105-106 | a result that does not parse or is too large is refused before the lease is looked at |
| `StoreLaws.ResultSchema` | apps/api/src/executions/job-store.ts:14-18 | no infrastructure verdict anywhere and at most a hundred cases |
| `StoreLaws.FailLaw` | apps/api/src/executions/job-store.ts:124-130 | CANCELLED when requested and clean, CANCELLATION_TIMEOUT when requested and not, JOB_FAILURE otherwise |
| `StoreLaws.RecoverLaw` | apps/api/src/executions/job-store.ts:131-141 | a requested cancel and a third attempt end the job, otherwise exactly the lease ends now and the recovery intent is written |
| `StoreLaws.StrangerCancelsNothing` | apps/api/src/executions/job-store.ts:145 | a cancel by anyone but the owner answers NOT_FOUND and writes nothing, whatever the state |
| `StoreLaws.OwnerCancelLaw` | apps/api/src/executions/job-store.ts:146-155 | what the owner's cancel writes and answers for queued, active, already requested and settled jobs |
| `StoreLaws.MaintainLaw` | apps/api/src/executions/job-store.ts:174-180 | a sweep touches exactly the active jobs that have lapsed or whose request is fifteen seconds old, and ends or offers them |
| `StoreLaws.ExpireLaw` | apps/api/src/executions/queued-maintenance.ts:11-26 | the expiry sweep ends exactly the queued jobs past their deadline |
| `StoreLaws.EventsTellTheTruth` | apps/api/src/executions/job-store.ts:41-46 | a status event names the row's new state, output comes from `console` alone, a final verdict exactly from the settling call, and sizes are the events' own |
| `StoreLaws.QueuedNotifiesNobody` | apps/api/src/executions/job-store.ts:34-39 | ending a job that never ran notifies nobody |
| `SqlLifecycle.StepsRefineTrigger` | prisma/migrations/20260926020000_competition_ownership_and_execution_context/migration.sql:20-50 | every update any call makes is accepted by the lifecycle trigger, at any later trigger clock, and by the table checks |
| `SqlLifecycle.RowOkPassesChecks` | prisma/migrations/20260918170000_durable_job_controls/migration.sql:22-29 | every reachable row satisfies the terminal-field, lease-pair and deadline checks |
| `SqlLifecycle.TriggerFollowsTheTable` | prisma/migrations/20260926020000_competition_ownership_and_execution_context/migration.sql:39-44 | the trigger accepts a state change only along the contracts' table or as the re-claim of a lapsed attempt |
| `SqlLifecycle.TriggerAllowsTheTable` | prisma/migrations/20260926020000_competition_ownership_and_execution_context/migration.sql:39-44 | it accepts every edge of that table and that re-claim |
| `SqlLifecycle.TriggerProtects` | prisma/migrations/20260926020000_competition_ownership_and_execution_context/migration.sql:20-50 | requests, cancel requests and terminal rows are immutable, leases replaced only after they lapsed, attempts and sequences never regress |
| `SqlLifecycle.ChecksProtect` | prisma/migrations/20260918170000_durable_job_controls/migration.sql:22-29 | rows that pass the checks record outcomes exactly when over and hold leases in pairs while active |
| `SqlLifecycle.CreateIsLegal` | prisma/migrations/20260926020000_competition_ownership_and_execution_context/migration.sql:12-18 | the row `create` inserts passes the table checks and the insert branch of the trigger exactly when its problem version is published |
| `SqlLifecycle.TransitionsFollowTheTable` | packages/contracts/src/index.ts:100-108 | within one attempt states move only along the table; the next attempt begins only by a claim of a live job without cancel request whose lease, if any, has lapsed |
| `Jobs.StartOk` | apps/api/src/executions/executions.ts:46-51 | a newly created job satisfies the whole invariant |
| `Jobs.InsertsAreNew` | apps/api/src/executions/job-store.ts:142-157 | no call ever meets the outbox's unique key, so none is aborted by it |
| `Jobs.CallKeeps` | apps/api/src/executions/job-store.ts:60-186 | every store call keeps rows, log, histories, leases, intents and notifications mutually consistent |
| `Jobs.RunKeeps` | apps/api/src/executions/job-store.ts:24-187 | the invariant holds after every interleaving of store calls, sweeps, reoffers and dispatcher writes |
| `JobTheorems.FencedForever` | apps/api/src/executions/job-store.ts:30-33 | once a lease is superseded, expired or given up, after any run every worker call presenting it leaves the whole job unchanged |
| `JobTheorems.AtMostOneAuthority` | apps/api/src/executions/job-store.ts:30-33 | after any run, of all the leases ever granted only the latest can be valid: two different grants never are at the same time |
| `JobTheorems.UnrenewedLapses` | apps/api/src/executions/job-store.ts:72-85 | along any run of thirty seconds without renewal an attempt is over: the job ended, a later attempt began, or the lease lapsed and the job can be recovered |
| `JobTheorems.LifeStaysBounded` | apps/api/src/executions/job-store.ts:33 | in every reachable state at most three attempts, no lease past queueExpiresAt + 600000 and none more than 30 seconds ahead |
| `JobTheorems.OutcomeIsFinal` | apps/api/src/executions/job-store.ts:55-59 | from a terminal state no run changes row, histories or notifications |
| `JobTheorems.ExactlyOneFinalVerdict` | apps/api/src/executions/job-store.ts:104-157 | over all attempts an event is a final verdict exactly when it is the last event of a terminal job; it carries the stored outcome, and at most one SUBMIT notification exists, with the same verdict |
| `JobTheorems.SettlingNotifies` | prisma/migrations/20261005010000_fenced_execution_notifications/migration.sql:44-54 | the call that settles an active job leaves one notification with the settled verdict for a subscribed SUBMIT that was not cancelled, and none otherwise |
| `JobTheorems.CancelledNeverFinishes` | apps/api/src/executions/job-store.ts:142-157 | after a cancel request, over any run, the attempt number is frozen and FINISHED is unreachable |
| `JobTheorems.StrangerLeavesTheJob` | apps/api/src/executions/job-store.ts:145 | a cancel by anyone but the owner answers NOT_FOUND and leaves row, log, outbox and notifications as they were |
| `JobTheorems.CancellationComesFromTheOwner` | apps/api/src/executions/job-store.ts:142-157 | over any run a cancel request appears only through the owner's own cancel, while that was available, and carries that call's clock reading |
| `JobTheorems.CallStoresEvent` | apps/api/src/executions/job-store.ts:41-46 | a call adds nothing or exactly one event at the end of the attempt's history, with its own size and a ten-minute expiry |
| `JobTheorems.CallStoresIntent` | apps/api/src/executions/job-store.ts:131-181 | a call changes the outbox by its one write and nothing else |
| `JobTheorems.WriteIsExact` | apps/api/src/executions/job-store.ts:138-146 | a written intent is there afterwards, due at once if new, and no other appears or goes |
| `JobTheorems.RunExtends` | apps/api/src/executions/job-store.ts:41-54 | over any run histories only grow: attempts are archived in order and no event is rewritten |
| `JobTheorems.RecoverAlwaysInserts` | apps/api/src/executions/job-store.ts:131-141 | while a lease is valid no recovery intent of its attempt exists, so the upsert takes its create branch |
| `JobTheorems.LapsedJobIsOffered` | apps/api/src/executions/job-store.ts:131-181 | after `recover` or a sweep of the row, a live job with a lapsed lease has a recovery intent the dispatcher accepts |
| `JobTheorems.QueuedJobIsOffered` | apps/api/src/executions/executions.ts:46-51 | in every reachable state a queued job within its deadline has an intent the dispatcher accepts |
| `JobTheorems.OfferStands` | apps/api/src/executions/queue.ts:32-37 | once offered, over any run a job stays offered until a new attempt starts or it is settled |
| `Worker.WorkerAlwaysSettles` | apps/api/src/executions/queue.ts:64-72 | a recoverable error of a job that may be tried again leaves it lapsed with an accepted recovery intent, any other backend exit settles it; FINISHED exactly for an acceptable result without cancel request, CANCELLED exactly when requested and clean-up was confirmed, and the failure code of the rest |
| `Durability.StartShaped` | apps/api/src/executions/executions.ts:50 | the intent `create` writes is waiting and due at once |
| `Durability.RunKeepsShape` | apps/api/src/executions/queue.ts:19-44 | over any run every intent is waiting, claimed or published, its claim ends within ten seconds and its delay within thirty |
| `Durability.QuietIntentIsClaimable` | apps/api/src/executions/job-store.ts:182-183 | after thirty quiet seconds an intent the job waits for is claimable once reoffered |
| `Durability.DurableWorkIsDispatched` | apps/api/src/executions/job-store.ts:182-183 | after any run and thirty quiet seconds, one reoffer and one tick put the intent of a waiting job under the ticking dispatcher's claim, and the job is eligible |
| `Replay.SelectedIsTail` | apps/api/src/executions/job-store.ts:163 | the events query returns a contiguous tail of the full history |
| `Replay.StrangerSeesNothing` | apps/api/src/executions/job-store.ts:160-162 | replay answers exactly the owner |
| `Replay.ReplayIsGuarded` | apps/api/src/executions/job-store.ts:163-168 | for any table, reachable or not: events are shown only if all are publishable, at most 256, and exactly those from the cursor to the last; otherwise none |
| `Replay.SnapshotIsExact` | apps/api/src/executions/serialization.ts:17-34 | the snapshot tells every column of a reachable row, all stored results included, and none for a SUBMIT |
| `Replay.SnapshotHidesPrivate` | apps/api/src/executions/serialization.ts:27-32 | of any stored results exactly those of public cases are shown, and only for a RUN |
| `Replay.ReplaySoundAndComplete` | apps/api/src/executions/job-store.ts:158-170 | replay is available exactly when the attempt matches, the cursor is not ahead and every later event is in the window and unexpired; it then returns precisely the history after the cursor, and the safety test never fails on the store's own events |
| `Realtime.EmitKeeps` | apps/api/src/executions/realtime.ts:69-77 | emitting one read extends a gap-free stream and leaves the client at the snapshot |
| `Realtime.TurnsAreExact` | apps/api/src/executions/realtime.ts:38-81 | which flags, cursors and messages each piece of code changes, and that it changes nothing else |
| `Realtime.EmissionIsExact` | apps/api/src/executions/realtime.ts:74-75 | a poll emits exactly the replayed events in order, or exactly one sync |
| `Realtime.PollCatchesUp` | apps/api/src/executions/realtime.ts:69-77 | a poll that reads and emits leaves the client at the last event of the job it read |
| `Realtime.ClientNeverStuck` | apps/api/src/executions/realtime.ts:38-81 | a poll can always go on or end, a subscribe read or reply once no poll is under way, an idle client begin either |
| `Realtime.PollsAndCommandsExclude` | apps/api/src/executions/realtime.ts:42-65 | no poll begins while a command is busy, and no command reads while a poll is under way |
| `Realtime.ConnectedOk` | apps/api/src/executions/realtime.ts:34-36 | a client that has just connected satisfies the stream invariant for any reachable job |
| `Realtime.SessionKeeps` | apps/api/src/executions/realtime.ts:38-81 | the stream invariant holds for every interleaving of polls, subscribe commands, unsubscribes and job steps |
| `Realtime.StreamIsGapFree` | apps/api/src/executions/realtime.ts:38-81 | between acknowledgements each event is genuine and the successor of what the client last saw, a gap is announced by a sync that moves strictly forward, and the cursor equals the last position sent |
| `Realtime.Client.Admit` | apps/api/src/executions/realtime.ts:41-46 | rate-limit window, busy test, parse result and subscription limit: exactly when each error is returned, and that a success alone makes the client busy |
| `Realtime.Client.Acknowledge` | apps/api/src/executions/realtime.ts:52-57 | the cursor starts at the acknowledged snapshot and the client is free again |
| `Realtime.Client.Unsubscribe` | apps/api/src/executions/realtime.ts:59 | exactly that subscription is forgotten |
| `Realtime.Client.Deliver` | apps/api/src/executions/realtime.ts:70-76 | what is emitted for one cursor, in order, and where the cursor then stands |
| `Dispatcher.EligibilityNeverReturns` | apps/api/src/executions/queue.ts:32-37 | a job that stopped needing an intent never needs it again |
| `Dispatcher.CallsLeaveIntentsAlone` | apps/api/src/executions/job-store.ts:131-181 | store calls never rewrite an existing intent, so they cannot disturb a claim |
| `Dispatcher.NewIntentOk` | apps/api/src/executions/queue.ts:19-29 | every newly written intent satisfies the dispatcher invariant, so the results below hold from its first moment |
| `Dispatcher.NewBoardOk` | apps/api/src/executions/executions.ts:46-51 | in particular the intent of a newly created job |
| `Dispatcher.PlayKeeps` | apps/api/src/executions/queue.ts:19-44 | every dispatcher move and job step keeps claims disjoint and every look and enqueue within its own claim |
| `Dispatcher.DispatchIsFenced` | apps/api/src/executions/queue.ts:19-44 | for any number of interleaved dispatchers claims on one intent never overlap in time, and a published intent that the job still needs was put on the queue by its publisher during the latest claim |
| `Dispatcher.OnlyTheHolderPublishes` | apps/api/src/executions/queue.ts:38 | `publishedAt` is set only by the holder of the current unexpired claim after its own look, and if the job is still eligible that holder itself has enqueued it since its claim began |
| `Dispatcher.DispatcherGoesOn` | apps/api/src/executions/queue.ts:19-44 | a dispatcher that claimed can always look or give up, one that looked can always acknowledge, and no other can |
| `Dispatcher.StaleDispatcherIsSilent` | apps/api/src/executions/queue.ts:38-41 | a dispatcher that released its claim or lost it to another never writes again, after any run |
| `Dispatcher.BackoffNeedsOnlyTheToken` | apps/api/src/executions/queue.ts:38-41 | the backoff is silent exactly when the token was released or taken over, the acknowledgement exactly when the claim is not held unexpired; without a held claim the backoff writes exactly for an expired claim nobody took over |
| `Dispatcher.ExpiredBackoffStillWrites` | apps/api/src/executions/queue.ts:40 | from every new job a two-move game reaches this: a claim left alone for ten seconds, whose acknowledgement is refused and whose backoff is written |
| `Outbox.BackoffDoubles` | apps/api/src/executions/queue.ts:40 | the delay starts at one second, doubles with each attempt and stops at thirty |
| `Outbox.ClaimIsExact` | apps/api/src/executions/queue.ts:22-25 | a claim takes exactly an unpublished, due, unclaimed intent, for ten seconds, and counts itself |
| `Outbox.LettingGoIsExact` | apps/api/src/executions/queue.ts:38-40 | acknowledgement under an unexpired claim, backoff under the token, with all columns |
| `Outbox.ReofferIsExact` | apps/api/src/executions/job-store.ts:183 | an intent is reoffered exactly when published over ten seconds ago and still waited for |
| `Outbox.EligibilityIsExact` | apps/api/src/executions/queue.ts:32-34 | for whom each kind of intent is still enqueued |
| `Outbox.DeliveryMakesProgress` | apps/api/src/executions/job-store.ts:60-75 | the claim a delivery of an eligible queued or lapsed job makes starts an attempt or ends the job, and starts one for a queued job |
| `Dispatcher.OutboxTable.ClaimDue` | apps/api/src/executions/queue.ts:20-29 | exactly the selected rows that are still claimable are claimed and handed on; all others keep their columns |
| `Dispatcher.OutboxTable.Settle` | apps/api/src/executions/queue.ts:38-41 | acknowledgement or backoff of one intent, under the token |
| `Sweeps.LateSettles` | apps/api/src/executions/job-store.ts:174-178 | past its deadline every active job is selected and settled by maintenance, every queued one by expiry |
| `Sweeps.LateBatch` | apps/api/src/executions/job-store.ts:171-181 | past all deadlines no batch of any steps revives a job or creates an active one |
| `Sweeps.MaintenanceEnds` | apps/api/src/executions/job-store.ts:174-181 | a full maintenance pass over unlocked rows settles a hundred active jobs or all of them |
| `Sweeps.ExpiryEnds` | apps/api/src/executions/queued-maintenance.ts:8-29 | a full expiry pass settles a hundred queued jobs or all of them |
| `Sweeps.OthersOnlySettle` | apps/api/src/executions/job-store.ts:60-181 | past all deadlines any steps of anyone, each at its own clock reading, only settle jobs |
| `Sweeps.AllJobsEnd` | apps/api/src/executions/queued-maintenance.ts:42-53 | past all deadlines n rounds leave at most max(0, count - 100 n) queued and active jobs, whatever steps others take before and between the two passes of each round; enough rounds settle every job |
| `Admission.EmptyDbOk` | apps/api/src/executions/executions.ts:20-53 | the empty database satisfies the admission invariant |
| `Admission.EventKeeps` | apps/api/src/executions/admission.ts:20-48 | creates, job steps and counter clean-up each keep the index exact, the caps and the counters |
| `Admission.AdmissionIsExact` | apps/api/src/executions/admission.ts:20-48 | over any interleaving: (user, key) names one execution, active jobs stay within the per-user and global caps, each live counter equals the creations committed in its window and stays within its limit |
| `Admission.CapsHold` | apps/api/src/executions/admission.ts:20-48 | the same caps and quotas by name: users, everybody, and the three rate limits of every minute |
| `Admission.AcceptanceIsExact` | apps/api/src/executions/executions.ts:20-53 | a create under a new key is accepted if and only if the service is enabled, the user and everybody have fewer active jobs than their caps, the look-up resolved and all three quotas of the minute have room; each refusal exactly when its condition is the first to fail |
| `Admission.RefusalChangesNothing` | apps/api/src/executions/executions.ts:21-29 | a disabled service refuses everything, and no refusal changes the database |
| `Admission.UnfinishedMeaning` | apps/api/src/executions/executions.ts:31 | a job counts as active while QUEUED, COMPILING or RUNNING |
| `Admission.WindowsAreMinutes` | apps/api/src/executions/admission.ts:28-29 | windows are whole minutes and end with them |
| `Admission.CleanUpIsExact` | apps/api/src/executions/queued-maintenance.ts:47 | clean-up drops exactly the counters whose minute is over |
| `Admission.RetriesReturnTheSameJob` | apps/api/src/executions/executions.ts:26-30 | after any run a known (user, key) answers with the same execution for the same payload and a conflict for any other, and changes nothing |
| `Admission.AcceptedIsDurable` | apps/api/src/executions/executions.ts:46-51 | an accepted new job is filed under its key, queued with exactly the request made and its deadline, charged once and has its intent, all at once; no other job is touched |
| `Admission.Executions.Reserve` | apps/api/src/executions/admission.ts:35-47 | three upserts succeed exactly when every scope had room, otherwise nothing is kept |
| `Admission.Executions.Submit` | apps/api/src/executions/executions.ts:20-53 | answer and database are those of the create step, with rollback on every refusal |
| `Judge.SelectedDistinct` | packages/judge/src/judge.ts:13-17 | selected cases keep distinct identifiers |
| `Judge.SelectedOrdered` | packages/judge/src/judge.ts:13-17 | selected cases are in ordinal order |
| `Judge.SortedPermutes` | packages/judge/src/judge.ts:15 | permuting the plan does not change the selection |
| `Judge.SelectionIsExact` | packages/judge/src/judge.ts:13-17 | a SUBMIT is judged on exactly the plan's cases, hidden ones included, a RUN on exactly the public ones, in strictly increasing ordinal order |
| `Judge.SelectionFails` | packages/judge/src/judge.ts:14-16 | selection fails exactly for a malformed plan or when no case qualifies |
| `Judge.CompareIsSymmetric` | packages/judge/src/judge.ts:18 | actual and expected output are interchangeable |
| `Judge.CompareIsNotTransitive` | packages/judge/src/judge.ts:18 | a concrete chain of two matches whose ends do not match |
| `Judge.CompareChains` | packages/judge/src/judge.ts:18 | two matches chain exactly when the normalised ends differ in length by at most one |
| `Judge.NewlinesDropCrs` | packages/judge/src/judge.ts:18 | normalising line endings drops exactly the CRs that stand directly before a LF |
| `Judge.CompareMeaning` | packages/judge/src/judge.ts:18 | for all text, matching is equality but for CRs before LFs and one final newline |
| `Judge.DisplayIsLongest` | packages/judge/src/judge.ts:20 | a prefix of whole code points fits exactly when it is within the displayed text; text is cut exactly when it does not fit |
| `JudgeTheorems.DisplayText` | packages/judge/src/judge.ts:20 | the accumulating loop computes that longest prefix |
| `JudgeTheorems.ShowStreams` | packages/judge/src/judge.ts:40 | stdout and then stderr, each out of what is left of the budget |
| `JudgeTheorems.JudgeOne` | packages/judge/src/judge.ts:37-43 | one case's public result and the budget it leaves |
| `JudgeTheorems.Metrics` | packages/judge/src/judge.ts:45-46 | the largest runtime and memory of a fully measured observation, and nothing otherwise |
| `JudgeTheorems.JudgeLoop` | packages/judge/src/judge.ts:33-46 | the whole result of the loop, verdict, metrics and public results, is that of the specification |
| `JudgeTheorems.VerdictIsFirstFailure` | packages/judge/src/judge.ts:33-38 | the running verdict is that of the first case not accepted, and ACCEPTED exactly when there is none |
| `JudgeTheorems.VerdictSpecification` | packages/judge/src/judge.ts:21-47 | COMPILATION_ERROR exactly for a failed compilation; ACCEPTED exactly when every selected case was observed without failure, exited 0 and matched; otherwise the failure kind, RUNTIME_ERROR or WRONG_ANSWER of the first case in ordinal order that did not |
| `JudgeTheorems.AcceptedMeansAllPassed` | packages/judge/src/judge.ts:13-47 | over the plan itself: ACCEPTED if and only if compilation did not fail and every qualifying case, for a SUBMIT every case, was observed and passed |
| `JudgeTheorems.ShownCase` | packages/judge/src/judge.ts:42 | a shown case has its own identifier, verdict, exit code and metrics |
| `JudgeTheorems.ResultMetrics` | packages/judge/src/judge.ts:45-46 | metrics are the largest of each, present exactly when every observed case was measured; public results exactly in a RUN |
| `JudgeTheorems.RefusalIsExact` | packages/judge/src/judge.ts:21-36 | when an observation is refused, reported cancelled or judged, condition by condition |
| `JudgeTheorems.JudgeIgnoresCaseOrder` | packages/judge/src/judge.ts:13-47 | the judge's whole answer is invariant under permuting the plan's cases |
| `JudgeTheorems.SubmitHidesOutput` | packages/judge/src/judge.ts:39-46 | in SUBMIT mode observations with equal classifications and metrics give identical results, whatever their text |
| `Projection.BudgetIsConserved` | packages/judge/src/judge.ts:33-43 | bytes shown so far and bytes left always add up to 24 KiB |
| `Projection.StreamsAreLongestPrefixes` | packages/judge/src/judge.ts:40-42 | each stream is the longest prefix of its sanitised text within 4096 bytes and the remaining budget; the truncation flag is set exactly when one is cut |
| `Projection.EventsFit` | apps/api/src/executions/job-store.ts:41-45 | every event the store writes is at most 16384 bytes of JSON, so its size error never fires |
| `Projection.JudgedFits` | apps/api/src/executions/job-store.ts:104-106 | no judged result exceeds 256 KiB of JSON |
| `JsonText.EscapedBytes` | apps/api/src/executions/job-store.ts:44 | the size of an escaped character is that of its JSON text |
| `JsonText.EventJsonIsSize` | apps/api/src/executions/job-store.ts:43-45 | the event size used by the limits is the UTF-8 size of the event's JSON |
| `JsonText.ResultJsonIsSize` | apps/api/src/executions/job-store.ts:105-106 | the result size used by the limits is the UTF-8 size of the result's JSON |
| `Projection.FinishAcceptsJudged` | apps/api/src/executions/job-store.ts:104-116 | `finish` never throws on a judged result: it parses, fits and names only distinct public cases of a RUN |
| `Projection.ConsoleAcceptsShown` | apps/api/src/executions/job-store.ts:94-103 | under a valid lease every stream the judge shows is accepted by `console` and stored unchanged, the second ANSI stripping included |
| `Projection.ConsoleTextFits` | apps/api/src/executions/job-store.ts:94-100 | whatever is sent, sanitised console text within the limit never fails the event schema |
| `Projection.StoredAsShown` | apps/api/src/executions/job-store.ts:118 | the sanitiser in `finish` stores a judged case exactly as the judge shows it |
| `Supervisor.DecodingAtMostTriples` | apps/runner/src/supervisor.ts:103-111 | decoding a byte stream to text at most triples its size |
| `Supervisor.ObserveOk` | apps/runner/src/supervisor.ts:99-115 | one run is observed with the guest's own exit code, output and metrics if kept, and each failure exactly when it happened; nothing exactly when it broke or its metrics were unreadable |
| `Supervisor.PhaseGoesOn` | apps/runner/src/supervisor.ts:91-118 | while the guests go on, so does the loop, with what they have left of the budget |
| `Supervisor.StopHere` | apps/runner/src/supervisor.ts:91-118 | how the loop stops at its next case: abort, spent budget, container not verified absent, broken run or guest failure |
| `Supervisor.CasesCover` | apps/runner/src/supervisor.ts:91-118 | for every behaviour of Docker the observed cases are a prefix, failing only at the end and cut short only by a failure, and each tells its guest: exit code, output, metrics and the exact failure under the bytes left for it |
| `Supervisor.CasesClean` | apps/runner/src/supervisor.ts:38-55 | the case phase reports clean exactly when every container it named was verified absent |
| `Supervisor.RunCases` | apps/runner/src/supervisor.ts:91-118 | the loop with its shared budget ends as specified, with the containers it named |
| `Supervisor.ReturnIsJudgeable` | apps/runner/src/supervisor.ts:71-121 | a normal return is judgeable, tells the compilation and every guest, holds at most 262144 raw bytes of compiler and all cases together, and at most three times that as text |
| `Supervisor.CompilePhase` | apps/runner/src/supervisor.ts:82-90 | how a compilation ends: clean-up, failure, a compile error by itself, bad artifacts, or the cases with what is left of the budget |
| `Supervisor.PhaseOutcome` | apps/runner/src/supervisor.ts:119 | clean-up failure, failure or return, exactly |
| `Supervisor.CleanupIsExact` | apps/runner/src/supervisor.ts:32-55 | SandboxCleanupError is the exit exactly when some named container was not verified absent |
| `Supervisor.Execute` | apps/runner/src/supervisor.ts:71-121 | the phases end as specified, with both properties above |
| `Supervisor.SupervisorOutputIsJudgeable` | apps/runner/src/judging-backend.ts:13-19 | on a normal return the judge raises a protocol error exactly when an exit code is outside 0..255 or a metric is not a safe integer |
| `Supervisor.AcceptedIsEarned` | apps/runner/src/judging-backend.ts:13-19 | if the judge accepts what `execute` returned, every selected guest exited 0, within its memory, with matching output |
| `Supervisor.RightProgramIsAccepted` | apps/runner/src/judging-backend.ts:13-19 | conversely, if every guest does so within the shared budget and every container is verified absent, the verdict is ACCEPTED |
| `Supervisor.SignalledClientIsRejected` | apps/runner/src/transport.ts:26-29 | for guests that print nothing `execute` returns all selected cases, and the judge takes them exactly when the first exit code is 0..255; with -1 it raises a protocol error |
| `RunnerServer.MoveKeeps` | apps/runner/src/server.ts:26-50 | every piece of handler and supervisor code between awaits keeps counters, controllers, active keys and containers consistent |
| `RunnerServer.CapacityHolds` | apps/runner/src/server.ts:24-50 | over every interleaving at most eight requests are inside, at most two executions active under distinct keys, and controllers map exactly the registered requests |
| `RunnerServer.DuplicateIsHarmless` | apps/runner/src/server.ts:39-49 | a duplicate leaves the original registered and running; a key the server lets through is never a duplicate for the supervisor |
| `RunnerServer.ArriveIsExact` | apps/runner/src/server.ts:26-29 | a request gets inside exactly while the server is open, fewer than eight are inside and it is well formed |
| `RunnerServer.RegisterIsExact` | apps/runner/src/supervisor.ts:71-77 | an execution starts exactly when the supervisor is ready, not shutting down and running fewer than two |
| `RunnerServer.CancelIsExact` | apps/runner/src/server.ts:36-38 | a cancel aborts exactly the request registered under its key |
| `RunnerServer.LeavingIsExact` | apps/runner/src/server.ts:49 | a request leaves with its own controller only and frees its place |
| `RunnerServer.DestroyIsExact` | apps/runner/src/supervisor.ts:32-55 | verified absence lets the execution go on; its lack ends execution and readiness and frees the key |
| `RunnerServer.SandboxIsExact` | apps/runner/src/supervisor.ts:38-39 | a sandbox names its container first; a finished execution frees its key |
| `RunnerServer.CloseIsExact` | apps/runner/src/supervisor.ts:132 | closing refuses what comes and aborts exactly the executions under way |
| `RunnerServer.RequestNeverStuck` | apps/runner/src/server.ts:32-50 | every request inside can always take its next step, and an open container can always be destroyed |
| `RunnerServer.ReaperIsExact` | apps/runner/src/supervisor.ts:122-131 | a failing reaper takes readiness away and changes nothing else |
| `RunnerServer.NotReadyAdmitsNothing` | apps/runner/src/supervisor.ts:71-76 | a supervisor that is not ready stays so and starts no execution |
| `RunnerServer.LeakStopsTheRunner` | apps/runner/src/supervisor.ts:52-54 | once an execution ended with a container not verified absent, over any run no later execution is admitted |
| `RunnerServer.Host.Arrive` | apps/runner/src/server.ts:26-29 | a request is inside exactly when the server is open, below eight and the request well formed |
| `RunnerServer.Host.Finally` | apps/runner/src/server.ts:49 | leaving removes only the request's own controller and frees its place |
| `RunnerServer.Host.Register` | apps/runner/src/server.ts:39-42 | duplicate, refused or started: the new state of server and supervisor together |
| `RunnerServer.Host.Destroy` | apps/runner/src/supervisor.ts:32-54 | verified absence, or the end of the execution and of readiness |
| `RunnerServer.Host.Close` | apps/runner/src/supervisor.ts:132 | closing stops admission and aborts exactly the active executions |
| `Leaderboard.CollectPoints` | apps/api/src/competitions/competitions.ts:70-71 | each problem counts its maximum points over all rounds, unlisted ones zero |
| `Leaderboard.Scan` | apps/api/src/competitions/competitions.ts:73-78 | the stateful scan and its two reductions over the points map equal the closed form of score, solved count and penalty |
| `Leaderboard.BuildLeaderboard` | apps/api/src/competitions/competitions.ts:69-81 | points map, scans, sort and ranks together produce the specified board |
| `Leaderboard.ScoreIsSumOverSolved` | apps/api/src/competitions/competitions.ts:76 | the score is the sum of points over the set of problems accepted at or after joining, and `solved` is its size |
| `Leaderboard.PenaltyIsExact` | apps/api/src/competitions/competitions.ts:75-78 | the penalty is the sum of minutes over first acceptances and twenty for each wrong attempt before one |
| `Leaderboard.CountingIsExact` | apps/api/src/competitions/competitions.ts:75 | which submissions are first acceptances and which are wrong attempts |
| `Leaderboard.MinutesMeaning` | apps/api/src/competitions/competitions.ts:77 | whole minutes since the start, none before it |
| `Leaderboard.RankingIsExact` | apps/api/src/competitions/competitions.ts:79 | more points rank above, then more problems, then the smaller penalty, then the username |
| `Leaderboard.AfterSolvingNothingCounts` | apps/api/src/competitions/competitions.ts:75 | a submission to a problem already solved never changes the record |
| `Leaderboard.BeforeJoiningNothingCounts` | apps/api/src/competitions/competitions.ts:75 | nor does one made before joining |
| `Leaderboard.BoardIgnoresRegistrationOrder` | apps/api/src/competitions/competitions.ts:79 | the board holds every record once, in comparator order, and for distinct usernames does not depend on registration order |

## Left out

- Dispatcher.StaleDispatcherIsSilent: needs the claim released or taken over; for a claim that merely expired the property is false of the code, with the exact condition in `Dispatcher.BackoffNeedsOnlyTheToken`.
- Projection.EventsFit: assumes attempt and sequence fit their INTEGER columns, as the database enforces.
- Projection.ConsoleAcceptsShown: assumes the same of the row's numbers, and `Text.StripsSequences` of the ANSI stripping.
- JobStore.JobStore.Maintain: which rows, reoffers and expired events a sweep selects is arbitrary, which covers LIMIT, ordering and SKIP LOCKED.
- JobStore.JobStore.ExpireQueuedJobs: a key collision in the outbox would skip one row where the code aborts the batch; `Jobs.InsertsAreNew` shows that neither happens.
- Realtime.Client.Admit: whether the request parses is an input, and session and principal checks are not part of this model.
- Sweeps.AllJobsEnd: speaks of a fixed set of jobs; jobs created meanwhile have later deadlines of their own.
- Worker.WorkerAlwaysSettles: the heartbeat is not modelled; a lease lost meanwhile is the case of `JobTheorems.FencedForever`.
- Delivery by BullMQ and Redis: a queued job may be delivered any number of times or never, so no liveness claim depends on it.
- Clock skew between processes, and clock readings that differ inside one transaction.
- ANSI stripping: assumed only to remove characters and to leave text without ESC and CSI alone (`Text.StripsSequences`); in the store's calls texts are given after it.
- Texts are sequences of code points; two unpaired surrogates that a removal would join count as two.
- Hashing and HMAC: payload hashes are compared as values and rate-limit keys are taken to be distinct for distinct scopes and windows.
- Byte sizes of status and final events: inputs between 1 and 16384, justified by `Projection.EventsFit`.
- The public cases of a problem version are fixed when the request is made; problem, competition and round look-ups in `create` are one input.
- localeCompare of usernames: a numeric key in the same order.
- Docker command lines, container policy, preflight, cgroup metrics and tar archives: inputs of the supervisor model.
- Reading and parsing of HTTP bodies in the runner server, and the API's client of it.
- Authentication, administration, discussions, profiles, notifications listing and deployment: not part of this model.
