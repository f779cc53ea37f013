/** What each JobStore transaction decides about one execution row (job-store.ts), as a
    function of the locked row, the call and the one clock reading of the transaction. */
module Rows {
  import opened Contracts
  import opened Text
  import opened EventLog

  const LEASE_MS := 30000
  const CANCEL_GRACE_MS := 15000
  const MAX_ATTEMPTS := 3
  const JOB_MS := 600000
  const MAX_OUTPUT_BYTES := 262144
  const MAX_CONSOLE_BYTES := 4096

  datatype Lease = Lease(attempt: nat, token: Token)

  /** The immutable request columns; `publicCases` are the public tests of its pinned version. */
  datatype Request = Request(
    id: Id, userId: Id, mode: Mode, publicCases: set<Id>, payloadHash: nat, idempotencyKey: nat,
    createdAt: Time, queueExpiresAt: Time)

  /** A row of the Execution table. */
  datatype Row = Row(
    request: Request, state: State, verdict: Option<Verdict>, failureCode: Option<FailureCode>,
    finishedAt: Option<Time>, attempt: nat, lastSequence: nat,
    leaseToken: Option<Token>, leaseExpiresAt: Option<Time>, cancellationRequestedAt: Option<Time>,
    runtimeMs: Option<nat>, memoryKiB: Option<nat>, publicResults: Option<seq<CaseResult>>)

  datatype IntentKind = ExecutionCreated | ExecutionRecovery | ExecutionCancelled | ExecutionExpired
  datatype IntentKey = IntentKey(kind: IntentKind, generation: nat)

  /** A call on the store. `bytes` is the serialized size of the event the call would
      write; `subscribed` is the owner's notification preference; text has already been
      through ANSI stripping. A case identifier or stream that is malformed is None. */
  datatype Op =
    | Claim(token: Token, bytes: EventSize, subscribed: bool)
    | Renew(lease: Lease)
    | MarkRunning(lease: Lease, bytes: EventSize)
    | Console(lease: Lease, caseId: Option<Id>, stream: Option<Stream>, text: Str, rawBytes: nat, eventBytes: nat)
    | Finish(lease: Lease, result: WorkerResult, resultBytes: nat, bytes: EventSize, subscribed: bool)
    | Fail(lease: Lease, cleanupConfirmed: bool, bytes: EventSize, subscribed: bool)
    | Recover(lease: Lease, bytes: EventSize, subscribed: bool)
    | Cancel(userId: Id, activeAllowed: bool, bytes: EventSize, subscribed: bool)
    | Maintain(bytes: EventSize, subscribed: bool)
    | Expire(bytes: EventSize)

  datatype Error = NotFound | CancellationUnavailable | InvalidPublicOutput | PrivateOutputRejected
                 | InvalidResult | PublicResultTooLarge | PublicEventTooLarge | InvalidPublicEvent
  datatype Reply =
    | Claimed(lease: Lease) | NotClaimed
    | Active | CancelSeen | Lost
    | Done(ok: bool)
    | Receipt(state: State, cancellationRequested: bool)
    | Swept(selected: bool)
    | Thrown(error: Error)

  datatype Emission = Silent | Emit(body: Body, bytes: EventSize)

  /** Write to the outbox: a plain insert, `recover`'s upsert, or `maintain`'s upsert. */
  datatype IntentWrite = NoIntent | InsertIntent(key: IntentKey) | ResetIntent(key: IntentKey) | EnsureIntent(key: IntentKey)

  /** Everything one transaction does to one execution. */
  datatype Decision = Decision(
    row: Row, restart: bool, emission: Emission, notice: Option<Verdict>, write: IntentWrite, reply: Reply)

  function Keep(row: Row, reply: Reply): Decision {
    Decision(row, false, Silent, None, NoIntent, reply)
  }

  function Deadline(row: Row): Time {
    row.request.queueExpiresAt + JOB_MS
  }

  predicate IsActive(s: State) {
    s == Compiling || s == Running
  }

  /** `valid`: the lease still holds authority over the row. */
  predicate Valid(row: Row, lease: Lease, now: Time) {
    && !IsTerminal(row.state) && row.state != Queued
    && row.attempt == lease.attempt && row.leaseToken == Some(lease.token)
    && row.leaseExpiresAt.Some? && row.leaseExpiresAt.value > now
    && now < Deadline(row)
  }

  /** `notifyExecution` with the guard of create_execution_result_notification. */
  function NoticeFor(row: Row, v: Verdict, subscribed: bool): Option<Verdict> {
    if row.request.mode == SubmitMode && v != VerdictCancelled && row.leaseToken.Some? && IsActive(row.state) && subscribed
    then Some(v) else None
  }

  function InfraVerdict(s: State): Verdict {
    if s == Cancelled then VerdictCancelled else VerdictInternalError
  }

  /** `terminal`: an infrastructure outcome, CANCELLED or INTERNAL_ERROR. */
  function Terminal(row: Row, s: State, code: Option<FailureCode>, now: Time, bytes: EventSize, subscribed: bool,
                    write: IntentWrite, reply: Reply): Decision
  {
    var v := InfraVerdict(s);
    Decision(
      row.(state := s, verdict := Some(v), failureCode := code, finishedAt := Some(now),
           leaseToken := None, leaseExpiresAt := None, lastSequence := row.lastSequence + 1),
      false, Emit(FinalVerdict(s, v, code), bytes), NoticeFor(row, v, subscribed), write, reply)
  }

  /** The row of the next attempt, with its first event and a lease within the deadline. */
  function AttemptRow(row: Row, token: Token, now: Time): Row {
    row.(state := Compiling, attempt := row.attempt + 1, lastSequence := 1, leaseToken := Some(token),
         leaseExpiresAt := Some(Min(now + LEASE_MS, Deadline(row))))
  }

  function DecideClaim(row: Row, token: Token, bytes: EventSize, subscribed: bool, now: Time): Decision {
    if IsTerminal(row.state) then Keep(row, NotClaimed)
    else if row.state == Queued && row.request.queueExpiresAt <= now then
      Terminal(row, InternalError, Some(QueueTimeout), now, bytes, subscribed, NoIntent, NotClaimed)
    else if row.state != Queued && row.leaseExpiresAt.Some? && row.leaseExpiresAt.value > now then Keep(row, NotClaimed)
    else if row.cancellationRequestedAt.Some? then
      Terminal(row, InternalError, Some(CancellationTimeout), now, bytes, subscribed, NoIntent, NotClaimed)
    else if now >= Deadline(row) || row.attempt >= MAX_ATTEMPTS then
      Terminal(row, InternalError, Some(if row.attempt >= MAX_ATTEMPTS then LeaseExpired else JobTimeout), now, bytes,
               subscribed, NoIntent, NotClaimed)
    else
      Decision(
        AttemptRow(row, token, now), true, Emit(Status(Compiling, false), bytes), None, NoIntent, Claimed(Lease(row.attempt + 1, token)))
  }

  function RenewalEnd(row: Row, now: Time): Time {
    var end := Min(now + LEASE_MS, Deadline(row));
    match row.cancellationRequestedAt
    case Some(at) => Min(end, at + CANCEL_GRACE_MS)
    case None => end
  }

  function DecideRenew(row: Row, lease: Lease, now: Time): Decision {
    if !Valid(row, lease, now) || RenewalEnd(row, now) <= now then Keep(row, Lost)
    else Keep(row.(leaseExpiresAt := Some(RenewalEnd(row, now))),
              if row.cancellationRequestedAt.Some? then CancelSeen else Active)
  }

  function DecideMarkRunning(row: Row, lease: Lease, bytes: EventSize, now: Time): Decision {
    if !Valid(row, lease, now) || row.cancellationRequestedAt.Some? || row.state != Compiling then Keep(row, Done(false))
    else Decision(row.(state := Running, lastSequence := row.lastSequence + 1), false,
                  Emit(Status(Running, false), bytes), None, NoIntent, Done(true))
  }

  function DecideConsole(row: Row, op: Op, now: Time): Decision
    requires op.Console?
  {
    var text := RemoveControls(op.text);
    if op.caseId.None? || op.stream.None? || op.rawBytes > MAX_CONSOLE_BYTES then Keep(row, Thrown(InvalidPublicOutput))
    else if !Valid(row, op.lease, now) || row.cancellationRequestedAt.Some? then Keep(row, Done(false))
    else if row.request.mode != RunMode || op.caseId.value !in row.request.publicCases then Keep(row, Thrown(PrivateOutputRejected))
    else if Utf8Bytes(text) > MAX_CONSOLE_BYTES then Keep(row, Thrown(InvalidPublicEvent))
    else if !(0 < op.eventBytes <= MAX_EVENT_BYTES) then Keep(row, Thrown(PublicEventTooLarge))
    else Decision(row.(lastSequence := row.lastSequence + 1), false,
                  Emit(ConsoleOutput(op.caseId.value, op.stream.value, text), op.eventBytes), None, NoIntent, Done(true))
  }

  /** `resultSchema`. */
  predicate ResultParses(r: WorkerResult) {
    && IsLearnerVerdict(r.verdict)
    && (r.publicCaseResults.Some? ==>
          && |r.publicCaseResults.value| <= 100
          && forall c <- r.publicCaseResults.value :: IsLearnerVerdict(c.verdict))
  }

  predicate DistinctCases(cases: seq<CaseResult>) {
    forall i, j :: 0 <= i < j < |cases| ==> cases[i].caseId != cases[j].caseId
  }

  /** Only distinct public cases of a RUN may carry results. */
  predicate PublicOnly(row: Row, r: WorkerResult) {
    r.publicCaseResults.Some? ==>
      && row.request.mode == RunMode
      && DistinctCases(r.publicCaseResults.value)
      && forall c <- r.publicCaseResults.value :: c.caseId in row.request.publicCases
  }

  function SafeText(t: Option<Str>): Option<Str> {
    match t case Some(s) => Some(RemoveControls(s)) case None => None
  }

  function SafeCase(c: CaseResult): CaseResult {
    c.(stdout := SafeText(c.stdout), stderr := SafeText(c.stderr))
  }

  /** An accepted result is stored, event and notification included. */
  function FinishWith(row: Row, r: WorkerResult, bytes: EventSize, subscribed: bool, now: Time): Decision {
    Decision(
      row.(state := Finished, verdict := Some(r.verdict), finishedAt := Some(now), lastSequence := row.lastSequence + 1,
           leaseToken := None, leaseExpiresAt := None,
           runtimeMs := if r.runtimeMs.Some? then r.runtimeMs else row.runtimeMs,
           memoryKiB := if r.memoryKiB.Some? then r.memoryKiB else row.memoryKiB,
           publicResults := match r.publicCaseResults
             case Some(cases) => Some(seq(|cases|, i requires 0 <= i < |cases| => SafeCase(cases[i])))
             case None => row.publicResults),
      false, Emit(FinalVerdict(Finished, r.verdict, None), bytes), NoticeFor(row, r.verdict, subscribed),
      NoIntent, Done(true))
  }

  function DecideFinish(row: Row, op: Op, now: Time): Decision
    requires op.Finish?
  {
    var r := op.result;
    if !ResultParses(r) then Keep(row, Thrown(InvalidResult))
    else if op.resultBytes > MAX_OUTPUT_BYTES then Keep(row, Thrown(PublicResultTooLarge))
    else if !Valid(row, op.lease, now) then Keep(row, Done(false))
    else if row.cancellationRequestedAt.Some? then
      Terminal(row, Cancelled, None, now, op.bytes, op.subscribed, NoIntent, Done(true))
    else if !PublicOnly(row, r) then Keep(row, Thrown(PrivateOutputRejected))
    else FinishWith(row, r, op.bytes, op.subscribed, now)
  }

  function DecideFail(row: Row, lease: Lease, cleanupConfirmed: bool, bytes: EventSize, subscribed: bool, now: Time): Decision {
    if !Valid(row, lease, now) then Keep(row, Done(false))
    else if row.cancellationRequestedAt.Some? && cleanupConfirmed then
      Terminal(row, Cancelled, None, now, bytes, subscribed, NoIntent, Done(true))
    else
      Terminal(row, InternalError, Some(if row.cancellationRequestedAt.Some? then CancellationTimeout else JobFailure),
               now, bytes, subscribed, NoIntent, Done(true))
  }

  function DecideRecover(row: Row, lease: Lease, bytes: EventSize, subscribed: bool, now: Time): Decision {
    if !Valid(row, lease, now) then Keep(row, Done(false))
    else if row.cancellationRequestedAt.Some? then
      Terminal(row, Cancelled, None, now, bytes, subscribed, NoIntent, Done(true))
    else if row.attempt >= MAX_ATTEMPTS then
      Terminal(row, InternalError, Some(JobFailure), now, bytes, subscribed, NoIntent, Done(true))
    else Decision(row.(leaseExpiresAt := Some(now)), false, Silent, None,
                  ResetIntent(IntentKey(ExecutionRecovery, row.attempt)), Done(true))
  }

  function DecideCancel(row: Row, userId: Id, activeAllowed: bool, bytes: EventSize, subscribed: bool, now: Time): Decision {
    if row.request.userId != userId then Keep(row, Thrown(NotFound))
    else if row.state == Queued then
      Terminal(row, Cancelled, None, now, bytes, subscribed, InsertIntent(IntentKey(ExecutionCancelled, 0)), Receipt(Cancelled, false))
    else if IsTerminal(row.state) then Keep(row, Receipt(row.state, false))
    else if !activeAllowed then Keep(row, Thrown(CancellationUnavailable))
    else if row.cancellationRequestedAt.Some? then Keep(row, Receipt(row.state, true))
    else Decision(row.(cancellationRequestedAt := Some(now), lastSequence := row.lastSequence + 1), false,
                  Emit(Status(row.state, true), bytes), None, NoIntent, Receipt(row.state, true))
  }

  /** The WHERE clause of `maintain`'s selection. */
  predicate NeedsMaintenance(row: Row, now: Time) {
    && IsActive(row.state)
    && (|| (row.leaseExpiresAt.Some? && row.leaseExpiresAt.value <= now)
        || (row.cancellationRequestedAt.Some? && row.cancellationRequestedAt.value <= now - CANCEL_GRACE_MS))
  }

  function DecideMaintain(row: Row, bytes: EventSize, subscribed: bool, now: Time): Decision {
    if !NeedsMaintenance(row, now) then Keep(row, Swept(false))
    else if row.cancellationRequestedAt.Some? || row.attempt >= MAX_ATTEMPTS || now >= Deadline(row) then
      Terminal(row, InternalError,
               Some(if row.cancellationRequestedAt.Some? then CancellationTimeout
                    else if row.attempt >= MAX_ATTEMPTS then LeaseExpired else JobTimeout),
               now, bytes, subscribed, NoIntent, Swept(true))
    else Decision(row, false, Silent, None, EnsureIntent(IntentKey(ExecutionRecovery, row.attempt)), Swept(true))
  }

  predicate NeedsExpiry(row: Row, now: Time) {
    row.state == Queued && row.request.queueExpiresAt <= now
  }

  /** One row of `expireQueuedJobs`. */
  function DecideExpire(row: Row, bytes: EventSize, now: Time): Decision {
    if !NeedsExpiry(row, now) then Keep(row, Swept(false))
    else Decision(
      row.(state := InternalError, verdict := Some(VerdictInternalError), failureCode := Some(QueueTimeout),
           finishedAt := Some(now), lastSequence := row.lastSequence + 1),
      false, Emit(FinalVerdict(InternalError, VerdictInternalError, Some(QueueTimeout)), bytes), None,
      InsertIntent(IntentKey(ExecutionExpired, 0)), Swept(true))
  }

  function Decide(row: Row, op: Op, now: Time): Decision {
    match op
    case Claim(token, bytes, subscribed) => DecideClaim(row, token, bytes, subscribed, now)
    case Renew(lease) => DecideRenew(row, lease, now)
    case MarkRunning(lease, bytes) => DecideMarkRunning(row, lease, bytes, now)
    case Console(_, _, _, _, _, _) => DecideConsole(row, op, now)
    case Finish(_, _, _, _, _) => DecideFinish(row, op, now)
    case Fail(lease, clean, bytes, subscribed) => DecideFail(row, lease, clean, bytes, subscribed, now)
    case Recover(lease, bytes, subscribed) => DecideRecover(row, lease, bytes, subscribed, now)
    case Cancel(userId, allowed, bytes, subscribed) => DecideCancel(row, userId, allowed, bytes, subscribed, now)
    case Maintain(bytes, subscribed) => DecideMaintain(row, bytes, subscribed, now)
    case Expire(bytes) => DecideExpire(row, bytes, now)
  }

  /** The row `create` inserts, after its first event. */
  function NewRow(request: Request): Row {
    Row(request, Queued, None, None, None, 0, 1, None, None, None, None, None, None)
  }

  // ------------------------------------------------------------------
  // The row invariant

  /** Which failure codes a row may carry, and when. */
  predicate CodesTellTheTruth(row: Row) {
    && (row.failureCode.Some? ==> row.state == InternalError)
    && (row.state == InternalError ==> row.failureCode.Some?)
    && (row.state == InternalError ==>
          (row.cancellationRequestedAt.Some? <==> row.failureCode == Some(CancellationTimeout)))
    && (row.failureCode == Some(QueueTimeout) <==> row.state == InternalError && row.attempt == 0)
    && (row.failureCode == Some(LeaseExpired) ==> row.attempt == MAX_ATTEMPTS)
    && (row.failureCode == Some(JobTimeout) ==>
          row.attempt < MAX_ATTEMPTS && row.finishedAt.Some? && row.finishedAt.value >= Deadline(row))
    && (row.state == Finished ==> row.cancellationRequestedAt.None?)
    && (row.state == Cancelled ==> (row.cancellationRequestedAt.Some? <==> row.attempt > 0))
  }

  predicate OutcomeRecorded(row: Row) {
    && (IsTerminal(row.state) <==> row.verdict.Some?)
    && (IsTerminal(row.state) <==> row.finishedAt.Some?)
    && (row.state == Finished ==> IsLearnerVerdict(row.verdict.value))
    && (row.state in {Cancelled, InternalError} ==> row.verdict == Some(InfraVerdict(row.state)))
  }

  /** Leases exist exactly while the job is active, within three attempts and the job deadline. */
  predicate LifeIsBounded(row: Row) {
    && row.attempt <= MAX_ATTEMPTS
    && (row.leaseToken.Some? <==> IsActive(row.state))
    && (row.leaseExpiresAt.Some? <==> IsActive(row.state))
    && (row.leaseExpiresAt.Some? ==> row.leaseExpiresAt.value <= Deadline(row))
    && (IsActive(row.state) ==> row.attempt >= 1)
    && (row.state == Queued ==> row.attempt == 0)
    && (row.state == Finished ==> row.attempt >= 1)
    && row.lastSequence >= 1
  }

  /** Metrics and public results belong to a finished job, and results to public cases of a RUN. */
  predicate ResultsRecorded(row: Row) {
    && (row.runtimeMs.Some? || row.memoryKiB.Some? || row.publicResults.Some? ==> row.state == Finished)
    && (row.publicResults.Some? ==>
          row.request.mode == RunMode && forall c <- row.publicResults.value :: c.caseId in row.request.publicCases)
  }

  predicate RowOk(row: Row, t: Time) {
    && row.request.createdAt < row.request.queueExpiresAt
    && OutcomeRecorded(row) && LifeIsBounded(row) && CodesTellTheTruth(row) && ResultsRecorded(row)
    && (row.leaseExpiresAt.Some? ==> row.leaseExpiresAt.value <= t + LEASE_MS)
    && (row.cancellationRequestedAt.Some? ==> row.attempt >= 1 && row.cancellationRequestedAt.value <= t)
    && (row.finishedAt.Some? ==> row.finishedAt.value <= t)
  }

  lemma ClaimKeepsRow(row: Row, token: Token, bytes: EventSize, subscribed: bool, now: Time)
    requires RowOk(row, now)
    ensures RowOk(DecideClaim(row, token, bytes, subscribed, now).row, now)
  {
    TerminalStates(row.state);
    TerminalStates(Compiling);
    TerminalStates(InternalError);
  }

  lemma SweepsKeepRow(row: Row, bytes: EventSize, subscribed: bool, now: Time)
    requires RowOk(row, now)
    ensures RowOk(DecideMaintain(row, bytes, subscribed, now).row, now)
    ensures RowOk(DecideExpire(row, bytes, now).row, now)
  {
    TerminalStates(row.state);
    TerminalStates(InternalError);
  }

  lemma FinishKeepsRow(row: Row, op: Op, now: Time)
    requires RowOk(row, now) && op.Finish?
    ensures RowOk(DecideFinish(row, op, now).row, now)
  {
    TerminalStates(row.state);
    TerminalStates(Finished);
    TerminalStates(Cancelled);
  }

  lemma SettlingKeepsRow(row: Row, lease: Lease, clean: bool, bytes: EventSize, subscribed: bool, now: Time)
    requires RowOk(row, now)
    ensures RowOk(DecideFail(row, lease, clean, bytes, subscribed, now).row, now)
    ensures RowOk(DecideRecover(row, lease, bytes, subscribed, now).row, now)
  {
    TerminalStates(row.state);
    TerminalStates(Cancelled);
    TerminalStates(InternalError);
  }

  lemma ProgressKeepsRow(row: Row, lease: Lease, bytes: EventSize, now: Time)
    requires RowOk(row, now)
    ensures RowOk(DecideRenew(row, lease, now).row, now)
    ensures RowOk(DecideMarkRunning(row, lease, bytes, now).row, now)
  {
    TerminalStates(row.state);
    TerminalStates(Running);
  }

  lemma ConsoleKeepsRow(row: Row, op: Op, now: Time)
    requires RowOk(row, now) && op.Console?
    ensures RowOk(DecideConsole(row, op, now).row, now)
  {
  }

  lemma CancelKeepsRow(row: Row, userId: Id, allowed: bool, bytes: EventSize, subscribed: bool, now: Time)
    requires RowOk(row, now)
    ensures RowOk(DecideCancel(row, userId, allowed, bytes, subscribed, now).row, now)
  {
    TerminalStates(row.state);
    TerminalStates(Cancelled);
  }

  /** Every transaction keeps the row invariant: recorded outcomes, bounded life and
      truthful failure codes. */
  lemma RowInvariant(row: Row, op: Op, t: Time, now: Time)
    requires RowOk(row, t) && t <= now
    ensures RowOk(Decide(row, op, now).row, now)
  {
    assert RowOk(row, now);
    match op
    case Claim(token, bytes, subscribed) => ClaimKeepsRow(row, token, bytes, subscribed, now);
    case Renew(lease) => ProgressKeepsRow(row, lease, 1, now);
    case MarkRunning(lease, bytes) => ProgressKeepsRow(row, lease, bytes, now);
    case Console(_, _, _, _, _, _) => ConsoleKeepsRow(row, op, now);
    case Finish(_, _, _, _, _) => FinishKeepsRow(row, op, now);
    case Fail(lease, clean, bytes, subscribed) => SettlingKeepsRow(row, lease, clean, bytes, subscribed, now);
    case Recover(lease, bytes, subscribed) => SettlingKeepsRow(row, lease, true, bytes, subscribed, now);
    case Cancel(userId, allowed, bytes, subscribed) => CancelKeepsRow(row, userId, allowed, bytes, subscribed, now);
    case Maintain(bytes, subscribed) => SweepsKeepRow(row, bytes, subscribed, now);
    case Expire(bytes) => SweepsKeepRow(row, bytes, false, now);
  }

  // ------------------------------------------------------------------
  // The shape of a decision

  /** What the event schema and `replay`'s safety test ask of a body. */
  predicate BodySafe(body: Body, request: Request) {
    body.ConsoleOutput? ==>
      request.mode == RunMode && body.caseId in request.publicCases && Utf8Bytes(body.text) <= MAX_CONSOLE_BYTES
  }

  predicate Settles(row: Row, next: Row) {
    !IsTerminal(row.state) && IsTerminal(next.state)
  }

  /** Events advance the sequence by one; the final event, and nothing else, settles the
      row, and a notification carries the settled verdict. */
  predicate WellShaped(row: Row, d: Decision) {
    && d.row.request == row.request
    && (IsTerminal(row.state) ==> d.row == row && d.emission.Silent? && d.notice.None? && d.write.NoIntent?)
    && (d.emission.Silent? ==>
          && d.row.lastSequence == row.lastSequence && d.row.attempt == row.attempt && !d.restart
          && d.row.state == row.state && d.row.verdict == row.verdict && d.row.failureCode == row.failureCode)
    && (d.emission.Emit? ==>
          && d.row.lastSequence == (if d.restart then 0 else row.lastSequence) + 1
          && d.row.attempt == (if d.restart then row.attempt + 1 else row.attempt)
          && BodySafe(d.emission.body, row.request))
    && (d.emission.Emit? && d.emission.body.FinalVerdict? <==> Settles(row, d.row))
    && (Settles(row, d.row) ==>
          && !d.restart && d.row.verdict.Some?
          && d.emission.body == FinalVerdict(d.row.state, d.row.verdict.value, d.row.failureCode))
    && (d.notice.Some? ==>
          && Settles(row, d.row) && d.row.verdict == d.notice
          && row.request.mode == SubmitMode && d.notice.value != VerdictCancelled)
  }

  lemma ClaimShape(row: Row, token: Token, bytes: EventSize, subscribed: bool, now: Time)
    ensures WellShaped(row, DecideClaim(row, token, bytes, subscribed, now))
  {
    TerminalStates(InternalError);
    TerminalStates(Compiling);
  }

  lemma ProgressShape(row: Row, lease: Lease, bytes: EventSize, now: Time)
    ensures WellShaped(row, DecideRenew(row, lease, now)) && WellShaped(row, DecideMarkRunning(row, lease, bytes, now))
  {
    TerminalStates(Running);
  }

  lemma ConsoleShape(row: Row, op: Op, now: Time)
    requires op.Console?
    ensures WellShaped(row, DecideConsole(row, op, now))
  {
  }

  lemma FinishShape(row: Row, op: Op, t: Time, now: Time)
    requires op.Finish? && RowOk(row, t)
    ensures WellShaped(row, DecideFinish(row, op, now))
  {
    TerminalStates(row.state);
    TerminalStates(Finished);
    TerminalStates(Cancelled);
  }

  lemma SettlingShape(row: Row, lease: Lease, clean: bool, bytes: EventSize, subscribed: bool, now: Time)
    ensures WellShaped(row, DecideFail(row, lease, clean, bytes, subscribed, now))
    ensures WellShaped(row, DecideRecover(row, lease, bytes, subscribed, now))
  {
    TerminalStates(Cancelled);
    TerminalStates(InternalError);
  }

  lemma CancelShape(row: Row, userId: Id, allowed: bool, bytes: EventSize, subscribed: bool, now: Time)
    ensures WellShaped(row, DecideCancel(row, userId, allowed, bytes, subscribed, now))
  {
    TerminalStates(row.state);
    TerminalStates(Cancelled);
  }

  lemma SweepsShape(row: Row, bytes: EventSize, subscribed: bool, now: Time)
    ensures WellShaped(row, DecideMaintain(row, bytes, subscribed, now)) && WellShaped(row, DecideExpire(row, bytes, now))
  {
    TerminalStates(row.state);
    TerminalStates(InternalError);
  }

  /** Every decision has that shape. */
  lemma DecisionShape(row: Row, op: Op, t: Time, now: Time)
    requires RowOk(row, t)
    ensures WellShaped(row, Decide(row, op, now))
  {
    match op
    case Claim(token, bytes, subscribed) => ClaimShape(row, token, bytes, subscribed, now);
    case Renew(lease) => ProgressShape(row, lease, 1, now);
    case MarkRunning(lease, bytes) => ProgressShape(row, lease, bytes, now);
    case Console(_, _, _, _, _, _) => ConsoleShape(row, op, now);
    case Finish(_, _, _, _, _) => FinishShape(row, op, t, now);
    case Fail(lease, clean, bytes, subscribed) => SettlingShape(row, lease, clean, bytes, subscribed, now);
    case Recover(lease, bytes, subscribed) => SettlingShape(row, lease, true, bytes, subscribed, now);
    case Cancel(userId, allowed, bytes, subscribed) => CancelShape(row, userId, allowed, bytes, subscribed, now);
    case Maintain(bytes, subscribed) => SweepsShape(row, bytes, subscribed, now);
    case Expire(bytes) => SweepsShape(row, bytes, false, now);
  }

  /** Which intents a call writes: a plain insert only for a queued job it settles, the
      upsert of `recover` only under a valid lease and for its own attempt. */
  lemma WriteShape(row: Row, op: Op, now: Time)
    ensures var d := Decide(row, op, now);
      && (d.write.InsertIntent? ==>
            row.state == Queued && d.write.key in {IntentKey(ExecutionCancelled, 0), IntentKey(ExecutionExpired, 0)})
      && (d.write.ResetIntent? ==>
            op.Recover? && Valid(row, op.lease, now) && d.write.key == IntentKey(ExecutionRecovery, row.attempt))
  {
  }

  // ------------------------------------------------------------------
  // Fencing

  /** The lease a worker call presents, if any. */
  function Presented(op: Op): Option<Lease> {
    match op
    case Renew(l) => Some(l)
    case MarkRunning(l, _) => Some(l)
    case Console(l, _, _, _, _, _) => Some(l)
    case Finish(l, _, _, _, _) => Some(l)
    case Fail(l, _, _, _) => Some(l)
    case Recover(l, _, _) => Some(l)
    case _ => None
  }

  /** A worker call under a lease that is not valid changes nothing at all. */
  lemma InvalidLeaseChangesNothing(row: Row, op: Op, now: Time)
    requires Presented(op).Some? && !Valid(row, Presented(op).value, now)
    ensures var d := Decide(row, op, now);
      d.row == row && d.emission.Silent? && d.notice.None? && d.write.NoIntent? && !d.restart
  {
  }

  /** Lost authority never returns: whatever happens next, a lease of this or an earlier
      attempt that is not valid now is not valid afterwards. */
  lemma AuthorityNeverReturns(row: Row, op: Op, lease: Lease, t: Time, now: Time)
    requires RowOk(row, t) && t <= now
    requires 1 <= lease.attempt <= row.attempt && !Valid(row, lease, t)
    ensures var next := Decide(row, op, now).row;
      !Valid(next, lease, now) && lease.attempt <= next.attempt
  {
    TerminalStates(row.state);
    DecisionShape(row, op, t, now);
  }

  /** When a claim is granted: a queued job in time, or a live one whose lease has lapsed,
      without a cancel request, below three attempts and before the deadline. The lease it
      issues is valid at once. */
  lemma ClaimGrants(row: Row, token: Token, bytes: EventSize, subscribed: bool, now: Time)
    requires RowOk(row, now)
    ensures var d := DecideClaim(row, token, bytes, subscribed, now);
      && (d.restart <==>
            && row.cancellationRequestedAt.None? && row.attempt < 3 && now < row.request.queueExpiresAt + 600000
            && (|| (row.state == Queued && now < row.request.queueExpiresAt)
                || (IsActive(row.state) && row.leaseExpiresAt.Some? && row.leaseExpiresAt.value <= now)))
      && (d.restart ==> Valid(d.row, Lease(row.attempt + 1, token), now) && d.reply == Claimed(Lease(row.attempt + 1, token)))
      && (!d.restart ==> d.reply == NotClaimed)
  {
    TerminalStates(row.state);
    TerminalStates(Compiling);
  }

  /** The lease a claim grants gets the latest allowed end. */
  lemma GrantIsLongest(row: Row, token: Token, bytes: EventSize, subscribed: bool, end: Time, now: Time)
    requires DecideClaim(row, token, bytes, subscribed, now).restart && AllowedEnd(row, end, now)
    ensures var next := DecideClaim(row, token, bytes, subscribed, now).row;
      && next.leaseToken == Some(token) && next.leaseExpiresAt.Some?
      && AllowedEnd(row, next.leaseExpiresAt.value, now) && end <= next.leaseExpiresAt.value
  {
  }

  /** The ends a lease may be given: 30 seconds, the job deadline and, once a cancel has
      been requested, 15 seconds after the request. */
  predicate AllowedEnd(row: Row, end: Time, now: Time) {
    && end <= now + LEASE_MS && end <= Deadline(row)
    && (row.cancellationRequestedAt.Some? ==> end <= row.cancellationRequestedAt.value + CANCEL_GRACE_MS)
  }

  /** A renewal under a valid lease gives it the latest allowed end, and is refused exactly
      when every allowed end has passed. */
  lemma RenewalIsLongest(row: Row, lease: Lease, end: Time, now: Time)
    requires Valid(row, lease, now) && AllowedEnd(row, end, now)
    ensures var d := DecideRenew(row, lease, now);
      && (d.reply == Lost ==> d.row == row && end <= now)
      && (d.reply != Lost ==>
            && Valid(d.row, lease, now) && AllowedEnd(row, d.row.leaseExpiresAt.value, now)
            && end <= d.row.leaseExpiresAt.value
            && d.row == row.(leaseExpiresAt := d.row.leaseExpiresAt)
            && (d.reply == CancelSeen <==> row.cancellationRequestedAt.Some?))
  {
  }

  /** Only a renewal extends a lease; without one it keeps its end or ends now. */
  lemma OnlyRenewalExtends(row: Row, op: Op, now: Time)
    requires !op.Renew? && IsActive(row.state) && row.leaseExpiresAt.Some?
    ensures var next := Decide(row, op, now).row;
      IsActive(next.state) && next.attempt == row.attempt ==>
        next.leaseExpiresAt == row.leaseExpiresAt || (op.Recover? && next.leaseExpiresAt == Some(now))
  {
    TerminalStates(row.state);
  }

  /** No job goes back into the queue. */
  lemma NeverQueuedAgain(row: Row, op: Op, now: Time)
    requires row.state != Queued
    ensures Decide(row, op, now).row.state != Queued
  {
  }

  /** A cancel request is the owner's, made when active cancellation is available, of an active
      job, and dated by the call. */
  lemma RequestNeedsOwner(row: Row, op: Op, now: Time)
    requires row.cancellationRequestedAt.None? && Decide(row, op, now).row.cancellationRequestedAt.Some?
    ensures op.Cancel? && op.userId == row.request.userId && op.activeAllowed && IsActive(row.state)
    ensures Decide(row, op, now).row.cancellationRequestedAt == Some(now)
  {
    TerminalStates(row.state);
  }

  /** A cancel request leaves the running worker its authority: exactly the leases valid
      before are valid after it. */
  lemma CancelLeavesAuthority(row: Row, userId: Id, allowed: bool, bytes: EventSize, subscribed: bool, lease: Lease, now: Time)
    requires row.state != Queued
    ensures var next := DecideCancel(row, userId, allowed, bytes, subscribed, now).row;
      && (Valid(next, lease, now) <==> Valid(row, lease, now))
      && next.state == row.state
      && (row.request.userId == userId && allowed && IsActive(row.state) ==> next.cancellationRequestedAt.Some?)
  {
    TerminalStates(row.state);
  }

  /** A cancel request is answered within its grace: 15 seconds after it the sweep selects
      the job, whatever its lease, and ends it as CANCELLATION_TIMEOUT. */
  lemma CancellationIsBounded(row: Row, bytes: EventSize, subscribed: bool, now: Time)
    requires RowOk(row, now) && IsActive(row.state)
    requires row.cancellationRequestedAt.Some? && row.cancellationRequestedAt.value + CANCEL_GRACE_MS <= now
    ensures NeedsMaintenance(row, now)
    ensures var next := DecideMaintain(row, bytes, subscribed, now).row;
      next.state == InternalError && next.failureCode == Some(CancellationTimeout)
  {
  }

  /** After a cancellation request no new attempt starts and FINISHED is unreachable. */
  lemma CancellationSticks(row: Row, op: Op, t: Time, now: Time)
    requires RowOk(row, t) && t <= now && row.cancellationRequestedAt.Some?
    ensures var next := Decide(row, op, now).row;
      && next.cancellationRequestedAt == row.cancellationRequestedAt
      && next.attempt == row.attempt && next.state != Finished
  {
    TerminalStates(row.state);
  }

  /** CANCELLED is written to a running job only by a valid lease holder, and to a queued
      one only by its owner. */
  lemma CancelledNeedsAuthority(row: Row, op: Op, now: Time)
    requires row.state != Cancelled && Decide(row, op, now).row.state == Cancelled
    ensures row.state == Queued ==> op.Cancel? && op.userId == row.request.userId
    ensures row.state != Queued ==> Presented(op).Some? && Valid(row, Presented(op).value, now)
  {
    TerminalStates(row.state);
  }
}
