/** What each JobStore call promises its caller, stated call by call: exactly when it acts,
    what it then writes, what it leaves alone and what it answers (job-store.ts:60-181,
    queued-maintenance.ts:8-29). */
module StoreLaws {
  import opened Contracts
  import opened Text
  import opened EventLog
  import opened Rows

  // ------------------------------------------------------------------
  // Vocabulary

  /** The call wrote nothing. */
  predicate Untouched(row: Row, d: Decision) {
    d.row == row && d.emission.Silent? && d.notice.None? && d.write.NoIntent? && !d.restart
  }

  predicate SameResults(row: Row, next: Row) {
    next.runtimeMs == row.runtimeMs && next.memoryKiB == row.memoryKiB && next.publicResults == row.publicResults
  }

  /** What settling never touches. */
  predicate SameIdentity(row: Row, next: Row) {
    && next.request == row.request && next.attempt == row.attempt
    && next.cancellationRequestedAt == row.cancellationRequestedAt
  }

  /** The job ended now, in this state, with this verdict and code; its lease is gone and its
      last event says so. */
  predicate EndedAs(row: Row, d: Decision, s: State, v: Verdict, code: Option<FailureCode>, now: Time) {
    && d.row.state == s && d.row.verdict == Some(v) && d.row.failureCode == code && d.row.finishedAt == Some(now)
    && d.row.leaseToken.None? && d.row.leaseExpiresAt.None?
    && d.row.lastSequence == row.lastSequence + 1 && SameIdentity(row, d.row) && !d.restart
    && d.emission.Emit? && d.emission.body == FinalVerdict(s, v, code)
  }

  /** An infrastructure outcome, which brings no results. */
  predicate Failed(row: Row, d: Decision, code: FailureCode, now: Time) {
    EndedAs(row, d, InternalError, VerdictInternalError, Some(code), now) && SameResults(row, d.row)
  }

  predicate CancelledNow(row: Row, d: Decision, now: Time) {
    EndedAs(row, d, Cancelled, VerdictCancelled, None, now) && SameResults(row, d.row)
  }

  /** The lease has run out, or there is none. */
  predicate Free(row: Row, now: Time) {
    row.leaseExpiresAt.None? || row.leaseExpiresAt.value <= now
  }

  // ------------------------------------------------------------------
  // claim

  /** A claim that is not granted ends every live job that no unexpired lease protects, with
      the reason; it leaves all others alone. */
  lemma ClaimEnds(row: Row, token: Token, bytes: EventSize, subscribed: bool, t: Time, now: Time)
    requires RowOk(row, t)
    ensures var d := DecideClaim(row, token, bytes, subscribed, now);
      !d.restart ==>
        && (IsTerminal(row.state) || !Free(row, now) ==> Untouched(row, d))
        && (!IsTerminal(row.state) && Free(row, now) ==>
              Failed(row, d,
                     if row.state == Queued then QueueTimeout
                     else if row.cancellationRequestedAt.Some? then CancellationTimeout
                     else if row.attempt == MAX_ATTEMPTS then LeaseExpired else JobTimeout, now))
  {
    TerminalStates(row.state);
  }

  /** A granted claim starts the next attempt from nothing but the request. */
  lemma ClaimStarts(row: Row, token: Token, bytes: EventSize, subscribed: bool, t: Time, now: Time)
    requires RowOk(row, t)
    ensures var d := DecideClaim(row, token, bytes, subscribed, now);
      d.restart ==>
        && d.row.state == Compiling && d.row.attempt == row.attempt + 1 && d.row.lastSequence == 1
        && d.row.request == row.request && d.row.cancellationRequestedAt.None?
        && d.row.verdict.None? && d.row.failureCode.None? && d.row.finishedAt.None? && SameResults(row, d.row)
        && d.emission.Emit? && d.emission.body == Status(Compiling, false)
        && d.notice.None? && d.write.NoIntent?
  {
    TerminalStates(row.state);
  }

  // ------------------------------------------------------------------
  // Calls under a lease

  /** Under a lease that is not valid: LOST for a renewal, false for the rest, and the two
      calls that check their input first may refuse it. */
  lemma InvalidLeaseReplies(row: Row, op: Op, now: Time)
    requires Presented(op).Some? && !Valid(row, Presented(op).value, now)
    ensures var d := Decide(row, op, now);
      && Untouched(row, d)
      && (op.Renew? ==> d.reply == Lost)
      && (op.MarkRunning? || op.Fail? || op.Recover? ==> d.reply == Done(false))
      && (op.Console? ==>
            d.reply == if op.caseId.None? || op.stream.None? || op.rawBytes > 4096 then Thrown(InvalidPublicOutput) else Done(false))
      && (op.Finish? ==>
            d.reply == if !ResultParses(op.result) then Thrown(InvalidResult)
                       else if op.resultBytes > 262144 then Thrown(PublicResultTooLarge) else Done(false))
  {
  }

  /** `markRunning` moves exactly a compiling job without cancel request, and only its state. */
  lemma MarkRunningLaw(row: Row, lease: Lease, bytes: EventSize, now: Time)
    requires Valid(row, lease, now)
    ensures var d := DecideMarkRunning(row, lease, bytes, now);
      && d.reply == Done(row.state == Compiling && row.cancellationRequestedAt.None?)
      && (d.reply == Done(false) ==> Untouched(row, d))
      && (d.reply == Done(true) ==>
            && d.row.state == Running && d.row == row.(state := d.row.state, lastSequence := row.lastSequence + 1)
            && d.emission.Emit? && d.emission.body == Status(Running, false)
            && d.notice.None? && d.write.NoIntent? && !d.restart)
  {
  }

  /** `console` under a valid lease: refused after a cancel request, an error for private
      output or a size beyond a limit, and otherwise one event with the sanitised text. */
  lemma ConsoleLaw(row: Row, op: Op, now: Time)
    requires op.Console? && Valid(row, op.lease, now)
    requires op.caseId.Some? && op.stream.Some? && op.rawBytes <= 4096
    ensures var d := DecideConsole(row, op, now);
      var isPublic := row.request.mode == RunMode && op.caseId.value in row.request.publicCases;
      && (d.reply == Done(false) <==> row.cancellationRequestedAt.Some?)
      && (d.reply == Thrown(PrivateOutputRejected) <==> row.cancellationRequestedAt.None? && !isPublic)
      && (d.reply == Thrown(InvalidPublicEvent) <==>
            row.cancellationRequestedAt.None? && isPublic && Utf8Bytes(RemoveControls(op.text)) > 4096)
      && (d.reply == Done(true) <==>
            && row.cancellationRequestedAt.None? && isPublic
            && Utf8Bytes(RemoveControls(op.text)) <= 4096 && 0 < op.eventBytes <= 16384)
      && (d.reply != Done(true) ==> Untouched(row, d))
      && (d.reply == Done(true) ==>
            && d.row == row.(lastSequence := row.lastSequence + 1)
            && d.emission.Emit? && d.emission.bytes == op.eventBytes
            && d.emission.body == ConsoleOutput(op.caseId.value, op.stream.value, RemoveControls(op.text))
            && d.notice.None? && d.write.NoIntent? && !d.restart)
  {
  }

  /** Each stored case is the reported one with both texts sanitised. */
  predicate StoredCases(stored: seq<CaseResult>, reported: seq<CaseResult>) {
    && |stored| == |reported|
    && forall i :: 0 <= i < |stored| ==>
         && stored[i].caseId == reported[i].caseId && stored[i].verdict == reported[i].verdict
         && stored[i].outputTruncated == reported[i].outputTruncated && stored[i].exitCode == reported[i].exitCode
         && stored[i].runtimeMs == reported[i].runtimeMs && stored[i].memoryKiB == reported[i].memoryKiB
         && CleanText(stored[i].stdout, reported[i].stdout) && CleanText(stored[i].stderr, reported[i].stderr)
  }

  predicate CleanText(stored: Option<Str>, reported: Option<Str>) {
    && (stored.Some? <==> reported.Some?)
    && (stored.Some? ==> stored.value == RemoveControls(reported.value))
  }

  /** Public cases only, and none of them twice. */
  predicate OncePublic(cases: seq<CaseResult>, ids: set<Id>) {
    && (forall i :: 0 <= i < |cases| ==> cases[i].caseId in ids)
    && (forall i, j :: 0 <= i < |cases| && 0 <= j < |cases| && cases[i].caseId == cases[j].caseId ==> i == j)
  }

  /** The result's results: what is reported is stored, what is not stays absent. */
  predicate ResultStored(r: WorkerResult, next: Row) {
    && next.runtimeMs == r.runtimeMs && next.memoryKiB == r.memoryKiB
    && (next.publicResults.Some? <==> r.publicCaseResults.Some?)
    && (next.publicResults.Some? ==> StoredCases(next.publicResults.value, r.publicCaseResults.value))
  }

  /** `finish` under a valid lease, for a result the schema and the size limit let through: a
      cancel request wins, private output is an error, and otherwise exactly the reported
      result is stored. */
  lemma FinishLaw(row: Row, op: Op, t: Time, now: Time)
    requires RowOk(row, t) && op.Finish? && Valid(row, op.lease, now)
    requires ResultParses(op.result) && op.resultBytes <= 262144
    ensures var d, r := DecideFinish(row, op, now), op.result;
      var isPublic := r.publicCaseResults.None? || (row.request.mode == RunMode && OncePublic(r.publicCaseResults.value, row.request.publicCases));
      && (row.cancellationRequestedAt.Some? ==> CancelledNow(row, d, now) && d.reply == Done(true))
      && (row.cancellationRequestedAt.None? && !isPublic ==> Untouched(row, d) && d.reply == Thrown(PrivateOutputRejected))
      && (row.cancellationRequestedAt.None? && isPublic ==>
            && EndedAs(row, d, Finished, r.verdict, None, now) && ResultStored(r, d.row)
            && d.reply == Done(true) && d.write.NoIntent?)
  {
    TerminalStates(row.state);
  }

  /** Input is checked before the lease, and a refused input writes nothing. */
  lemma FinishRefusesInput(row: Row, op: Op, now: Time)
    requires op.Finish? && (!ResultParses(op.result) || op.resultBytes > 262144)
    ensures var d := DecideFinish(row, op, now);
      && Untouched(row, d)
      && d.reply == Thrown(if !ResultParses(op.result) then InvalidResult else PublicResultTooLarge)
  {
  }

  /** What the result schema asks: no infrastructure verdict anywhere, at most a hundred cases. */
  lemma ResultSchema(r: WorkerResult)
    ensures ResultParses(r) <==>
              && r.verdict !in {VerdictCancelled, VerdictInternalError}
              && (r.publicCaseResults.Some? ==>
                    && |r.publicCaseResults.value| <= 100
                    && forall i :: 0 <= i < |r.publicCaseResults.value| ==>
                         r.publicCaseResults.value[i].verdict !in {VerdictCancelled, VerdictInternalError})
  {
  }

  /** `fail` under a valid lease ends the job: CANCELLED when that was requested and the sandbox
      is gone, CANCELLATION_TIMEOUT when requested and it may not be, JOB_FAILURE otherwise. */
  lemma FailLaw(row: Row, lease: Lease, clean: bool, bytes: EventSize, subscribed: bool, now: Time)
    requires Valid(row, lease, now)
    ensures var d := DecideFail(row, lease, clean, bytes, subscribed, now);
      && d.reply == Done(true) && d.write.NoIntent?
      && (row.cancellationRequestedAt.Some? && clean ==> CancelledNow(row, d, now))
      && (row.cancellationRequestedAt.Some? && !clean ==> Failed(row, d, CancellationTimeout, now))
      && (row.cancellationRequestedAt.None? ==> Failed(row, d, JobFailure, now))
  {
  }

  /** `recover` under a valid lease: a requested cancel and a third attempt end the job,
      otherwise the lease ends now and nothing else of the row changes. */
  lemma RecoverLaw(row: Row, lease: Lease, bytes: EventSize, subscribed: bool, now: Time)
    requires Valid(row, lease, now)
    ensures var d := DecideRecover(row, lease, bytes, subscribed, now);
      && d.reply == Done(true)
      && (row.cancellationRequestedAt.Some? ==> CancelledNow(row, d, now) && d.write.NoIntent?)
      && (row.cancellationRequestedAt.None? && row.attempt >= 3 ==> Failed(row, d, JobFailure, now) && d.write.NoIntent?)
      && (row.cancellationRequestedAt.None? && row.attempt < 3 ==>
            && d.row == row.(leaseExpiresAt := d.row.leaseExpiresAt) && d.row.leaseExpiresAt == Some(now)
            && d.write == ResetIntent(IntentKey(ExecutionRecovery, row.attempt))
            && d.emission.Silent? && d.notice.None? && !d.restart)
  {
  }

  // ------------------------------------------------------------------
  // cancel

  /** A stranger's cancel finds nothing and writes nothing, whatever the job's state. */
  lemma StrangerCancelsNothing(row: Row, userId: Id, allowed: bool, bytes: EventSize, subscribed: bool, now: Time)
    requires userId != row.request.userId
    ensures var d := DecideCancel(row, userId, allowed, bytes, subscribed, now);
      Untouched(row, d) && d.reply == Thrown(NotFound)
  {
  }

  /** The owner's cancel: a queued job ends at once with its intent, a settled one is only
      reported, an active one is told once, if that is available, and keeps everything else. */
  lemma OwnerCancelLaw(row: Row, allowed: bool, bytes: EventSize, subscribed: bool, now: Time)
    ensures var d := DecideCancel(row, row.request.userId, allowed, bytes, subscribed, now);
      && (row.state == Queued ==>
            && CancelledNow(row, d, now) && d.write == InsertIntent(IntentKey(ExecutionCancelled, 0))
            && d.reply == Receipt(Cancelled, false))
      && (IsTerminal(row.state) ==> Untouched(row, d) && d.reply == Receipt(row.state, false))
      && (IsActive(row.state) && !allowed ==> Untouched(row, d) && d.reply == Thrown(CancellationUnavailable))
      && (IsActive(row.state) && allowed ==> d.reply == Receipt(row.state, true))
      && (IsActive(row.state) && allowed && row.cancellationRequestedAt.Some? ==> Untouched(row, d))
      && (IsActive(row.state) && allowed && row.cancellationRequestedAt.None? ==>
            && d.row == row.(cancellationRequestedAt := d.row.cancellationRequestedAt, lastSequence := row.lastSequence + 1)
            && d.row.cancellationRequestedAt == Some(now)
            && d.emission.Emit? && d.emission.body == Status(row.state, true)
            && d.notice.None? && d.write.NoIntent? && !d.restart)
  {
    TerminalStates(row.state);
  }

  // ------------------------------------------------------------------
  // Sweeps

  /** A maintenance sweep touches exactly the active jobs whose lease has lapsed or whose
      cancel request is fifteen seconds old; it ends those with a reason and offers the rest. */
  lemma MaintainLaw(row: Row, bytes: EventSize, subscribed: bool, now: Time)
    ensures var d := DecideMaintain(row, bytes, subscribed, now);
      var due := IsActive(row.state) && (|| (row.leaseExpiresAt.Some? && row.leaseExpiresAt.value <= now)
                                         || (row.cancellationRequestedAt.Some? && row.cancellationRequestedAt.value + 15000 <= now));
      && d.reply == Swept(due)
      && (!due ==> Untouched(row, d))
      && (due && row.cancellationRequestedAt.Some? ==> Failed(row, d, CancellationTimeout, now) && d.write.NoIntent?)
      && (due && row.cancellationRequestedAt.None? && row.attempt >= 3 ==> Failed(row, d, LeaseExpired, now) && d.write.NoIntent?)
      && (due && row.cancellationRequestedAt.None? && row.attempt < 3 && now >= Deadline(row) ==>
            Failed(row, d, JobTimeout, now) && d.write.NoIntent?)
      && (due && row.cancellationRequestedAt.None? && row.attempt < 3 && now < Deadline(row) ==>
            && d.row == row && d.write == EnsureIntent(IntentKey(ExecutionRecovery, row.attempt))
            && d.emission.Silent? && d.notice.None? && !d.restart)
  {
  }

  /** The expiry sweep ends exactly the queued jobs whose time has come, and writes their intent. */
  lemma ExpireLaw(row: Row, bytes: EventSize, t: Time, now: Time)
    requires RowOk(row, t)
    ensures var d := DecideExpire(row, bytes, now);
      var due := row.state == Queued && row.request.queueExpiresAt <= now;
      && d.reply == Swept(due)
      && (!due ==> Untouched(row, d))
      && (due ==> Failed(row, d, QueueTimeout, now) && d.write == InsertIntent(IntentKey(ExecutionExpired, 0)) && d.notice.None?)
  {
  }

  // ------------------------------------------------------------------
  // Events

  /** The size a call's event would have. */
  function EventBytes(op: Op): nat {
    match op
    case Claim(_, bytes, _) => bytes
    case Renew(_) => 0
    case MarkRunning(_, bytes) => bytes
    case Console(_, _, _, _, _, bytes) => bytes
    case Finish(_, _, _, bytes, _) => bytes
    case Fail(_, _, bytes, _) => bytes
    case Recover(_, bytes, _) => bytes
    case Cancel(_, _, bytes, _) => bytes
    case Maintain(bytes, _) => bytes
    case Expire(bytes) => bytes
  }

  /** Events tell the truth: a status names the row's new state and whether the call requested
      its cancellation, output comes from `console` alone, and the size is the event's own. */
  lemma EventsTellTheTruth(row: Row, op: Op, t: Time, now: Time)
    requires RowOk(row, t)
    ensures var d := Decide(row, op, now);
      d.emission.Emit? ==>
        && d.emission.bytes == EventBytes(op)
        && (d.emission.body.Status? ==> d.emission.body.state == d.row.state && (d.emission.body.cancellationRequested <==> op.Cancel?))
        && (d.emission.body.ConsoleOutput? <==> op.Console?)
        && (d.emission.body.FinalVerdict? <==> Settles(row, d.row))
  {
    DecisionShape(row, op, t, now);
    TerminalStates(row.state);
    TerminalStates(Running);
    TerminalStates(Compiling);
  }

  /** Jobs that never ran notify nobody. */
  lemma QueuedNotifiesNobody(row: Row, op: Op, t: Time, now: Time)
    requires RowOk(row, t) && row.state == Queued
    ensures Decide(row, op, now).notice.None?
  {
  }
}
