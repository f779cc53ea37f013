/** The database's own statement of the state machine: the trigger
    protect_execution_lifecycle and the table checks, and the proof that every JobStore
    transaction is a legal update. */
module SqlLifecycle {
  import opened Contracts
  import opened EventLog
  import opened Rows

  /** The UPDATE branch of the trigger: true when no exception is raised. */
  predicate TriggerAccepts(old_: Row, new_: Row, clock: Time) {
    && new_.request == old_.request
    && (old_.cancellationRequestedAt.Some? ==> new_.cancellationRequestedAt == old_.cancellationRequestedAt)
    && !(&& old_.leaseToken.Some? && new_.leaseToken.Some?
         && (new_.leaseToken, new_.attempt) != (old_.leaseToken, old_.attempt)
         && !(&& old_.state in {Compiling, Running} && LapsedAt(old_, clock)
              && new_.state == Compiling && new_.attempt == old_.attempt + 1 && new_.leaseToken != old_.leaseToken))
    && (old_.state in {Finished, Cancelled, InternalError} ==> new_ == old_)
    && (new_.state != old_.state ==>
          || (old_.state == Queued && new_.state in {Compiling, Cancelled, InternalError})
          || (old_.state == Compiling && new_.state in {Running, Finished, Cancelled, InternalError})
          || (old_.state == Running && new_.state in {Finished, Cancelled, InternalError})
          || (old_.state == Running && new_.state == Compiling && LapsedAt(old_, clock)
              && new_.attempt == old_.attempt + 1 && new_.leaseToken != old_.leaseToken))
    && !(new_.attempt < old_.attempt || (new_.attempt == old_.attempt && new_.lastSequence < old_.lastSequence))
    && (new_.failureCode == Some(QueueTimeout) ==> old_.state == Queued && new_.state == InternalError)
  }

  predicate LapsedAt(row: Row, clock: Time) {
    row.leaseExpiresAt.Some? && row.leaseExpiresAt.value <= clock
  }

  /** The INSERT branch of the trigger; `published` says whether the row's problem version is. */
  predicate TriggerAcceptsInsert(new_: Row, published: bool) {
    new_.state == Queued && published
  }

  /** CHECK valid_execution_terminal_fields. */
  predicate TerminalFields(row: Row) {
    || (row.state in {Queued, Compiling, Running} && row.verdict.None? && row.finishedAt.None? && row.failureCode.None?)
    || (row.state == Finished && row.verdict.Some? && row.verdict.value !in {VerdictCancelled, VerdictInternalError}
        && row.finishedAt.Some? && row.failureCode.None?)
    || (row.state == Cancelled && row.verdict == Some(VerdictCancelled) && row.finishedAt.Some? && row.failureCode.None?)
    || (row.state == InternalError && row.verdict == Some(VerdictInternalError) && row.finishedAt.Some?)
  }

  /** CHECK valid_execution_lease_pair. */
  predicate LeasePair(row: Row) {
    || (row.leaseToken.None? && row.leaseExpiresAt.None?)
    || (row.leaseToken.Some? && row.leaseExpiresAt.Some? && row.state in {Compiling, Running})
  }

  predicate TableChecks(row: Row) {
    TerminalFields(row) && LeasePair(row) && row.request.queueExpiresAt > row.request.createdAt
  }

  /** The trigger's state machine is the contracts' table and the re-claim edge: it accepts a
      state change only along one of them, */
  lemma TriggerFollowsTheTable(old_: Row, new_: Row, clock: Time)
    requires TriggerAccepts(old_, new_, clock) && new_.state != old_.state
    ensures || CanTransition(old_.state, new_.state)
            || (&& old_.state == Running && new_.state == Compiling && LapsedAt(old_, clock)
                && new_.attempt == old_.attempt + 1 && new_.leaseToken != old_.leaseToken)
  {
    TerminalStates(old_.state);
  }

  /** and it accepts every edge of the table, on a row without lease, and the re-claim of a
      lapsed attempt under a new token. */
  lemma TriggerAllowsTheTable(old_: Row, to: State, token: Token, clock: Time)
    requires old_.failureCode.None?
    ensures CanTransition(old_.state, to) && old_.leaseToken.None? ==> TriggerAccepts(old_, old_.(state := to), clock)
    ensures old_.state in {Compiling, Running} && LapsedAt(old_, clock) && old_.leaseToken != Some(token) ==>
              TriggerAccepts(old_, old_.(state := Compiling, attempt := old_.attempt + 1, lastSequence := 1, leaseToken := Some(token)), clock)
  {
    TerminalStates(old_.state);
  }

  /** What the trigger refuses besides. */
  lemma TriggerProtects(old_: Row, new_: Row, clock: Time)
    requires TriggerAccepts(old_, new_, clock)
    ensures new_.request == old_.request
    ensures IsTerminal(old_.state) ==> new_ == old_
    ensures old_.cancellationRequestedAt.Some? ==> new_.cancellationRequestedAt == old_.cancellationRequestedAt
    ensures new_.attempt >= old_.attempt && (new_.attempt == old_.attempt ==> new_.lastSequence >= old_.lastSequence)
    ensures old_.leaseToken.Some? && new_.leaseToken.Some? && new_.leaseToken != old_.leaseToken ==>
              LapsedAt(old_, clock) && new_.attempt == old_.attempt + 1 && new_.state == Compiling
    ensures new_.failureCode == Some(QueueTimeout) ==> old_.state == Queued && new_.state == InternalError
  {
    TerminalStates(old_.state);
  }

  /** What the table checks mean: outcomes are recorded exactly when a job is over, learner
      verdicts belong to FINISHED, and leases come in pairs while a job is active. */
  lemma ChecksProtect(row: Row)
    requires TableChecks(row)
    ensures (IsTerminal(row.state) <==> row.verdict.Some?) && (IsTerminal(row.state) <==> row.finishedAt.Some?)
    ensures row.failureCode.Some? ==> row.state == InternalError
    ensures row.verdict.Some? ==> (row.state == Finished <==> IsLearnerVerdict(row.verdict.value))
    ensures row.state == Cancelled ==> row.verdict == Some(VerdictCancelled)
    ensures (row.leaseToken.Some? <==> row.leaseExpiresAt.Some?) && (row.leaseToken.Some? ==> IsActive(row.state))
    ensures row.request.createdAt < row.request.queueExpiresAt
  {
    TerminalStates(row.state);
  }

  lemma RowOkPassesChecks(row: Row, t: Time)
    requires RowOk(row, t)
    ensures TableChecks(row)
  {
    TerminalStates(row.state);
  }

  /** A new execution is a legal insert exactly when its problem version is published. */
  lemma CreateIsLegal(request: Request, published: bool)
    requires request.createdAt < request.queueExpiresAt
    ensures TriggerAcceptsInsert(NewRow(request), published) <==> published
    ensures TableChecks(NewRow(request))
    ensures RowOk(NewRow(request), request.createdAt)
  {
    TerminalStates(Queued);
  }

  /** An update the trigger accepts, or none at all on a terminal row. */
  predicate LegalStep(row: Row, next: Row, clock: Time) {
    && (!IsTerminal(row.state) ==> TriggerAccepts(row, next, clock))
    && (IsTerminal(row.state) ==> next == row)
  }

  lemma ClaimIsLegal(row: Row, token: Token, bytes: EventSize, subscribed: bool, now: Time, clock: Time)
    requires RowOk(row, now) && now <= clock && row.leaseToken != Some(token)
    ensures LegalStep(row, DecideClaim(row, token, bytes, subscribed, now).row, clock)
  {
    TerminalStates(row.state);
  }

  lemma ProgressIsLegal(row: Row, lease: Lease, bytes: EventSize, now: Time, clock: Time)
    requires RowOk(row, now)
    ensures LegalStep(row, DecideRenew(row, lease, now).row, clock)
    ensures LegalStep(row, DecideMarkRunning(row, lease, bytes, now).row, clock)
  {
    TerminalStates(row.state);
  }

  lemma ResultIsLegal(row: Row, op: Op, now: Time, clock: Time)
    requires RowOk(row, now)
    ensures op.Console? ==> LegalStep(row, DecideConsole(row, op, now).row, clock)
    ensures op.Finish? ==> LegalStep(row, DecideFinish(row, op, now).row, clock)
  {
    TerminalStates(row.state);
  }

  lemma SettlingIsLegal(row: Row, lease: Lease, clean: bool, bytes: EventSize, subscribed: bool, now: Time, clock: Time)
    requires RowOk(row, now)
    ensures LegalStep(row, DecideFail(row, lease, clean, bytes, subscribed, now).row, clock)
    ensures LegalStep(row, DecideRecover(row, lease, bytes, subscribed, now).row, clock)
  {
    TerminalStates(row.state);
  }

  lemma CancelIsLegal(row: Row, userId: Id, allowed: bool, bytes: EventSize, subscribed: bool, now: Time, clock: Time)
    requires RowOk(row, now)
    ensures LegalStep(row, DecideCancel(row, userId, allowed, bytes, subscribed, now).row, clock)
  {
    TerminalStates(row.state);
  }

  lemma SweepsAreLegal(row: Row, bytes: EventSize, subscribed: bool, now: Time, clock: Time)
    requires RowOk(row, now)
    ensures LegalStep(row, DecideMaintain(row, bytes, subscribed, now).row, clock)
    ensures LegalStep(row, DecideExpire(row, bytes, now).row, clock)
  {
    TerminalStates(row.state);
  }

  /** Refinement: every transaction of the store on a live row is an update the trigger
      accepts, at any later trigger clock, and the table checks accept; a transaction on a
      terminal row writes nothing. */
  lemma StepsRefineTrigger(row: Row, op: Op, t: Time, now: Time, clock: Time)
    requires RowOk(row, t) && t <= now <= clock
    requires op.Claim? ==> row.leaseToken != Some(op.token)
    ensures LegalStep(row, Decide(row, op, now).row, clock)
    ensures TableChecks(Decide(row, op, now).row)
  {
    assert RowOk(row, now);
    RowInvariant(row, op, t, now);
    RowOkPassesChecks(Decide(row, op, now).row, now);
    match op
    case Claim(token, bytes, subscribed) => ClaimIsLegal(row, token, bytes, subscribed, now, clock);
    case Renew(lease) => ProgressIsLegal(row, lease, 1, now, clock);
    case MarkRunning(lease, bytes) => ProgressIsLegal(row, lease, bytes, now, clock);
    case Console(_, _, _, _, _, _) => ResultIsLegal(row, op, now, clock);
    case Finish(_, _, _, _, _) => ResultIsLegal(row, op, now, clock);
    case Fail(lease, clean, bytes, subscribed) => SettlingIsLegal(row, lease, clean, bytes, subscribed, now, clock);
    case Recover(lease, bytes, subscribed) => SettlingIsLegal(row, lease, true, bytes, subscribed, now, clock);
    case Cancel(userId, allowed, bytes, subscribed) => CancelIsLegal(row, userId, allowed, bytes, subscribed, now, clock);
    case Maintain(bytes, subscribed) => SweepsAreLegal(row, bytes, subscribed, now, clock);
    case Expire(bytes) => SweepsAreLegal(row, bytes, false, now, clock);
  }

  /** Within one attempt the store follows `canTransition`; the edge the table lacks,
      back to COMPILING, is taken only together with the next attempt. */
  lemma TransitionsFollowTheTable(row: Row, op: Op, t: Time, now: Time)
    requires RowOk(row, t) && t <= now
    ensures var next := Decide(row, op, now).row;
      && row.attempt <= next.attempt <= row.attempt + 1
      && (next.attempt == row.attempt ==> next.state == row.state || CanTransition(row.state, next.state))
      && (next.attempt == row.attempt + 1 <==> Decide(row, op, now).restart)
      && (next.attempt == row.attempt + 1 ==>
            && op.Claim? && next.state == Compiling && !IsTerminal(row.state)
            && row.cancellationRequestedAt.None? && (IsActive(row.state) ==> LapsedAt(row, now)))
  {
    TerminalStates(row.state);
  }
}
