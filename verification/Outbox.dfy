/** The outbox intent and the dispatcher's writes to it (queue.ts, job-store.ts:183). */
module Outbox {
  import opened Contracts
  import opened Text
  import opened EventLog
  import opened Rows

  const DISPATCH_MS := 10000
  const REOFFER_MS := 10000
  const MAX_BACKOFF_MS := 30000

  /** Mutable columns of an OutboxEvent row. */
  datatype Intent = Intent(
    publishedAt: Option<Time>, dispatchToken: Option<Token>, dispatchExpiresAt: Option<Time>,
    nextDispatchAt: Time, dispatchAttempts: nat)

  function NewIntent(now: Time): Intent {
    Intent(None, None, None, now, 0)
  }

  /** The claim query: unpublished, due, and not under an unexpired claim. */
  predicate Claimable(i: Intent, now: Time) {
    && i.publishedAt.None? && i.nextDispatchAt <= now
    && (i.dispatchExpiresAt.None? || i.dispatchExpiresAt.value <= now)
  }

  function ClaimIntent(i: Intent, token: Token, now: Time): Intent {
    if !Claimable(i, now) then i
    else i.(dispatchToken := Some(token), dispatchExpiresAt := Some(now + DISPATCH_MS), dispatchAttempts := i.dispatchAttempts + 1)
  }

  /** The token still owns an unexpired claim. */
  predicate HoldsClaim(i: Intent, token: Token, now: Time) {
    i.dispatchToken == Some(token) && i.dispatchExpiresAt.Some? && i.dispatchExpiresAt.value > now
  }

  function AckIntent(i: Intent, token: Token, now: Time): Intent {
    if !HoldsClaim(i, token, now) then i
    else i.(publishedAt := Some(now), dispatchToken := None, dispatchExpiresAt := None)
  }

  function Backoff(attempts: nat): nat {
    var n := Min(attempts, 5);
    Min(MAX_BACKOFF_MS, 1000 * (if n == 0 then 1 else if n == 1 then 2 else if n == 2 then 4
                                else if n == 3 then 8 else if n == 4 then 16 else 32))
  }

  /** The delay starts at one second, doubles with every attempt and stops at thirty. */
  lemma BackoffDoubles(attempts: nat)
    ensures Backoff(0) == 1000 && Backoff(attempts + 1) == Min(MAX_BACKOFF_MS, 2 * Backoff(attempts))
  {
  }

  /** The catch branch: it tests the token but not the claim's expiry. */
  function BackoffIntent(i: Intent, token: Token, now: Time): Intent {
    if i.dispatchToken != Some(token) then i
    else i.(dispatchToken := None, dispatchExpiresAt := None, nextDispatchAt := now + Backoff(i.dispatchAttempts))
  }

  /** `recover`'s update branch. */
  function ReleaseIntent(i: Intent, now: Time): Intent {
    i.(publishedAt := None, dispatchToken := None, dispatchExpiresAt := None, nextDispatchAt := now)
  }

  predicate Lapsed(row: Row, t: Time) {
    IsActive(row.state) && row.leaseExpiresAt.Some? && row.leaseExpiresAt.value <= t
  }

  /** The job still waits for this intent: `maintain`'s reoffer condition. */
  predicate Awaits(row: Row, key: IntentKey, now: Time) {
    || (row.state == Queued && key.kind == ExecutionCreated)
    || (Lapsed(row, now) && key.kind == ExecutionRecovery && key.generation == row.attempt)
  }

  function ReofferIntent(i: Intent, key: IntentKey, row: Row, now: Time): Intent {
    if i.publishedAt.Some? && i.publishedAt.value < now - REOFFER_MS && Awaits(row, key, now)
    then i.(publishedAt := None) else i
  }

  /** The dispatcher's eligibility test before it enqueues. */
  predicate Eligible(row: Row, key: IntentKey, now: Time) {
    && key.kind in {ExecutionCreated, ExecutionRecovery}
    && (|| (row.state == Queued && row.request.queueExpiresAt > now)
        || (IsActive(row.state) && key.kind == ExecutionRecovery && key.generation == row.attempt))
  }

  // ------------------------------------------------------------------
  // What each write does

  /** A claim takes exactly an intent that is unpublished, due and free of an unexpired claim,
      for ten seconds, and counts itself. */
  lemma ClaimIsExact(i: Intent, token: Token, now: Time)
    ensures var next := ClaimIntent(i, token, now);
      var free := i.publishedAt.None? && i.nextDispatchAt <= now && (i.dispatchExpiresAt.None? || i.dispatchExpiresAt.value <= now);
      && (!free ==> next == i)
      && (free ==>
            && next.dispatchToken == Some(token) && next.dispatchExpiresAt == Some(now + 10000)
            && next.dispatchAttempts == i.dispatchAttempts + 1
            && next.publishedAt.None? && next.nextDispatchAt == i.nextDispatchAt)
  {
  }

  /** Letting go under the token: an unexpired claim is published now, any claim is put off by
      the doubling delay; `recover`'s update frees the intent and makes it due. */
  lemma LettingGoIsExact(i: Intent, token: Token, now: Time)
    ensures var held := i.dispatchToken == Some(token) && i.dispatchExpiresAt.Some? && now < i.dispatchExpiresAt.value;
      AckIntent(i, token, now) ==
        (if held then Intent(Some(now), None, None, i.nextDispatchAt, i.dispatchAttempts) else i)
    ensures BackoffIntent(i, token, now) ==
              (if i.dispatchToken == Some(token)
               then Intent(i.publishedAt, None, None, now + Min(30000, 1000 * Pow2(Min(i.dispatchAttempts, 5))), i.dispatchAttempts)
               else i)
    ensures ReleaseIntent(i, now) == Intent(None, None, None, now, i.dispatchAttempts)
  {
    assert Pow2(5) == 32 && Pow2(4) == 16 && Pow2(3) == 8;
  }

  /** An intent is reoffered exactly when it was published more than ten seconds ago and its job
      still waits: queued for a first delivery, or lapsed in the attempt the intent is for. */
  lemma ReofferIsExact(i: Intent, key: IntentKey, row: Row, now: Time)
    ensures var waits :=
        || (row.state == Queued && key.kind == ExecutionCreated)
        || (&& row.state in {Compiling, Running} && row.leaseExpiresAt.Some? && row.leaseExpiresAt.value <= now
            && key.kind == ExecutionRecovery && key.generation == row.attempt);
      ReofferIntent(i, key, row, now) ==
        (if i.publishedAt.Some? && i.publishedAt.value + 10000 < now && waits then i.(publishedAt := None) else i)
  {
  }

  /** Whom the dispatcher still enqueues for. */
  lemma EligibilityIsExact(row: Row, key: IntentKey, now: Time)
    ensures key.kind == ExecutionCreated ==> (Eligible(row, key, now) <==> row.state == Queued && now < row.request.queueExpiresAt)
    ensures key.kind == ExecutionRecovery ==>
              (Eligible(row, key, now) <==>
                 || (row.state == Queued && now < row.request.queueExpiresAt)
                 || (row.state in {Compiling, Running} && key.generation == row.attempt))
    ensures key.kind in {ExecutionCancelled, ExecutionExpired} ==> !Eligible(row, key, now)
  {
  }

  /** A delivery is never idle: an eligible job that is queued or lapsed is taken up or ended by
      the claim its delivery makes. */
  lemma DeliveryMakesProgress(row: Row, key: IntentKey, token: Token, bytes: EventSize, subscribed: bool, now: Time)
    requires RowOk(row, now) && Eligible(row, key, now) && (row.state == Queued || Lapsed(row, now))
    ensures var d := DecideClaim(row, token, bytes, subscribed, now);
      d.restart || IsTerminal(d.row.state)
    ensures row.state == Queued ==> DecideClaim(row, token, bytes, subscribed, now).restart
  {
    TerminalStates(row.state);
    TerminalStates(InternalError);
  }
}
