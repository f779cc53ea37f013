/** Accepted work is never stuck: the columns of every intent stay such that, after thirty
    quiet seconds, one reoffer and one tick put it back in a dispatcher's hands
    (queue.ts:19-44, job-store.ts:171-183). */
module Durability {
  import opened Contracts
  import opened EventLog
  import opened Rows
  import opened Outbox
  import opened Jobs

  /** Claimed, published or waiting; a claim ends within ten seconds and a delay within thirty. */
  predicate IntentShape(i: Intent, t: Time) {
    && (i.dispatchToken.Some? <==> i.dispatchExpiresAt.Some?)
    && (i.dispatchToken.Some? ==> i.publishedAt.None? && i.nextDispatchAt <= t && i.dispatchExpiresAt.value <= t + DISPATCH_MS)
    && (i.publishedAt.Some? ==> i.nextDispatchAt <= t && i.publishedAt.value <= t)
    && i.nextDispatchAt <= t + MAX_BACKOFF_MS
  }

  predicate Shaped(job: Job, t: Time) {
    forall k <- job.intents :: IntentShape(job.intents[k], t)
  }

  lemma WritesKeepShape(intents: map<IntentKey, Intent>, write: IntentWrite, k: IntentKey, t: Time, now: Time)
    requires (forall k <- intents :: IntentShape(intents[k], t)) && t <= now
    requires k in WriteIntents(intents, write, now)
    ensures IntentShape(WriteIntents(intents, write, now)[k], now)
  {
  }

  lemma DispatchKeepsShape(i: Intent, d: DispatchOp, t: Time, now: Time)
    requires IntentShape(i, t) && t <= now
    ensures IntentShape(DispatchIntent(i, d, now), now)
  {
  }

  lemma ApplyKeepsShape(job: Job, a: Action, t: Time, now: Time)
    requires Shaped(job, t) && t <= now
    ensures Shaped(Apply(job, a, now), now)
  {
    var after := Apply(job, a, now);
    forall k | k in after.intents
      ensures IntentShape(after.intents[k], now)
    {
      match a
      case Call(op) =>
        if !Conflicts(job, Decide(job.row, op, now)) {
          WritesKeepShape(job.intents, Decide(job.row, op, now).write, k, t, now);
        }
      case Dispatch(key, d) =>
        if k == key && k in job.intents {
          DispatchKeepsShape(job.intents[k], d, t, now);
        }
      case _ =>
    }
  }

  lemma {:induction false} RunKeepsShape(w: World, run: seq<Timed>)
    requires Shaped(w.job, w.clock) && RunOk(w, run)
    ensures Shaped(Run(w, run).job, Run(w, run).clock)
    decreases |run|
  {
    if run != [] {
      var w' := Step(w, run[0].action, run[0].now);
      ApplyKeepsShape(w.job, run[0].action, w.clock, run[0].now);
      assert w'.job == Apply(w.job, run[0].action, run[0].now) && w'.clock == run[0].now;
      RunKeepsShape(w', run[1..]);
    }
  }

  lemma StartShaped(request: Request, bytes: EventSize)
    ensures Shaped(Start(request, bytes).job, request.createdAt)
  {
  }

  /** After thirty quiet seconds an intent the job waits for is claimable once reoffered. */
  lemma QuietIntentIsClaimable(i: Intent, k: IntentKey, row: Row, t: Time, now: Time)
    requires IntentShape(i, t) && t + MAX_BACKOFF_MS <= now && Awaits(row, k, now)
    ensures Claimable(ReofferIntent(i, k, row, now), now)
  {
  }

  /** Durable work is dispatched: after any run, whatever dispatchers did, crashed doing or
      lost on the queue, if a job waits for an intent and the outbox has been quiet for
      thirty seconds, then one reoffer and one tick give the intent to the ticking
      dispatcher, which finds the job eligible. */
  lemma DurableWorkIsDispatched(w: World, run: seq<Timed>, k: IntentKey, token: Token, now: Time)
    requires Shaped(w.job, w.clock) && RunOk(w, run)
    requires var job := Run(w, run).job;
      && k in job.intents && Awaits(job.row, k, now) && Run(w, run).clock + MAX_BACKOFF_MS <= now
      && (job.row.state == Queued ==> now < job.row.request.queueExpiresAt)
    ensures var offered := Apply(Run(w, run).job, Reoffer(k), now);
      var job := Apply(offered, Dispatch(k, DispatchClaim(token)), now);
      && k in job.intents && HoldsClaim(job.intents[k], token, now) && job.intents[k].publishedAt.None?
      && Eligible(job.row, k, now)
  {
    var w' := Run(w, run);
    RunKeepsShape(w, run);
    QuietIntentIsClaimable(w'.job.intents[k], k, w'.job.row, w'.clock, now);
  }
}
