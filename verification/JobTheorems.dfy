/** What holds of every execution over every run. */
module JobTheorems {
  import opened Contracts
  import opened EventLog
  import opened Rows
  import opened SqlLifecycle
  import opened Outbox
  import opened Jobs

  // ------------------------------------------------------------------
  // Fenced authority

  lemma StepFences(w: World, a: Action, now: Time, lease: Lease)
    requires WorldOk(w) && Enabled(w, a, now) && lease in w.leases && !Valid(w.job.row, lease, w.clock)
    ensures var w' := Step(w, a, now);
      lease in w'.leases && !Valid(w'.job.row, lease, now)
  {
    if a.Call? {
      InsertsAreNew(w, a.op, now);
      AuthorityNeverReturns(w.job.row, a.op, lease, w.clock, now);
    }
  }

  /** Single fenced authority: once a lease is superseded, expired or given up it stays so,
      and after any run every worker call that presents it leaves the whole job as it was. */
  lemma {:induction false} FencedForever(w: World, run: seq<Timed>, lease: Lease, op: Op, now: Time)
    requires WorldOk(w) && RunOk(w, run) && lease in w.leases && !Valid(w.job.row, lease, w.clock)
    requires Presented(op) == Some(lease) && Run(w, run).clock <= now
    ensures var w' := Run(w, run);
      !Valid(w'.job.row, lease, now) && Apply(w'.job, Call(op), now) == w'.job
    decreases |run|
  {
    if run == [] {
      InvalidLeaseChangesNothing(w.job.row, op, now);
    } else {
      StepKeeps(w, run[0].action, run[0].now);
      StepFences(w, run[0].action, run[0].now, lease);
      FencedForever(Step(w, run[0].action, run[0].now), run[1..], lease, op, now);
    }
  }

  /** At most one grant holds authority: after any run, of all the leases ever granted only
      the latest can be valid, so two different grants never are at the same time. */
  lemma AtMostOneAuthority(w: World, run: seq<Timed>, i: nat, j: nat, now: Time)
    requires WorldOk(w) && RunOk(w, run)
    requires i < |Run(w, run).leases| && j < |Run(w, run).leases|
    requires Valid(Run(w, run).job.row, Run(w, run).leases[i], now) && Valid(Run(w, run).job.row, Run(w, run).leases[j], now)
    ensures i == j == |Run(w, run).leases| - 1
  {
    RunKeeps(w, run);
  }

  /** Where a step without renewal leaves an attempt. */
  lemma StepNeverExtends(w: World, a: Action, now: Time)
    requires WorldOk(w) && w.clock <= now && !(a.Call? && a.op.Renew?) && IsActive(w.job.row.state)
    ensures var next := Step(w, a, now).job.row;
      && next.state != Queued
      && (IsActive(next.state) && next.attempt == w.job.row.attempt ==>
            next.leaseExpiresAt.Some? && next.leaseExpiresAt.value <= Max(w.job.row.leaseExpiresAt.value, now))
  {
    StepRow(w, a, now);
    if a.Call? {
      OnlyRenewalExtends(w.job.row, a.op, now);
      NeverQueuedAgain(w.job.row, a.op, now);
    }
  }

  predicate NoRenewal(run: seq<Timed>) {
    forall i :: 0 <= i < |run| ==> !(run[i].action.Call? && run[i].action.op.Renew?)
  }

  /** Where a run without renewals leaves an attempt: over, or with the same lease end or an
      earlier one. */
  predicate RanOut(row: Row, end: World) {
    || IsTerminal(end.job.row.state) || end.job.row.attempt > row.attempt
    || (&& IsActive(end.job.row.state) && end.job.row.leaseExpiresAt.Some? && row.leaseExpiresAt.Some?
        && end.job.row.leaseExpiresAt.value <= Max(row.leaseExpiresAt.value, end.clock))
  }

  lemma StepRunsOut(w: World, a: Action, now: Time)
    requires WorldOk(w) && w.clock <= now && !(a.Call? && a.op.Renew?) && IsActive(w.job.row.state)
    ensures RanOut(w.job.row, Step(w, a, now)) && w.job.row.attempt <= Step(w, a, now).job.row.attempt
  {
    StepNeverExtends(w, a, now);
    StepShows(w, a, now);
    AttemptGrows(w, a, now);
    TerminalStates(Step(w, a, now).job.row.state);
  }

  lemma RanOutChains(row: Row, mid: World, end: World)
    requires RanOut(row, mid) && RanOut(mid.job.row, end) && !IsTerminal(mid.job.row.state)
    requires row.attempt <= mid.job.row.attempt <= end.job.row.attempt && mid.clock <= end.clock
    ensures RanOut(row, end)
  {
  }

  lemma {:induction false} LeaseRunsOut(w: World, run: seq<Timed>)
    requires WorldOk(w) && RunOk(w, run) && NoRenewal(run) && IsActive(w.job.row.state)
    ensures RanOut(w.job.row, Run(w, run))
    decreases |run|
  {
    if run != [] {
      var w' := Step(w, run[0].action, run[0].now);
      StepKeeps(w, run[0].action, run[0].now);
      StepRunsOut(w, run[0].action, run[0].now);
      AttemptsOnlyGrow(w', run[1..]);
      if IsTerminal(w'.job.row.state) {
        OutcomeIsFinal(w', run[1..]);
      } else if IsActive(w'.job.row.state) {
        LeaseRunsOut(w', run[1..]);
        RanOutChains(w.job.row, w', Run(w', run[1..]));
      }
    }
  }

  lemma AttemptGrows(w: World, a: Action, now: Time)
    requires WorldOk(w) && w.clock <= now
    ensures w.job.row.attempt <= Step(w, a, now).job.row.attempt
  {
    StepRow(w, a, now);
    if a.Call? {
      TransitionsFollowTheTable(w.job.row, a.op, w.clock, now);
    }
  }

  /** Thirty seconds: however a job got where it is, if nobody renews its lease for thirty
      seconds, its attempt is over: the job has ended, a later attempt has begun, or the lease
      has lapsed and the job can be recovered. */
  lemma UnrenewedLapses(w: World, run: seq<Timed>)
    requires WorldOk(w) && RunOk(w, run) && NoRenewal(run) && IsActive(w.job.row.state)
    requires w.clock + 30000 <= Run(w, run).clock
    ensures var end := Run(w, run);
      IsTerminal(end.job.row.state) || end.job.row.attempt > w.job.row.attempt || Lapsed(end.job.row, end.clock)
  {
    LeaseRunsOut(w, run);
  }

  /** Bounded life, in every reachable state: at most three attempts, and no lease beyond ten
      minutes after the queue deadline or thirty seconds from now. */
  lemma LifeStaysBounded(w: World, run: seq<Timed>)
    requires WorldOk(w) && RunOk(w, run)
    ensures var end := Run(w, run);
      && end.job.row.attempt <= 3
      && (end.job.row.leaseExpiresAt.Some? ==>
            && IsActive(end.job.row.state) && end.job.row.leaseExpiresAt.value <= end.job.row.request.queueExpiresAt + 600000
            && end.job.row.leaseExpiresAt.value <= end.clock + 30000)
  {
    RunKeeps(w, run);
  }

  // ------------------------------------------------------------------
  // One terminal outcome

  lemma StepKeepsOutcome(w: World, a: Action, now: Time)
    requires WorldOk(w) && Enabled(w, a, now) && IsTerminal(w.job.row.state)
    ensures var w' := Step(w, a, now);
      && w'.job.row == w.job.row && w'.job.notifications == w.job.notifications
      && w'.past == w.past && w'.current == w.current
  {
    if a.Call? {
      InsertsAreNew(w, a.op, now);
      DecisionShape(w.job.row, a.op, w.clock, now);
    }
  }

  /** A job settles at most once: from a terminal state no run changes the row, the
      histories or the notification. */
  lemma {:induction false} OutcomeIsFinal(w: World, run: seq<Timed>)
    requires WorldOk(w) && RunOk(w, run) && IsTerminal(w.job.row.state)
    ensures var w' := Run(w, run);
      && w'.job.row == w.job.row && w'.job.notifications == w.job.notifications
      && w'.past == w.past && w'.current == w.current
    decreases |run|
  {
    if run != [] {
      StepKeeps(w, run[0].action, run[0].now);
      StepKeepsOutcome(w, run[0].action, run[0].now);
      OutcomeIsFinal(Step(w, run[0].action, run[0].now), run[1..]);
    }
  }

  function HistoryOf(w: World, attempt: nat): seq<Stored>
    requires attempt <= |w.past|
  {
    if attempt < |w.past| then w.past[attempt] else w.current
  }

  /** The event at (attempt, i) is a final verdict exactly when the job is terminal and
      this is its very last event; it then carries the stored outcome, and so does the
      notification, if one was created. */
  lemma ExactlyOneFinalVerdict(w: World, attempt: nat, i: nat)
    requires WorldOk(w) && attempt <= |w.past| && i < |HistoryOf(w, attempt)|
    ensures var body := HistoryOf(w, attempt)[i].payload.body;
      && (body.FinalVerdict? <==> IsTerminal(w.job.row.state) && attempt == w.job.row.attempt && i == w.job.row.lastSequence - 1)
      && (body.FinalVerdict? ==>
            && body.final == w.job.row.state && Some(body.verdict) == w.job.row.verdict
            && body.failureCode == w.job.row.failureCode)
    ensures |w.job.notifications| <= 1
    ensures forall v <- w.job.notifications ::
              IsTerminal(w.job.row.state) && w.job.row.verdict == Some(v) && w.job.row.request.mode == SubmitMode
  {
    var row := w.job.row;
    if attempt < |w.past| {
      assert NoFinal(w.past[attempt]);
    } else if i < |w.current| - 1 {
      assert w.current[..|w.current| - 1][i] == w.current[i];
    } else {
      assert FinalOk(row, w.current);
    }
  }

  /** Whether the owner takes notifications, as the call's transaction sees it. */
  predicate Subscribed(op: Op) {
    match op
    case Claim(_, _, subscribed) => subscribed
    case Finish(_, _, _, _, subscribed) => subscribed
    case Fail(_, _, _, subscribed) => subscribed
    case Recover(_, _, subscribed) => subscribed
    case Cancel(_, _, _, subscribed) => subscribed
    case Maintain(_, subscribed) => subscribed
    case _ => false
  }

  /** What the settling call asks to be notified. */
  lemma NoticeOfSettling(row: Row, op: Op, t: Time, now: Time)
    requires RowOk(row, t) && IsActive(row.state) && IsTerminal(Decide(row, op, now).row.state)
    ensures var d := Decide(row, op, now);
      && d.row.verdict.Some?
      && d.notice == (if row.request.mode == SubmitMode && Subscribed(op) && d.row.verdict.value != VerdictCancelled
                      then d.row.verdict else None)
  {
    TerminalStates(row.state);
  }

  /** The call that settles an active job notifies its owner: for a subscribed SUBMIT with
      the settled verdict unless that is CANCELLED, and otherwise not at all. */
  lemma SettlingNotifies(w: World, op: Op, now: Time)
    requires WorldOk(w) && w.clock <= now && IsActive(w.job.row.state)
    requires IsTerminal(Decide(w.job.row, op, now).row.state)
    ensures var job := Apply(w.job, Call(op), now);
      && job.row.verdict.Some?
      && job.notifications ==
           (if w.job.row.request.mode == SubmitMode && Subscribed(op) && job.row.verdict.value != VerdictCancelled
            then [job.row.verdict.value] else [])
  {
    InsertsAreNew(w, op, now);
    TerminalStates(w.job.row.state);
    assert w.job.notifications == [];
    NoticeOfSettling(w.job.row, op, w.clock, now);
  }

  lemma StepKeepsCancellation(w: World, a: Action, now: Time)
    requires WorldOk(w) && w.clock <= now && w.job.row.cancellationRequestedAt.Some?
    ensures var row := Step(w, a, now).job.row;
      && row.cancellationRequestedAt == w.job.row.cancellationRequestedAt
      && row.attempt == w.job.row.attempt && (row.state == Finished ==> w.job.row.state == Finished)
  {
    if a.Call? {
      InsertsAreNew(w, a.op, now);
      CancellationSticks(w.job.row, a.op, w.clock, now);
    }
  }

  /** After a cancellation request, over any run: the request stands, no new attempt
      starts, and the job cannot end FINISHED. */
  lemma {:induction false} CancelledNeverFinishes(w: World, run: seq<Timed>)
    requires WorldOk(w) && RunOk(w, run) && w.job.row.cancellationRequestedAt.Some?
    ensures var row := Run(w, run).job.row;
      && row.cancellationRequestedAt == w.job.row.cancellationRequestedAt
      && row.attempt == w.job.row.attempt && row.state != Finished
    decreases |run|
  {
    if run != [] {
      var a, now := run[0].action, run[0].now;
      StepKeeps(w, a, now);
      StepKeepsCancellation(w, a, now);
      CancelledNeverFinishes(Step(w, a, now), run[1..]);
    }
  }

  /** Whatever a stranger asks to cancel, the whole job stays as it is. */
  lemma StrangerLeavesTheJob(job: Job, userId: Id, allowed: bool, bytes: EventSize, subscribed: bool, now: Time)
    requires userId != job.row.request.userId
    ensures Apply(job, Call(Cancel(userId, allowed, bytes, subscribed)), now) == job
    ensures Decide(job.row, Cancel(userId, allowed, bytes, subscribed), now).reply == Thrown(NotFound)
  {
  }

  predicate IsOwnersCancel(row: Row, a: Action) {
    a.Call? && a.op.Cancel? && a.op.userId == row.request.userId && a.op.activeAllowed
  }

  /** Over any run a cancel request appears only through the owner's own cancel, made while
      active cancellation was available, and carries that call's clock reading. */
  lemma {:induction false} CancellationComesFromTheOwner(w: World, run: seq<Timed>)
    requires WorldOk(w) && RunOk(w, run) && w.job.row.cancellationRequestedAt.None?
    requires Run(w, run).job.row.cancellationRequestedAt.Some?
    ensures exists i :: 0 <= i < |run| && IsOwnersCancel(w.job.row, run[i].action)
              && Run(w, run).job.row.cancellationRequestedAt == Some(run[i].now)
    decreases |run|
  {
    var w' := Step(w, run[0].action, run[0].now);
    StepKeeps(w, run[0].action, run[0].now);
    StepKeepsRequest(w, run[0].action, run[0].now);
    if w'.job.row.cancellationRequestedAt.Some? {
      StepRow(w, run[0].action, run[0].now);
      RequestNeedsOwner(w.job.row, run[0].action.op, run[0].now);
      CancelledNeverFinishes(w', run[1..]);
    } else {
      CancellationComesFromTheOwner(w', run[1..]);
      var i :| 0 <= i < |run[1..]| && IsOwnersCancel(w'.job.row, run[1..][i].action)
               && Run(w', run[1..]).job.row.cancellationRequestedAt == Some(run[1..][i].now);
      assert run[i + 1] == run[1..][i];
    }
  }

  lemma StepKeepsRequest(w: World, a: Action, now: Time)
    requires WorldOk(w)
    ensures Step(w, a, now).job.row.request == w.job.row.request
  {
    StepRow(w, a, now);
    if a.Call? {
      DecisionShape(w.job.row, a.op, w.clock, now);
    }
  }

  // ------------------------------------------------------------------
  // Histories only grow

  /** Attempts are archived in order and every history of `w` is a prefix of the same
      attempt's history in `v`. */
  predicate Extends(w: World, v: World) {
    && w.past <= v.past
    && (if |v.past| == |w.past| then w.current <= v.current else w.current <= v.past[|w.past|])
  }

  lemma StepExtends(w: World, a: Action, now: Time)
    ensures Extends(w, Step(w, a, now))
  {
  }

  lemma {:induction false} RunExtends(w: World, run: seq<Timed>)
    ensures Extends(w, Run(w, run))
    decreases |run|
  {
    if run != [] {
      var w' := Step(w, run[0].action, run[0].now);
      StepExtends(w, run[0].action, run[0].now);
      RunExtends(w', run[1..]);
      ExtendsTransitive(w, w', Run(w', run[1..]));
    }
  }

  lemma ExtendsTransitive(u: World, v: World, w: World)
    requires Extends(u, v) && Extends(v, w)
    ensures Extends(u, w)
  {
    if |v.past| > |u.past| {
      assert w.past[|u.past|] == v.past[|u.past|];
    }
  }

  /** What a call adds to the attempt's history: nothing, or one event at its end with its own
      size and an expiry in ten minutes. */
  lemma CallStoresEvent(w: World, op: Op, now: Time)
    requires WorldOk(w) && w.clock <= now
    ensures var d, w' := Decide(w.job.row, op, now), Step(w, Call(op), now);
      && (d.emission.Silent? ==> w'.current == w.current && w'.job.log == w.job.log)
      && (d.emission.Emit? ==>
            w'.current == (if d.restart then [] else w.current) +
              [Stored(d.row.attempt, d.row.lastSequence, Event(d.row.request.id, d.row.attempt, d.row.lastSequence, d.emission.body),
                      d.emission.bytes, now + 600000)])
  {
    InsertsAreNew(w, op, now);
  }

  /** What a write does to the outbox: its key is there afterwards, due at once if it is new,
      and no other intent appears or goes. */
  lemma WriteIsExact(intents: map<IntentKey, Intent>, write: IntentWrite, now: Time)
    ensures var after := WriteIntents(intents, write, now);
      && (write.NoIntent? ==> after == intents)
      && (!write.NoIntent? ==>
            && after.Keys == intents.Keys + {write.key}
            && (write.key !in intents ==> after[write.key] == Intent(None, None, None, now, 0)))
  {
  }

  lemma CallStoresIntent(w: World, op: Op, now: Time)
    requires WorldOk(w) && w.clock <= now
    ensures Step(w, Call(op), now).job.intents == WriteIntents(w.job.intents, Decide(w.job.row, op, now).write, now)
  {
    InsertsAreNew(w, op, now);
  }

  // ------------------------------------------------------------------
  // No durable work is lost

  /** A recovery intent for the current attempt exists only once that attempt's lease has
      lapsed, so a worker that may still call `recover` always inserts a new one. */
  lemma RecoverAlwaysInserts(w: World, lease: Lease, now: Time)
    requires WorldOk(w) && w.clock <= now && Valid(w.job.row, lease, now)
    ensures IntentKey(ExecutionRecovery, w.job.row.attempt) !in w.job.intents
  {
    var k := IntentKey(ExecutionRecovery, w.job.row.attempt);
    assert k in w.job.intents ==> IntentOk(k, w.job.row, w.clock);
    TerminalStates(w.job.row.state);
  }

  /** The pending intent a dispatcher would accept now. */
  predicate HasWork(job: Job, now: Time) {
    exists k :: k in job.intents && Eligible(job.row, k, now)
  }

  /** A maintenance pass over the row, or the worker's own `recover`, leaves no live job
      with a lapsed lease without a recovery intent the dispatcher accepts. */
  lemma LapsedJobIsOffered(w: World, op: Op, now: Time)
    requires WorldOk(w) && w.clock <= now
    requires op.Maintain? || (op.Recover? && Valid(w.job.row, op.lease, now))
    ensures var job := Apply(w.job, Call(op), now);
      Lapsed(job.row, now) ==>
        var k := IntentKey(ExecutionRecovery, job.row.attempt);
        k in job.intents && Eligible(job.row, k, now)
  {
    InsertsAreNew(w, op, now);
  }

  /** A queued job inside its deadline always has the intent `create` wrote, and the
      dispatcher accepts it. */
  lemma QueuedJobIsOffered(w: World, now: Time)
    requires WorldOk(w) && w.job.row.state == Queued && now < w.job.row.request.queueExpiresAt
    ensures HasWork(w.job, now)
  {
    assert Eligible(w.job.row, IntentKey(ExecutionCreated, 0), now);
  }

  lemma LapsedStaysLapsed(row: Row, op: Op, t: Time, now: Time)
    requires RowOk(row, t) && t <= now && Lapsed(row, t)
    ensures var next := Decide(row, op, now).row;
      next.attempt > row.attempt || IsTerminal(next.state) || (next.attempt == row.attempt && Lapsed(next, now))
  {
    TransitionsFollowTheTable(row, op, t, now);
    TerminalStates(row.state);
  }

  lemma StepKeepsOffer(w: World, a: Action, now: Time)
    requires WorldOk(w) && Enabled(w, a, now)
    requires Lapsed(w.job.row, w.clock) && IntentKey(ExecutionRecovery, w.job.row.attempt) in w.job.intents
    ensures var w' := Step(w, a, now);
      || w'.job.row.attempt > w.job.row.attempt
      || IsTerminal(w'.job.row.state)
      || (&& w'.job.row.attempt == w.job.row.attempt && Lapsed(w'.job.row, now)
          && IntentKey(ExecutionRecovery, w.job.row.attempt) in w'.job.intents)
  {
    assert w.job.intents.Keys <= Apply(w.job, a, now).intents.Keys;
    if a.Call? {
      InsertsAreNew(w, a.op, now);
      LapsedStaysLapsed(w.job.row, a.op, w.clock, now);
    }
  }

  lemma {:induction false} AttemptsOnlyGrow(w: World, run: seq<Timed>)
    requires WorldOk(w) && RunOk(w, run)
    ensures w.job.row.attempt <= Run(w, run).job.row.attempt && w.clock <= Run(w, run).clock
    decreases |run|
  {
    if run != [] {
      StepKeeps(w, run[0].action, run[0].now);
      AttemptGrows(w, run[0].action, run[0].now);
      AttemptsOnlyGrow(Step(w, run[0].action, run[0].now), run[1..]);
    }
  }

  /** The offer is durable: over any run it stands until a new attempt starts or the job
      is settled. */
  lemma {:induction false} OfferStands(w: World, run: seq<Timed>)
    requires WorldOk(w) && RunOk(w, run)
    requires Lapsed(w.job.row, w.clock) && IntentKey(ExecutionRecovery, w.job.row.attempt) in w.job.intents
    ensures var w' := Run(w, run);
      || w'.job.row.attempt > w.job.row.attempt
      || IsTerminal(w'.job.row.state)
      || HasWork(w'.job, w'.clock)
    decreases |run|
  {
    if run == [] {
      assert Eligible(w.job.row, IntentKey(ExecutionRecovery, w.job.row.attempt), w.clock);
    } else {
      var w' := Step(w, run[0].action, run[0].now);
      StepKeeps(w, run[0].action, run[0].now);
      StepKeepsOffer(w, run[0].action, run[0].now);
      if w'.job.row.attempt > w.job.row.attempt {
        AttemptsOnlyGrow(w', run[1..]);
      } else if IsTerminal(w'.job.row.state) {
        OutcomeIsFinal(w', run[1..]);
      } else {
        OfferStands(w', run[1..]);
      }
    }
  }
}
