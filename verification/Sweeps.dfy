/** Bounded life of every accepted job: past the deadlines, full maintenance passes settle
    a hundred waiting and a hundred active jobs each, whatever else is going on
    (job-store.ts:171-181, queued-maintenance.ts:8-29). */
module Sweeps {
  import opened Contracts
  import opened EventLog
  import opened Rows
  import opened Jobs
  import opened JobStore

  const BATCH := 100

  /** What a reachable world says of its job, without the trace. */
  predicate JobOk(job: Job, t: Time) {
    RowOk(job.row, t) && IntentsOk(job, t)
  }

  predicate TableOk(jobs: Table, t: Time) {
    forall id <- jobs :: JobOk(jobs[id], t)
  }

  predicate PastDeadlines(jobs: Table, now: Time) {
    forall id <- jobs :: Deadline(jobs[id].row) <= now
  }

  function Waiting(jobs: Table): set<Id> {
    set id | id in jobs && jobs[id].row.state == Queued
  }

  function Busy(jobs: Table): set<Id> {
    set id | id in jobs && IsActive(jobs[id].row.state)
  }

  lemma NoConflict(job: Job, op: Op, t: Time, now: Time)
    requires JobOk(job, t) && t <= now
    ensures !Conflicts(job, Decide(job.row, op, now))
  {
    WriteShape(job.row, op, now);
    if job.row.state == Queued {
      QueuedHasNoSettledIntent(job, t);
    }
  }

  lemma IntentsAfter(job: Job, op: Op, t: Time, now: Time, k: IntentKey)
    requires JobOk(job, t) && t <= now && k in WriteIntents(job.intents, Decide(job.row, op, now).write, now)
    ensures IntentOk(k, Decide(job.row, op, now).row, now)
  {
    if k in job.intents {
      assert IntentOk(k, job.row, t);
      IntentStaysOk(k, job.row, op, t, now);
    } else {
      WrittenIntentOk(job.row, op, t, now);
    }
  }

  /** Past its deadline a waiting job stays waiting or is settled, and so does a busy one. */
  lemma LateRow(row: Row, op: Op, t: Time, now: Time)
    requires RowOk(row, t) && t <= now && Deadline(row) <= now
    ensures var next := Decide(row, op, now).row;
      && (next.state == Queued ==> row.state == Queued) && (IsActive(next.state) ==> IsActive(row.state))
      && Deadline(next) == Deadline(row)
  {
    TerminalStates(row.state);
  }

  lemma CallStaysOk(job: Job, op: Op, t: Time, now: Time)
    requires JobOk(job, t) && t <= now
    ensures JobOk(Apply(job, Call(op), now), now)
  {
    NoConflict(job, op, t, now);
    RowInvariant(job.row, op, t, now);
    var d := Decide(job.row, op, now);
    forall k | k in WriteIntents(job.intents, d.write, now)
      ensures IntentOk(k, d.row, now)
    {
      IntentsAfter(job, op, t, now, k);
    }
  }

  lemma LateStep(job: Job, a: Action, t: Time, now: Time)
    requires JobOk(job, t) && t <= now && Deadline(job.row) <= now
    ensures var next := Apply(job, a, now);
      && JobOk(next, now) && Deadline(next.row) == Deadline(job.row)
      && (next.row.state == Queued ==> job.row.state == Queued)
      && (IsActive(next.row.state) ==> IsActive(job.row.state))
  {
    if a.Call? {
      NoConflict(job, a.op, t, now);
      CallStaysOk(job, a.op, t, now);
      LateRow(job.row, a.op, t, now);
    } else {
      assert Apply(job, a, now).intents.Keys == job.intents.Keys;
      assert forall k <- job.intents :: IntentOk(k, job.row, t) ==> IntentOk(k, job.row, now);
    }
  }

  predicate Late(jobs: Table, now: Time) {
    TableOk(jobs, now) && PastDeadlines(jobs, now)
  }

  /** `after` has the same late jobs as `jobs`, some of them settled since. */
  predicate OnlySettles(jobs: Table, after: Table, now: Time) {
    Late(after, now) && after.Keys == jobs.Keys && Waiting(after) <= Waiting(jobs) && Busy(after) <= Busy(jobs)
  }

  lemma PutStaysLate(jobs: Table, id: Id, next: Job, now: Time)
    requires Late(jobs, now) && JobOk(next, now) && Deadline(next.row) <= now
    ensures Late(jobs[id := next], now)
  {
  }

  lemma PutLate(jobs: Table, id: Id, next: Job, now: Time)
    requires Late(jobs, now) && id in jobs && JobOk(next, now) && Deadline(next.row) <= now
    requires next.row.state == Queued ==> jobs[id].row.state == Queued
    requires IsActive(next.row.state) ==> IsActive(jobs[id].row.state)
    ensures OnlySettles(jobs, jobs[id := next], now)
  {
    PutStaysLate(jobs, id, next, now);
    assert jobs[id := next].Keys == jobs.Keys;
  }

  lemma LateUpdate(jobs: Table, id: Id, a: Action, now: Time)
    requires Late(jobs, now)
    ensures OnlySettles(jobs, Updated(jobs, id, a, now), now)
  {
    if id in jobs {
      LateStep(jobs[id], a, now, now);
      PutLate(jobs, id, Apply(jobs[id], a, now), now);
    }
  }

  lemma SettlesTransitive(a: Table, b: Table, c: Table, now: Time)
    requires OnlySettles(a, b, now) && OnlySettles(b, c, now)
    ensures OnlySettles(a, c, now)
  {
  }

  /** Nothing that happens after the deadlines brings a job back to life. */
  lemma {:induction false} LateBatch(jobs: Table, steps: seq<RowStep>, now: Time)
    requires Late(jobs, now)
    ensures OnlySettles(jobs, ApplyAll(jobs, steps, now), now)
  {
    if steps != [] {
      var n := |steps| - 1;
      LateBatch(jobs, steps[..n], now);
      var mid := ApplyAll(jobs, steps[..n], now);
      LateUpdate(mid, steps[n].id, steps[n].action, now);
      SettlesTransitive(jobs, mid, Updated(mid, steps[n].id, steps[n].action, now), now);
    }
  }

  // ------------------------------------------------------------------
  // A full pass

  predicate Distinct(steps: seq<RowStep>) {
    forall i, j :: 0 <= i < j < |steps| ==> steps[i].id != steps[j].id
  }

  function Touched(steps: seq<RowStep>): set<Id> {
    set i | 0 <= i < |steps| :: steps[i].id
  }

  lemma {:induction false} DistinctCount(steps: seq<RowStep>)
    requires Distinct(steps)
    ensures |Touched(steps)| == |steps|
  {
    if steps != [] {
      var n := |steps| - 1;
      DistinctCount(steps[..n]);
      TouchedPrefix(steps);
    }
  }

  /** Rows outside a batch are untouched. */
  lemma {:induction false} BatchSpares(jobs: Table, steps: seq<RowStep>, now: Time, id: Id)
    requires id in jobs && id !in Touched(steps)
    ensures id in ApplyAll(jobs, steps, now) && ApplyAll(jobs, steps, now)[id] == jobs[id]
  {
    if steps != [] {
      var n := |steps| - 1;
      assert steps[n].id in Touched(steps);
      assert Touched(steps[..n]) <= Touched(steps) by { TouchedPrefix(steps); }
      BatchSpares(jobs, steps[..n], now, id);
    }
  }

  lemma TouchedPrefix(steps: seq<RowStep>)
    requires steps != []
    ensures Touched(steps[..|steps| - 1]) + {steps[|steps| - 1].id} == Touched(steps)
  {
  }

  /** A row inside a batch gets exactly its own step. */
  lemma {:induction false} BatchTouches(jobs: Table, steps: seq<RowStep>, now: Time, i: nat)
    requires Distinct(steps) && i < |steps| && steps[i].id in jobs
    ensures steps[i].id in ApplyAll(jobs, steps, now)
    ensures ApplyAll(jobs, steps, now)[steps[i].id] == Apply(jobs[steps[i].id], steps[i].action, now)
  {
    var n := |steps| - 1;
    if i == n {
      BatchSpares(jobs, steps[..n], now, steps[i].id);
    } else {
      BatchTouches(jobs, steps[..n], now, i);
    }
  }

  /** A maintenance step settles any late busy job, an expiry step any late waiting one. */
  lemma LateSettles(job: Job, bytes: EventSize, subscribed: bool, now: Time)
    requires JobOk(job, now) && Deadline(job.row) <= now
    ensures IsActive(job.row.state) ==> NeedsMaintenance(job.row, now)
    ensures IsActive(job.row.state) ==> Apply(job, Call(Maintain(bytes, subscribed)), now).row.state == InternalError
    ensures job.row.state == Queued ==> NeedsExpiry(job.row, now)
    ensures job.row.state == Queued ==> Apply(job, Call(Expire(bytes)), now).row.state == InternalError
  {
    NoConflict(job, Maintain(bytes, subscribed), now, now);
    NoConflict(job, Expire(bytes), now, now);
  }

  /** An unlocked pass: distinct rows of `candidates`, as many as the batch allows. */
  predicate FullPass(steps: seq<RowStep>, candidates: set<Id>) {
    Distinct(steps) && Touched(steps) <= candidates && |steps| == Min(BATCH, |candidates|)
  }

  predicate AllMaintain(steps: seq<RowStep>) {
    forall i :: 0 <= i < |steps| ==> steps[i].action.Call? && steps[i].action.op.Maintain?
  }

  predicate AllExpire(steps: seq<RowStep>) {
    forall i :: 0 <= i < |steps| ==> steps[i].action.Call? && steps[i].action.op.Expire?
  }

  lemma SubsetCount(a: set<Id>, b: set<Id>)
    requires b <= a
    ensures |a - b| == |a| - |b|
  {
    assert a == (a - b) + b;
  }

  lemma PassSettles(jobs: Table, steps: seq<RowStep>, now: Time, i: nat)
    requires Late(jobs, now) && Distinct(steps) && i < |steps|
    requires (AllMaintain(steps) && Touched(steps) <= Busy(jobs)) || (AllExpire(steps) && Touched(steps) <= Waiting(jobs))
    ensures var after := ApplyAll(jobs, steps, now);
      steps[i].id in after && after[steps[i].id].row.state == InternalError
  {
    var id, op := steps[i].id, steps[i].action.op;
    assert id in Touched(steps);
    BatchTouches(jobs, steps, now, i);
    LateSettles(jobs[id], op.bytes, op.Maintain? && op.subscribed, now);
  }

  lemma PassRemoves(jobs: Table, after: Table, gone: set<Id>, now: Time)
    requires OnlySettles(jobs, after, now)
    requires forall id <- gone :: id in after && after[id].row.state == InternalError
    ensures Busy(after) <= Busy(jobs) - gone && Waiting(after) <= Waiting(jobs) - gone
  {
  }

  predicate IsPass(jobs: Table, steps: seq<RowStep>) {
    || (AllMaintain(steps) && FullPass(steps, Busy(jobs)))
    || (AllExpire(steps) && FullPass(steps, Waiting(jobs)))
  }

  lemma PassLeaves(jobs: Table, steps: seq<RowStep>, now: Time)
    requires Late(jobs, now) && IsPass(jobs, steps)
    ensures var after := ApplyAll(jobs, steps, now);
      Busy(after) <= Busy(jobs) - Touched(steps) && Waiting(after) <= Waiting(jobs) - Touched(steps)
  {
    var after := ApplyAll(jobs, steps, now);
    LateBatch(jobs, steps, now);
    forall id | id in Touched(steps)
      ensures id in after && after[id].row.state == InternalError
    {
      var i :| 0 <= i < |steps| && steps[i].id == id;
      PassSettles(jobs, steps, now, i);
    }
    PassRemoves(jobs, after, Touched(steps), now);
  }

  lemma PassCounts(left: set<Id>, all: set<Id>, steps: seq<RowStep>)
    requires FullPass(steps, all) && left <= all - Touched(steps)
    ensures |left| <= Max(0, |all| - BATCH)
  {
    DistinctCount(steps);
    SubsetCount(all, Touched(steps));
    Smaller(left, all - Touched(steps));
  }

  /** A full maintenance pass settles a hundred active jobs, or all of them. */
  lemma MaintenanceEnds(jobs: Table, steps: seq<RowStep>, now: Time)
    requires Late(jobs, now) && AllMaintain(steps) && FullPass(steps, Busy(jobs))
    ensures |Busy(ApplyAll(jobs, steps, now))| <= Max(0, |Busy(jobs)| - BATCH)
  {
    PassLeaves(jobs, steps, now);
    PassCounts(Busy(ApplyAll(jobs, steps, now)), Busy(jobs), steps);
  }

  /** A full expiry pass settles a hundred queued jobs, or all of them. */
  lemma ExpiryEnds(jobs: Table, steps: seq<RowStep>, now: Time)
    requires Late(jobs, now) && AllExpire(steps) && FullPass(steps, Waiting(jobs))
    ensures |Waiting(ApplyAll(jobs, steps, now))| <= Max(0, |Waiting(jobs)| - BATCH)
  {
    PassLeaves(jobs, steps, now);
    PassCounts(Waiting(ApplyAll(jobs, steps, now)), Waiting(jobs), steps);
  }

  lemma Smaller(a: set<Id>, b: set<Id>)
    requires a <= b
    ensures |a| <= |b|
  {
    SubsetCount(b, a);
  }

  /** A step of anyone else at its own clock reading. */
  datatype OtherStep = OtherStep(step: RowStep, now: Time)

  /** The clock never runs backwards between `t` and `end`. */
  predicate InOrder(others: seq<OtherStep>, t: Time, end: Time)
    decreases |others|
  {
    if others == [] then t <= end else t <= others[0].now && InOrder(others[1..], others[0].now, end)
  }

  function PlayOthers(jobs: Table, others: seq<OtherStep>): Table
    decreases |others|
  {
    if others == [] then jobs
    else PlayOthers(Updated(jobs, others[0].step.id, others[0].step.action, others[0].now), others[1..])
  }

  /** Any steps of anyone, then one full tick of QueuedMaintenance: expiry and maintenance,
      each a transaction with its own clock reading and anything in between. */
  datatype Round = Round(before: seq<OtherStep>, expiry: seq<RowStep>, expiryAt: Time,
                         between: seq<OtherStep>, maintenance: seq<RowStep>, maintenanceAt: Time)

  function AfterExpiry(jobs: Table, r: Round): Table {
    ApplyAll(PlayOthers(jobs, r.before), r.expiry, r.expiryAt)
  }

  function PlayRound(jobs: Table, r: Round): Table {
    ApplyAll(PlayOthers(AfterExpiry(jobs, r), r.between), r.maintenance, r.maintenanceAt)
  }

  predicate RoundOk(jobs: Table, r: Round, t: Time) {
    && InOrder(r.before, t, r.expiryAt) && InOrder(r.between, r.expiryAt, r.maintenanceAt)
    && AllExpire(r.expiry) && FullPass(r.expiry, Waiting(PlayOthers(jobs, r.before)))
    && AllMaintain(r.maintenance) && FullPass(r.maintenance, Busy(PlayOthers(AfterExpiry(jobs, r), r.between)))
  }

  predicate RoundsOk(jobs: Table, rounds: seq<Round>, t: Time)
    decreases |rounds|
  {
    rounds == [] || (RoundOk(jobs, rounds[0], t) && RoundsOk(PlayRound(jobs, rounds[0]), rounds[1..], rounds[0].maintenanceAt))
  }

  function PlayRounds(jobs: Table, rounds: seq<Round>): Table
    decreases |rounds|
  {
    if rounds == [] then jobs else PlayRounds(PlayRound(jobs, rounds[0]), rounds[1..])
  }

  lemma LaterStillOk(job: Job, t: Time, now: Time)
    requires JobOk(job, t) && t <= now
    ensures JobOk(job, now)
  {
    assert forall k <- job.intents :: IntentOk(k, job.row, t) ==> IntentOk(k, job.row, now);
  }

  lemma LaterStillLate(jobs: Table, t: Time, now: Time)
    requires Late(jobs, t) && t <= now
    ensures Late(jobs, now)
  {
    forall id | id in jobs
      ensures JobOk(jobs[id], now)
    {
      LaterStillOk(jobs[id], t, now);
    }
  }

  /** Whatever others do, and whenever they do it, late jobs are only settled. */
  lemma {:induction false} OthersOnlySettle(jobs: Table, others: seq<OtherStep>, t: Time, end: Time)
    requires Late(jobs, t) && InOrder(others, t, end)
    ensures OnlySettles(jobs, PlayOthers(jobs, others), end)
    decreases |others|
  {
    if others == [] {
      LaterStillLate(jobs, t, end);
    } else {
      var now := others[0].now;
      var next := Updated(jobs, others[0].step.id, others[0].step.action, now);
      LaterStillLate(jobs, t, now);
      LateUpdate(jobs, others[0].step.id, others[0].step.action, now);
      OthersOnlySettle(next, others[1..], now, end);
    }
  }

  lemma Fewer(a: Table, b: Table, now: Time)
    requires OnlySettles(a, b, now)
    ensures |Waiting(b)| <= |Waiting(a)| && |Busy(b)| <= |Busy(a)|
  {
    Smaller(Waiting(b), Waiting(a));
    Smaller(Busy(b), Busy(a));
  }

  lemma BatchFewer(jobs: Table, steps: seq<RowStep>, now: Time)
    requires Late(jobs, now)
    ensures var after := ApplyAll(jobs, steps, now);
      Late(after, now) && |Waiting(after)| <= |Waiting(jobs)| && |Busy(after)| <= |Busy(jobs)|
  {
    LateBatch(jobs, steps, now);
    Fewer(jobs, ApplyAll(jobs, steps, now), now);
  }

  lemma OthersFewer(jobs: Table, others: seq<OtherStep>, t: Time, end: Time)
    requires Late(jobs, t) && InOrder(others, t, end)
    ensures var after := PlayOthers(jobs, others);
      Late(after, end) && |Waiting(after)| <= |Waiting(jobs)| && |Busy(after)| <= |Busy(jobs)|
  {
    OthersOnlySettle(jobs, others, t, end);
    Fewer(jobs, PlayOthers(jobs, others), end);
  }

  lemma ExpiryHalf(jobs: Table, r: Round, t: Time)
    requires Late(jobs, t) && RoundOk(jobs, r, t)
    ensures var after := AfterExpiry(jobs, r);
      && Late(after, r.expiryAt)
      && |Waiting(after)| <= Max(0, |Waiting(jobs)| - BATCH) && |Busy(after)| <= |Busy(jobs)|
  {
    OthersFewer(jobs, r.before, t, r.expiryAt);
    BatchFewer(PlayOthers(jobs, r.before), r.expiry, r.expiryAt);
    ExpiryEnds(PlayOthers(jobs, r.before), r.expiry, r.expiryAt);
  }

  lemma MaintenanceHalf(jobs: Table, r: Round, t: Time)
    requires Late(AfterExpiry(jobs, r), r.expiryAt) && RoundOk(jobs, r, t)
    ensures var mid, after := AfterExpiry(jobs, r), PlayRound(jobs, r);
      && Late(after, r.maintenanceAt)
      && |Waiting(after)| <= |Waiting(mid)| && |Busy(after)| <= Max(0, |Busy(mid)| - BATCH)
  {
    var mid := AfterExpiry(jobs, r);
    OthersFewer(mid, r.between, r.expiryAt, r.maintenanceAt);
    BatchFewer(PlayOthers(mid, r.between), r.maintenance, r.maintenanceAt);
    MaintenanceEnds(PlayOthers(mid, r.between), r.maintenance, r.maintenanceAt);
  }

  lemma RoundEnds(jobs: Table, r: Round, t: Time)
    requires Late(jobs, t) && RoundOk(jobs, r, t)
    ensures var after := PlayRound(jobs, r);
      && Late(after, r.maintenanceAt)
      && |Waiting(after)| <= Max(0, |Waiting(jobs)| - BATCH) && |Busy(after)| <= Max(0, |Busy(jobs)| - BATCH)
  {
    ExpiryHalf(jobs, r, t);
    MaintenanceHalf(jobs, r, t);
  }

  /** Once the clock has passed every deadline, n full rounds leave at most
      max(0, count - 100 n) waiting and busy jobs; so with n at least count / 100, rounded
      up, every job is settled. */
  lemma {:induction false} AllJobsEnd(jobs: Table, rounds: seq<Round>, t: Time)
    requires Late(jobs, t) && RoundsOk(jobs, rounds, t)
    ensures var end := PlayRounds(jobs, rounds);
      && |Waiting(end)| <= Max(0, |Waiting(jobs)| - BATCH * |rounds|)
      && |Busy(end)| <= Max(0, |Busy(jobs)| - BATCH * |rounds|)
    ensures BATCH * |rounds| >= |Waiting(jobs)| && BATCH * |rounds| >= |Busy(jobs)| ==>
              forall id <- PlayRounds(jobs, rounds) :: IsTerminal(PlayRounds(jobs, rounds)[id].row.state)
    decreases |rounds|
  {
    if rounds != [] {
      RoundEnds(jobs, rounds[0], t);
      AllJobsEnd(PlayRound(jobs, rounds[0]), rounds[1..], rounds[0].maintenanceAt);
    }
    var end := PlayRounds(jobs, rounds);
    if BATCH * |rounds| >= |Waiting(jobs)| && BATCH * |rounds| >= |Busy(jobs)| {
      NoneLeft(end);
    }
  }

  lemma NoneLeft(jobs: Table)
    requires |Waiting(jobs)| == 0 && |Busy(jobs)| == 0
    ensures forall id <- jobs :: IsTerminal(jobs[id].row.state)
  {
    forall id | id in jobs
      ensures IsTerminal(jobs[id].row.state)
    {
      assert id !in Waiting(jobs) && id !in Busy(jobs);
      TerminalStates(jobs[id].row.state);
    }
  }
}
