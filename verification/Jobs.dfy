/** One execution under any interleaving of store transactions, sweeps and dispatchers,
    together with the trace the proofs speak about: the full history of every attempt and
    every lease ever issued. */
module Jobs {
  import opened Contracts
  import opened EventLog
  import opened Rows
  import opened SqlLifecycle
  import opened Outbox

  /** Everything the database holds about one execution. */
  datatype Job = Job(row: Row, log: seq<Stored>, intents: map<IntentKey, Intent>, notifications: seq<Verdict>)

  datatype DispatchOp = DispatchClaim(token: Token) | DispatchAck(token: Token) | DispatchBackoff(token: Token)

  /** One atomic step. Batches are sequences of steps with one clock reading. */
  datatype Action =
    | Call(op: Op)
    | SweepEvents(doomed: set<nat>)
    | Reoffer(offered: IntentKey)
    | Dispatch(key: IntentKey, dispatch: DispatchOp)

  /** The row that `event` inserts for an already updated execution row. */
  function NewStored(row: Row, body: Body, bytes: EventSize, now: Time): Stored {
    Stored(row.attempt, row.lastSequence, Event(row.request.id, row.attempt, row.lastSequence, body), bytes, now + REPLAY_TTL_MS)
  }

  function WriteIntents(intents: map<IntentKey, Intent>, w: IntentWrite, now: Time): map<IntentKey, Intent> {
    match w
    case NoIntent => intents
    case InsertIntent(k) => intents[k := NewIntent(now)]
    case ResetIntent(k) => intents[k := if k in intents then ReleaseIntent(intents[k], now) else NewIntent(now)]
    case EnsureIntent(k) => if k in intents then intents else intents[k := NewIntent(now)]
  }

  /** ON CONFLICT DO NOTHING on the notification's dedupe key. */
  function AddNotice(notices: seq<Verdict>, n: Option<Verdict>): seq<Verdict> {
    if n.Some? && notices == [] then [n.value] else notices
  }

  /** The insert would hit the outbox's unique key, which aborts the transaction. */
  predicate Conflicts(job: Job, d: Decision) {
    d.write.InsertIntent? && d.write.key in job.intents
  }

  function Commit(job: Job, d: Decision, now: Time): Job {
    if Conflicts(job, d) then job
    else Job(
      d.row,
      match d.emission
        case Silent => job.log
        case Emit(body, bytes) => Append(if d.restart then [] else job.log, NewStored(d.row, body, bytes, now)),
      WriteIntents(job.intents, d.write, now),
      AddNotice(job.notifications, d.notice))
  }

  function DispatchIntent(i: Intent, d: DispatchOp, now: Time): Intent {
    match d
    case DispatchClaim(token) => ClaimIntent(i, token, now)
    case DispatchAck(token) => AckIntent(i, token, now)
    case DispatchBackoff(token) => BackoffIntent(i, token, now)
  }

  function Apply(job: Job, a: Action, now: Time): Job {
    match a
    case Call(op) => Commit(job, Decide(job.row, op, now), now)
    case SweepEvents(doomed) => job.(log := Sweep(job.log, doomed, now))
    case Reoffer(k) =>
      if k in job.intents then job.(intents := job.intents[k := ReofferIntent(job.intents[k], k, job.row, now)]) else job
    case Dispatch(k, d) =>
      if k in job.intents then job.(intents := job.intents[k := DispatchIntent(job.intents[k], d, now)]) else job
  }

  /** What `create` commits. */
  function NewJob(request: Request, bytes: EventSize, now: Time): Job {
    var row := NewRow(request);
    Job(row, Append([], NewStored(row, Status(Queued, false), bytes, now)),
        map[IntentKey(ExecutionCreated, 0) := NewIntent(now)], [])
  }

  // ------------------------------------------------------------------
  // Runs

  /** A job with its trace: the clock, the full history of earlier attempts and of the
      current one, and the leases issued so far. */
  datatype World = World(job: Job, clock: Time, past: seq<seq<Stored>>, current: seq<Stored>, leases: seq<Lease>)

  datatype Timed = Timed(action: Action, now: Time)

  function Start(request: Request, bytes: EventSize): World {
    var job := NewJob(request, bytes, request.createdAt);
    World(job, request.createdAt, [], [NewStored(job.row, Status(Queued, false), bytes, request.createdAt)], [])
  }

  /** The transaction an action commits; sweeps and dispatches touch no row. */
  function Committed(job: Job, a: Action, now: Time): Decision {
    if a.Call? && !Conflicts(job, Decide(job.row, a.op, now)) then Decide(job.row, a.op, now)
    else Keep(job.row, Done(false))
  }

  function Step(w: World, a: Action, now: Time): World {
    var d := Committed(w.job, a, now);
    var w' := w.(job := Apply(w.job, a, now), clock := now);
    if d.emission.Silent? then w'
    else
      var e := NewStored(d.row, d.emission.body, d.emission.bytes, now);
      if d.restart then
        w'.(past := w.past + [w.current], current := [e],
            leases := w.leases + [Lease(d.row.attempt, if d.row.leaseToken.Some? then d.row.leaseToken.value else 0)])
      else w'.(current := w.current + [e])
  }

  lemma StepShows(w: World, a: Action, now: Time)
    ensures Step(w, a, now).job == Apply(w.job, a, now) && Step(w, a, now).clock == now
  {
  }

  /** The clock does not run backwards and randomUUID() does not repeat. */
  predicate Enabled(w: World, a: Action, now: Time) {
    && w.clock <= now
    && (a.Call? && a.op.Claim? ==> forall l <- w.leases :: l.token != a.op.token)
  }

  predicate RunOk(w: World, run: seq<Timed>)
    decreases |run|
  {
    run == [] || (Enabled(w, run[0].action, run[0].now) && RunOk(Step(w, run[0].action, run[0].now), run[1..]))
  }

  function Run(w: World, run: seq<Timed>): World
    decreases |run|
  {
    if run == [] then w else Run(Step(w, run[0].action, run[0].now), run[1..])
  }

  // ------------------------------------------------------------------
  // The invariant

  /** An attempt's history holds events the reader's safety test accepts. */
  predicate HistorySafe(h: seq<Stored>, attempt: nat, request: Request) {
    forall i :: 0 <= i < |h| ==>
      && h[i].attempt == attempt && h[i].sequence == i + 1
      && h[i].payload == Event(request.id, attempt, i + 1, h[i].payload.body)
      && BodySafe(h[i].payload.body, request)
  }

  predicate NoFinal(h: seq<Stored>) {
    forall i :: 0 <= i < |h| ==> !h[i].payload.body.FinalVerdict?
  }

  predicate PastOk(w: World) {
    && |w.past| == w.job.row.attempt
    && forall a :: 0 <= a < |w.past| ==> HistorySafe(w.past[a], a, w.job.row.request) && NoFinal(w.past[a])
  }

  /** The final verdict is the last event of a terminal job, carries the stored outcome,
      and appears nowhere else. */
  predicate FinalOk(row: Row, h: seq<Stored>) {
    && |h| == row.lastSequence && h != []
    && NoFinal(h[..|h| - 1])
    && (if IsTerminal(row.state) then
          row.verdict.Some? && h[|h| - 1].payload.body == FinalVerdict(row.state, row.verdict.value, row.failureCode)
        else !h[|h| - 1].payload.body.FinalVerdict?)
  }

  predicate NoticeOk(job: Job) {
    job.notifications != [] ==>
      && |job.notifications| == 1 && IsTerminal(job.row.state) && job.row.verdict == Some(job.notifications[0])
      && job.row.request.mode == SubmitMode && job.row.state != Cancelled
  }

  /** One lease per attempt, and the row's token is the last one. */
  predicate LeasesOf(leases: seq<Lease>, row: Row) {
    && |leases| == row.attempt
    && (forall i :: 0 <= i < |leases| ==> leases[i].attempt == i + 1)
    && (row.leaseToken.Some? && leases != [] ==> leases[|leases| - 1] == Lease(row.attempt, row.leaseToken.value))
  }

  predicate LeasesOk(w: World) {
    LeasesOf(w.leases, w.job.row)
  }

  predicate IntentOk(k: IntentKey, row: Row, t: Time) {
    match k.kind
    case ExecutionRecovery => 1 <= k.generation <= row.attempt && (k.generation == row.attempt && IsActive(row.state) ==> Lapsed(row, t))
    case ExecutionCreated => k.generation == 0
    case ExecutionCancelled => k.generation == 0 && row.state == Cancelled
    case ExecutionExpired => k.generation == 0 && row.state == InternalError && row.attempt == 0
  }

  predicate IntentsOk(job: Job, t: Time) {
    && IntentKey(ExecutionCreated, 0) in job.intents
    && forall k <- job.intents :: IntentOk(k, job.row, t)
  }

  predicate WorldOk(w: World) {
    && RowOk(w.job.row, w.clock)
    && HistoryOk(w.current, w.clock) && LogOk(w.current, w.job.log, w.clock)
    && HistorySafe(w.current, w.job.row.attempt, w.job.row.request)
    && PastOk(w) && FinalOk(w.job.row, w.current)
    && NoticeOk(w.job) && LeasesOk(w) && IntentsOk(w.job, w.clock)
  }

  lemma FirstHistoryOk(row: Row, e: Stored)
    requires !IsTerminal(row.state) && row.attempt == 0 && row.lastSequence == 1
    requires e.attempt == 0 && e.sequence == 1 && e.payload == Event(row.request.id, 0, 1, Status(Queued, false))
    ensures HistorySafe([e], row.attempt, row.request) && FinalOk(row, [e])
  {
  }

  lemma StartOk(request: Request, bytes: EventSize)
    requires request.createdAt < request.queueExpiresAt
    ensures WorldOk(Start(request, bytes))
  {
    var w := Start(request, bytes);
    var row := w.job.row;
    var e := w.current[0];
    CreateIsLegal(request, true);
    assert !IsTerminal(row.state) by { TerminalStates(Queued); }
    RestartKeeps(e, request.createdAt);
    FirstHistoryOk(row, e);
    assert w.current == [e];
    assert IntentsOk(w.job, w.clock);
  }

  /** Settled intents exist only for settled jobs. */
  lemma QueuedHasNoSettledIntent(job: Job, t: Time)
    requires IntentsOk(job, t) && job.row.state == Queued
    ensures IntentKey(ExecutionCancelled, 0) !in job.intents && IntentKey(ExecutionExpired, 0) !in job.intents
  {
    var k, k' := IntentKey(ExecutionCancelled, 0), IntentKey(ExecutionExpired, 0);
    assert k in job.intents ==> IntentOk(k, job.row, t);
    assert k' in job.intents ==> IntentOk(k', job.row, t);
  }

  /** Inserts never meet an existing intent, so no transaction is aborted by one. */
  lemma InsertsAreNew(w: World, op: Op, now: Time)
    requires WorldOk(w)
    ensures !Conflicts(w.job, Decide(w.job.row, op, now))
  {
    WriteShape(w.job.row, op, now);
    if w.job.row.state == Queued {
      QueuedHasNoSettledIntent(w.job, w.clock);
    }
  }

  /** What a step does to the row. */
  lemma StepRow(w: World, a: Action, now: Time)
    requires WorldOk(w)
    ensures Step(w, a, now).job.row == if a.Call? then Decide(w.job.row, a.op, now).row else w.job.row
  {
    if a.Call? {
      InsertsAreNew(w, a.op, now);
    }
  }

  lemma CallKeepsLog(w: World, op: Op, now: Time)
    requires WorldOk(w) && w.clock <= now
    ensures var w' := Step(w, Call(op), now);
      HistoryOk(w'.current, now) && LogOk(w'.current, w'.job.log, now)
  {
    InsertsAreNew(w, op, now);
    TimePasses(w.current, w.job.log, w.clock, now);
    var d := Decide(w.job.row, op, now);
    DecisionShape(w.job.row, op, w.clock, now);
    if d.emission.Emit? {
      var e := NewStored(d.row, d.emission.body, d.emission.bytes, now);
      if d.restart {
        RestartKeeps(e, now);
      } else {
        AppendKeeps(w.current, w.job.log, e, now);
      }
    }
  }

  lemma SafeSnoc(h: seq<Stored>, e: Stored, attempt: nat, request: Request)
    requires HistorySafe(h, attempt, request) && e.attempt == attempt && e.sequence == |h| + 1
    requires e.payload == Event(request.id, attempt, |h| + 1, e.payload.body) && BodySafe(e.payload.body, request)
    ensures HistorySafe(h + [e], attempt, request)
  {
  }

  lemma FinalSnoc(row: Row, next: Row, h: seq<Stored>, e: Stored)
    requires FinalOk(row, h) && !IsTerminal(row.state) && next.lastSequence == row.lastSequence + 1
    requires if IsTerminal(next.state) then
               next.verdict.Some? && e.payload.body == FinalVerdict(next.state, next.verdict.value, next.failureCode)
             else !e.payload.body.FinalVerdict?
    ensures FinalOk(next, h + [e])
  {
    assert (h + [e])[..|h|] == h;
    assert NoFinal(h);
  }

  lemma CallKeepsSafety(w: World, op: Op, now: Time)
    requires WorldOk(w) && w.clock <= now
    ensures var w' := Step(w, Call(op), now);
      HistorySafe(w'.current, w'.job.row.attempt, w'.job.row.request)
  {
    InsertsAreNew(w, op, now);
    DecisionShape(w.job.row, op, w.clock, now);
    var d := Decide(w.job.row, op, now);
    if d.emission.Emit? {
      var e := NewStored(d.row, d.emission.body, d.emission.bytes, now);
      var h := if d.restart then [] else w.current;
      SafeSnoc(h, e, d.row.attempt, d.row.request);
      assert d.restart ==> h + [e] == [e];
    }
  }

  lemma CallKeepsFinal(w: World, op: Op, now: Time)
    requires WorldOk(w) && w.clock <= now
    ensures var w' := Step(w, Call(op), now);
      FinalOk(w'.job.row, w'.current)
  {
    InsertsAreNew(w, op, now);
    DecisionShape(w.job.row, op, w.clock, now);
    var d := Decide(w.job.row, op, now);
    if d.emission.Emit? && !d.restart {
      FinalSnoc(w.job.row, d.row, w.current, NewStored(d.row, d.emission.body, d.emission.bytes, now));
    }
  }

  lemma NoFinalYet(row: Row, h: seq<Stored>)
    requires FinalOk(row, h) && !IsTerminal(row.state)
    ensures NoFinal(h)
  {
    forall i | 0 <= i < |h|
      ensures !h[i].payload.body.FinalVerdict?
    {
      assert i < |h| - 1 ==> h[..|h| - 1][i] == h[i];
    }
  }

  lemma PastSnoc(past: seq<seq<Stored>>, h: seq<Stored>, request: Request)
    requires forall a :: 0 <= a < |past| ==> HistorySafe(past[a], a, request) && NoFinal(past[a])
    requires HistorySafe(h, |past|, request) && NoFinal(h)
    ensures forall a :: 0 <= a < |past + [h]| ==> HistorySafe((past + [h])[a], a, request) && NoFinal((past + [h])[a])
  {
  }

  lemma CallKeepsPast(w: World, op: Op, now: Time)
    requires WorldOk(w) && w.clock <= now
    ensures PastOk(Step(w, Call(op), now))
  {
    InsertsAreNew(w, op, now);
    DecisionShape(w.job.row, op, w.clock, now);
    var d := Decide(w.job.row, op, now);
    if d.restart {
      NoFinalYet(w.job.row, w.current);
      PastSnoc(w.past, w.current, w.job.row.request);
    }
  }

  lemma CallKeepsNotice(w: World, op: Op, now: Time)
    requires WorldOk(w) && w.clock <= now
    ensures NoticeOk(Step(w, Call(op), now).job)
  {
    InsertsAreNew(w, op, now);
    DecisionShape(w.job.row, op, w.clock, now);
    var d := Decide(w.job.row, op, now);
    if d.notice.Some? {
      RowInvariant(w.job.row, op, w.clock, now);
      TerminalStates(d.row.state);
    }
  }

  /** Only a claim writes a lease token into the row; other steps keep or clear it. */
  lemma TokensComeFromClaims(row: Row, op: Op, now: Time)
    ensures var d := Decide(row, op, now);
      && (d.restart ==> d.row.leaseToken.Some?)
      && (d.row.leaseToken.Some? ==> d.restart || d.row.leaseToken == row.leaseToken)
  {
  }

  lemma LeaseSnoc(leases: seq<Lease>, row: Row, next: Row)
    requires LeasesOf(leases, row) && next.attempt == row.attempt + 1 && next.leaseToken.Some?
    ensures LeasesOf(leases + [Lease(next.attempt, next.leaseToken.value)], next)
  {
  }

  lemma CallKeepsLeases(w: World, op: Op, now: Time)
    requires WorldOk(w) && w.clock <= now
    ensures LeasesOk(Step(w, Call(op), now))
  {
    InsertsAreNew(w, op, now);
    DecisionShape(w.job.row, op, w.clock, now);
    TokensComeFromClaims(w.job.row, op, now);
    var d := Decide(w.job.row, op, now);
    if d.restart {
      LeaseSnoc(w.leases, w.job.row, d.row);
    } else {
      assert LeasesOf(w.leases, d.row);
    }
  }

  /** An existing intent stays justified: a recovery intent of the current attempt
      outlives the lapsed lease that caused it, never the other way round. */
  lemma IntentStaysOk(k: IntentKey, row: Row, op: Op, t: Time, now: Time)
    requires RowOk(row, t) && t <= now && IntentOk(k, row, t)
    ensures IntentOk(k, Decide(row, op, now).row, now)
  {
    TerminalStates(row.state);
  }

  lemma WrittenIntentOk(row: Row, op: Op, t: Time, now: Time)
    requires RowOk(row, t) && t <= now && !Decide(row, op, now).write.NoIntent?
    ensures IntentOk(Decide(row, op, now).write.key, Decide(row, op, now).row, now)
  {
    TerminalStates(row.state);
  }

  lemma WritesStayOk(intents: map<IntentKey, Intent>, row: Row, op: Op, t: Time, now: Time, k: IntentKey)
    requires RowOk(row, t) && t <= now && (k in intents ==> IntentOk(k, row, t))
    requires k in WriteIntents(intents, Decide(row, op, now).write, now)
    ensures IntentOk(k, Decide(row, op, now).row, now)
  {
    if k in intents {
      IntentStaysOk(k, row, op, t, now);
    } else {
      WrittenIntentOk(row, op, t, now);
    }
  }

  lemma CallKeepsIntents(w: World, op: Op, now: Time)
    requires WorldOk(w) && w.clock <= now
    ensures IntentsOk(Commit(w.job, Decide(w.job.row, op, now), now), now)
  {
    InsertsAreNew(w, op, now);
    var d := Decide(w.job.row, op, now);
    forall k | k in WriteIntents(w.job.intents, d.write, now)
      ensures IntentOk(k, d.row, now)
    {
      WritesStayOk(w.job.intents, w.job.row, op, w.clock, now, k);
    }
  }

  lemma CallKeeps(w: World, op: Op, now: Time)
    requires WorldOk(w) && w.clock <= now
    ensures WorldOk(Step(w, Call(op), now))
  {
    InsertsAreNew(w, op, now);
    RowInvariant(w.job.row, op, w.clock, now);
    CallKeepsLog(w, op, now);
    CallKeepsSafety(w, op, now);
    CallKeepsFinal(w, op, now);
    CallKeepsPast(w, op, now);
    CallKeepsNotice(w, op, now);
    CallKeepsLeases(w, op, now);
    CallKeepsIntents(w, op, now);
    var w' := Step(w, Call(op), now);
    assert w'.clock == now && w'.job == Commit(w.job, Decide(w.job.row, op, now), now);
  }

  /** A step that leaves the row alone keeps everything said about the row. */
  lemma SameRowKeeps(w: World, job: Job, now: Time)
    requires WorldOk(w) && w.clock <= now
    requires job.row == w.job.row && job.notifications == w.job.notifications && job.intents.Keys == w.job.intents.Keys
    requires HistoryOk(w.current, now) && LogOk(w.current, job.log, now)
    ensures WorldOk(w.(job := job, clock := now))
  {
    forall k | k in job.intents
      ensures IntentOk(k, job.row, now)
    {
      assert k in w.job.intents;
    }
  }

  lemma SweepStepKeeps(w: World, doomed: set<nat>, now: Time)
    requires WorldOk(w) && w.clock <= now
    ensures WorldOk(Step(w, SweepEvents(doomed), now))
  {
    TimePasses(w.current, w.job.log, w.clock, now);
    SweepKeeps(w.current, w.job.log, doomed, now);
    SameRowKeeps(w, w.job.(log := Sweep(w.job.log, doomed, now)), now);
  }

  lemma IntentStepKeeps(w: World, a: Action, now: Time)
    requires WorldOk(w) && (a.Reoffer? || a.Dispatch?) && w.clock <= now
    ensures WorldOk(Step(w, a, now))
  {
    TimePasses(w.current, w.job.log, w.clock, now);
    SameRowKeeps(w, Apply(w.job, a, now), now);
  }

  /** Every action keeps the invariant. */
  lemma StepKeeps(w: World, a: Action, now: Time)
    requires WorldOk(w) && Enabled(w, a, now)
    ensures WorldOk(Step(w, a, now))
  {
    if a.Call? {
      CallKeeps(w, a.op, now);
    } else if a.SweepEvents? {
      SweepStepKeeps(w, a.doomed, now);
    } else {
      IntentStepKeeps(w, a, now);
    }
  }

  /** Every reachable state satisfies the invariant, however the parties interleave. */
  lemma {:induction false} RunKeeps(w: World, run: seq<Timed>)
    requires WorldOk(w) && RunOk(w, run)
    ensures WorldOk(Run(w, run))
    decreases |run|
  {
    if run != [] {
      StepKeeps(w, run[0].action, run[0].now);
      RunKeeps(Step(w, run[0].action, run[0].now), run[1..]);
    }
  }
}
