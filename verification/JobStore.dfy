/** The store itself: methods that update execution, event, outbox and notification rows
    one transaction at a time (job-store.ts, queued-maintenance.ts:8-29). Each is proved
    against the step function the theorems are about. */
module JobStore {
  import opened Contracts
  import opened Text
  import opened EventLog
  import opened Rows
  import opened Outbox
  import opened Jobs

  type Table = map<Id, Job>

  /** One step on one execution; an unknown id is no step. */
  function Updated(jobs: Table, id: Id, a: Action, now: Time): Table {
    if id in jobs then jobs[id := Apply(jobs[id], a, now)] else jobs
  }

  datatype RowStep = RowStep(id: Id, action: Action)

  /** A batch transaction: its steps in order, one clock reading. */
  function ApplyAll(jobs: Table, steps: seq<RowStep>, now: Time): Table {
    if steps == [] then jobs
    else Updated(ApplyAll(jobs, steps[..|steps| - 1], now), steps[|steps| - 1].id, steps[|steps| - 1].action, now)
  }

  /** A transaction that keeps the row and writes nothing leaves the table as it is. */
  lemma KeptRow(jobs: Table, id: Id, op: Op, now: Time)
    requires id in jobs && Decide(jobs[id].row, op, now) == Keep(jobs[id].row, Decide(jobs[id].row, op, now).reply)
    ensures Updated(jobs, id, Call(op), now) == jobs
  {
  }

  /** A transaction that only appends an event. */
  lemma EventOnly(job: Job, op: Op, now: Time)
    requires var d := Decide(job.row, op, now); !d.restart && d.emission.Emit? && d.notice.None? && d.write.NoIntent?
    ensures var d := Decide(job.row, op, now);
      Apply(job, Call(op), now)
      == job.(row := d.row, log := Append(job.log, NewStored(d.row, d.emission.body, d.emission.bytes, now)))
  {
  }

  /** What the caller of a transaction sees; None is an outbox key collision. */
  function ReplyOf(job: Job, op: Op, now: Time): Option<Reply> {
    var d := Decide(job.row, op, now);
    if Conflicts(job, d) then None else Some(d.reply)
  }

  /** The trim loop of `event`: walk the rows newest first, accumulate their size, collect
      those past either limit, and delete them. */
  method Trim(log: seq<Stored>) returns (kept: seq<Stored>)
    ensures kept == Window(log)
  {
    var total := 0;
    var discard: set<nat> := {};
    for i := 0 to |log|
      invariant total == BytesFrom(log, |log| - i)
      invariant discard == set j: nat | |log| - i <= j < |log| && !FitsFrom(log, j)
    {
      var j := |log| - 1 - i;
      total := total + log[j].bytes;
      if i >= REPLAY_ROWS || total > REPLAY_BYTES {
        discard := discard + {j};
      }
    }
    ghost var w := WindowStart(log);
    kept := [];
    for j := 0 to |log|
      invariant kept == if j <= w then [] else log[w..j]
    {
      WindowIsLongestSuffix(log, j);
      if j !in discard {
        kept := kept + [log[j]];
      }
    }
  }

  /** `event`: number the event after the row's last one, insert it and trim. */
  method AppendEvent(job: Job, row: Row, body: Body, bytes: EventSize, now: Time) returns (after: Job, numbered: Row)
    ensures numbered == row.(lastSequence := row.lastSequence + 1)
    ensures after == job.(log := Append(job.log, NewStored(numbered, body, bytes, now)))
  {
    numbered := row.(lastSequence := row.lastSequence + 1);
    var e := NewStored(numbered, body, bytes, now);
    var kept := Trim(job.log + [e]);
    after := job.(log := kept);
  }

  /** `terminal`, without the outbox intent some callers add. */
  method Settle(job: Job, s: State, code: Option<FailureCode>, now: Time, bytes: EventSize, subscribed: bool)
    returns (after: Job)
    ensures after == Commit(job, Terminal(job.row, s, code, now, bytes, subscribed, NoIntent, Done(true)), now)
  {
    var v := InfraVerdict(s);
    var row;
    after, row := AppendEvent(job, job.row, FinalVerdict(s, v, code), bytes, now);
    if job.row.request.mode == SubmitMode && v != VerdictCancelled && job.row.leaseToken.Some? && IsActive(job.row.state)
       && subscribed && after.notifications == [] {
      after := after.(notifications := [v]);
    }
    row := row.(state := s, verdict := Some(v), failureCode := code, finishedAt := Some(now),
                leaseToken := None, leaseExpiresAt := None);
    after := after.(row := row);
  }

  /** The next attempt: an emptied log, a first event and a new lease. */
  method BeginAttempt(job: Job, token: Token, bytes: EventSize, now: Time) returns (after: Job)
    ensures var row := AttemptRow(job.row, token, now);
      after == job.(row := row, log := Append([], NewStored(row, Status(Compiling, false), bytes, now)))
  {
    var row := job.row.(attempt := job.row.attempt + 1, lastSequence := 0, state := Compiling);
    after, row := AppendEvent(job.(log := []), row, Status(Compiling, false), bytes, now);
    row := row.(leaseToken := Some(token), leaseExpiresAt := Some(Min(now + LEASE_MS, Deadline(row))));
    after := after.(row := row);
  }

  /** How `claim` answers: not now, not any more, or with the next attempt. */
  datatype ClaimAnswer = Refuse | End(code: FailureCode) | Grant

  method AnswerClaim(row: Row, ghost token: Token, ghost bytes: EventSize, ghost subscribed: bool, now: Time) returns (answer: ClaimAnswer)
    ensures var d := DecideClaim(row, token, bytes, subscribed, now);
      match answer
      case Refuse => d == Keep(row, NotClaimed)
      case End(code) => d == Terminal(row, InternalError, Some(code), now, bytes, subscribed, NoIntent, NotClaimed)
      case Grant => d.restart
  {
    if IsTerminal(row.state) {
      return Refuse;
    }
    if row.state == Queued && row.request.queueExpiresAt <= now {
      return End(QueueTimeout);
    }
    if row.state != Queued && row.leaseExpiresAt.Some? && row.leaseExpiresAt.value > now {
      return Refuse;
    }
    if row.cancellationRequestedAt.Some? {
      return End(CancellationTimeout);
    }
    if now >= Deadline(row) || row.attempt >= MAX_ATTEMPTS {
      return End(if row.attempt >= MAX_ATTEMPTS then LeaseExpired else JobTimeout);
    }
    return Grant;
  }

  lemma AppliesDecision(job: Job, op: Op, now: Time)
    ensures Apply(job, Call(op), now) == Commit(job, Decide(job.row, op, now), now)
  {
  }

  lemma ReplyIsNotStored(job: Job, d: Decision, reply: Reply, now: Time)
    ensures Commit(job, d.(reply := reply), now) == Commit(job, d, now)
  {
  }

  lemma GrantApplies(job: Job, token: Token, bytes: EventSize, subscribed: bool, now: Time)
    requires DecideClaim(job.row, token, bytes, subscribed, now).restart
    ensures var row := AttemptRow(job.row, token, now);
      && Apply(job, Call(Op.Claim(token, bytes, subscribed)), now)
         == job.(row := row, log := Append([], NewStored(row, Status(Compiling, false), bytes, now)))
      && DecideClaim(job.row, token, bytes, subscribed, now).reply == Claimed(Lease(row.attempt, token))
  {
  }

  /** `claim` on a locked row. */
  method ClaimRow(job: Job, token: Token, bytes: EventSize, subscribed: bool, now: Time) returns (after: Job, lease: Option<Lease>)
    ensures after == Apply(job, Call(Op.Claim(token, bytes, subscribed)), now)
    ensures DecideClaim(job.row, token, bytes, subscribed, now).reply == (if lease.Some? then Claimed(lease.value) else NotClaimed)
  {
    lease := None;
    after := job;
    var answer := AnswerClaim(job.row, token, bytes, subscribed, now);
    match answer {
      case Refuse => AppliesDecision(job, Op.Claim(token, bytes, subscribed), now);
      case End(code) =>
        ReplyIsNotStored(job, Terminal(job.row, InternalError, Some(code), now, bytes, subscribed, NoIntent, NotClaimed), Done(true), now);
        after := Settle(job, InternalError, Some(code), now, bytes, subscribed);
      case Grant =>
        GrantApplies(job, token, bytes, subscribed, now);
        after := BeginAttempt(job, token, bytes, now);
        lease := Some(Lease(after.row.attempt, token));
    }
  }

  /** The columns and the event `finish` writes for an accepted result. */
  method StoreResult(job: Job, result: WorkerResult, bytes: EventSize, subscribed: bool, now: Time) returns (after: Job)
    ensures after == Commit(job, FinishWith(job.row, result, bytes, subscribed, now), now)
  {
    var row;
    after, row := AppendEvent(job, job.row, FinalVerdict(Finished, result.verdict, None), bytes, now);
    if NoticeFor(row, result.verdict, subscribed).Some? && after.notifications == [] {
      after := after.(notifications := [result.verdict]);
    }
    row := row.(state := Finished, verdict := Some(result.verdict), finishedAt := Some(now), leaseToken := None, leaseExpiresAt := None);
    if result.runtimeMs.Some? {
      row := row.(runtimeMs := result.runtimeMs);
    }
    if result.memoryKiB.Some? {
      row := row.(memoryKiB := result.memoryKiB);
    }
    if result.publicCaseResults.Some? {
      var cases := result.publicCaseResults.value;
      var safe: seq<CaseResult> := [];
      for i := 0 to |cases|
        invariant |safe| == i && forall j :: 0 <= j < i ==> safe[j] == SafeCase(cases[j])
      {
        safe := safe + [SafeCase(cases[i])];
      }
      assert safe == seq(|cases|, i requires 0 <= i < |cases| => SafeCase(cases[i]));
      row := row.(publicResults := Some(safe));
    }
    after := after.(row := row);
  }

  /** The checks of `console`, in order. */
  method ConsoleRefusal(row: Row, op: Op, now: Time) returns (refusal: Option<Reply>)
    requires op.Console?
    ensures refusal.Some? ==> DecideConsole(row, op, now) == Keep(row, refusal.value)
    ensures refusal.None? ==> DecideConsole(row, op, now).emission.Emit? && op.caseId.Some? && op.stream.Some?
  {
    if op.caseId.None? || op.stream.None? || op.rawBytes > MAX_CONSOLE_BYTES {
      return Some(Thrown(InvalidPublicOutput));
    }
    if !Valid(row, op.lease, now) || row.cancellationRequestedAt.Some? {
      return Some(Done(false));
    }
    if row.request.mode != RunMode || op.caseId.value !in row.request.publicCases {
      return Some(Thrown(PrivateOutputRejected));
    }
    if Utf8Bytes(RemoveControls(op.text)) > MAX_CONSOLE_BYTES {
      return Some(Thrown(InvalidPublicEvent));
    }
    if op.eventBytes == 0 || op.eventBytes > MAX_EVENT_BYTES {
      return Some(Thrown(PublicEventTooLarge));
    }
    return None;
  }

  class JobStore {
    var jobs: Table

    constructor ()
      ensures jobs == map[]
    {
      jobs := map[];
    }

    /** The insert part of `create`, after admission. */
    method Insert(request: Request, bytes: EventSize, now: Time)
      requires request.id !in jobs
      modifies this
      ensures jobs == old(jobs)[request.id := NewJob(request, bytes, now)]
    {
      var row := Row(request, Queued, None, None, None, 0, 0, None, None, None, None, None, None);
      var job := Job(row, [], map[], []);
      job, row := AppendEvent(job, row, Status(Queued, false), bytes, now);
      job := job.(row := row, intents := job.intents[IntentKey(ExecutionCreated, 0) := NewIntent(now)]);
      jobs := jobs[request.id := job];
    }

    method Claim(id: Id, token: Token, bytes: EventSize, subscribed: bool, now: Time) returns (lease: Option<Lease>)
      modifies this
      ensures jobs == Updated(old(jobs), id, Call(Op.Claim(token, bytes, subscribed)), now)
      ensures id in old(jobs) ==>
                Decide(old(jobs)[id].row, Op.Claim(token, bytes, subscribed), now).reply
                == (if lease.Some? then Claimed(lease.value) else NotClaimed)
      ensures id !in old(jobs) ==> lease.None?
    {
      if id !in jobs {
        return None;
      }
      var job;
      job, lease := ClaimRow(jobs[id], token, bytes, subscribed, now);
      jobs := jobs[id := job];
    }

    method Renew(id: Id, lease: Lease, now: Time) returns (reply: Reply)
      modifies this
      ensures jobs == Updated(old(jobs), id, Call(Op.Renew(lease)), now)
      ensures reply == if id in old(jobs) then Decide(old(jobs)[id].row, Op.Renew(lease), now).reply else Lost
    {
      if id !in jobs || !Valid(jobs[id].row, lease, now) {
        return Lost;
      }
      var row := jobs[id].row;
      var end := Min(now + LEASE_MS, Deadline(row));
      if row.cancellationRequestedAt.Some? {
        end := Min(end, row.cancellationRequestedAt.value + CANCEL_GRACE_MS);
      }
      if end <= now {
        return Lost;
      }
      jobs := jobs[id := jobs[id].(row := row.(leaseExpiresAt := Some(end)))];
      return if row.cancellationRequestedAt.Some? then CancelSeen else Active;
    }

    method MarkRunning(id: Id, lease: Lease, bytes: EventSize, now: Time) returns (ok: bool)
      modifies this
      ensures jobs == Updated(old(jobs), id, Call(Op.MarkRunning(lease, bytes)), now)
      ensures id in old(jobs) ==> Decide(old(jobs)[id].row, Op.MarkRunning(lease, bytes), now).reply == Done(ok)
    {
      if id !in jobs {
        return false;
      }
      var job := jobs[id];
      var row := job.row;
      if !Valid(row, lease, now) || row.cancellationRequestedAt.Some? || row.state != Compiling {
        return false;
      }
      job, row := AppendEvent(job, row.(state := Running), Status(Running, false), bytes, now);
      jobs := jobs[id := job.(row := row)];
      return true;
    }

    method Console(id: Id, lease: Lease, caseId: Option<Id>, stream: Option<Stream>, text: Str, rawBytes: nat,
                   eventBytes: nat, now: Time)
      returns (reply: Reply)
      modifies this
      ensures jobs == Updated(old(jobs), id, Call(Op.Console(lease, caseId, stream, text, rawBytes, eventBytes)), now)
      ensures id in old(jobs) ==>
                reply == Decide(old(jobs)[id].row, Op.Console(lease, caseId, stream, text, rawBytes, eventBytes), now).reply
      ensures id !in old(jobs) ==>
                reply == if caseId.None? || stream.None? || rawBytes > MAX_CONSOLE_BYTES then Thrown(InvalidPublicOutput) else Done(false)
    {
      var op := Op.Console(lease, caseId, stream, text, rawBytes, eventBytes);
      if id !in jobs {
        return if caseId.None? || stream.None? || rawBytes > MAX_CONSOLE_BYTES then Thrown(InvalidPublicOutput) else Done(false);
      }
      var job := jobs[id];
      var row := job.row;
      var refusal := ConsoleRefusal(row, op, now);
      if refusal.Some? {
        KeptRow(jobs, id, op, now);
        return refusal.value;
      }
      EventOnly(job, op, now);
      job, row := AppendEvent(job, row, ConsoleOutput(caseId.value, stream.value, RemoveControls(text)), eventBytes, now);
      jobs := jobs[id := job.(row := row)];
      return Done(true);
    }

    method Finish(id: Id, lease: Lease, result: WorkerResult, resultBytes: nat, bytes: EventSize, subscribed: bool, now: Time)
      returns (reply: Reply)
      modifies this
      ensures jobs == Updated(old(jobs), id, Call(Op.Finish(lease, result, resultBytes, bytes, subscribed)), now)
      ensures id in old(jobs) ==>
                reply == Decide(old(jobs)[id].row, Op.Finish(lease, result, resultBytes, bytes, subscribed), now).reply
    {
      if !ResultParses(result) {
        return Thrown(InvalidResult);
      }
      if resultBytes > MAX_OUTPUT_BYTES {
        return Thrown(PublicResultTooLarge);
      }
      if id !in jobs || !Valid(jobs[id].row, lease, now) {
        return Done(false);
      }
      var job := jobs[id];
      if job.row.cancellationRequestedAt.Some? {
        job := Settle(job, Cancelled, None, now, bytes, subscribed);
      } else if !PublicOnly(job.row, result) {
        return Thrown(PrivateOutputRejected);
      } else {
        job := StoreResult(job, result, bytes, subscribed, now);
      }
      jobs := jobs[id := job];
      return Done(true);
    }

    method Fail(id: Id, lease: Lease, cleanupConfirmed: bool, bytes: EventSize, subscribed: bool, now: Time) returns (ok: bool)
      modifies this
      ensures jobs == Updated(old(jobs), id, Call(Op.Fail(lease, cleanupConfirmed, bytes, subscribed)), now)
      ensures ok <==> id in old(jobs) && Valid(old(jobs)[id].row, lease, now)
    {
      if id !in jobs || !Valid(jobs[id].row, lease, now) {
        return false;
      }
      var job := jobs[id];
      var requested := job.row.cancellationRequestedAt.Some?;
      job := Settle(job, if requested && cleanupConfirmed then Cancelled else InternalError,
                    if requested then (if cleanupConfirmed then None else Some(CancellationTimeout)) else Some(JobFailure),
                    now, bytes, subscribed);
      jobs := jobs[id := job];
      return true;
    }

    method Recover(id: Id, lease: Lease, bytes: EventSize, subscribed: bool, now: Time) returns (ok: bool)
      modifies this
      ensures jobs == Updated(old(jobs), id, Call(Op.Recover(lease, bytes, subscribed)), now)
      ensures ok <==> id in old(jobs) && Valid(old(jobs)[id].row, lease, now)
    {
      if id !in jobs || !Valid(jobs[id].row, lease, now) {
        return false;
      }
      var job := jobs[id];
      var row := job.row;
      if row.cancellationRequestedAt.Some? {
        job := Settle(job, Cancelled, None, now, bytes, subscribed);
      } else if row.attempt >= MAX_ATTEMPTS {
        job := Settle(job, InternalError, Some(JobFailure), now, bytes, subscribed);
      } else {
        var k := IntentKey(ExecutionRecovery, row.attempt);
        var intent := if k in job.intents then ReleaseIntent(job.intents[k], now) else NewIntent(now);
        job := job.(row := row.(leaseExpiresAt := Some(now)), intents := job.intents[k := intent]);
      }
      jobs := jobs[id := job];
      return true;
    }

    method Cancel(userId: Id, id: Id, activeAllowed: bool, bytes: EventSize, subscribed: bool, now: Time)
      returns (reply: Option<Reply>)
      modifies this
      ensures jobs == Updated(old(jobs), id, Call(Op.Cancel(userId, activeAllowed, bytes, subscribed)), now)
      ensures reply == if id in old(jobs) then ReplyOf(old(jobs)[id], Op.Cancel(userId, activeAllowed, bytes, subscribed), now)
                       else Some(Thrown(NotFound))
    {
      if id !in jobs || jobs[id].row.request.userId != userId {
        return Some(Thrown(NotFound));
      }
      var job := jobs[id];
      var row := job.row;
      if row.state == Queued {
        var k := IntentKey(ExecutionCancelled, 0);
        if k in job.intents {
          return None;
        }
        job := Settle(job, Cancelled, None, now, bytes, subscribed);
        jobs := jobs[id := job.(intents := job.intents[k := NewIntent(now)])];
        return Some(Receipt(Cancelled, false));
      }
      if IsTerminal(row.state) {
        return Some(Receipt(row.state, false));
      }
      if !activeAllowed {
        return Some(Thrown(CancellationUnavailable));
      }
      if row.cancellationRequestedAt.None? {
        job, row := AppendEvent(job, row, Status(row.state, true), bytes, now);
        jobs := jobs[id := job.(row := row.(cancellationRequestedAt := Some(now)))];
      }
      return Some(Receipt(row.state, true));
    }

    /** One selected row of `maintain`'s loop. */
    method MaintainRow(id: Id, bytes: EventSize, subscribed: bool, now: Time)
      modifies this
      ensures jobs == Updated(old(jobs), id, Call(Op.Maintain(bytes, subscribed)), now)
    {
      if id !in jobs || !NeedsMaintenance(jobs[id].row, now) {
        return;
      }
      var job := jobs[id];
      var row := job.row;
      if row.cancellationRequestedAt.Some? || row.attempt >= MAX_ATTEMPTS || now >= Deadline(row) {
        var code := if row.cancellationRequestedAt.Some? then CancellationTimeout
                    else if row.attempt >= MAX_ATTEMPTS then LeaseExpired else JobTimeout;
        job := Settle(job, InternalError, Some(code), now, bytes, subscribed);
      } else {
        var k := IntentKey(ExecutionRecovery, row.attempt);
        if k !in job.intents {
          job := job.(intents := job.intents[k := NewIntent(now)]);
        }
      }
      jobs := jobs[id := job];
    }

    /** The selected rows of `maintain`. */
    method MaintainRows(rows: seq<(Id, EventSize, bool)>, now: Time)
      modifies this
      ensures jobs == ApplyAll(old(jobs), MaintainSteps(rows), now)
    {
      ghost var steps := MaintainSteps(rows);
      for i := 0 to |rows|
        invariant jobs == ApplyAll(old(jobs), steps[..i], now)
      {
        MaintainRow(rows[i].0, rows[i].1, rows[i].2, now);
        assert steps[..i + 1][..i] == steps[..i];
      }
      assert steps[..|rows|] == steps;
    }

    /** The intents it reoffers. */
    method ReofferIntents(offers: seq<(Id, IntentKey)>, now: Time)
      modifies this
      ensures jobs == ApplyAll(old(jobs), OfferSteps(offers), now)
    {
      ghost var steps := OfferSteps(offers);
      for i := 0 to |offers|
        invariant jobs == ApplyAll(old(jobs), steps[..i], now)
      {
        var (id, k) := offers[i];
        if id in jobs && k in jobs[id].intents {
          var job := jobs[id];
          jobs := jobs[id := job.(intents := job.intents[k := ReofferIntent(job.intents[k], k, job.row, now)])];
        }
        assert steps[..i + 1][..i] == steps[..i];
      }
      assert steps[..|offers|] == steps;
    }

    /** The expired events it deletes. */
    method DeleteEvents(doomed: seq<(Id, set<nat>)>, now: Time)
      modifies this
      ensures jobs == ApplyAll(old(jobs), SweepSteps(doomed), now)
    {
      ghost var steps := SweepSteps(doomed);
      for i := 0 to |doomed|
        invariant jobs == ApplyAll(old(jobs), steps[..i], now)
      {
        var (id, rowsGone) := doomed[i];
        if id in jobs {
          jobs := jobs[id := jobs[id].(log := Sweep(jobs[id].log, rowsGone, now))];
        }
        assert steps[..i + 1][..i] == steps[..i];
      }
      assert steps[..|doomed|] == steps;
    }

    /** `maintain`: the selected rows, then the reoffered intents, then the event sweep. */
    method Maintain(rows: seq<(Id, EventSize, bool)>, offers: seq<(Id, IntentKey)>, doomed: seq<(Id, set<nat>)>, now: Time)
      modifies this
      ensures jobs == ApplyAll(ApplyAll(ApplyAll(old(jobs), MaintainSteps(rows), now), OfferSteps(offers), now), SweepSteps(doomed), now)
    {
      MaintainRows(rows, now);
      ReofferIntents(offers, now);
      DeleteEvents(doomed, now);
    }

    /** One expired row. */
    method ExpireRow(id: Id, bytes: EventSize, now: Time)
      modifies this
      ensures jobs == Updated(old(jobs), id, Call(Op.Expire(bytes)), now)
    {
      if id !in jobs || !NeedsExpiry(jobs[id].row, now) || IntentKey(ExecutionExpired, 0) in jobs[id].intents {
        return;
      }
      var job := jobs[id];
      var row := job.row;
      job, row := AppendEvent(job, row, FinalVerdict(InternalError, VerdictInternalError, Some(QueueTimeout)), bytes, now);
      row := row.(state := InternalError, verdict := Some(VerdictInternalError), failureCode := Some(QueueTimeout), finishedAt := Some(now));
      job := job.(row := row, intents := job.intents[IntentKey(ExecutionExpired, 0) := NewIntent(now)]);
      jobs := jobs[id := job];
    }

    /** `expireQueuedJobs` over the selected rows. */
    method ExpireQueuedJobs(rows: seq<(Id, EventSize)>, now: Time)
      modifies this
      ensures jobs == ApplyAll(old(jobs), ExpireSteps(rows), now)
    {
      ghost var steps := ExpireSteps(rows);
      for i := 0 to |rows|
        invariant jobs == ApplyAll(old(jobs), steps[..i], now)
      {
        ExpireRow(rows[i].0, rows[i].1, now);
        assert steps[..i + 1][..i] == steps[..i];
      }
      assert steps[..|rows|] == steps;
    }
  }

  function MaintainSteps(rows: seq<(Id, EventSize, bool)>): (s: seq<RowStep>)
    ensures |s| == |rows|
  {
    seq(|rows|, i requires 0 <= i < |rows| => RowStep(rows[i].0, Call(Op.Maintain(rows[i].1, rows[i].2))))
  }

  function OfferSteps(offers: seq<(Id, IntentKey)>): (s: seq<RowStep>)
    ensures |s| == |offers|
  {
    seq(|offers|, i requires 0 <= i < |offers| => RowStep(offers[i].0, Reoffer(offers[i].1)))
  }

  function SweepSteps(doomed: seq<(Id, set<nat>)>): (s: seq<RowStep>)
    ensures |s| == |doomed|
  {
    seq(|doomed|, i requires 0 <= i < |doomed| => RowStep(doomed[i].0, SweepEvents(doomed[i].1)))
  }

  function ExpireSteps(rows: seq<(Id, EventSize)>): (s: seq<RowStep>)
    ensures |s| == |rows|
  {
    seq(|rows|, i requires 0 <= i < |rows| => RowStep(rows[i].0, Call(Op.Expire(rows[i].1))))
  }
}
