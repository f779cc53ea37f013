/** How a worker settles a claimed job when its backend returns or throws (queue.ts:64-72). */
module Worker {
  import opened Contracts
  import opened EventLog
  import opened Rows
  import opened Outbox
  import opened Jobs
  import opened JobTheorems

  /** The backend's promise: a result, a recoverable runner error, unconfirmed clean-up, or
      anything else. */
  datatype BackendExit =
    | Completed(result: WorkerResult, resultBytes: nat)
    | Recoverable
    | CleanupUnconfirmed
    | Threw

  /** The calls the try and catch blocks make; a throwing `finish` falls into the catch. */
  function Settlement(job: Job, lease: Lease, exit: BackendExit, bytes: EventSize, subscribed: bool, now: Time): Op {
    match exit
    case Completed(result, resultBytes) =>
      var op := Finish(lease, result, resultBytes, bytes, subscribed);
      if Decide(job.row, op, now).reply.Thrown? then Fail(lease, true, bytes, subscribed) else op
    case Recoverable => Recover(lease, bytes, subscribed)
    case CleanupUnconfirmed => Fail(lease, false, bytes, subscribed)
    case Threw => Fail(lease, true, bytes, subscribed)
  }

  /** A result `finish` takes: it parses, fits, and reports only distinct public cases of a RUN. */
  predicate Acceptable(row: Row, r: WorkerResult, resultBytes: nat) {
    ResultParses(r) && resultBytes <= 262144 && PublicOnly(row, r)
  }

  lemma SettledRow(row: Row, job: Job, lease: Lease, exit: BackendExit, bytes: EventSize, subscribed: bool, now: Time)
    requires RowOk(row, now) && Valid(row, lease, now) && job.row == row
    ensures var next := Decide(row, Settlement(job, lease, exit, bytes, subscribed, now), now).row;
      var asked := row.cancellationRequestedAt.Some?;
      var again := exit.Recoverable? && !asked && row.attempt < MAX_ATTEMPTS;
      && (again ==> Lapsed(next, now) && next.attempt == row.attempt) && (!again ==> IsTerminal(next.state))
      && (next.state == Finished <==> !asked && exit.Completed? && Acceptable(row, exit.result, exit.resultBytes))
      && (next.state == Finished ==> next.verdict == Some(exit.result.verdict))
      && (next.state == Cancelled <==> asked && !exit.CleanupUnconfirmed?)
      && (next.state == InternalError ==> next.failureCode == Some(if asked then CancellationTimeout else JobFailure))
  {
    TerminalStates(row.state);
    TerminalStates(Finished);
    TerminalStates(Cancelled);
    TerminalStates(InternalError);
  }

  /** A worker that still holds its lease never leaves a job hanging: a recoverable error of a
      job that may be tried again leaves the lapsed lease and the recovery intent the
      dispatcher accepts, and any other end settles the job. FINISHED carries the backend's
      own verdict and comes from an accepted result alone; a requested cancel ends CANCELLED
      exactly when the sandbox is known to be gone. */
  lemma WorkerAlwaysSettles(w: World, lease: Lease, exit: BackendExit, bytes: EventSize, subscribed: bool, now: Time)
    requires WorldOk(w) && w.clock <= now && Valid(w.job.row, lease, now)
    ensures var job := Apply(w.job, Call(Settlement(w.job, lease, exit, bytes, subscribed, now)), now);
      var asked := w.job.row.cancellationRequestedAt.Some?;
      var again := exit.Recoverable? && !asked && w.job.row.attempt < MAX_ATTEMPTS;
      && (again ==>
            && Lapsed(job.row, now) && job.row.attempt == w.job.row.attempt
            && IntentKey(ExecutionRecovery, job.row.attempt) in job.intents
            && Eligible(job.row, IntentKey(ExecutionRecovery, job.row.attempt), now))
      && (!again ==> IsTerminal(job.row.state))
      && (job.row.state == Finished <==> !asked && exit.Completed? && Acceptable(w.job.row, exit.result, exit.resultBytes))
      && (job.row.state == Finished ==> job.row.verdict == Some(exit.result.verdict))
      && (job.row.state == Cancelled <==> asked && !exit.CleanupUnconfirmed?)
      && (job.row.state == InternalError ==>
            job.row.failureCode == Some(if asked then CancellationTimeout else JobFailure))
  {
    var op := Settlement(w.job, lease, exit, bytes, subscribed, now);
    StepRow(w, Call(op), now);
    StepShows(w, Call(op), now);
    assert RowOk(w.job.row, now);
    SettledRow(w.job.row, w.job, lease, exit, bytes, subscribed, now);
    if exit.Recoverable? {
      LapsedJobIsOffered(w, op, now);
    }
  }
}
