/** `replay`: the owner's view of the log after a cursor (job-store.ts:158-170,
    serialization.ts). */
module Replay {
  import opened Contracts
  import opened Text
  import opened EventLog
  import opened Rows
  import opened Jobs

  /** `publicSnapshot`. */
  datatype Snapshot = Snapshot(
    executionId: Id, mode: Mode, state: State, attempt: nat, lastSequence: nat, cancellationRequested: bool,
    verdict: Option<Verdict>, failureCode: Option<FailureCode>, runtimeMs: Option<nat>, memoryKiB: Option<nat>,
    publicCaseResults: Option<seq<CaseResult>>)

  function PublicCases(cases: seq<CaseResult>, ids: set<Id>): seq<CaseResult> {
    if cases == [] then []
    else PublicCases(cases[..|cases| - 1], ids) + (if cases[|cases| - 1].caseId in ids then [cases[|cases| - 1]] else [])
  }

  function SnapshotOf(row: Row): Snapshot {
    Snapshot(row.request.id, row.request.mode, row.state, row.attempt, row.lastSequence, row.cancellationRequestedAt.Some?,
             row.verdict, row.failureCode, row.runtimeMs, row.memoryKiB,
             if row.request.mode == RunMode && row.publicResults.Some?
             then Some(PublicCases(row.publicResults.value, row.request.publicCases)) else None)
  }

  datatype Replayed = Replayed(snapshot: Snapshot, available: bool, events: seq<Event>)

  /** Rows of the attempt after the cursor. */
  function AfterFrom(s: seq<Stored>, k: nat, attempt: nat, after: nat): seq<Stored>
    requires k <= |s|
    decreases |s| - k
  {
    if k == |s| then []
    else (if s[k].attempt == attempt && s[k].sequence > after then [s[k]] else []) + AfterFrom(s, k + 1, attempt, after)
  }

  /** The findMany query, in the table's ascending order. */
  function Selected(job: Job, after: nat, now: Time): seq<Stored> {
    var rows := AfterFrom(Live(job.log, now), 0, job.row.attempt, after);
    if |rows| <= REPLAY_ROWS then rows else rows[..REPLAY_ROWS]
  }

  predicate EventSafe(s: Stored, row: Row) {
    && s.payload.executionId == row.request.id && s.payload.attempt == row.attempt && s.payload.sequence == s.sequence
    && s.payload.sequence > 0
    && (s.payload.body.ConsoleOutput? ==> Utf8Bytes(s.payload.body.text) <= MAX_CONSOLE_BYTES)
    && (s.payload.body.ConsoleOutput? ==> row.request.mode == RunMode && s.payload.body.caseId in row.request.publicCases)
  }

  predicate AllSafe(rows: seq<Stored>, row: Row) {
    forall i :: 0 <= i < |rows| ==> EventSafe(rows[i], row)
  }

  predicate Contiguous(rows: seq<Stored>, row: Row, attempt: nat, after: nat) {
    && attempt == row.attempt && after <= row.lastSequence && |rows| == row.lastSequence - after
    && forall i :: 0 <= i < |rows| ==> rows[i].sequence == after + i + 1
  }

  function Payloads(rows: seq<Stored>): (r: seq<Event>)
    ensures |r| == |rows| && forall i :: 0 <= i < |rows| ==> r[i] == rows[i].payload
  {
    seq(|rows|, i requires 0 <= i < |rows| => rows[i].payload)
  }

  function ReplayJob(job: Job, userId: Id, attempt: nat, after: nat, now: Time): Option<Replayed> {
    if job.row.request.userId != userId then None
    else
      var rows := Selected(job, after, now);
      var ok := AllSafe(rows, job.row) && Contiguous(rows, job.row, attempt, after);
      Some(Replayed(SnapshotOf(job.row), ok, if ok then Payloads(rows) else []))
  }

  /** Nobody but the owner sees anything of an execution. */
  lemma StrangerSeesNothing(job: Job, userId: Id, attempt: nat, after: nat, now: Time)
    ensures ReplayJob(job, userId, attempt, after, now).Some? <==> userId == job.row.request.userId
  {
  }

  /** A safe event, spelled out. */
  predicate Publishable(e: Event, row: Row) {
    && e.executionId == row.request.id && e.attempt == row.attempt && e.sequence > 0
    && (e.body.ConsoleOutput? ==>
          && Utf8Bytes(e.body.text) <= 4096 && row.request.mode == RunMode && e.body.caseId in row.request.publicCases)
  }

  /** A last line of defence, for any table whatever, reachable or not: events are shown only
      if every one of them is publishable and they are exactly those after the cursor up to the
      last; at most 256 are; and if one is not, none is. */
  lemma ReplayIsGuarded(job: Job, userId: Id, attempt: nat, after: nat, now: Time)
    requires userId == job.row.request.userId
    ensures var r := ReplayJob(job, userId, attempt, after, now).value;
      && |Selected(job, after, now)| <= 256
      && (r.available ==>
            && attempt == job.row.attempt && after <= job.row.lastSequence && |r.events| == job.row.lastSequence - after <= 256
            && forall i :: 0 <= i < |r.events| ==> Publishable(r.events[i], job.row) && r.events[i].sequence == after + i + 1)
      && (!r.available ==> r.events == [])
  {
    var rows := Selected(job, after, now);
    if AllSafe(rows, job.row) && Contiguous(rows, job.row, attempt, after) {
      forall i | 0 <= i < |rows|
        ensures Publishable(rows[i].payload, job.row) && rows[i].payload.sequence == after + i + 1
      {
        assert EventSafe(rows[i], job.row);
      }
    }
  }

  lemma {:induction false} AllArePublic(cases: seq<CaseResult>, ids: set<Id>)
    requires forall c <- cases :: c.caseId in ids
    ensures PublicCases(cases, ids) == cases
  {
    if cases != [] {
      AllArePublic(cases[..|cases| - 1], ids);
    }
  }

  lemma {:induction false} OnlyPublicAreShown(cases: seq<CaseResult>, ids: set<Id>, c: CaseResult)
    ensures c in PublicCases(cases, ids) <==> c in cases && c.caseId in ids
  {
    if cases != [] {
      OnlyPublicAreShown(cases[..|cases| - 1], ids, c);
      assert cases == cases[..|cases| - 1] + [cases[|cases| - 1]];
    }
  }

  /** The snapshot tells the row, and of the stored results exactly the public ones, which in a
      reachable row are all of them; a SUBMIT shows none. */
  lemma SnapshotIsExact(row: Row, t: Time)
    requires RowOk(row, t)
    ensures var s := SnapshotOf(row);
      && s.executionId == row.request.id && s.mode == row.request.mode && s.state == row.state
      && s.attempt == row.attempt && s.lastSequence == row.lastSequence
      && (s.cancellationRequested <==> row.cancellationRequestedAt.Some?)
      && s.verdict == row.verdict && s.failureCode == row.failureCode
      && s.runtimeMs == row.runtimeMs && s.memoryKiB == row.memoryKiB
      && s.publicCaseResults == row.publicResults
      && (row.request.mode == SubmitMode ==> s.publicCaseResults.None?)
  {
    if row.publicResults.Some? {
      AllArePublic(row.publicResults.value, row.request.publicCases);
    }
  }

  /** Even a row that held private results would not show them. */
  lemma SnapshotHidesPrivate(row: Row, c: CaseResult)
    ensures var s := SnapshotOf(row);
      s.publicCaseResults.Some? ==>
        && row.request.mode == RunMode && row.publicResults.Some?
        && (c in s.publicCaseResults.value <==> c in row.publicResults.value && c.caseId in row.request.publicCases)
  {
    if row.publicResults.Some? {
      OnlyPublicAreShown(row.publicResults.value, row.request.publicCases, c);
    }
  }

  lemma {:induction false} AfterOfHistory(h: seq<Stored>, k: nat, j: nat, attempt: nat, after: nat)
    requires j <= k <= |h| && HistorySafeNumbers(h, attempt)
    ensures AfterFrom(h[j..], k - j, attempt, after) == h[Max(k, Min(after, |h|))..]
    decreases |h| - k
  {
    if k < |h| {
      AfterOfHistory(h, k + 1, j, attempt, after);
      assert h[j..][k - j] == h[k];
      assert h[k..] == [h[k]] + h[k + 1..];
    }
  }

  predicate HistorySafeNumbers(h: seq<Stored>, attempt: nat) {
    forall i :: 0 <= i < |h| ==> h[i].attempt == attempt && h[i].sequence == i + 1
  }

  /** The part of the full history a reader may still see: inside the window and unexpired. */
  predicate StillThere(h: seq<Stored>, i: nat, now: Time)
    requires i < |h|
  {
    WindowStart(h) <= i && h[i].expiresAt > now
  }

  lemma VisibleIffStillThere(h: seq<Stored>, t: Time, now: Time, i: nat)
    requires HistoryOk(h, t) && i < |h|
    ensures StillThere(h, i, now) <==> VisibleFrom(h, now) <= i
  {
    var k := FirstKept(h, now + 1);
    if k <= i {
      assert h[k].expiresAt <= h[i].expiresAt;
    }
  }

  lemma TailIsSafe(w: World, k: nat)
    requires WorldOk(w) && k <= |w.current|
    ensures AllSafe(w.current[k..], w.job.row)
  {
    var rows := w.current[k..];
    forall i | 0 <= i < |rows|
      ensures EventSafe(rows[i], w.job.row)
    {
      assert rows[i] == w.current[k + i];
    }
  }

  lemma VisibleFits(h: seq<Stored>, now: Time)
    ensures |h| - VisibleFrom(h, now) <= REPLAY_ROWS
  {
    WindowIsLongestSuffix(h, WindowStart(h));
  }

  /** The rows of the attempt after the cursor among those a reader still sees. */
  lemma QueryIsTail(h: seq<Stored>, k: nat, attempt: nat, after: nat)
    requires k <= |h| && HistorySafeNumbers(h, attempt)
    ensures AfterFrom(h[k..], 0, attempt, after) == h[Max(k, Min(after, |h|))..]
  {
    AfterOfHistory(h, k, k, attempt, after);
  }

  /** What the query returns is a contiguous tail of the full history. */
  lemma SelectedIsTail(w: World, after: nat, now: Time)
    requires WorldOk(w) && w.clock <= now
    ensures Selected(w.job, after, now) == w.current[Max(VisibleFrom(w.current, now), Min(after, |w.current|))..]
    ensures AllSafe(Selected(w.job, after, now), w.job.row)
  {
    LogRefinesHistory(w.current, w.job.log, w.clock, now);
    var k := VisibleFrom(w.current, now);
    QueryIsTail(w.current, k, w.job.row.attempt, after);
    VisibleFits(w.current, now);
    TailIsSafe(w, Max(k, Min(after, |w.current|)));
  }

  /** A tail of the history passes the contiguity test exactly when it starts at the cursor. */
  lemma TailIsContiguous(h: seq<Stored>, row: Row, k: nat, attempt: nat, after: nat)
    requires HistorySafeNumbers(h, row.attempt) && |h| == row.lastSequence && k <= |h|
    ensures Contiguous(h[Max(k, Min(after, |h|))..], row, attempt, after) <==>
              attempt == row.attempt && after <= |h| && (after < |h| ==> k <= after)
  {
    var s := Max(k, Min(after, |h|));
    assert forall i :: 0 <= i < |h| - s ==> h[s..][i] == h[s + i];
  }

  /** Everything after the cursor is still there exactly when its first event is. */
  lemma TailIsStillThere(h: seq<Stored>, t: Time, now: Time, after: nat)
    requires HistoryOk(h, t)
    ensures (forall i :: after <= i < |h| ==> StillThere(h, i, now)) <==> (after < |h| ==> VisibleFrom(h, now) <= after)
  {
    forall i | after <= i < |h|
      ensures StillThere(h, i, now) <==> VisibleFrom(h, now) <= i
    {
      VisibleIffStillThere(h, t, now, i);
    }
    assert after < |h| && VisibleFrom(h, now) > after ==> !StillThere(h, after, now);
  }

  /** Replay is sound and complete. It is available exactly when the cursor is in the
      current attempt, not ahead, and every later event is inside the window and
      unexpired; it then returns precisely the history after the cursor, in order, and
      the safety test never rejects an event the store itself wrote. */
  lemma ReplaySoundAndComplete(w: World, attempt: nat, after: nat, now: Time)
    requires WorldOk(w) && w.clock <= now
    ensures var r := ReplayJob(w.job, w.job.row.request.userId, attempt, after, now);
      && r.Some? && r.value.snapshot == SnapshotOf(w.job.row)
      && (r.value.available <==>
            && attempt == w.job.row.attempt && after <= w.job.row.lastSequence
            && forall i :: after <= i < |w.current| ==> StillThere(w.current, i, now))
      && (r.value.available ==> r.value.events == Payloads(w.current[after..]))
      && (!r.value.available ==> r.value.events == [])
      && AllSafe(Selected(w.job, after, now), w.job.row)
  {
    SelectedIsTail(w, after, now);
    var h, k := w.current, VisibleFrom(w.current, now);
    TailIsContiguous(h, w.job.row, k, attempt, after);
    TailIsStillThere(h, w.clock, now, after);
    if after <= |h| && (after < |h| ==> k <= after) {
      assert h[Max(k, Min(after, |h|))..] == h[after..];
    }
  }
}
