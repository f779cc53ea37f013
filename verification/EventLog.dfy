/** The bounded public event log of one execution against the full history of its
    current attempt (job-store.ts: `event`, the trim loop, `replay`'s filter, the sweep). */
module EventLog {
  import opened Contracts
  import opened Text

  const REPLAY_ROWS := 256
  const REPLAY_BYTES := 262144
  const REPLAY_TTL_MS := 600000
  const MAX_EVENT_BYTES := 16384

  /** Serialized size of an event the store accepts. */
  type EventSize = n: nat | 0 < n <= 16384 witness 1

  datatype Body =
    | Status(state: State, cancellationRequested: bool)
    | ConsoleOutput(caseId: Id, stream: Stream, text: Str)
    | FinalVerdict(final: State, verdict: Verdict, failureCode: Option<FailureCode>)

  datatype Event = Event(executionId: Id, attempt: nat, sequence: nat, body: Body)

  /** A row of the ExecutionEvent table. */
  datatype Stored = Stored(attempt: nat, sequence: nat, payload: Event, bytes: EventSize, expiresAt: Time)

  /** Bytes of the rows from index `k` on. */
  function BytesFrom(s: seq<Stored>, k: nat): nat
    requires k <= |s|
    decreases |s| - k
  {
    if k == |s| then 0 else s[k].bytes + BytesFrom(s, k + 1)
  }

  predicate FitsFrom(s: seq<Stored>, k: nat)
    requires k <= |s|
  {
    |s| - k <= REPLAY_ROWS && BytesFrom(s, k) <= REPLAY_BYTES
  }

  function WindowFrom(s: seq<Stored>, k: nat): (r: nat)
    requires k <= |s|
    ensures k <= r <= |s| && FitsFrom(s, r)
    ensures forall j :: k <= j < r ==> !FitsFrom(s, j)
    decreases |s| - k
  {
    if FitsFrom(s, k) then k else WindowFrom(s, k + 1)
  }

  /** Start of the longest suffix within both limits. */
  function WindowStart(s: seq<Stored>): (k: nat)
    ensures k <= |s|
  {
    WindowFrom(s, 0)
  }

  function Window(s: seq<Stored>): seq<Stored> {
    s[WindowStart(s)..]
  }

  lemma {:induction false} SuffixBytes(s: seq<Stored>, k: nat, j: nat)
    requires k <= j <= |s|
    ensures BytesFrom(s, j) <= BytesFrom(s, k)
    decreases j - k
  {
    if k < j {
      SuffixBytes(s, k + 1, j);
    }
  }

  /** WindowStart really is the boundary: a suffix is within 256 rows and 256 KiB exactly from
      there on. */
  lemma WindowIsLongestSuffix(s: seq<Stored>, k: nat)
    requires k <= |s|
    ensures FitsFrom(s, k) <==> WindowStart(s) <= k
    ensures |s| - k <= 256 && BytesFrom(s, k) <= 262144 <==> WindowStart(s) <= k
  {
    if WindowStart(s) <= k {
      SuffixBytes(s, WindowStart(s), k);
    }
  }

  /** Equal tails weigh the same. */
  lemma {:induction false} TailBytes(s: seq<Stored>, i: nat, u: seq<Stored>, j: nat)
    requires i <= |s| && j <= |u| && |s| - i == |u| - j
    requires forall n :: i <= n < |s| ==> s[n] == u[j + n - i]
    ensures BytesFrom(s, i) == BytesFrom(u, j)
    decreases |s| - i
  {
    if i < |s| {
      assert s[i] == u[j + i - i];
      TailBytes(s, i + 1, u, j + 1);
    }
  }

  lemma {:induction false} BytesSnoc(s: seq<Stored>, e: Stored, k: nat)
    requires k <= |s|
    ensures BytesFrom(s + [e], k) == BytesFrom(s, k) + e.bytes
    decreases |s| - k
  {
    if k < |s| {
      BytesSnoc(s, e, k + 1);
    } else {
      assert BytesFrom(s + [e], k + 1) == 0;
    }
  }

  /** Appending only moves the window forward, and the new event is always inside it. */
  lemma WindowMonotone(s: seq<Stored>, e: Stored)
    ensures WindowStart(s) <= WindowStart(s + [e]) <= |s|
  {
    var m := s + [e];
    BytesSnoc(s, e, |s|);
    WindowIsLongestSuffix(m, |s|);
    BytesSnoc(s, e, WindowStart(m));
    WindowIsLongestSuffix(s, WindowStart(m));
  }

  /** A common tail is within both windows or within neither. */
  lemma SameTail(prefix: seq<Stored>, h: seq<Stored>, x: nat, k: nat)
    requires x <= k <= |h|
    ensures var m := prefix + h[x..];
      WindowStart(m) <= |prefix| + k - x <==> WindowStart(h) <= k
  {
    var m := prefix + h[x..];
    TailBytes(h, k, m, |prefix| + k - x);
    WindowIsLongestSuffix(h, k);
    WindowIsLongestSuffix(m, |prefix| + k - x);
  }

  /** The window of a log that is some prefix followed by a tail of `h`. */
  lemma WindowBehindPrefix(prefix: seq<Stored>, h: seq<Stored>, x: nat)
    requires x <= |h|
    ensures WindowStart(h) > x ==> WindowStart(prefix + h[x..]) == |prefix| + WindowStart(h) - x
    ensures WindowStart(h) <= x ==> WindowStart(prefix + h[x..]) <= |prefix|
  {
    var w := WindowStart(h);
    SameTail(prefix, h, x, Max(w, x));
    if w > x {
      SameTail(prefix, h, x, w - 1);
    }
  }

  // ------------------------------------------------------------------
  // Expiry

  predicate ExpiryOrdered(h: seq<Stored>) {
    forall i, j :: 0 <= i <= j < |h| ==> h[i].expiresAt <= h[j].expiresAt
  }

  function KeptFrom(h: seq<Stored>, k: nat, t: Time): (r: nat)
    requires k <= |h|
    ensures k <= r <= |h|
    ensures forall i :: k <= i < r ==> h[i].expiresAt < t
    ensures r < |h| ==> h[r].expiresAt >= t
    decreases |h| - k
  {
    if k == |h| || h[k].expiresAt >= t then k else KeptFrom(h, k + 1, t)
  }

  /** First index of `h` the sweep may not delete at `t` (it deletes expiresAt < t). */
  function FirstKept(h: seq<Stored>, t: Time): (k: nat)
    ensures k <= |h|
    ensures forall i :: 0 <= i < k ==> h[i].expiresAt < t
    ensures k < |h| ==> h[k].expiresAt >= t
  {
    KeptFrom(h, 0, t)
  }

  /** Start of the part of the history that must still be stored at clock `t`. */
  function LiveStart(h: seq<Stored>, t: Time): (k: nat)
    ensures k <= |h|
  {
    Max(WindowStart(h), FirstKept(h, t))
  }

  lemma FirstKeptMonotone(h: seq<Stored>, t: Time, t': Time)
    requires ExpiryOrdered(h) && t <= t'
    ensures FirstKept(h, t) <= FirstKept(h, t')
  {
  }

  /** Rows a reader still sees at `now`, from index `k` on. */
  function LiveFrom(s: seq<Stored>, k: nat, now: Time): seq<Stored>
    requires k <= |s|
    decreases |s| - k
  {
    if k == |s| then []
    else (if s[k].expiresAt > now then [s[k]] else []) + LiveFrom(s, k + 1, now)
  }

  function Live(s: seq<Stored>, now: Time): seq<Stored> {
    LiveFrom(s, 0, now)
  }

  lemma {:induction false} SkipExpired(s: seq<Stored>, k: nat, m: nat, now: Time)
    requires k <= m <= |s|
    requires forall i :: k <= i < m ==> s[i].expiresAt <= now
    ensures LiveFrom(s, k, now) == LiveFrom(s, m, now)
    decreases m - k
  {
    if k < m {
      SkipExpired(s, k + 1, m, now);
    }
  }

  lemma {:induction false} TakeUnexpired(s: seq<Stored>, k: nat, now: Time)
    requires k <= |s|
    requires forall i :: k <= i < |s| ==> s[i].expiresAt > now
    ensures LiveFrom(s, k, now) == s[k..]
    decreases |s| - k
  {
    if k < |s| {
      TakeUnexpired(s, k + 1, now);
      assert s[k..] == [s[k]] + s[k + 1..];
    }
  }

  // ------------------------------------------------------------------
  // The log invariant

  predicate Ascending(s: seq<Stored>) {
    forall i, j :: 0 <= i < j < |s| ==> s[i].sequence < s[j].sequence
  }

  /** `h` is a full attempt history at clock `t`: numbered from 1, expiry in order. */
  predicate HistoryOk(h: seq<Stored>, t: Time) {
    && ExpiryOrdered(h)
    && (forall i :: 0 <= i < |h| ==> h[i].sequence == i + 1)
    && (forall i :: 0 <= i < |h| ==> h[i].expiresAt <= t + REPLAY_TTL_MS)
  }

  /** Every row comes from the history. */
  predicate FromHistory(h: seq<Stored>, log: seq<Stored>) {
    forall i :: 0 <= i < |log| ==> 1 <= log[i].sequence <= |h| && log[i] == h[log[i].sequence - 1]
  }

  /** The log ends with `h[x..]`; the rows before that have expired at `t`. */
  predicate EndsWith(h: seq<Stored>, x: nat, log: seq<Stored>, t: Time) {
    && x <= |h| <= x + |log|
    && var n := |log| - (|h| - x);
    && (forall i :: n <= i < |log| ==> log[i] == h[x + i - n])
    && (forall i :: 0 <= i < n ==> log[i].expiresAt < t)
  }

  /** Everything that must be stored is, at the end of the log; whatever else is left
      has expired and is only waiting for a sweep. */
  predicate LogOk(h: seq<Stored>, log: seq<Stored>, t: Time) {
    Ascending(log) && FromHistory(h, log) && EndsWith(h, LiveStart(h, t), log, t)
  }

  lemma EndsLater(h: seq<Stored>, x: nat, x': nat, log: seq<Stored>, t: Time, t': Time)
    requires EndsWith(h, x, log, t) && x <= x' <= |h| && t <= t'
    requires forall i :: x <= i < x' ==> h[i].expiresAt < t'
    ensures EndsWith(h, x', log, t')
  {
    var n, n' := |log| - (|h| - x), |log| - (|h| - x');
    forall i | 0 <= i < n'
      ensures log[i].expiresAt < t'
    {
      if i >= n {
        assert log[i] == h[x + i - n];
      }
    }
  }

  lemma TimePasses(h: seq<Stored>, log: seq<Stored>, t: Time, t': Time)
    requires HistoryOk(h, t) && LogOk(h, log, t) && t <= t'
    ensures HistoryOk(h, t') && LogOk(h, log, t')
  {
    FirstKeptMonotone(h, t, t');
    EndsLater(h, LiveStart(h, t), LiveStart(h, t'), log, t, t');
  }

  /** What one call of `event` does to the table. */
  function Append(log: seq<Stored>, e: Stored): seq<Stored> {
    Window(log + [e])
  }

  predicate NextEvent(h: seq<Stored>, e: Stored, now: Time) {
    e.sequence == |h| + 1 && e.expiresAt == now + REPLAY_TTL_MS
  }

  lemma HistoryGrows(h: seq<Stored>, e: Stored, now: Time)
    requires HistoryOk(h, now) && NextEvent(h, e, now)
    ensures HistoryOk(h + [e], now)
    ensures FirstKept(h + [e], now) == FirstKept(h, now)
  {
    var m := h + [e];
    var k, k' := FirstKept(h, now), FirstKept(m, now);
    assert k < |h| ==> m[k] == h[k];
    assert k' < |h| ==> m[k'] == h[k'];
    assert m[|h|] == e;
  }

  lemma Drop(h: seq<Stored>, log: seq<Stored>, p: nat)
    requires Ascending(log) && FromHistory(h, log) && p <= |log|
    ensures Ascending(log[p..]) && FromHistory(h, log[p..])
  {
  }

  lemma Snoc(h: seq<Stored>, log: seq<Stored>, e: Stored)
    requires Ascending(log) && FromHistory(h, log) && e.sequence == |h| + 1
    ensures Ascending(log + [e]) && FromHistory(h + [e], log + [e])
  {
  }

  lemma EndsWithSnoc(h: seq<Stored>, x: nat, log: seq<Stored>, e: Stored, t: Time, p: nat)
    requires EndsWith(h, x, log, t) && p <= |log| - (|h| - x)
    ensures EndsWith(h + [e], x, (log + [e])[p..], t)
  {
    var n := |log| - (|h| - x);
    var m := (log + [e])[p..];
    assert forall i :: 0 <= i < |m| ==> m[i] == (log + [e])[i + p];
  }

  /** Trimming either cuts into the expired rows only, or leaves exactly the window. */
  lemma AppendEnds(h: seq<Stored>, x: nat, log: seq<Stored>, e: Stored, t: Time)
    requires EndsWith(h, x, log, t) && WindowStart(h + [e]) <= |h|
    ensures EndsWith(h + [e], Max(x, WindowStart(h + [e])), Append(log, e), t)
  {
    var h', m := h + [e], log + [e];
    var n := |log| - (|h| - x);
    var w := WindowStart(h');
    assert m == log[..n] + h'[x..];
    WindowBehindPrefix(log[..n], h', x);
    if w > x {
      assert m[n + w - x..] == h'[w..];
    } else {
      EndsWithSnoc(h, x, log, e, t, WindowStart(m));
    }
  }

  /** An append keeps the invariant, whatever the trim throws away. */
  lemma AppendKeeps(h: seq<Stored>, log: seq<Stored>, e: Stored, now: Time)
    requires HistoryOk(h, now) && LogOk(h, log, now) && NextEvent(h, e, now)
    ensures HistoryOk(h + [e], now) && LogOk(h + [e], Append(log, e), now)
  {
    HistoryGrows(h, e, now);
    WindowMonotone(h, e);
    Snoc(h, log, e);
    Drop(h + [e], log + [e], WindowStart(log + [e]));
    AppendEnds(h, LiveStart(h, now), log, e, now);
  }

  /** A new attempt starts from an emptied table. */
  lemma RestartKeeps(e: Stored, now: Time)
    requires NextEvent([], e, now)
    ensures HistoryOk([e], now) && LogOk([e], Append([], e), now)
  {
    assert HistoryOk([], now) && LogOk([], [], now);
    AppendKeeps([], [], e, now);
    assert [] + [e] == [e];
  }

  /** The sweep may delete any set of expired rows. */
  function SweepFrom(log: seq<Stored>, k: nat, doomed: set<nat>, t: Time): seq<Stored>
    requires k <= |log|
    decreases |log| - k
  {
    if k == |log| then []
    else (if log[k].sequence in doomed && log[k].expiresAt < t then [] else [log[k]]) + SweepFrom(log, k + 1, doomed, t)
  }

  function Sweep(log: seq<Stored>, doomed: set<nat>, t: Time): seq<Stored> {
    SweepFrom(log, 0, doomed, t)
  }

  /** A row survives a sweep exactly when it is not among the doomed or has not expired. */
  lemma {:induction false} SweepIsExact(log: seq<Stored>, k: nat, doomed: set<nat>, t: Time, e: Stored)
    requires k <= |log|
    ensures e in SweepFrom(log, k, doomed, t) <==> e in log[k..] && !(e.sequence in doomed && e.expiresAt < t)
    decreases |log| - k
  {
    if k < |log| {
      SweepIsExact(log, k + 1, doomed, t, e);
      assert log[k..] == [log[k]] + log[k + 1..];
    }
  }

  lemma EndsWithCons(h: seq<Stored>, x: nat, e: Stored, rest: seq<Stored>, t: Time)
    requires EndsWith(h, x, rest, t) && e.expiresAt < t
    ensures EndsWith(h, x, [e] + rest, t)
  {
    var log := [e] + rest;
    assert forall i :: 0 < i < |log| ==> log[i] == rest[i - 1];
  }

  lemma EndsWithAll(h: seq<Stored>, x: nat, log: seq<Stored>, t: Time)
    requires EndsWith(h, x, log, t)
    ensures EndsWith(h, x, log[|log| - (|h| - x)..], t)
  {
  }

  lemma {:induction false} SweepSparesTail(h: seq<Stored>, x: nat, log: seq<Stored>, k: nat, doomed: set<nat>, t: Time)
    requires EndsWith(h, x, log, t) && |log| - (|h| - x) <= k <= |log|
    requires forall i :: x <= i < |h| ==> h[i].expiresAt >= t
    ensures SweepFrom(log, k, doomed, t) == log[k..]
    decreases |log| - k
  {
    if k < |log| {
      SweepSparesTail(h, x, log, k + 1, doomed, t);
      assert log[k].expiresAt >= t;
    }
  }

  lemma {:induction false} SweepEnds(h: seq<Stored>, x: nat, log: seq<Stored>, k: nat, doomed: set<nat>, t: Time)
    requires EndsWith(h, x, log, t) && k <= |log| - (|h| - x)
    requires forall i :: x <= i < |h| ==> h[i].expiresAt >= t
    ensures EndsWith(h, x, SweepFrom(log, k, doomed, t), t)
    decreases |log| - k
  {
    var n := |log| - (|h| - x);
    if k < n {
      SweepEnds(h, x, log, k + 1, doomed, t);
      EndsWithCons(h, x, log[k], SweepFrom(log, k + 1, doomed, t), t);
    } else {
      SweepSparesTail(h, x, log, n, doomed, t);
      EndsWithAll(h, x, log, t);
    }
  }

  /** `rest` holds history rows in order, all after sequence number `s`. */
  predicate RunsAfter(h: seq<Stored>, rest: seq<Stored>, s: nat) {
    Ascending(rest) && FromHistory(h, rest) && forall i :: 0 <= i < |rest| ==> s < rest[i].sequence
  }

  lemma RunsCons(h: seq<Stored>, e: Stored, rest: seq<Stored>, s: nat)
    requires RunsAfter(h, rest, e.sequence) && s < e.sequence <= |h| && e == h[e.sequence - 1]
    ensures RunsAfter(h, [e] + rest, s)
  {
  }

  lemma {:induction false} SweepSelects(h: seq<Stored>, log: seq<Stored>, k: nat, doomed: set<nat>, t: Time)
    requires k <= |log| && Ascending(log) && FromHistory(h, log)
    ensures RunsAfter(h, SweepFrom(log, k, doomed, t), if k == 0 then 0 else log[k - 1].sequence)
    decreases |log| - k
  {
    if k < |log| {
      SweepSelects(h, log, k + 1, doomed, t);
      RunsCons(h, log[k], SweepFrom(log, k + 1, doomed, t), if k == 0 then 0 else log[k - 1].sequence);
    }
  }

  /** A sweep keeps the invariant, whichever expired rows it takes. */
  lemma SweepKeeps(h: seq<Stored>, log: seq<Stored>, doomed: set<nat>, now: Time)
    requires HistoryOk(h, now) && LogOk(h, log, now)
    ensures LogOk(h, Sweep(log, doomed, now), now)
  {
    var x := LiveStart(h, now);
    assert forall i :: x <= i < |h| ==> h[FirstKept(h, now)].expiresAt <= h[i].expiresAt;
    SweepSelects(h, log, 0, doomed, now);
    SweepEnds(h, x, log, 0, doomed, now);
  }

  /** Index from which the history is visible to a reader at `now`. */
  function VisibleFrom(h: seq<Stored>, now: Time): nat {
    Max(WindowStart(h), FirstKept(h, now + 1))
  }

  lemma LiveOfEnding(h: seq<Stored>, x: nat, k: nat, log: seq<Stored>, now: Time)
    requires EndsWith(h, x, log, now) && ExpiryOrdered(h)
    requires x <= k <= |h| && (k < |h| ==> h[k].expiresAt > now)
    requires forall i :: x <= i < k ==> h[i].expiresAt <= now
    ensures Live(log, now) == h[k..]
  {
    var n := |log| - (|h| - x);
    var p := n + k - x;
    forall i | 0 <= i < |log|
      ensures i < p ==> log[i].expiresAt <= now
      ensures i >= p ==> log[i].expiresAt > now
    {
      if i >= n {
        assert log[i] == h[x + i - n];
      }
    }
    SkipExpired(log, 0, p, now);
    TakeUnexpired(log, p, now);
    assert log[p..] == h[k..];
  }

  /** Between the window and the visible part everything has expired. */
  lemma VisibleBounds(h: seq<Stored>, now: Time)
    requires ExpiryOrdered(h)
    ensures var k := VisibleFrom(h, now);
      && k <= |h| && (k < |h| ==> h[k].expiresAt > now)
      && forall i :: WindowStart(h) <= i < k ==> h[i].expiresAt <= now
  {
  }

  lemma LiveOfLog(h: seq<Stored>, log: seq<Stored>, now: Time)
    requires HistoryOk(h, now) && LogOk(h, log, now)
    ensures Live(log, now) == h[VisibleFrom(h, now)..]
  {
    VisibleBounds(h, now);
    FirstKeptMonotone(h, now, now + 1);
    LiveOfEnding(h, LiveStart(h, now), VisibleFrom(h, now), log, now);
  }

  lemma LiveOfWindow(h: seq<Stored>, now: Time)
    requires ExpiryOrdered(h)
    ensures Live(Window(h), now) == h[VisibleFrom(h, now)..]
  {
    VisibleBounds(h, now);
    assert EndsWith(h, WindowStart(h), Window(h), now);
    LiveOfEnding(h, WindowStart(h), VisibleFrom(h, now), Window(h), now);
  }

  /** The stored log refines the unbounded history: what a reader can see of it is what
      it would see of the longest suffix of the full history within 256 rows and
      256 KiB, and that is a contiguous run ending at the last event. */
  lemma LogRefinesHistory(h: seq<Stored>, log: seq<Stored>, t: Time, now: Time)
    requires HistoryOk(h, t) && LogOk(h, log, t) && t <= now
    ensures Live(log, now) == Live(Window(h), now) == h[VisibleFrom(h, now)..]
  {
    TimePasses(h, log, t, now);
    LiveOfLog(h, log, now);
    LiveOfWindow(h, now);
  }
}
