/** The competition leaderboard: a stateful scan of each participant's submissions, its
    closed form, and the ranking (competitions.ts:68-81). */
module Leaderboard {
  import opened Contracts
  import opened Ordering

  const MINUTE_MS := 60000
  const WRONG_PENALTY := 20

  datatype Submission = Submission(problem: Id, createdAt: Time, verdict: Option<Verdict>)
  datatype Participant = Participant(username: nat, joinedAt: Time, submissions: seq<Submission>)
  datatype Entry = Entry(username: nat, score: nat, solved: nat, penalty: nat)
  datatype Ranked = Ranked(rank: nat, entry: Entry)

  /** A problem of a round with its points. */
  datatype Listed = Listed(problem: Id, points: nat)

  // ------------------------------------------------------------------
  // Points

  /** The largest points any round gives the problem, or none. */
  function PointsUpto(listed: seq<Listed>, problem: Id, k: nat): (m: nat)
    requires k <= |listed|
    ensures forall i :: 0 <= i < k && listed[i].problem == problem ==> listed[i].points <= m
    ensures m > 0 ==> exists i :: 0 <= i < k && listed[i].problem == problem && listed[i].points == m
  {
    if k == 0 then 0
    else
      var m := PointsUpto(listed, problem, k - 1);
      if listed[k - 1].problem == problem then Max(m, listed[k - 1].points) else m
  }

  function Points(listed: seq<Listed>, problem: Id): nat {
    PointsUpto(listed, problem, |listed|)
  }

  /** The loop over rounds and problems. */
  method CollectPoints(listed: seq<Listed>) returns (points: map<Id, nat>)
    ensures PointsOk(points, listed)
  {
    points := map[];
    for i := 0 to |listed|
      invariant forall p: Id :: (if p in points then points[p] else 0) == PointsUpto(listed, p, i)
    {
      var l := listed[i];
      points := points[l.problem := Max(if l.problem in points then points[l.problem] else 0, l.points)];
    }
  }

  // ------------------------------------------------------------------
  // The closed form of a participant's record

  predicate Counts(s: Submission, joinedAt: Time) {
    s.createdAt >= joinedAt
  }

  predicate Solves(s: Submission, joinedAt: Time) {
    Counts(s, joinedAt) && s.verdict == Some(Accepted)
  }

  /** The problem is accepted within the first `k` submissions. */
  predicate SolvedBy(subs: seq<Submission>, joinedAt: Time, problem: Id, k: nat)
    requires k <= |subs|
  {
    exists i :: 0 <= i < k && subs[i].problem == problem && Solves(subs[i], joinedAt)
  }

  /** Submission `i` is the first acceptance of its problem. */
  predicate FirstSolve(subs: seq<Submission>, joinedAt: Time, i: nat)
    requires i < |subs|
  {
    Solves(subs[i], joinedAt) && !SolvedBy(subs, joinedAt, subs[i].problem, i)
  }

  /** Submission `i` counts as wrong: after joining, not accepted (no verdict yet, cancelled
      and failed runs included), and before the problem's first acceptance. */
  predicate WrongAttempt(subs: seq<Submission>, joinedAt: Time, i: nat)
    requires i < |subs|
  {
    Counts(subs[i], joinedAt) && subs[i].verdict != Some(Accepted) && !SolvedBy(subs, joinedAt, subs[i].problem, i)
  }

  function Minutes(at: Time, startsAt: Time): nat {
    Max(0, (at - startsAt) / MINUTE_MS)
  }

  /** Totals over the first `k` submissions, each judged on its own. */
  function ScoreUpto(subs: seq<Submission>, joinedAt: Time, listed: seq<Listed>, k: nat): nat
    requires k <= |subs|
  {
    if k == 0 then 0
    else ScoreUpto(subs, joinedAt, listed, k - 1) + (if FirstSolve(subs, joinedAt, k - 1) then Points(listed, subs[k - 1].problem) else 0)
  }

  function SolvedUpto(subs: seq<Submission>, joinedAt: Time, k: nat): nat
    requires k <= |subs|
  {
    if k == 0 then 0 else SolvedUpto(subs, joinedAt, k - 1) + (if FirstSolve(subs, joinedAt, k - 1) then 1 else 0)
  }

  function MinutesUpto(subs: seq<Submission>, joinedAt: Time, startsAt: Time, k: nat): nat
    requires k <= |subs|
  {
    if k == 0 then 0
    else MinutesUpto(subs, joinedAt, startsAt, k - 1) + (if FirstSolve(subs, joinedAt, k - 1) then Minutes(subs[k - 1].createdAt, startsAt) else 0)
  }

  function WrongUpto(subs: seq<Submission>, joinedAt: Time, k: nat): nat
    requires k <= |subs|
  {
    if k == 0 then 0 else WrongUpto(subs, joinedAt, k - 1) + (if WrongAttempt(subs, joinedAt, k - 1) then 1 else 0)
  }

  function RecordOf(p: Participant, listed: seq<Listed>, startsAt: Time): Entry {
    var s, n := p.submissions, |p.submissions|;
    Entry(p.username, ScoreUpto(s, p.joinedAt, listed, n), SolvedUpto(s, p.joinedAt, n),
          MinutesUpto(s, p.joinedAt, startsAt, n) + WRONG_PENALTY * WrongUpto(s, p.joinedAt, n))
  }

  // ------------------------------------------------------------------
  // The scan

  /** The `solved` map in insertion order. */
  datatype Solve = Solve(problem: Id, at: Time)

  predicate Has(solved: seq<Solve>, problem: Id) {
    exists i :: 0 <= i < |solved| && solved[i].problem == problem
  }

  function SumPoints(solved: seq<Solve>, listed: seq<Listed>): nat {
    if solved == [] then 0 else SumPoints(solved[..|solved| - 1], listed) + Points(listed, solved[|solved| - 1].problem)
  }

  function SumMinutes(solved: seq<Solve>, startsAt: Time): nat {
    if solved == [] then 0 else SumMinutes(solved[..|solved| - 1], startsAt) + Minutes(solved[|solved| - 1].at, startsAt)
  }

  /** What the scan knows after `k` submissions. */
  predicate ScanOk(subs: seq<Submission>, joinedAt: Time, listed: seq<Listed>, startsAt: Time, k: nat, solved: seq<Solve>, wrong: nat)
    requires k <= |subs|
  {
    && (forall i, j :: 0 <= i < j < |solved| ==> solved[i].problem != solved[j].problem)
    && |solved| == SolvedUpto(subs, joinedAt, k)
    && SumPoints(solved, listed) == ScoreUpto(subs, joinedAt, listed, k)
    && SumMinutes(solved, startsAt) == MinutesUpto(subs, joinedAt, startsAt, k)
    && wrong == WrongUpto(subs, joinedAt, k)
  }

  ghost predicate Remembers(subs: seq<Submission>, joinedAt: Time, k: nat, solved: seq<Solve>)
    requires k <= |subs|
  {
    forall p: Id :: Has(solved, p) <==> SolvedBy(subs, joinedAt, p, k)
  }

  lemma SolvedByGrows(subs: seq<Submission>, joinedAt: Time, p: Id, k: nat)
    requires k < |subs|
    ensures SolvedBy(subs, joinedAt, p, k + 1) <==> SolvedBy(subs, joinedAt, p, k) || (subs[k].problem == p && Solves(subs[k], joinedAt))
  {
  }

  lemma HasSnoc(solved: seq<Solve>, s: Solve, p: Id)
    ensures Has(solved + [s], p) <==> Has(solved, p) || s.problem == p
  {
    var r := solved + [s];
    assert r[|solved|] == s;
    if Has(solved, p) {
      var i :| 0 <= i < |solved| && solved[i].problem == p;
      assert r[i].problem == p;
    }
  }

  lemma RememberOne(subs: seq<Submission>, joinedAt: Time, k: nat, solved: seq<Solve>, solved': seq<Solve>)
    requires k < |subs| && Remembers(subs, joinedAt, k, solved)
    requires solved' == if FirstSolve(subs, joinedAt, k) then solved + [Solve(subs[k].problem, subs[k].createdAt)] else solved
    ensures Remembers(subs, joinedAt, k + 1, solved')
  {
    forall p: Id
      ensures Has(solved', p) <==> SolvedBy(subs, joinedAt, p, k + 1)
    {
      SolvedByGrows(subs, joinedAt, p, k);
      HasSnoc(solved, Solve(subs[k].problem, subs[k].createdAt), p);
    }
  }

  lemma SumsSnoc(solved: seq<Solve>, s: Solve, listed: seq<Listed>, startsAt: Time)
    ensures SumPoints(solved + [s], listed) == SumPoints(solved, listed) + Points(listed, s.problem)
    ensures SumMinutes(solved + [s], startsAt) == SumMinutes(solved, startsAt) + Minutes(s.at, startsAt)
  {
    assert (solved + [s])[..|solved|] == solved;
  }

  /** The map `CollectPoints` builds, read with a default of zero. */
  ghost predicate PointsOk(points: map<Id, nat>, listed: seq<Listed>) {
    forall p: Id :: (if p in points then points[p] else 0) == Points(listed, p)
  }

  /** The two reductions over the `solved` map. */
  method Totals(solved: seq<Solve>, points: map<Id, nat>, ghost listed: seq<Listed>, startsAt: Time) returns (score: nat, minutes: nat)
    requires PointsOk(points, listed)
    ensures score == SumPoints(solved, listed) && minutes == SumMinutes(solved, startsAt)
  {
    score, minutes := 0, 0;
    for i := 0 to |solved|
      invariant score == SumPoints(solved[..i], listed) && minutes == SumMinutes(solved[..i], startsAt)
    {
      var p := solved[i].problem;
      SumsSnoc(solved[..i], solved[i], listed, startsAt);
      assert solved[..i + 1] == solved[..i] + [solved[i]];
      score := score + if p in points then points[p] else 0;
      minutes := minutes + Max(0, (solved[i].at - startsAt) / MINUTE_MS);
    }
    assert solved[..|solved|] == solved;
  }

  /** The scan over one participant's submissions equals its closed form. */
  method Scan(p: Participant, points: map<Id, nat>, ghost listed: seq<Listed>, startsAt: Time) returns (entry: Entry)
    requires PointsOk(points, listed)
    ensures entry == RecordOf(p, listed, startsAt)
  {
    var solved: seq<Solve> := [];
    var wrong := 0;
    var subs := p.submissions;
    for i := 0 to |subs|
      invariant ScanOk(subs, p.joinedAt, listed, startsAt, i, solved, wrong)
      invariant Remembers(subs, p.joinedAt, i, solved)
    {
      var s := subs[i];
      ghost var before := solved;
      if s.createdAt >= p.joinedAt && !Has(solved, s.problem) {
        assert !SolvedBy(subs, p.joinedAt, s.problem, i);
        if s.verdict == Some(Accepted) {
          SumsSnoc(solved, Solve(s.problem, s.createdAt), listed, startsAt);
          solved := solved + [Solve(s.problem, s.createdAt)];
        } else {
          wrong := wrong + 1;
        }
      } else {
        assert s.createdAt >= p.joinedAt ==> SolvedBy(subs, p.joinedAt, s.problem, i);
      }
      RememberOne(subs, p.joinedAt, i, before, solved);
    }
    var score, minutes := Totals(solved, points, listed, startsAt);
    entry := Entry(p.username, score, |solved|, minutes + WRONG_PENALTY * wrong);
  }

  // ------------------------------------------------------------------
  // The record as a sum over solved problems

  function SolvedProblems(subs: seq<Submission>, joinedAt: Time, k: nat): set<Id>
    requires k <= |subs|
  {
    set i | 0 <= i < k && Solves(subs[i], joinedAt) :: subs[i].problem
  }

  /** Total of the maximum points over a set of problems. */
  ghost function SumOver(problems: set<Id>, listed: seq<Listed>): nat {
    if problems == {} then 0
    else
      var p :| p in problems;
      Points(listed, p) + SumOver(problems - {p}, listed)
  }

  lemma {:induction false} SumOverAdd(problems: set<Id>, p: Id, listed: seq<Listed>)
    requires p !in problems
    ensures SumOver(problems + {p}, listed) == SumOver(problems, listed) + Points(listed, p)
    decreases |problems|
  {
    var all := problems + {p};
    var q :| q in all && SumOver(all, listed) == Points(listed, q) + SumOver(all - {q}, listed);
    if q == p {
      assert all - {q} == problems;
    } else {
      assert all - {q} == (problems - {q}) + {p};
      assert problems == (problems - {q}) + {q};
      SumOverAdd(problems - {q}, p, listed);
      SumOverAdd(problems - {q}, q, listed);
    }
  }

  lemma SolvedProblemsStep(subs: seq<Submission>, joinedAt: Time, k: nat)
    requires k < |subs|
    ensures SolvedBy(subs, joinedAt, subs[k].problem, k) <==> subs[k].problem in SolvedProblems(subs, joinedAt, k)
    ensures SolvedProblems(subs, joinedAt, k + 1) ==
              SolvedProblems(subs, joinedAt, k) + (if Solves(subs[k], joinedAt) then {subs[k].problem} else {})
  {
  }

  lemma SolveAdds(subs: seq<Submission>, joinedAt: Time, listed: seq<Listed>, k: nat)
    requires k < |subs|
    ensures var before, after := SolvedProblems(subs, joinedAt, k), SolvedProblems(subs, joinedAt, k + 1);
      && SumOver(after, listed) == SumOver(before, listed) + (if FirstSolve(subs, joinedAt, k) then Points(listed, subs[k].problem) else 0)
      && |after| == |before| + (if FirstSolve(subs, joinedAt, k) then 1 else 0)
  {
    SolvedProblemsStep(subs, joinedAt, k);
    var before := SolvedProblems(subs, joinedAt, k);
    if FirstSolve(subs, joinedAt, k) {
      SumOverAdd(before, subs[k].problem, listed);
    } else {
      assert SolvedProblems(subs, joinedAt, k + 1) == before;
    }
  }

  /** The score is the sum of the maximum points over the distinct problems accepted at or
      after joining, and `solved` is how many those are. */
  lemma ScoreIsSumOverSolved(subs: seq<Submission>, joinedAt: Time, listed: seq<Listed>, k: nat)
    requires k <= |subs|
    ensures ScoreUpto(subs, joinedAt, listed, k) == SumOver(SolvedProblems(subs, joinedAt, k), listed)
    ensures SolvedUpto(subs, joinedAt, k) == |SolvedProblems(subs, joinedAt, k)|
  {
    assert SolvedProblems(subs, joinedAt, 0) == {};
    for i := 0 to k
      invariant ScoreUpto(subs, joinedAt, listed, i) == SumOver(SolvedProblems(subs, joinedAt, i), listed)
      invariant SolvedUpto(subs, joinedAt, i) == |SolvedProblems(subs, joinedAt, i)|
    {
      SolveAdds(subs, joinedAt, listed, i);
    }
  }

  // ------------------------------------------------------------------
  // What does not matter

  /** Extending the list cannot change how earlier submissions are judged. */
  lemma SolvedByPrefix(a: seq<Submission>, b: seq<Submission>, joinedAt: Time, p: Id, k: nat)
    requires k <= |a| && k <= |b| && forall i :: 0 <= i < k ==> a[i] == b[i]
    ensures SolvedBy(a, joinedAt, p, k) == SolvedBy(b, joinedAt, p, k)
  {
    if SolvedBy(a, joinedAt, p, k) {
      var i :| 0 <= i < k && a[i].problem == p && Solves(a[i], joinedAt);
      assert b[i].problem == p && Solves(b[i], joinedAt);
    }
    if SolvedBy(b, joinedAt, p, k) {
      var i :| 0 <= i < k && b[i].problem == p && Solves(b[i], joinedAt);
      assert a[i].problem == p && Solves(a[i], joinedAt);
    }
  }

  lemma {:induction false} TotalsPrefix(a: seq<Submission>, b: seq<Submission>, joinedAt: Time, listed: seq<Listed>, startsAt: Time, k: nat)
    requires k <= |a| && k <= |b| && forall i :: 0 <= i < k ==> a[i] == b[i]
    ensures ScoreUpto(a, joinedAt, listed, k) == ScoreUpto(b, joinedAt, listed, k)
    ensures SolvedUpto(a, joinedAt, k) == SolvedUpto(b, joinedAt, k)
    ensures MinutesUpto(a, joinedAt, startsAt, k) == MinutesUpto(b, joinedAt, startsAt, k)
    ensures WrongUpto(a, joinedAt, k) == WrongUpto(b, joinedAt, k)
  {
    if k > 0 {
      TotalsPrefix(a, b, joinedAt, listed, startsAt, k - 1);
      SolvedByPrefix(a, b, joinedAt, a[k - 1].problem, k - 1);
    }
  }

  /** A submission to a problem already solved never changes the record. */
  lemma AfterSolvingNothingCounts(p: Participant, s: Submission, listed: seq<Listed>, startsAt: Time)
    requires SolvedBy(p.submissions, p.joinedAt, s.problem, |p.submissions|)
    ensures RecordOf(p.(submissions := p.submissions + [s]), listed, startsAt) == RecordOf(p, listed, startsAt)
  {
    var a, b := p.submissions, p.submissions + [s];
    TotalsPrefix(a, b, p.joinedAt, listed, startsAt, |a|);
    SolvedByPrefix(a, b, p.joinedAt, s.problem, |a|);
    assert b[|a|] == s;
  }

  /** Nor does one made before joining. */
  lemma BeforeJoiningNothingCounts(p: Participant, s: Submission, listed: seq<Listed>, startsAt: Time)
    requires s.createdAt < p.joinedAt
    ensures RecordOf(p.(submissions := p.submissions + [s]), listed, startsAt) == RecordOf(p, listed, startsAt)
  {
    var a, b := p.submissions, p.submissions + [s];
    TotalsPrefix(a, b, p.joinedAt, listed, startsAt, |a|);
    assert b[|a|] == s;
  }

  // ------------------------------------------------------------------
  // The penalty

  /** Whole minutes since the start, none before it. */
  lemma MinutesMeaning(at: Time, startsAt: Time)
    ensures at < startsAt ==> Minutes(at, startsAt) == 0
    ensures at >= startsAt ==> 60000 * Minutes(at, startsAt) <= at - startsAt < 60000 * (Minutes(at, startsAt) + 1)
  {
  }

  /** The first acceptances, by position. */
  ghost function SolvedAt(subs: seq<Submission>, joinedAt: Time, k: nat): set<nat>
    requires k <= |subs|
  {
    set i: nat | i < k && FirstSolve(subs, joinedAt, i)
  }

  ghost function WrongAt(subs: seq<Submission>, joinedAt: Time, k: nat): set<nat>
    requires k <= |subs|
  {
    set i: nat | i < k && WrongAttempt(subs, joinedAt, i)
  }

  ghost function SumMinutesAt(positions: set<nat>, subs: seq<Submission>, startsAt: Time): nat
    requires forall i <- positions :: i < |subs|
  {
    if positions == {} then 0
    else
      var i :| i in positions;
      Minutes(subs[i].createdAt, startsAt) + SumMinutesAt(positions - {i}, subs, startsAt)
  }

  lemma {:induction false} SumMinutesAdd(positions: set<nat>, p: nat, subs: seq<Submission>, startsAt: Time)
    requires p !in positions && p < |subs| && forall i <- positions :: i < |subs|
    ensures SumMinutesAt(positions + {p}, subs, startsAt) == SumMinutesAt(positions, subs, startsAt) + Minutes(subs[p].createdAt, startsAt)
    decreases |positions|
  {
    var all := positions + {p};
    var q :| q in all && SumMinutesAt(all, subs, startsAt) == Minutes(subs[q].createdAt, startsAt) + SumMinutesAt(all - {q}, subs, startsAt);
    if q == p {
      assert all - {q} == positions;
    } else {
      assert all - {q} == (positions - {q}) + {p};
      assert positions == (positions - {q}) + {q};
      SumMinutesAdd(positions - {q}, p, subs, startsAt);
      SumMinutesAdd(positions - {q}, q, subs, startsAt);
    }
  }

  lemma SolveStep(subs: seq<Submission>, joinedAt: Time, startsAt: Time, k: nat)
    requires k < |subs|
    ensures SumMinutesAt(SolvedAt(subs, joinedAt, k + 1), subs, startsAt)
            == SumMinutesAt(SolvedAt(subs, joinedAt, k), subs, startsAt) +
               (if FirstSolve(subs, joinedAt, k) then Minutes(subs[k].createdAt, startsAt) else 0)
  {
    var before, after := SolvedAt(subs, joinedAt, k), SolvedAt(subs, joinedAt, k + 1);
    if FirstSolve(subs, joinedAt, k) {
      assert after == before + {k};
      SumMinutesAdd(before, k, subs, startsAt);
    } else {
      assert after == before;
    }
  }

  lemma WrongStep(subs: seq<Submission>, joinedAt: Time, k: nat)
    requires k < |subs|
    ensures |WrongAt(subs, joinedAt, k + 1)| == |WrongAt(subs, joinedAt, k)| + (if WrongAttempt(subs, joinedAt, k) then 1 else 0)
  {
    var before, after := WrongAt(subs, joinedAt, k), WrongAt(subs, joinedAt, k + 1);
    assert after == before + (if WrongAttempt(subs, joinedAt, k) then {k} else {});
  }

  /** The penalty: the minutes of each problem's first acceptance, and twenty for every wrong
      attempt before one. */
  lemma PenaltyIsExact(p: Participant, listed: seq<Listed>, startsAt: Time)
    ensures var n := |p.submissions|;
      RecordOf(p, listed, startsAt).penalty ==
        SumMinutesAt(SolvedAt(p.submissions, p.joinedAt, n), p.submissions, startsAt) + 20 * |WrongAt(p.submissions, p.joinedAt, n)|
  {
    var subs, joinedAt := p.submissions, p.joinedAt;
    assert SolvedAt(subs, joinedAt, 0) == {} && WrongAt(subs, joinedAt, 0) == {};
    for k := 0 to |subs|
      invariant MinutesUpto(subs, joinedAt, startsAt, k) == SumMinutesAt(SolvedAt(subs, joinedAt, k), subs, startsAt)
      invariant WrongUpto(subs, joinedAt, k) == |WrongAt(subs, joinedAt, k)|
    {
      SolveStep(subs, joinedAt, startsAt, k);
      WrongStep(subs, joinedAt, k);
    }
  }

  /** What counts: a first acceptance and a wrong attempt are made at or after joining, to a
      problem no earlier such submission solved, and any verdict but ACCEPTED is wrong. */
  lemma CountingIsExact(subs: seq<Submission>, joinedAt: Time, i: nat)
    requires i < |subs|
    ensures var open := subs[i].createdAt >= joinedAt && forall j :: 0 <= j < i ==>
                !(subs[j].problem == subs[i].problem && subs[j].createdAt >= joinedAt && subs[j].verdict == Some(Accepted));
      && (FirstSolve(subs, joinedAt, i) <==> open && subs[i].verdict == Some(Accepted))
      && (WrongAttempt(subs, joinedAt, i) <==> open && subs[i].verdict != Some(Accepted))
  {
  }

  // ------------------------------------------------------------------
  // Ranking

  /** The comparator: score, then solved, then penalty, then username. */
  predicate RanksBefore(a: Entry, b: Entry) {
    if a.score != b.score then a.score > b.score
    else if a.solved != b.solved then a.solved > b.solved
    else if a.penalty != b.penalty then a.penalty < b.penalty
    else a.username <= b.username
  }

  function Records(ps: seq<Participant>, listed: seq<Listed>, startsAt: Time): (r: seq<Entry>)
    ensures |r| == |ps| && forall i :: 0 <= i < |ps| ==> r[i] == RecordOf(ps[i], listed, startsAt)
  {
    seq(|ps|, i requires 0 <= i < |ps| => RecordOf(ps[i], listed, startsAt))
  }

  function Board(ps: seq<Participant>, listed: seq<Listed>, startsAt: Time): (r: seq<Ranked>)
    ensures |r| == |ps| && forall i :: 0 <= i < |r| ==> r[i].rank == i + 1
  {
    var sorted := Sort(RanksBefore, Records(ps, listed, startsAt));
    seq(|sorted|, i requires 0 <= i < |sorted| => Ranked(i + 1, sorted[i]))
  }

  function Entries(board: seq<Ranked>): (r: seq<Entry>)
    ensures |r| == |board| && forall i :: 0 <= i < |board| ==> r[i] == board[i].entry
  {
    seq(|board|, i requires 0 <= i < |board| => board[i].entry)
  }

  predicate DistinctNames(ps: seq<Participant>) {
    forall i, j :: 0 <= i < j < |ps| ==> ps[i].username != ps[j].username
  }

  lemma RankingIsLinear(ps: seq<Participant>, listed: seq<Listed>, startsAt: Time)
    requires DistinctNames(ps)
    ensures LinearOn(RanksBefore, Records(ps, listed, startsAt))
  {
    var r := Records(ps, listed, startsAt);
    forall a, b | a in r && b in r && RanksBefore(a, b) && RanksBefore(b, a)
      ensures a == b
    {
      var i :| 0 <= i < |r| && r[i] == a;
      var j :| 0 <= j < |r| && r[j] == b;
    }
  }

  lemma SwapRecord(ps: seq<Participant>, i: nat, listed: seq<Listed>, startsAt: Time)
    requires i < |ps|
    ensures Records(Without(ps, i), listed, startsAt) == Without(Records(ps, listed, startsAt), i)
  {
  }

  /** The records of a permutation are a permutation of the records. */
  lemma {:induction false} RecordsPermute(p: seq<Participant>, q: seq<Participant>, listed: seq<Listed>, startsAt: Time)
    requires multiset(p) == multiset(q)
    ensures multiset(Records(p, listed, startsAt)) == multiset(Records(q, listed, startsAt))
    decreases |p|
  {
    assert |p| == |multiset(p)| == |multiset(q)| == |q|;
    if p != [] {
      MemberOfBag(p, q, p[0]);
      var j :| 0 <= j < |q| && q[j] == p[0];
      WithoutBag(p, 0);
      WithoutBag(q, j);
      BagsCancel(multiset(Without(p, 0)), multiset(Without(q, j)), p[0]);
      RecordsPermute(Without(p, 0), Without(q, j), listed, startsAt);
      SwapRecord(p, 0, listed, startsAt);
      SwapRecord(q, j, listed, startsAt);
      WithoutBag(Records(p, listed, startsAt), 0);
      WithoutBag(Records(q, listed, startsAt), j);
    }
  }

  /** The board holds every participant's record once, in comparator order, and for distinct
      usernames the board does not depend on the order of the registrations. */
  lemma BoardIgnoresRegistrationOrder(p: seq<Participant>, q: seq<Participant>, listed: seq<Listed>, startsAt: Time)
    requires multiset(p) == multiset(q) && DistinctNames(p)
    ensures Board(p, listed, startsAt) == Board(q, listed, startsAt)
    ensures multiset(Entries(Board(p, listed, startsAt))) == multiset(Records(p, listed, startsAt))
    ensures forall i, j :: 0 <= i < j < |p| ==> RanksBefore(Board(p, listed, startsAt)[i].entry, Board(p, listed, startsAt)[j].entry)
  {
    var r := Records(p, listed, startsAt);
    RecordsPermute(p, q, listed, startsAt);
    RankingIsLinear(p, listed, startsAt);
    SortForgetsOrder(RanksBefore, r, Records(q, listed, startsAt));
    SortOrders(RanksBefore, r, r);
    SortBag(RanksBefore, r);
    assert Entries(Board(p, listed, startsAt)) == Sort(RanksBefore, r);
  }

  /** Who ranks above whom: more points, then more problems, then the smaller penalty, then the
      username. */
  lemma RankingIsExact(ps: seq<Participant>, listed: seq<Listed>, startsAt: Time, i: nat, j: nat)
    requires DistinctNames(ps) && i < j < |ps|
    ensures var a, b := Board(ps, listed, startsAt)[i].entry, Board(ps, listed, startsAt)[j].entry;
      && a.score >= b.score
      && (a.score == b.score ==> a.solved >= b.solved)
      && (a.score == b.score && a.solved == b.solved ==> a.penalty <= b.penalty)
      && (a.score == b.score && a.solved == b.solved && a.penalty == b.penalty ==> a.username < b.username)
  {
    BoardIgnoresRegistrationOrder(ps, ps, listed, startsAt);
    BoardNames(ps, listed, startsAt, i, j);
    assert RanksBefore(Board(ps, listed, startsAt)[i].entry, Board(ps, listed, startsAt)[j].entry);
  }

  lemma BoardNames(ps: seq<Participant>, listed: seq<Listed>, startsAt: Time, i: nat, j: nat)
    requires DistinctNames(ps) && i < j < |ps|
    ensures Board(ps, listed, startsAt)[i].entry.username != Board(ps, listed, startsAt)[j].entry.username
  {
    var r := Records(ps, listed, startsAt);
    SortBag(RanksBefore, r);
    PairOccurs(r, Sort(RanksBefore, r), i, j);
  }

  /** `buildLeaderboard`: points, one scan per registration, the sort and the ranks. */
  method BuildLeaderboard(ps: seq<Participant>, listed: seq<Listed>, startsAt: Time) returns (board: seq<Ranked>)
    ensures board == Board(ps, listed, startsAt)
  {
    var points := CollectPoints(listed);
    var entries: seq<Entry> := [];
    for i := 0 to |ps|
      invariant |entries| == i && forall j :: 0 <= j < i ==> entries[j] == RecordOf(ps[j], listed, startsAt)
    {
      var entry := Scan(ps[i], points, listed, startsAt);
      entries := entries + [entry];
    }
    assert entries == Records(ps, listed, startsAt);
    var sorted := Sort(RanksBefore, entries);
    board := [];
    for i := 0 to |sorted|
      invariant |board| == i && forall j :: 0 <= j < i ==> board[j] == Ranked(j + 1, sorted[j])
    {
      board := board + [Ranked(i + 1, sorted[i])];
    }
  }
}
