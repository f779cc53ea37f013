/** The judge: case selection, comparison, aggregate verdict and the budgeted public
    projection (packages/judge/src/judge.ts). */
module Judge {
  import opened Contracts
  import opened Text
  import opened Ordering

  const MAX_CASES := 100
  const MAX_OBSERVED_BYTES := 1048576
  const STREAM_BYTES := 4096
  const PUBLIC_BYTES := 24576
  const MAX_SAFE_INTEGER := 9007199254740991

  datatype Comparator = ExactNewline | UnknownComparator
  datatype Visibility = PublicCase | HiddenCase
  datatype Language = Java | Python | JavaScript

  datatype JudgeCase = JudgeCase(id: Id, ordinal: int, visibility: Visibility, expected: Str)
  datatype Plan = Plan(comparator: Comparator, cases: seq<JudgeCase>)

  datatype Failure = TimeLimit | MemoryLimit | OutputLimit
  datatype Observed = Observed(
    caseId: Id, stdout: Str, stderr: Str, exitCode: Option<int>, failure: Option<Failure>,
    wallMs: int, cpuMs: Option<int>, memoryKiB: Option<int>)
  datatype Compilation = Compilation(ok: bool, stdout: Str, stderr: Str)
  datatype Observation = Observation(cancellationConfirmed: bool, compilation: Option<Compilation>, cases: seq<Observed>)

  /** The judge returns a result, raises a protocol error, or reports the cancellation. */
  datatype Judged = Result(result: WorkerResult) | ProtocolError | SandboxCancelled

  // ------------------------------------------------------------------
  // Selection

  predicate DistinctIds(cases: seq<JudgeCase>) {
    forall i, j :: 0 <= i < j < |cases| ==> cases[i].id != cases[j].id
  }

  predicate DistinctOrdinals(cases: seq<JudgeCase>) {
    forall i, j :: 0 <= i < j < |cases| ==> cases[i].ordinal != cases[j].ordinal
  }

  predicate PlanOk(plan: Plan) {
    && plan.comparator == ExactNewline && 0 < |plan.cases| <= MAX_CASES
    && DistinctIds(plan.cases) && DistinctOrdinals(plan.cases)
    && forall c <- plan.cases :: c.ordinal >= 0
  }

  predicate Chosen(c: JudgeCase, mode: Mode) {
    mode == SubmitMode || c.visibility == PublicCase
  }

  function ChosenOnly(cases: seq<JudgeCase>, mode: Mode): (r: seq<JudgeCase>)
    ensures |r| <= |cases|
  {
    if cases == [] then []
    else ChosenOnly(cases[..|cases| - 1], mode) + (if Chosen(cases[|cases| - 1], mode) then [cases[|cases| - 1]] else [])
  }

  predicate ByOrdinal(a: JudgeCase, b: JudgeCase) {
    a.ordinal <= b.ordinal
  }

  /** Filter and sort by ordinal. */
  function Sorted(cases: seq<JudgeCase>, mode: Mode): (r: seq<JudgeCase>)
    ensures |r| <= |cases|
  {
    Sort(ByOrdinal, ChosenOnly(cases, mode))
  }

  function SelectCases(plan: Plan, mode: Mode): Option<seq<JudgeCase>> {
    if !PlanOk(plan) then None
    else
      var cases := Sorted(plan.cases, mode);
      if cases == [] then None else Some(cases)
  }

  lemma {:induction false} ChosenCount(cases: seq<JudgeCase>, mode: Mode, c: JudgeCase)
    ensures multiset(ChosenOnly(cases, mode))[c] == if Chosen(c, mode) then multiset(cases)[c] else 0
  {
    if cases != [] {
      ChosenCount(cases[..|cases| - 1], mode, c);
      assert cases == cases[..|cases| - 1] + [cases[|cases| - 1]];
    }
  }

  lemma ChosenMember(cases: seq<JudgeCase>, mode: Mode, c: JudgeCase)
    ensures c in ChosenOnly(cases, mode) <==> c in cases && Chosen(c, mode)
  {
    ChosenCount(cases, mode, c);
    assert c in ChosenOnly(cases, mode) <==> c in multiset(ChosenOnly(cases, mode));
    assert c in cases <==> c in multiset(cases);
  }

  lemma SortedMember(cases: seq<JudgeCase>, mode: Mode, c: JudgeCase)
    ensures c in Sorted(cases, mode) <==> c in cases && Chosen(c, mode)
  {
    ChosenMember(cases, mode, c);
    SortMembers(ByOrdinal, ChosenOnly(cases, mode), c);
  }

  lemma {:induction false} ChosenDistinct(cases: seq<JudgeCase>, mode: Mode)
    requires DistinctIds(cases)
    ensures DistinctIds(ChosenOnly(cases, mode))
  {
    if cases != [] {
      var n := |cases| - 1;
      ChosenDistinct(cases[..n], mode);
      var front := ChosenOnly(cases[..n], mode);
      forall i | 0 <= i < |front|
        ensures front[i].id != cases[n].id
      {
        ChosenMember(cases[..n], mode, front[i]);
      }
    }
  }

  /** The selected cases have distinct identifiers. */
  lemma SelectedDistinct(cases: seq<JudgeCase>, mode: Mode)
    requires DistinctIds(cases)
    ensures DistinctIds(Sorted(cases, mode))
  {
    var chosen, s := ChosenOnly(cases, mode), Sorted(cases, mode);
    ChosenDistinct(cases, mode);
    SortBag(ByOrdinal, chosen);
    forall i, j | 0 <= i < j < |s|
      ensures s[i].id != s[j].id
    {
      PairOccurs(chosen, s, i, j);
    }
  }

  /** Which cases a run is judged on: a SUBMIT on every case of the plan, hidden ones
      included, each as often as the plan has it; a RUN on exactly the public ones. */
  lemma SelectionIsExact(plan: Plan, mode: Mode, c: JudgeCase)
    requires SelectCases(plan, mode).Some?
    ensures var cases := SelectCases(plan, mode).value;
      && (mode == SubmitMode ==> multiset(cases) == multiset(plan.cases))
      && (mode == RunMode ==> (c in cases <==> c in plan.cases && c.visibility == PublicCase))
      && (forall i, j :: 0 <= i < j < |cases| ==> cases[i].ordinal < cases[j].ordinal && cases[i].id != cases[j].id)
      && 0 < |cases| <= 100
  {
    var cases := Sorted(plan.cases, mode);
    SortedMember(plan.cases, mode, c);
    SelectedDistinct(plan.cases, mode);
    SelectedStrictly(plan.cases, mode);
    if mode == SubmitMode {
      forall x
        ensures multiset(cases)[x] == multiset(plan.cases)[x]
      {
        ChosenCount(plan.cases, mode, x);
        SortBag(ByOrdinal, ChosenOnly(plan.cases, mode));
      }
    }
  }

  /** When there is nothing to judge on: a malformed plan, or no case that qualifies. */
  lemma SelectionFails(plan: Plan, mode: Mode)
    ensures SelectCases(plan, mode).None? <==>
              || plan.comparator != ExactNewline || |plan.cases| == 0 || |plan.cases| > 100
              || (exists i, j :: 0 <= i < j < |plan.cases| &&
                    (plan.cases[i].id == plan.cases[j].id || plan.cases[i].ordinal == plan.cases[j].ordinal))
              || (exists i :: 0 <= i < |plan.cases| && plan.cases[i].ordinal < 0)
              || (mode == RunMode && forall i :: 0 <= i < |plan.cases| ==> plan.cases[i].visibility != PublicCase)
  {
    if PlanOk(plan) {
      if Sorted(plan.cases, mode) == [] {
        forall i | 0 <= i < |plan.cases|
          ensures mode == RunMode && plan.cases[i].visibility != PublicCase
        {
          SortedMember(plan.cases, mode, plan.cases[i]);
        }
        assert plan.cases[0].visibility != PublicCase;
      } else {
        var c := Sorted(plan.cases, mode)[0];
        SortedMember(plan.cases, mode, c);
        assert exists i :: 0 <= i < |plan.cases| && plan.cases[i] == c;
      }
    }
  }

  lemma OrdinalsAreLinear(cases: seq<JudgeCase>, chosen: seq<JudgeCase>)
    requires DistinctOrdinals(cases) && forall c <- chosen :: c in cases
    ensures LinearOn(ByOrdinal, chosen)
  {
    forall a, b | a in chosen && b in chosen && ByOrdinal(a, b) && ByOrdinal(b, a)
      ensures a == b
    {
      assert a in cases && b in cases && a.ordinal == b.ordinal;
    }
  }

  lemma SortedPermutes(p: seq<JudgeCase>, q: seq<JudgeCase>, mode: Mode)
    requires multiset(p) == multiset(q) && DistinctOrdinals(p)
    ensures Sorted(p, mode) == Sorted(q, mode)
  {
    var a, b := ChosenOnly(p, mode), ChosenOnly(q, mode);
    forall c
      ensures multiset(a)[c] == multiset(b)[c]
    {
      ChosenCount(p, mode, c);
      ChosenCount(q, mode, c);
    }
    assert multiset(a) == multiset(b);
    forall c | c in a
      ensures c in p
    {
      ChosenMember(p, mode, c);
    }
    OrdinalsAreLinear(p, a);
    SortForgetsOrder(ByOrdinal, a, b);
  }

  /** The selected cases are in ordinal order. */
  lemma SelectedOrdered(cases: seq<JudgeCase>, mode: Mode)
    requires DistinctOrdinals(cases)
    ensures OrderedBy(ByOrdinal, Sorted(cases, mode))
  {
    var chosen := ChosenOnly(cases, mode);
    forall c | c in chosen
      ensures c in cases
    {
      ChosenMember(cases, mode, c);
    }
    OrdinalsAreLinear(cases, chosen);
    SortOrders(ByOrdinal, chosen, chosen);
  }

  lemma SelectedStrictly(cases: seq<JudgeCase>, mode: Mode)
    requires DistinctOrdinals(cases)
    ensures var s := Sorted(cases, mode);
      forall i, j :: 0 <= i < j < |s| ==> s[i].ordinal < s[j].ordinal
  {
    var chosen, s := ChosenOnly(cases, mode), Sorted(cases, mode);
    SelectedOrdered(cases, mode);
    ChosenOrdinals(cases, mode);
    SortBag(ByOrdinal, chosen);
    forall i, j | 0 <= i < j < |s|
      ensures s[i].ordinal < s[j].ordinal
    {
      PairOccurs(chosen, s, i, j);
    }
  }

  lemma {:induction false} ChosenOrdinals(cases: seq<JudgeCase>, mode: Mode)
    requires DistinctOrdinals(cases)
    ensures DistinctOrdinals(ChosenOnly(cases, mode))
  {
    if cases != [] {
      var n := |cases| - 1;
      ChosenOrdinals(cases[..n], mode);
      var front := ChosenOnly(cases[..n], mode);
      forall i | 0 <= i < |front|
        ensures front[i].ordinal != cases[n].ordinal
      {
        ChosenMember(cases[..n], mode, front[i]);
      }
    }
  }

  /** A well-formed plan is one exactly up to the order of its cases. */
  lemma PlanOkPermutes(p: Plan, q: Plan)
    requires multiset(p.cases) == multiset(q.cases) && p.comparator == q.comparator && PlanOk(p)
    ensures PlanOk(q)
  {
    assert |p.cases| == |multiset(p.cases)| == |multiset(q.cases)| == |q.cases|;
    forall c | c in q.cases
      ensures c.ordinal >= 0
    {
      MemberOfBag(q.cases, p.cases, c);
    }
    forall i, j | 0 <= i < j < |q.cases|
      ensures q.cases[i].id != q.cases[j].id && q.cases[i].ordinal != q.cases[j].ordinal
    {
      PairOccurs(p.cases, q.cases, i, j);
    }
  }

  // ------------------------------------------------------------------
  // Comparison

  const CR: CodePoint := 13
  const LF: CodePoint := 10

  /** replace(/\r\n/g, '\n'), from index `k`. */
  function NewlinesFrom(t: Str, k: nat): Str
    requires k <= |t|
    decreases |t| - k
  {
    if k == |t| then []
    else if k + 1 < |t| && t[k] == CR && t[k + 1] == LF then [LF] + NewlinesFrom(t, k + 2)
    else [t[k]] + NewlinesFrom(t, k + 1)
  }

  function Newlines(t: Str): Str {
    NewlinesFrom(t, 0)
  }

  predicate CompareOutput(actual: Str, expected: Str) {
    var a, e := Newlines(actual), Newlines(expected);
    a == e || a == e + [LF] || a + [LF] == e
  }

  /** Output matches up to line endings and one final newline, in either direction. */
  lemma CompareIsSymmetric(a: Str, b: Str)
    ensures CompareOutput(a, b) <==> CompareOutput(b, a)
  {
  }

  /** The tolerance does not add up: two newlines are one too many. */
  lemma CompareIsNotTransitive()
    ensures CompareOutput([], [LF]) && CompareOutput([LF], [LF, LF]) && !CompareOutput([], [LF, LF])
  {
    assert NewlinesFrom([LF], 1) == [] && NewlinesFrom([LF, LF], 2) == [];
    assert NewlinesFrom([LF, LF], 1) == [LF];
  }

  /** Two matches chain exactly when the normalised lengths of the ends differ by at most
      one newline. */
  lemma CompareChains(a: Str, b: Str, c: Str)
    requires CompareOutput(a, b) && CompareOutput(b, c)
    ensures CompareOutput(a, c) <==> -1 <= |Newlines(a)| - |Newlines(c)| <= 1
  {
    var x, y, z := Newlines(a), Newlines(b), Newlines(c);
    assert x + [LF] == y && z + [LF] == y ==> x == y[..|y| - 1] == z;
  }

  /** A CR directly before a LF. */
  predicate InCrLf(t: Str, k: nat)
    requires k < |t|
  {
    t[k] == CR && k + 1 < |t| && t[k + 1] == LF
  }

  /** The text from `k` on without the CRs that stand directly before a LF. */
  function WithoutCrFrom(t: Str, k: nat): Str
    requires k <= |t|
    decreases |t| - k
  {
    if k == |t| then [] else (if InCrLf(t, k) then [] else [t[k]]) + WithoutCrFrom(t, k + 1)
  }

  /** Normalising line endings drops exactly those CRs, each judged by its own neighbour. */
  lemma {:induction false} NewlinesDropCrs(t: Str, k: nat)
    requires k <= |t|
    ensures NewlinesFrom(t, k) == WithoutCrFrom(t, k)
    decreases |t| - k
  {
    if k < |t| {
      if InCrLf(t, k) {
        NewlinesDropCrs(t, k + 2);
        assert WithoutCrFrom(t, k + 1) == [LF] + WithoutCrFrom(t, k + 2);
      } else {
        NewlinesDropCrs(t, k + 1);
      }
    }
  }

  /** What a match means, for all text: equal but for CRs before LFs and one final newline. */
  lemma CompareMeaning(a: Str, e: Str)
    ensures var x, y := WithoutCrFrom(a, 0), WithoutCrFrom(e, 0);
      CompareOutput(a, e) <==> x == y || x == y + [LF] || x + [LF] == y
  {
    NewlinesDropCrs(a, 0);
    NewlinesDropCrs(e, 0);
  }

  // ------------------------------------------------------------------
  // Display

  function PrefixFrom(t: Str, k: nat, bytes: nat): (r: nat)
    requires k <= |t| && Utf8Upto(t, k) <= bytes
    ensures k <= r <= |t| && Utf8Upto(t, r) <= bytes
    ensures r < |t| ==> Utf8Upto(t, r + 1) > bytes
    decreases |t| - k
  {
    if k < |t| && Utf8Upto(t, k + 1) <= bytes then PrefixFrom(t, k + 1, bytes) else k
  }

  /** The longest prefix of whole code points that fits. */
  function Display(t: Str, bytes: nat): (r: Str)
    ensures Utf8Bytes(r) <= bytes && r <= t
  {
    var r := t[..PrefixFrom(t, 0, bytes)];
    Utf8Prefix(r, t, |r|);
    r
  }

  /** No longer prefix fits, so the displayed text is cut only when the whole does not fit. */
  lemma DisplayIsLongest(t: Str, bytes: nat, k: nat)
    requires k <= |t|
    ensures Utf8Upto(t, k) <= bytes <==> k <= |Display(t, bytes)|
    ensures Utf8Bytes(Display(t, bytes)) < Utf8Bytes(t) <==> Display(t, bytes) != t
    ensures Display(t, bytes) == t <==> Utf8Bytes(t) <= bytes
  {
    var r := PrefixFrom(t, 0, bytes);
    if k <= r {
      Utf8Monotone(t, k, r);
    } else {
      Utf8Monotone(t, r + 1, k);
    }
    Utf8Prefix(Display(t, bytes), t, r);
    Utf8Monotone(t, r, |t|);
    if r < |t| {
      Utf8Monotone(t, r + 1, |t|);
    }
  }

  // ------------------------------------------------------------------
  // The verdict

  function FailureVerdict(f: Failure): Verdict {
    match f
    case TimeLimit => TimeLimitExceeded
    case MemoryLimit => MemoryLimitExceeded
    case OutputLimit => OutputLimitExceeded
  }

  /** Trusted evidence first, then the exit code, then the output. */
  function Classify(o: Observed, test: JudgeCase): Verdict {
    if o.failure.Some? then FailureVerdict(o.failure.value)
    else if o.exitCode != Some(0) then RuntimeError
    else if CompareOutput(o.stdout, test.expected) then Accepted
    else WrongAnswer
  }

  predicate SafeInt(n: Option<int>) {
    n.Some? ==> 0 <= n.value <= MAX_SAFE_INTEGER
  }

  /** `observedCaseSchema`. */
  predicate CaseParses(o: Observed) {
    && (o.exitCode.Some? ==> 0 <= o.exitCode.value <= 255)
    && o.wallMs >= 0 && SafeInt(o.cpuMs) && SafeInt(o.memoryKiB)
    && (o.cpuMs.Some? <==> o.memoryKiB.Some?)
  }

  function CaseBytesFrom(cases: seq<Observed>, k: nat): nat
    requires k <= |cases|
    decreases |cases| - k
  {
    if k == |cases| then 0 else Utf8Bytes(cases[k].stdout) + Utf8Bytes(cases[k].stderr) + CaseBytesFrom(cases, k + 1)
  }

  function ObservedBytes(o: Observation): nat {
    CaseBytesFrom(o.cases, 0) +
    (match o.compilation case Some(c) => Utf8Bytes(c.stdout) + Utf8Bytes(c.stderr) case None => 0)
  }

  predicate Parses(o: Observation) {
    |o.cases| <= MAX_CASES && forall i :: 0 <= i < |o.cases| ==> CaseParses(o.cases[i])
  }

  /** The observation covers a prefix of the cases, in order, with a failure only at its
      end and, when it is short, necessarily there. */
  predicate CoversPrefix(cases: seq<JudgeCase>, seen: seq<Observed>) {
    && 0 < |seen| <= |cases|
    && (|seen| != |cases| ==> seen[|seen| - 1].failure.Some?)
    && forall i :: 0 <= i < |seen| ==>
         && seen[i].caseId == cases[i].id
         && (seen[i].failure.None? ==> seen[i].exitCode.Some?)
         && (seen[i].failure.Some? ==> i == |seen| - 1)
  }

  /** The language and the compilation evidence agree. */
  predicate CompilationFits(language: Language, o: Observation) {
    language == Java <==> o.compilation.Some?
  }

  predicate CompileFailed(o: Observation) {
    o.compilation.Some? && !o.compilation.value.ok
  }

  /** Everything the judge demands before it looks at outputs. */
  predicate WellFormed(cases: seq<JudgeCase>, language: Language, o: Observation) {
    && Parses(o) && ObservedBytes(o) <= MAX_OBSERVED_BYTES
    && (!o.cancellationConfirmed ==>
          && CompilationFits(language, o)
          && (if CompileFailed(o) then o.cases == [] else CoversPrefix(cases, o.cases)))
  }

  /** The loop's verdict after `k` observations. */
  function VerdictAfter(cases: seq<JudgeCase>, seen: seq<Observed>, k: nat): Verdict
    requires k <= |seen| <= |cases|
  {
    if k == 0 then Accepted
    else
      var before := VerdictAfter(cases, seen, k - 1);
      if before == Accepted then Classify(seen[k - 1], cases[k - 1]) else before
  }

  /** What is shown of one observation's stdout under a remaining public budget. */
  function ShowOut(strip: Strip, o: Observed, budget: nat): (t: Str)
    ensures Utf8Bytes(t) <= budget
  {
    Display(Sanitized(strip, o.stdout), Min(STREAM_BYTES, budget))
  }

  function ShowErr(strip: Strip, o: Observed, budget: nat): (t: Str)
    ensures Utf8Bytes(t) <= budget - Utf8Bytes(ShowOut(strip, o, budget))
  {
    Display(Sanitized(strip, o.stderr), Min(STREAM_BYTES, budget - Utf8Bytes(ShowOut(strip, o, budget))))
  }

  /** Budget left after one observation. */
  function Left(strip: Strip, o: Observed, budget: nat): nat {
    budget - Utf8Bytes(ShowOut(strip, o, budget)) - Utf8Bytes(ShowErr(strip, o, budget))
  }

  /** Public budget left before observation `k`. */
  function BudgetAt(strip: Strip, seen: seq<Observed>, k: nat): nat
    requires k <= |seen|
  {
    if k == 0 then PUBLIC_BYTES else Left(strip, seen[k - 1], BudgetAt(strip, seen, k - 1))
  }

  function AsNat(n: Option<int>): Option<nat>
    requires SafeInt(n)
  {
    if n.Some? then Some(n.value) else None
  }

  /** The public view of one observation. */
  function Project(strip: Strip, test: JudgeCase, o: Observed, budget: nat): CaseResult
    requires CaseParses(o)
  {
    var out, err := ShowOut(strip, o, budget), ShowErr(strip, o, budget);
    CaseResult(test.id, Classify(o, test), Some(out), Some(err),
               Utf8Bytes(Sanitized(strip, o.stdout)) > Utf8Bytes(out) || Utf8Bytes(Sanitized(strip, o.stderr)) > Utf8Bytes(err),
               o.exitCode, AsNat(o.cpuMs), AsNat(o.memoryKiB))
  }

  function Public(strip: Strip, cases: seq<JudgeCase>, seen: seq<Observed>, k: nat): CaseResult
    requires k < |seen| <= |cases| && CaseParses(seen[k])
  {
    Project(strip, cases[k], seen[k], BudgetAt(strip, seen, k))
  }

  /** The public results of the first `k` observations. */
  function PublicUpto(strip: Strip, cases: seq<JudgeCase>, seen: seq<Observed>, k: nat): (r: seq<CaseResult>)
    requires k <= |seen| <= |cases| && forall i :: 0 <= i < |seen| ==> CaseParses(seen[i])
    ensures |r| == k
  {
    if k == 0 then [] else PublicUpto(strip, cases, seen, k - 1) + [Public(strip, cases, seen, k - 1)]
  }

  predicate Measured(seen: seq<Observed>) {
    forall i :: 0 <= i < |seen| ==> seen[i].cpuMs.Some? && seen[i].memoryKiB.Some?
  }

  function MaxCpu(seen: seq<Observed>, k: nat): (m: nat)
    requires k <= |seen| && Measured(seen) && forall i :: 0 <= i < |seen| ==> CaseParses(seen[i])
    ensures forall i :: 0 <= i < k ==> seen[i].cpuMs.value <= m
    ensures k > 0 ==> exists i :: 0 <= i < k && seen[i].cpuMs.value == m
  {
    if k == 0 then 0 else Max(MaxCpu(seen, k - 1), seen[k - 1].cpuMs.value)
  }

  function MaxMemory(seen: seq<Observed>, k: nat): (m: nat)
    requires k <= |seen| && Measured(seen) && forall i :: 0 <= i < |seen| ==> CaseParses(seen[i])
    ensures forall i :: 0 <= i < k ==> seen[i].memoryKiB.value <= m
    ensures k > 0 ==> exists i :: 0 <= i < k && seen[i].memoryKiB.value == m
  {
    if k == 0 then 0 else Max(MaxMemory(seen, k - 1), seen[k - 1].memoryKiB.value)
  }

  function JudgeCases(strip: Strip, cases: seq<JudgeCase>, mode: Mode, seen: seq<Observed>): WorkerResult
    requires CoversPrefix(cases, seen) && forall i :: 0 <= i < |seen| ==> CaseParses(seen[i])
  {
    WorkerResult(
      VerdictAfter(cases, seen, |seen|),
      if Measured(seen) then Some(MaxCpu(seen, |seen|)) else None,
      if Measured(seen) then Some(MaxMemory(seen, |seen|)) else None,
      if mode == RunMode then Some(PublicUpto(strip, cases, seen, |seen|)) else None)
  }

  /** `judge`, for a language the schema knows. */
  function JudgeOf(strip: Strip, plan: Plan, mode: Mode, language: Language, o: Observation): Judged {
    match SelectCases(plan, mode)
    case None => ProtocolError
    case Some(cases) =>
      if !WellFormed(cases, language, o) then ProtocolError
      else if o.cancellationConfirmed then SandboxCancelled
      else if CompileFailed(o) then Result(WorkerResult(CompilationError, None, None, None))
      else Result(JudgeCases(strip, cases, mode, o.cases))
  }
}
