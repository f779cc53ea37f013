/** What the judge promises: its verdict, its independence of case order and, for
    submissions, of output text; and the loops that compute it. */
module JudgeTheorems {
  import opened Contracts
  import opened Text
  import opened Judge

  /** The loop keeps the verdict of the first case that is not accepted. */
  lemma {:induction false} VerdictIsFirstFailure(cases: seq<JudgeCase>, seen: seq<Observed>, k: nat)
    requires k <= |seen| <= |cases|
    ensures VerdictAfter(cases, seen, k) == Accepted <==> forall i :: 0 <= i < k ==> Classify(seen[i], cases[i]) == Accepted
    ensures VerdictAfter(cases, seen, k) != Accepted ==>
              exists i :: 0 <= i < k && Classify(seen[i], cases[i]) == VerdictAfter(cases, seen, k)
                && forall j :: 0 <= j < i ==> Classify(seen[j], cases[j]) == Accepted
  {
    if k > 0 {
      VerdictIsFirstFailure(cases, seen, k - 1);
    }
  }

  /** A passing observation of one case. */
  predicate Passes(o: Observed, test: JudgeCase) {
    o.failure.None? && o.exitCode == Some(0) && CompareOutput(o.stdout, test.expected)
  }

  /** Why an observation does not pass: the failure the runner saw, or else a non-zero exit,
      or else output that does not match. */
  predicate FailsAs(o: Observed, test: JudgeCase, v: Verdict) {
    || (o.failure == Some(TimeLimit) && v == TimeLimitExceeded)
    || (o.failure == Some(MemoryLimit) && v == MemoryLimitExceeded)
    || (o.failure == Some(OutputLimit) && v == OutputLimitExceeded)
    || (o.failure.None? && o.exitCode != Some(0) && v == RuntimeError)
    || (o.failure.None? && o.exitCode == Some(0) && !CompareOutput(o.stdout, test.expected) && v == WrongAnswer)
  }

  /** The verdict of a covered prefix, without the loop: accepted when every selected case
      was seen and passed, otherwise the reason of the first that did not. */
  predicate FirstFailure(cases: seq<JudgeCase>, seen: seq<Observed>, v: Verdict)
    requires |seen| <= |cases|
  {
    if |seen| == |cases| && forall i :: 0 <= i < |seen| ==> Passes(seen[i], cases[i]) then v == Accepted
    else exists i :: 0 <= i < |seen| && FailsAs(seen[i], cases[i], v) && forall j :: 0 <= j < i ==> Passes(seen[j], cases[j])
  }

  lemma ClassMeaning(o: Observed, test: JudgeCase)
    ensures Classify(o, test) == Accepted <==> Passes(o, test)
    ensures Classify(o, test) != Accepted ==> FailsAs(o, test, Classify(o, test))
    ensures Classify(o, test) != CompilationError && IsLearnerVerdict(Classify(o, test))
  {
  }

  lemma VerdictOfPrefix(cases: seq<JudgeCase>, seen: seq<Observed>)
    requires CoversPrefix(cases, seen)
    ensures FirstFailure(cases, seen, VerdictAfter(cases, seen, |seen|))
    ensures IsLearnerVerdict(VerdictAfter(cases, seen, |seen|))
  {
    var v := VerdictAfter(cases, seen, |seen|);
    VerdictIsFirstFailure(cases, seen, |seen|);
    forall i | 0 <= i < |seen|
      ensures Classify(seen[i], cases[i]) == Accepted <==> Passes(seen[i], cases[i])
    {
      ClassMeaning(seen[i], cases[i]);
    }
    if v != Accepted {
      var i :| 0 <= i < |seen| && Classify(seen[i], cases[i]) == v && forall j :: 0 <= j < i ==> Classify(seen[j], cases[j]) == Accepted;
      ClassMeaning(seen[i], cases[i]);
      assert FailsAs(seen[i], cases[i], v);
    }
  }

  /** The verdict. A failed compilation is COMPILATION_ERROR; otherwise ACCEPTED exactly when
      every selected case was observed and passed, and else the reason of the first case, in
      ordinal order, that did not. */
  lemma VerdictSpecification(strip: Strip, plan: Plan, mode: Mode, language: Language, o: Observation)
    requires JudgeOf(strip, plan, mode, language, o).Result?
    ensures var v := JudgeOf(strip, plan, mode, language, o).result.verdict;
      var cases := SelectCases(plan, mode).value;
      && (v == CompilationError <==> CompileFailed(o))
      && (!CompileFailed(o) ==> |o.cases| <= |cases| && FirstFailure(cases, o.cases, v))
  {
    if !CompileFailed(o) {
      var cases := SelectCases(plan, mode).value;
      VerdictOfPrefix(cases, o.cases);
      VerdictIsFirstFailure(cases, o.cases, |o.cases|);
      forall i | 0 <= i < |o.cases|
        ensures Classify(o.cases[i], cases[i]) != CompilationError
      {
        ClassMeaning(o.cases[i], cases[i]);
      }
    }
  }

  /** The plan's case was observed and passed. */
  predicate Passed(seen: seq<Observed>, c: JudgeCase) {
    exists i :: 0 <= i < |seen| && seen[i].caseId == c.id && Passes(seen[i], c)
  }

  predicate AllPass(cases: seq<JudgeCase>, seen: seq<Observed>) {
    |seen| == |cases| && forall i :: 0 <= i < |seen| ==> Passes(seen[i], cases[i])
  }

  lemma EachPassed(plan: seq<JudgeCase>, mode: Mode, seen: seq<Observed>, c: JudgeCase)
    requires CoversPrefix(Sorted(plan, mode), seen) && AllPass(Sorted(plan, mode), seen)
    requires c in plan && (mode == SubmitMode || c.visibility == PublicCase)
    ensures Passed(seen, c)
  {
    var cases := Sorted(plan, mode);
    SortedMember(plan, mode, c);
    var i :| 0 <= i < |cases| && cases[i] == c;
    assert Passes(seen[i], c) && seen[i].caseId == c.id;
  }

  lemma PassedHere(cases: seq<JudgeCase>, seen: seq<Observed>, i: nat)
    requires CoversPrefix(cases, seen) && DistinctIds(cases) && i < |cases| && Passed(seen, cases[i])
    ensures i < |seen| && Passes(seen[i], cases[i])
  {
    var j :| 0 <= j < |seen| && seen[j].caseId == cases[i].id && Passes(seen[j], cases[i]);
    assert cases[j].id == cases[i].id;
  }

  lemma AllFromEach(plan: seq<JudgeCase>, mode: Mode, seen: seq<Observed>)
    requires DistinctIds(plan) && CoversPrefix(Sorted(plan, mode), seen)
    requires forall c <- plan :: mode == SubmitMode || c.visibility == PublicCase ==> Passed(seen, c)
    ensures AllPass(Sorted(plan, mode), seen)
  {
    var cases := Sorted(plan, mode);
    SelectedDistinct(plan, mode);
    forall i | 0 <= i < |cases|
      ensures i < |seen| && Passes(seen[i], cases[i])
    {
      SortedMember(plan, mode, cases[i]);
      PassedHere(cases, seen, i);
    }
    assert |cases| - 1 < |seen|;
  }

  lemma AcceptedIsAllPass(cases: seq<JudgeCase>, seen: seq<Observed>, v: Verdict)
    requires |seen| <= |cases| && FirstFailure(cases, seen, v)
    ensures v == Accepted <==> AllPass(cases, seen)
  {
  }

  /** What ACCEPTED means for the plan: compilation did not fail, and every case that
      qualifies, for a SUBMIT every case there is, was observed and passed. */
  lemma AcceptedMeansAllPassed(strip: Strip, plan: Plan, mode: Mode, language: Language, o: Observation)
    requires JudgeOf(strip, plan, mode, language, o).Result?
    ensures JudgeOf(strip, plan, mode, language, o).result.verdict == Accepted <==>
              && !CompileFailed(o)
              && forall c <- plan.cases :: mode == SubmitMode || c.visibility == PublicCase ==> Passed(o.cases, c)
  {
    var cases := SelectCases(plan, mode).value;
    VerdictSpecification(strip, plan, mode, language, o);
    if !CompileFailed(o) {
      AcceptedIsAllPass(cases, o.cases, JudgeOf(strip, plan, mode, language, o).result.verdict);
      if AllPass(cases, o.cases) {
        forall c | c in plan.cases && (mode == SubmitMode || c.visibility == PublicCase)
          ensures Passed(o.cases, c)
        {
          EachPassed(plan.cases, mode, o.cases, c);
        }
      } else if forall c <- plan.cases :: mode == SubmitMode || c.visibility == PublicCase ==> Passed(o.cases, c) {
        AllFromEach(plan.cases, mode, o.cases);
      }
    }
  }

  /** The order of the cases in the plan does not matter: the judge's answer is the same
      for every permutation. */
  lemma JudgeIgnoresCaseOrder(strip: Strip, p: Plan, q: Plan, mode: Mode, language: Language, o: Observation)
    requires multiset(p.cases) == multiset(q.cases) && p.comparator == q.comparator
    ensures SelectCases(p, mode) == SelectCases(q, mode)
    ensures JudgeOf(strip, p, mode, language, o) == JudgeOf(strip, q, mode, language, o)
  {
    if PlanOk(p) {
      PlanOkPermutes(p, q);
      SortedPermutes(p.cases, q.cases, mode);
    } else if PlanOk(q) {
      PlanOkPermutes(q, p);
    }
  }

  /** Same evidence, whatever was printed. */
  predicate SameEvidence(cases: seq<JudgeCase>, a: Observation, b: Observation) {
    && a.cancellationConfirmed == b.cancellationConfirmed
    && CompileFailed(a) == CompileFailed(b)
    && |a.cases| == |b.cases|
    && forall i :: 0 <= i < |a.cases| && i < |cases| ==>
         && Classify(a.cases[i], cases[i]) == Classify(b.cases[i], cases[i])
         && a.cases[i].cpuMs == b.cases[i].cpuMs && a.cases[i].memoryKiB == b.cases[i].memoryKiB
  }

  lemma {:induction false} SameVerdict(cases: seq<JudgeCase>, a: seq<Observed>, b: seq<Observed>, k: nat)
    requires k <= |a| == |b| <= |cases|
    requires forall i :: 0 <= i < |a| ==> Classify(a[i], cases[i]) == Classify(b[i], cases[i])
    ensures VerdictAfter(cases, a, k) == VerdictAfter(cases, b, k)
  {
    if k > 0 {
      SameVerdict(cases, a, b, k - 1);
    }
  }

  lemma {:induction false} SameMetrics(a: seq<Observed>, b: seq<Observed>, k: nat)
    requires k <= |a| == |b| && Measured(a) && Measured(b)
    requires forall i :: 0 <= i < |a| ==> CaseParses(a[i]) && CaseParses(b[i])
    requires forall i :: 0 <= i < |a| ==> a[i].cpuMs == b[i].cpuMs && a[i].memoryKiB == b[i].memoryKiB
    ensures MaxCpu(a, k) == MaxCpu(b, k) && MaxMemory(a, k) == MaxMemory(b, k)
  {
    if k > 0 {
      SameMetrics(a, b, k - 1);
    }
  }

  /** A submission's result reveals nothing of its output: two acceptable observations
      with the same evidence give identical results. */
  lemma SubmitHidesOutput(strip: Strip, plan: Plan, language: Language, a: Observation, b: Observation)
    requires JudgeOf(strip, plan, SubmitMode, language, a).Result? && JudgeOf(strip, plan, SubmitMode, language, b).Result?
    requires SameEvidence(SelectCases(plan, SubmitMode).value, a, b)
    ensures JudgeOf(strip, plan, SubmitMode, language, a) == JudgeOf(strip, plan, SubmitMode, language, b)
    ensures JudgeOf(strip, plan, SubmitMode, language, a).result.publicCaseResults.None?
  {
    var cases := SelectCases(plan, SubmitMode).value;
    if !CompileFailed(a) {
      SameVerdict(cases, a.cases, b.cases, |a.cases|);
      MeasuredAgree(a.cases, b.cases);
      if Measured(a.cases) {
        SameMetrics(a.cases, b.cases, |a.cases|);
      }
    }
  }

  lemma MeasuredAgree(a: seq<Observed>, b: seq<Observed>)
    requires |a| == |b|
    requires forall i :: 0 <= i < |a| ==> a[i].cpuMs == b[i].cpuMs && a[i].memoryKiB == b[i].memoryKiB
    ensures Measured(a) <==> Measured(b)
  {
    if Measured(a) {
      assert forall i :: 0 <= i < |b| ==> a[i].cpuMs.Some? && a[i].memoryKiB.Some?;
    }
    if Measured(b) {
      assert forall i :: 0 <= i < |a| ==> b[i].cpuMs.Some? && b[i].memoryKiB.Some?;
    }
  }

  /** What a RUN shows of a case besides its text: its own identifier, the verdict of that case
      alone, its exit code and its metrics. */
  lemma ShownCase(strip: Strip, test: JudgeCase, o: Observed, budget: nat)
    requires CaseParses(o)
    ensures var c := Project(strip, test, o, budget);
      && c.caseId == test.id
      && (c.verdict == Accepted <==> Passes(o, test)) && (c.verdict != Accepted ==> FailsAs(o, test, c.verdict))
      && c.stdout.Some? && c.stderr.Some? && c.exitCode == o.exitCode
      && (c.runtimeMs.Some? <==> o.cpuMs.Some?) && (c.runtimeMs.Some? ==> c.runtimeMs.value == o.cpuMs.value)
      && (c.memoryKiB.Some? <==> o.memoryKiB.Some?) && (c.memoryKiB.Some? ==> c.memoryKiB.value == o.memoryKiB.value)
  {
    ClassMeaning(o, test);
  }

  /** The result's metrics: the largest of each, if every observed case was measured. */
  lemma ResultMetrics(strip: Strip, cases: seq<JudgeCase>, mode: Mode, seen: seq<Observed>)
    requires CoversPrefix(cases, seen) && forall i :: 0 <= i < |seen| ==> CaseParses(seen[i])
    ensures var r := JudgeCases(strip, cases, mode, seen);
      var measured := forall i :: 0 <= i < |seen| ==> seen[i].cpuMs.Some? && seen[i].memoryKiB.Some?;
      && (r.runtimeMs.Some? <==> measured) && (r.memoryKiB.Some? <==> measured)
      && (measured ==>
            && (forall i :: 0 <= i < |seen| ==> seen[i].cpuMs.value <= r.runtimeMs.value && seen[i].memoryKiB.value <= r.memoryKiB.value)
            && (exists i :: 0 <= i < |seen| && seen[i].cpuMs.value == r.runtimeMs.value)
            && (exists i :: 0 <= i < |seen| && seen[i].memoryKiB.value == r.memoryKiB.value))
      && (r.publicCaseResults.Some? <==> mode == RunMode)
      && (mode == RunMode ==> |r.publicCaseResults.value| == |seen|)
  {
  }

  /** When the judge refuses an observation, spelled out. */
  lemma RefusalIsExact(strip: Strip, plan: Plan, mode: Mode, language: Language, o: Observation)
    requires SelectCases(plan, mode).Some?
    ensures var cases := SelectCases(plan, mode).value;
      var n := |o.cases|;
      var readable := n <= 100 && forall i :: 0 <= i < n ==>
          && (o.cases[i].exitCode.Some? ==> 0 <= o.cases[i].exitCode.value <= 255)
          && o.cases[i].wallMs >= 0 && SafeInt(o.cases[i].cpuMs) && SafeInt(o.cases[i].memoryKiB)
          && (o.cases[i].cpuMs.Some? <==> o.cases[i].memoryKiB.Some?);
      var compiledRight := if language == Java then o.compilation.Some? else o.compilation.None?;
      var prefixRight := 0 < n <= |cases| && (n < |cases| ==> o.cases[n - 1].failure.Some?)
          && forall i :: 0 <= i < n ==>
               && o.cases[i].caseId == cases[i].id
               && (o.cases[i].failure.Some? ==> i == n - 1) && (o.cases[i].failure.None? ==> o.cases[i].exitCode.Some?);
      var judged := JudgeOf(strip, plan, mode, language, o);
      && (judged.SandboxCancelled? <==> readable && ObservedBytes(o) <= 1048576 && o.cancellationConfirmed)
      && (judged.Result? <==>
            && readable && ObservedBytes(o) <= 1048576 && !o.cancellationConfirmed && compiledRight
            && (if CompileFailed(o) then n == 0 else prefixRight))
  {
  }

  // ------------------------------------------------------------------
  // The loops

  /** `display`: add whole code points while they fit. */
  method DisplayText(t: Str, bytes: nat) returns (result: Str)
    ensures result == Display(t, bytes)
  {
    result := [];
    var size := 0;
    for i := 0 to |t|
      invariant result == t[..i] && size == Utf8Upto(t, i) <= bytes
      invariant PrefixFrom(t, 0, bytes) == PrefixFrom(t, i, bytes)
    {
      var n := Utf8Len(t[i]);
      if size + n > bytes {
        return;
      }
      result := result + [t[i]];
      size := size + n;
    }
  }

  /** The two streams of one case, stdout first, each out of what is left of the budget. */
  method ShowStreams(strip: Strip, o: Observed, budget: nat) returns (out: Str, err: Str, left: nat)
    ensures out == ShowOut(strip, o, budget) && err == ShowErr(strip, o, budget) && left == Left(strip, o, budget)
  {
    out := DisplayText(Sanitized(strip, o.stdout), Min(STREAM_BYTES, budget));
    left := budget - Utf8Bytes(out);
    err := DisplayText(Sanitized(strip, o.stderr), Min(STREAM_BYTES, left));
    left := left - Utf8Bytes(err);
  }

  /** The loop body for one case: classify, then show what the budget allows. */
  method JudgeOne(strip: Strip, test: JudgeCase, o: Observed, budget: nat) returns (shown: CaseResult, left: nat)
    requires CaseParses(o)
    ensures shown == Project(strip, test, o, budget) && left == Left(strip, o, budget)
  {
    var current := if o.failure.Some? then FailureVerdict(o.failure.value)
                   else if o.exitCode != Some(0) then RuntimeError
                   else if CompareOutput(o.stdout, test.expected) then Accepted else WrongAnswer;
    var out, err;
    out, err, left := ShowStreams(strip, o, budget);
    var truncated := Utf8Bytes(Sanitized(strip, o.stdout)) > Utf8Bytes(out) || Utf8Bytes(Sanitized(strip, o.stderr)) > Utf8Bytes(err);
    shown := CaseResult(test.id, current, Some(out), Some(err), truncated, o.exitCode, AsNat(o.cpuMs), AsNat(o.memoryKiB));
  }

  /** The metrics of a fully measured observation: the largest of each. */
  method Metrics(seen: seq<Observed>) returns (runtimeMs: Option<nat>, memoryKiB: Option<nat>)
    requires forall i :: 0 <= i < |seen| ==> CaseParses(seen[i])
    ensures runtimeMs == if Measured(seen) then Some(MaxCpu(seen, |seen|)) else None
    ensures memoryKiB == if Measured(seen) then Some(MaxMemory(seen, |seen|)) else None
  {
    for i := 0 to |seen|
      invariant forall j :: 0 <= j < i ==> seen[j].cpuMs.Some? && seen[j].memoryKiB.Some?
    {
      if seen[i].cpuMs.None? || seen[i].memoryKiB.None? {
        return None, None;
      }
    }
    var cpu, memory := 0, 0;
    for i := 0 to |seen|
      invariant cpu == MaxCpu(seen, i) && memory == MaxMemory(seen, i)
    {
      cpu, memory := Max(cpu, seen[i].cpuMs.value), Max(memory, seen[i].memoryKiB.value);
    }
    return Some(cpu), Some(memory);
  }

  /** The judging loop over an observation the checks let through, and the result it makes. */
  method JudgeLoop(strip: Strip, cases: seq<JudgeCase>, mode: Mode, seen: seq<Observed>) returns (result: WorkerResult)
    requires CoversPrefix(cases, seen) && forall i :: 0 <= i < |seen| ==> CaseParses(seen[i])
    ensures result == JudgeCases(strip, cases, mode, seen)
  {
    var verdict: Verdict := Accepted;
    var public: seq<CaseResult> := [];
    var budget := PUBLIC_BYTES;
    for i := 0 to |seen|
      invariant verdict == VerdictAfter(cases, seen, i)
      invariant mode == RunMode ==> budget == BudgetAt(strip, seen, i) && public == PublicUpto(strip, cases, seen, i)
    {
      var current := Classify(seen[i], cases[i]);
      if verdict == Accepted && current != Accepted {
        verdict := current;
      }
      if mode == RunMode {
        var shown;
        shown, budget := JudgeOne(strip, cases[i], seen[i], budget);
        public := public + [shown];
      }
    }
    var runtimeMs, memoryKiB := Metrics(seen);
    result := WorkerResult(verdict, runtimeMs, memoryKiB, if mode == RunMode then Some(public) else None);
  }
}
