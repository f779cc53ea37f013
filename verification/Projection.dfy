/** Size bounds of what leaves the judge: the public streams, the JSON of a result and the
    JSON of an event (sections 4 to 7 of RFC 8259). */
module Projection {
  import opened Contracts
  import opened Text
  import opened EventLog
  import opened Rows
  import opened Judge
  import opened JudgeTheorems

  // ------------------------------------------------------------------
  // JSON sizes

  function Digits(n: nat): nat {
    if n < 10 then 1 else 1 + Digits(n / 10)
  }

  function JsonInt(n: int): nat {
    if n < 0 then 1 + Digits(-n) else Digits(n)
  }

  function Pow10(k: nat): nat {
    if k == 0 then 1 else 10 * Pow10(k - 1)
  }

  lemma {:induction false} DigitsBound(n: nat, k: nat)
    requires k > 0 && n < Pow10(k)
    ensures Digits(n) <= k
  {
    if n >= 10 {
      assert k > 1;
      DigitsBound(n / 10, k - 1);
    }
  }

  /** A member: a quoted key of `key` characters, a colon and a value. */
  function Member(key: nat, value: nat): nat {
    key + 3 + value
  }

  const UUID_JSON := 38

  function VerdictChars(v: Verdict): nat {
    match v
    case Accepted => 8
    case WrongAnswer => 12
    case CompilationError => 17
    case RuntimeError => 13
    case TimeLimitExceeded => 19
    case MemoryLimitExceeded => 21
    case OutputLimitExceeded => 21
    case VerdictCancelled => 9
    case VerdictInternalError => 14
  }

  function StateChars(s: State): nat {
    match s
    case Queued => 6
    case Compiling => 9
    case Running => 7
    case Finished => 8
    case Cancelled => 9
    case InternalError => 14
  }

  function CodeChars(c: FailureCode): nat {
    match c
    case QueueTimeout => 13
    case JobFailure => 11
    case LeaseExpired => 13
    case JobTimeout => 11
    case CancellationTimeout => 20
  }

  /** An optional member with the comma before it. */
  function OptionalInt(key: nat, n: Option<int>): nat {
    match n case Some(v) => 1 + Member(key, JsonInt(v)) case None => 0
  }

  function OptionalText(key: nat, t: Option<Str>): nat {
    match t case Some(s) => 1 + Member(key, JsonString(s)) case None => 0
  }

  function CaseJson(c: CaseResult): nat {
    2 + Member(6, UUID_JSON) + 1 + Member(7, 2 + VerdictChars(c.verdict))
    + OptionalText(6, c.stdout) + OptionalText(6, c.stderr)
    + (if c.outputTruncated then 1 + Member(15, 4) else 0)
    + OptionalInt(8, c.exitCode) + OptionalInt(9, c.runtimeMs) + OptionalInt(9, c.memoryKiB)
  }

  /** The array elements up to `k`, with the commas between them. */
  function CasesJson(cases: seq<CaseResult>, k: nat): nat
    requires k <= |cases|
  {
    if k == 0 then 0 else CasesJson(cases, k - 1) + (if k == 1 then 0 else 1) + CaseJson(cases[k - 1])
  }

  function ResultJson(r: WorkerResult): nat {
    2 + Member(7, 2 + VerdictChars(r.verdict)) + OptionalInt(9, r.runtimeMs) + OptionalInt(9, r.memoryKiB)
    + (match r.publicCaseResults case Some(cases) => 1 + Member(17, 2 + CasesJson(cases, |cases|)) case None => 0)
  }

  function BodyJson(b: Body): nat {
    match b
    case Status(s, requested) =>
      Member(4, 18) + 1 + Member(5, 2 + StateChars(s)) + (if requested then 1 + Member(21, 4) else 0)
    case ConsoleOutput(_, _, text) =>
      Member(4, 16) + 1 + Member(6, UUID_JSON) + 1 + Member(6, 8) + 1 + Member(4, JsonString(text))
    case FinalVerdict(s, v, code) =>
      Member(4, 15) + 1 + Member(5, 2 + StateChars(s)) + 1 + Member(7, 2 + VerdictChars(v))
      + (match code case Some(c) => 1 + Member(11, 2 + CodeChars(c)) case None => 0)
  }

  function EventJson(e: Event): nat {
    2 + BodyJson(e.body) + 1 + Member(11, UUID_JSON) + 1 + Member(7, Digits(e.attempt)) + 1 + Member(8, Digits(e.sequence))
  }

  const INT4_MAX := 2147483647

  /** Every event the store writes fits the 16384-byte limit while its numbers fit their
      INTEGER columns: status and final events always, console output because it is
      sanitised and at most 4096 bytes. So the size error of `event` never fires. */
  lemma EventsFit(e: Event)
    requires e.attempt <= INT4_MAX && e.sequence <= INT4_MAX
    requires e.body.ConsoleOutput? ==> Utf8Bytes(e.body.text) <= MAX_CONSOLE_BYTES && forall c <- e.body.text :: !IsControl(c)
    ensures 0 < EventJson(e) <= MAX_EVENT_BYTES
  {
    assert Pow10(10) == 10000000000;
    DigitsBound(e.attempt, 10);
    DigitsBound(e.sequence, 10);
    if e.body.ConsoleOutput? {
      EscapingAtMostDoubles(e.body.text);
    }
  }

  // ------------------------------------------------------------------
  // The public budget

  /** Bytes shown of one observation. */
  function Shown(strip: Strip, o: Observed, budget: nat): nat {
    Utf8Bytes(ShowOut(strip, o, budget)) + Utf8Bytes(ShowErr(strip, o, budget))
  }

  /** Bytes shown of the first `k` observations. */
  function ShownBytes(strip: Strip, seen: seq<Observed>, k: nat): nat
    requires k <= |seen|
  {
    if k == 0 then 0 else ShownBytes(strip, seen, k - 1) + Shown(strip, seen[k - 1], BudgetAt(strip, seen, k - 1))
  }

  lemma OneIsConserved(strip: Strip, o: Observed, budget: nat)
    ensures Shown(strip, o, budget) + Left(strip, o, budget) == budget
  {
  }

  lemma StepIsConserved(strip: Strip, seen: seq<Observed>, k: nat)
    requires 0 < k <= |seen|
    ensures ShownBytes(strip, seen, k) + BudgetAt(strip, seen, k) == ShownBytes(strip, seen, k - 1) + BudgetAt(strip, seen, k - 1)
  {
    OneIsConserved(strip, seen[k - 1], BudgetAt(strip, seen, k - 1));
  }

  /** Conservation: what has been shown and what is left always make 24 KiB. */
  lemma BudgetIsConserved(strip: Strip, seen: seq<Observed>, k: nat)
    requires k <= |seen|
    ensures ShownBytes(strip, seen, k) + BudgetAt(strip, seen, k) == PUBLIC_BYTES
  {
    for i := 0 to k
      invariant ShownBytes(strip, seen, i) + BudgetAt(strip, seen, i) == PUBLIC_BYTES
    {
      StepIsConserved(strip, seen, i + 1);
    }
  }

  /** What is shown of a text under a limit: the longest prefix of whole code points that
      fits, which is all of it exactly when the sizes agree. */
  predicate LongestPrefix(shown: Str, text: Str, limit: nat, n: nat) {
    && shown <= text
    && (n <= |text| ==> (Utf8Upto(text, n) <= limit <==> n <= |shown|))
    && (Utf8Bytes(text) > Utf8Bytes(shown) <==> shown != text)
  }

  lemma OutIsLongest(strip: Strip, o: Observed, budget: nat, n: nat)
    ensures LongestPrefix(ShowOut(strip, o, budget), Sanitized(strip, o.stdout), Min(STREAM_BYTES, budget), n)
  {
    var out := Sanitized(strip, o.stdout);
    DisplayIsLongest(out, Min(STREAM_BYTES, budget), Min(n, |out|));
  }

  lemma ErrIsLongest(strip: Strip, o: Observed, budget: nat, n: nat)
    ensures LongestPrefix(ShowErr(strip, o, budget), Sanitized(strip, o.stderr),
                          Min(STREAM_BYTES, budget - Utf8Bytes(ShowOut(strip, o, budget))), n)
  {
    var err := Sanitized(strip, o.stderr);
    DisplayIsLongest(err, Min(STREAM_BYTES, budget - Utf8Bytes(ShowOut(strip, o, budget))), Min(n, |err|));
  }

  /** Each displayed stream is the longest prefix of whole code points of its sanitised
      text within 4096 bytes and what is left of the budget, and the truncation flag is
      set exactly when one of the two is cut. */
  lemma StreamsAreLongestPrefixes(strip: Strip, test: JudgeCase, o: Observed, budget: nat, n: nat)
    requires CaseParses(o)
    ensures var out, err := Sanitized(strip, o.stdout), Sanitized(strip, o.stderr);
      var shownOut, shownErr := ShowOut(strip, o, budget), ShowErr(strip, o, budget);
      && LongestPrefix(shownOut, out, Min(STREAM_BYTES, budget), n)
      && LongestPrefix(shownErr, err, Min(STREAM_BYTES, budget - Utf8Bytes(shownOut)), n)
      && (Project(strip, test, o, budget).outputTruncated <==> shownOut != out || shownErr != err)
  {
    OutIsLongest(strip, o, budget, n);
    ErrIsLongest(strip, o, budget, n);
  }

  // ------------------------------------------------------------------
  // The result fits

  const CASE_OVERHEAD := 205

  lemma SmallNumbers(n: Option<int>)
    requires SafeInt(n)
    ensures n.Some? ==> JsonInt(n.value) <= 16
  {
    if n.Some? {
      assert Pow10(4) == 10000;
      assert Pow10(8) == 100000000;
      assert Pow10(12) == 1000000000000;
      assert Pow10(16) == 10000000000000000;
      DigitsBound(n.value, 16);
    }
  }

  lemma ShownIsClean(strip: Strip, o: Observed, budget: nat)
    ensures JsonChars(ShowOut(strip, o, budget)) <= 2 * Utf8Bytes(ShowOut(strip, o, budget))
    ensures JsonChars(ShowErr(strip, o, budget)) <= 2 * Utf8Bytes(ShowErr(strip, o, budget))
  {
    EscapingAtMostDoubles(ShowOut(strip, o, budget));
    EscapingAtMostDoubles(ShowErr(strip, o, budget));
  }

  lemma CaseJsonBound(c: CaseResult, out: Str, err: Str)
    requires c.stdout == Some(out) && c.stderr == Some(err)
    requires c.exitCode.Some? ==> JsonInt(c.exitCode.value) <= 3
    requires c.runtimeMs.Some? ==> JsonInt(c.runtimeMs.value) <= 16
    requires c.memoryKiB.Some? ==> JsonInt(c.memoryKiB.value) <= 16
    ensures CaseJson(c) <= CASE_OVERHEAD + JsonChars(out) + JsonChars(err)
  {
  }

  lemma CaseFits(strip: Strip, test: JudgeCase, o: Observed, budget: nat)
    requires CaseParses(o)
    ensures CaseJson(Project(strip, test, o, budget)) <= CASE_OVERHEAD + 2 * Shown(strip, o, budget)
  {
    ShownIsClean(strip, o, budget);
    SmallNumbers(o.cpuMs);
    SmallNumbers(o.memoryKiB);
    if o.exitCode.Some? {
      assert Pow10(3) == 1000;
      DigitsBound(o.exitCode.value, 3);
    }
    CaseJsonBound(Project(strip, test, o, budget), ShowOut(strip, o, budget), ShowErr(strip, o, budget));
  }

  lemma CasesJsonSnoc(cases: seq<CaseResult>, c: CaseResult)
    ensures CasesJson(cases + [c], |cases| + 1) == CasesJson(cases, |cases|) + (if cases == [] then 0 else 1) + CaseJson(c)
  {
    CasesJsonPrefix(cases, cases + [c], |cases|);
  }

  lemma {:induction false} CasesJsonPrefix(a: seq<CaseResult>, b: seq<CaseResult>, k: nat)
    requires k <= |a| && k <= |b| && forall i :: 0 <= i < k ==> a[i] == b[i]
    ensures CasesJson(a, k) == CasesJson(b, k)
  {
    if k > 0 {
      CasesJsonPrefix(a, b, k - 1);
    }
  }

  lemma {:induction false} CasesFit(strip: Strip, cases: seq<JudgeCase>, seen: seq<Observed>, k: nat)
    requires k <= |seen| <= |cases| && forall i :: 0 <= i < |seen| ==> CaseParses(seen[i])
    ensures CasesJson(PublicUpto(strip, cases, seen, k), k) <= (CASE_OVERHEAD + 1) * k + 2 * ShownBytes(strip, seen, k)
  {
    if k > 0 {
      CasesFit(strip, cases, seen, k - 1);
      CasesJsonSnoc(PublicUpto(strip, cases, seen, k - 1), Public(strip, cases, seen, k - 1));
      CaseFits(strip, cases[k - 1], seen[k - 1], BudgetAt(strip, seen, k - 1));
    }
  }

  lemma MetricsFit(seen: seq<Observed>)
    requires seen != [] && Measured(seen) && forall i :: 0 <= i < |seen| ==> CaseParses(seen[i])
    ensures JsonInt(MaxCpu(seen, |seen|)) <= 16 && JsonInt(MaxMemory(seen, |seen|)) <= 16
  {
    var i :| 0 <= i < |seen| && seen[i].cpuMs.value == MaxCpu(seen, |seen|);
    SmallNumbers(seen[i].cpuMs);
    var j :| 0 <= j < |seen| && seen[j].memoryKiB.value == MaxMemory(seen, |seen|);
    SmallNumbers(seen[j].memoryKiB);
  }

  lemma PublicFits(strip: Strip, cases: seq<JudgeCase>, seen: seq<Observed>)
    requires |seen| <= |cases| <= MAX_CASES && forall i :: 0 <= i < |seen| ==> CaseParses(seen[i])
    ensures CasesJson(PublicUpto(strip, cases, seen, |seen|), |seen|) <= 69752
  {
    CasesFit(strip, cases, seen, |seen|);
    BudgetIsConserved(strip, seen, |seen|);
  }

  lemma ResultJsonBound(r: WorkerResult)
    requires r.runtimeMs.Some? ==> JsonInt(r.runtimeMs.value) <= 16
    requires r.memoryKiB.Some? ==> JsonInt(r.memoryKiB.value) <= 16
    requires r.publicCaseResults.Some? ==> CasesJson(r.publicCaseResults.value, |r.publicCaseResults.value|) <= 69752
    ensures ResultJson(r) <= MAX_OUTPUT_BYTES
  {
  }

  lemma JudgedFits(strip: Strip, cases: seq<JudgeCase>, mode: Mode, seen: seq<Observed>)
    requires CoversPrefix(cases, seen) && |cases| <= MAX_CASES && forall i :: 0 <= i < |seen| ==> CaseParses(seen[i])
    ensures ResultJson(JudgeCases(strip, cases, mode, seen)) <= MAX_OUTPUT_BYTES
  {
    if Measured(seen) {
      MetricsFit(seen);
    }
    if mode == RunMode {
      PublicFits(strip, cases, seen);
    }
    ResultJsonBound(JudgeCases(strip, cases, mode, seen));
  }

  /** A result the store takes, whatever lease it comes with. */
  ghost predicate FinishTakes(row: Row, r: WorkerResult) {
    && ResultParses(r) && PublicOnly(row, r) && ResultJson(r) <= MAX_OUTPUT_BYTES
    && forall lease: Lease, bytes: EventSize, subscribed: bool, now: Time ::
         DecideFinish(row, Finish(lease, r, ResultJson(r), bytes, subscribed), now).reply == Done(Valid(row, lease, now))
  }

  lemma ValidResultIsTaken(row: Row, r: WorkerResult)
    requires ResultParses(r) && PublicOnly(row, r) && ResultJson(r) <= MAX_OUTPUT_BYTES
    ensures FinishTakes(row, r)
  {
  }

  lemma CompilationErrorIsTaken(row: Row)
    ensures FinishTakes(row, WorkerResult(CompilationError, None, None, None))
  {
    ValidResultIsTaken(row, WorkerResult(CompilationError, None, None, None));
  }

  /** The store accepts whatever the judge returns: the result parses, fits 256 KiB, and
      names only distinct public cases of a RUN. So for a row of the plan's mode and
      public cases, `finish` never throws, and under a valid lease it settles the job. */
  lemma FinishAcceptsJudged(strip: Strip, plan: Plan, mode: Mode, language: Language, o: Observation, row: Row)
    requires JudgeOf(strip, plan, mode, language, o).Result?
    requires row.request.mode == mode
    requires forall c <- plan.cases :: c.visibility == PublicCase ==> c.id in row.request.publicCases
    ensures FinishTakes(row, JudgeOf(strip, plan, mode, language, o).result)
  {
    if CompileFailed(o) {
      CompilationErrorIsTaken(row);
    } else {
      JudgedCasesAreTaken(strip, plan, mode, o.cases, row);
    }
  }

  lemma JudgedCasesAreTaken(strip: Strip, plan: Plan, mode: Mode, seen: seq<Observed>, row: Row)
    requires PlanOk(plan) && CoversPrefix(Sorted(plan.cases, mode), seen)
    requires forall i :: 0 <= i < |seen| ==> CaseParses(seen[i])
    requires row.request.mode == mode
    requires forall c <- plan.cases :: c.visibility == PublicCase ==> c.id in row.request.publicCases
    ensures FinishTakes(row, JudgeCases(strip, Sorted(plan.cases, mode), mode, seen))
  {
    var cases := Sorted(plan.cases, mode);
    var r := JudgeCases(strip, cases, mode, seen);
    JudgedFits(strip, cases, mode, seen);
    VerdictOfPrefix(cases, seen);
    if mode == RunMode {
      SelectedDistinct(plan.cases, mode);
      PublicCasesAreSelected(strip, plan, seen, row);
    }
    ValidResultIsTaken(row, r);
  }

  lemma PublicAt(strip: Strip, cases: seq<JudgeCase>, seen: seq<Observed>, k: nat, i: nat)
    requires i < k <= |seen| <= |cases| && forall j :: 0 <= j < |seen| ==> CaseParses(seen[j])
    ensures PublicUpto(strip, cases, seen, k)[i] == Public(strip, cases, seen, i)
  {
    for j := i + 1 to k
      invariant PublicUpto(strip, cases, seen, j)[i] == Public(strip, cases, seen, i)
    {
    }
  }

  lemma PublicCaseIsSelected(strip: Strip, cases: seq<JudgeCase>, seen: seq<Observed>, i: nat)
    requires i < |seen| <= |cases| && forall j :: 0 <= j < |seen| ==> CaseParses(seen[j])
    ensures var c := PublicUpto(strip, cases, seen, |seen|)[i];
      c.caseId == cases[i].id && IsLearnerVerdict(c.verdict)
  {
    PublicAt(strip, cases, seen, |seen|, i);
    ClassMeaning(seen[i], cases[i]);
  }

  lemma PublicCasesAreSelected(strip: Strip, plan: Plan, seen: seq<Observed>, row: Row)
    requires PlanOk(plan) && CoversPrefix(Sorted(plan.cases, RunMode), seen)
    requires forall i :: 0 <= i < |seen| ==> CaseParses(seen[i])
    requires DistinctIds(Sorted(plan.cases, RunMode))
    requires forall c <- plan.cases :: c.visibility == PublicCase ==> c.id in row.request.publicCases
    ensures var public := PublicUpto(strip, Sorted(plan.cases, RunMode), seen, |seen|);
      && DistinctCases(public)
      && forall i :: 0 <= i < |public| ==> public[i].caseId in row.request.publicCases && IsLearnerVerdict(public[i].verdict)
  {
    var cases := Sorted(plan.cases, RunMode);
    var public := PublicUpto(strip, cases, seen, |seen|);
    forall i | 0 <= i < |seen|
      ensures public[i].caseId == cases[i].id && cases[i].id in row.request.publicCases && IsLearnerVerdict(public[i].verdict)
    {
      PublicCaseIsSelected(strip, cases, seen, i);
      SortedMember(plan.cases, RunMode, cases[i]);
    }
  }

  /** Every stream the judge shows can be written to the console of a running RUN: it is
      public, at most 4096 bytes, unchanged by the store's own sanitiser, and its event
      fits, so the call succeeds whenever the lease is valid. */
  lemma ConsoleAcceptsShown(strip: Strip, o: Observed, budget: nat, caseId: Id, row: Row, lease: Lease, now: Time)
    requires StripsSequences(strip)
    requires row.request.mode == RunMode && caseId in row.request.publicCases && row.cancellationRequestedAt.None?
    requires Valid(row, lease, now) && row.attempt <= INT4_MAX && row.lastSequence < INT4_MAX
    ensures ConsoleAccepts(strip, row, lease, caseId, Stdout, ShowOut(strip, o, budget), now)
    ensures ConsoleAccepts(strip, row, lease, caseId, Stderr, ShowErr(strip, o, budget), now)
  {
    ConsoleAcceptsText(strip, row, lease, caseId, Stdout, ShowOut(strip, o, budget), now);
    ConsoleAcceptsText(strip, row, lease, caseId, Stderr, ShowErr(strip, o, budget), now);
  }

  /** `console(text)` succeeds and stores exactly this text. */
  predicate ConsoleAccepts(strip: Strip, row: Row, lease: Lease, caseId: Id, stream: Stream, text: Str, now: Time) {
    var e := Event(row.request.id, row.attempt, row.lastSequence + 1, ConsoleOutput(caseId, stream, text));
    var d := DecideConsole(row, Console(lease, Some(caseId), Some(stream), strip(text), Utf8Bytes(text), EventJson(e)), now);
    d.reply == Done(true) && d.emission.Emit? && d.emission.body == e.body
  }

  lemma ConsoleAcceptsText(strip: Strip, row: Row, lease: Lease, caseId: Id, stream: Stream, text: Str, now: Time)
    requires StripsSequences(strip)
    requires row.request.mode == RunMode && caseId in row.request.publicCases && row.cancellationRequestedAt.None?
    requires Valid(row, lease, now) && row.attempt <= INT4_MAX && row.lastSequence < INT4_MAX
    requires Utf8Bytes(text) <= MAX_CONSOLE_BYTES && forall c <- text :: !IsControl(c)
    ensures ConsoleAccepts(strip, row, lease, caseId, stream, text, now)
  {
    SanitizingKeepsClean(strip, text);
    assert RemoveControls(strip(text)) == text;
    EventsFit(Event(row.request.id, row.attempt, row.lastSequence + 1, ConsoleOutput(caseId, stream, text)));
  }

  /** Sanitised text of a console call within its limit stays within it, so the event schema
      never refuses it: whatever the caller sends, `console` has no such error. */
  lemma ConsoleTextFits(strip: Strip, row: Row, lease: Lease, caseId: Option<Id>, stream: Option<Stream>, text: Str, eventBytes: nat, now: Time)
    requires StripsSequences(strip)
    ensures DecideConsole(row, Console(lease, caseId, stream, strip(text), Utf8Bytes(text), eventBytes), now).reply
            != Thrown(InvalidPublicEvent)
  {
    SanitizingShrinks(strip, text);
  }

  /** A case result after the ANSI stripping in `finish`. */
  function StripCase(strip: Strip, c: CaseResult): CaseResult {
    c.(stdout := match c.stdout case Some(t) => Some(strip(t)) case None => None,
       stderr := match c.stderr case Some(t) => Some(strip(t)) case None => None)
  }

  /** What the judge shows of a case is what `finish` stores of it. */
  lemma StoredAsShown(strip: Strip, test: JudgeCase, o: Observed, budget: nat)
    requires StripsSequences(strip) && CaseParses(o)
    ensures var c := Project(strip, test, o, budget);
      SafeCase(StripCase(strip, c)) == c
  {
    SanitizingKeepsClean(strip, ShowOut(strip, o, budget));
    SanitizingKeepsClean(strip, ShowErr(strip, o, budget));
  }
}
