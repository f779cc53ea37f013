/** One supervised execution against arbitrary Docker behaviour (supervisor.ts:32-121,
    transport.ts:14-32): the shared output budget, the failure exits and the clean-up of
    every container, up to the judge. */
module Supervisor {
  import opened Contracts
  import opened Text
  import opened Judge
  import opened JudgeTheorems

  const OUTPUT_BYTES := 262144

  // ------------------------------------------------------------------
  // Output bytes

  /** A byte stream as the UTF-8 decoder cuts it: well-formed sequences and, for `n` bad
      bytes, one replacement character. */
  datatype Chunk = Good(c: CodePoint) | Bad(more: nat)

  type Output = seq<Chunk>

  function ChunkBytes(c: Chunk): nat {
    match c case Good(p) => Utf8Len(p) case Bad(more) => 1 + more
  }

  function RawUpto(o: Output, k: nat): nat
    requires k <= |o|
  {
    if k == 0 then 0 else RawUpto(o, k - 1) + ChunkBytes(o[k - 1])
  }

  function Raw(o: Output): nat {
    RawUpto(o, |o|)
  }

  /** Buffer.toString(). */
  function Decode(o: Output): (t: Str)
    ensures |t| == |o|
  {
    seq(|o|, i requires 0 <= i < |o| => if o[i].Good? then o[i].c else 0xFFFD)
  }

  lemma {:induction false} DecodingUpto(o: Output, k: nat)
    requires k <= |o|
    ensures Utf8Upto(Decode(o), k) <= 3 * RawUpto(o, k)
  {
    if k > 0 {
      DecodingUpto(o, k - 1);
    }
  }

  /** Decoding at most triples a byte stream. */
  lemma DecodingAtMostTriples(o: Output)
    ensures Utf8Bytes(Decode(o)) <= 3 * Raw(o)
  {
    DecodingUpto(o, |o|);
  }

  // ------------------------------------------------------------------
  // What Docker may do

  datatype Metrics =
    | Measured(cpuMs: nat, memoryKiB: nat, oomKilled: bool)
    | Stopped(oom: bool)
    | Unreadable

  /** One run phase: aborted before its sandbox, a sandbox that cannot start or loses its
      container or signal, a guest command that ends with some output and exit code, or
      one that runs out of time. */
  datatype CaseRun =
    | Aborted
    | Broken
    | Ended(out: Output, err: Output, exitCode: int, metrics: Metrics, wallMs: nat)
    | TimedOut(wallMs: nat)

  datatype CompileRun =
    | CompileBroken
    | Compiled(out: Output, err: Output, exitCode: int, artifactsOk: bool)

  /** Everything outside the program: compilation, the run of each case, and for each
      container in turn whether its absence could be verified. */
  datatype Docker = Docker(compile: CompileRun, run: nat -> CaseRun, gone: nat -> bool)

  datatype Exit = Returned(observation: Observation) | Failed | CleanupFailed

  /** What a case run adds to the observation, or None when `execute` throws. The transport
      rejects output beyond the budget, which counts as OUTPUT_LIMIT_EXCEEDED. */
  function Observe(id: Id, r: CaseRun, budget: nat): Option<(Observed, nat)> {
    match r
    case Aborted => None
    case Broken => None
    case TimedOut(wall) => Some((Observed(id, [], [], None, Some(TimeLimit), wall, None, None), budget))
    case Ended(out, err, code, metrics, wall) =>
      if Raw(out) + Raw(err) > budget then Some((Observed(id, [], [], None, Some(OutputLimit), wall, None, None), 0))
      else
        var left := budget - Raw(out) - Raw(err);
        match metrics
        case Unreadable => None
        case Stopped(oom) =>
          Some((Observed(id, Decode(out), Decode(err), Some(code), if oom then Some(MemoryLimit) else None, wall, None, None), left))
        case Measured(cpu, memory, oom) =>
          Some((Observed(id, Decode(out), Decode(err), Some(code), if oom then Some(MemoryLimit) else None, wall, Some(cpu), Some(memory)), left))
  }

  function SpentObservation(id: Id): Observed {
    Observed(id, [], [], None, Some(OutputLimit), 0, None, None)
  }

  /** Text of the first `k` observations, and of the compiler. */
  function TextUpto(seen: seq<Observed>, k: nat): nat
    requires k <= |seen|
  {
    if k == 0 then 0 else TextUpto(seen, k - 1) + Utf8Bytes(seen[k - 1].stdout) + Utf8Bytes(seen[k - 1].stderr)
  }

  /** An observation that is a prefix of the cases with a failure only at the end. */
  predicate PrefixOk(cases: seq<JudgeCase>, seen: seq<Observed>) {
    && |seen| <= |cases|
    && forall i :: 0 <= i < |seen| ==> StepOk(cases[i], seen[i]) && (seen[i].failure.Some? ==> i == |seen| - 1)
  }

  predicate StepOk(test: JudgeCase, o: Observed) {
    && o.caseId == test.id && (o.failure.None? ==> o.exitCode.Some?)
    && o.wallMs >= 0 && (o.cpuMs.Some? <==> o.memoryKiB.Some?)
    && (o.cpuMs.Some? ==> o.cpuMs.value >= 0 && o.memoryKiB.value >= 0)
  }

  function RunBytes(r: CaseRun): nat {
    if r.Ended? then Raw(r.out) + Raw(r.err) else 0
  }

  /** The guest ended in time and its output fits the budget, so it is kept. */
  predicate Kept(r: CaseRun, budget: nat) {
    budget > 0 && r.Ended? && RunBytes(r) <= budget
  }

  predicate OutOfMemory(r: CaseRun) {
    r.Ended? && ((r.metrics.Measured? && r.metrics.oomKilled) || (r.metrics.Stopped? && r.metrics.oom))
  }

  predicate IsMeasured(r: CaseRun) {
    r.Ended? && r.metrics.Measured?
  }

  /** The observation tells what the guest did, given the bytes left for it: its own exit
      code, output and metrics if it is kept, and each failure exactly when it happened. */
  predicate Tells(o: Observed, r: CaseRun, budget: nat) {
    && o.exitCode == (if Kept(r, budget) then Some(r.exitCode) else None)
    && o.stdout == (if Kept(r, budget) then Decode(r.out) else [])
    && o.stderr == (if Kept(r, budget) then Decode(r.err) else [])
    && o.cpuMs == (if Kept(r, budget) && IsMeasured(r) then Some(r.metrics.cpuMs) else None)
    && o.memoryKiB == (if Kept(r, budget) && IsMeasured(r) then Some(r.metrics.memoryKiB) else None)
    && o.wallMs == (if budget > 0 && (r.Ended? || r.TimedOut?) then r.wallMs else 0)
    && (o.failure == Some(TimeLimit) <==> budget > 0 && r.TimedOut?)
    && (o.failure == Some(MemoryLimit) <==> Kept(r, budget) && OutOfMemory(r))
    && (o.failure == Some(OutputLimit) <==> budget == 0 || (r.Ended? && RunBytes(r) > budget))
  }

  /** What one case run adds: an observation that tells it, paid for out of the budget; or
      nothing, when the run broke or its metrics could not be read. */
  lemma ObserveOk(test: JudgeCase, r: CaseRun, budget: nat)
    requires budget > 0
    ensures var o := Observe(test.id, r, budget);
      && (o.None? <==> r.Aborted? || r.Broken? || (Kept(r, budget) && r.metrics.Unreadable?))
      && (o.Some? ==>
            && StepOk(test, o.value.0) && Tells(o.value.0, r, budget)
            && (o.value.0.failure.None? ==> Kept(r, budget) && o.value.1 == budget - RunBytes(r)))
  {
  }

  /** How the case phase ends, from case `i` on: the observation or a throw, how many
      containers have been named, and whether the last one was verified absent. */
  function CasesExit(cases: seq<JudgeCase>, docker: Docker, i: nat, budget: nat, seen: seq<Observed>, named: nat)
    : (Option<seq<Observed>>, nat, bool)
    requires i <= |cases|
    decreases |cases| - i
  {
    if i == |cases| then (Some(seen), named, true)
    else if docker.run(i).Aborted? then (None, named, true)
    else if budget == 0 then (Some(seen + [SpentObservation(cases[i].id)]), named, true)
    else if !docker.gone(named) then (None, named + 1, false)
    else
      match Observe(cases[i].id, docker.run(i), budget)
      case None => (None, named + 1, true)
      case Some((o, left)) =>
        if o.failure.Some? then (Some(seen + [o]), named + 1, true)
        else CasesExit(cases, docker, i + 1, left, seen + [o], named + 1)
  }

  /** Raw bytes the guests of the first `k` cases printed. */
  function RawBefore(docker: Docker, k: nat): nat {
    if k == 0 then 0 else RawBefore(docker, k - 1) + RunBytes(docker.run(k - 1))
  }

  /** Raw bytes behind the first `k` observations: those of the guests that are kept. */
  function KeptRaw(docker: Docker, seen: seq<Observed>, k: nat): nat
    requires k <= |seen|
  {
    if k == 0 then 0 else KeptRaw(docker, seen, k - 1) + (if seen[k - 1].exitCode.Some? then RunBytes(docker.run(k - 1)) else 0)
  }

  /** The observation tells guest `i`, under what the earlier ones have left of `start`. */
  predicate TellsGuest(docker: Docker, start: nat, i: nat, o: Observed) {
    RawBefore(docker, i) <= start && Tells(o, docker.run(i), start - RawBefore(docker, i))
  }

  predicate Faithful(docker: Docker, start: nat, seen: seq<Observed>) {
    forall i :: 0 <= i < |seen| ==> TellsGuest(docker, start, i, seen[i])
  }

  /** What holds before case `i`: a failure-free prefix whose bytes the budget has paid for. */
  predicate Underway(cases: seq<JudgeCase>, docker: Docker, i: nat, budget: nat, seen: seq<Observed>, start: nat) {
    && |seen| == i <= |cases| && PrefixOk(cases, seen) && (i > 0 ==> seen[i - 1].failure.None?)
    && Faithful(docker, start, seen) && RawBefore(docker, i) + budget == start
  }

  /** A finished case phase: a faithful prefix with a failure only at the end, cut short only
      by one. */
  predicate Covers(cases: seq<JudgeCase>, docker: Docker, seen: seq<Observed>, start: nat) {
    && PrefixOk(cases, seen) && Faithful(docker, start, seen)
    && (|seen| < |cases| ==> seen != [] && seen[|seen| - 1].failure.Some?)
  }

  lemma PrefixSnoc(cases: seq<JudgeCase>, seen: seq<Observed>, o: Observed)
    requires PrefixOk(cases, seen) && (seen != [] ==> seen[|seen| - 1].failure.None?)
    requires |seen| < |cases| && StepOk(cases[|seen|], o)
    ensures PrefixOk(cases, seen + [o])
  {
  }

  lemma FaithfulSnoc(docker: Docker, start: nat, seen: seq<Observed>, o: Observed)
    requires Faithful(docker, start, seen) && TellsGuest(docker, start, |seen|, o)
    ensures Faithful(docker, start, seen + [o])
  {
  }

  lemma CoverSnoc(cases: seq<JudgeCase>, docker: Docker, budget: nat, seen: seq<Observed>, start: nat, o: Observed)
    requires Underway(cases, docker, |seen|, budget, seen, start) && |seen| < |cases| && StepOk(cases[|seen|], o)
    requires Tells(o, docker.run(|seen|), budget)
    ensures PrefixOk(cases, seen + [o]) && Faithful(docker, start, seen + [o])
  {
    PrefixSnoc(cases, seen, o);
    FaithfulSnoc(docker, start, seen, o);
  }

  /** One observed case: the phase goes on, or ends there with a failure. */
  lemma CaseCovers(cases: seq<JudgeCase>, docker: Docker, budget: nat, seen: seq<Observed>, start: nat)
    requires Underway(cases, docker, |seen|, budget, seen, start) && |seen| < |cases| && budget > 0
    ensures var o := Observe(cases[|seen|].id, docker.run(|seen|), budget);
      o.Some? ==>
        && (o.value.0.failure.None? ==> Underway(cases, docker, |seen| + 1, o.value.1, seen + [o.value.0], start))
        && (o.value.0.failure.Some? ==> Covers(cases, docker, seen + [o.value.0], start))
  {
    var o := Observe(cases[|seen|].id, docker.run(|seen|), budget);
    ObserveOk(cases[|seen|], docker.run(|seen|), budget);
    if o.Some? {
      CoverSnoc(cases, docker, budget, seen, start, o.value.0);
    }
  }

  lemma SpentCovers(cases: seq<JudgeCase>, docker: Docker, seen: seq<Observed>, start: nat)
    requires Underway(cases, docker, |seen|, 0, seen, start) && |seen| < |cases|
    ensures Covers(cases, docker, seen + [SpentObservation(cases[|seen|].id)], start)
  {
    CoverSnoc(cases, docker, 0, seen, start, SpentObservation(cases[|seen|].id));
  }

  lemma {:induction false} CasesCover(cases: seq<JudgeCase>, docker: Docker, i: nat, budget: nat, seen: seq<Observed>, named: nat, start: nat)
    requires Underway(cases, docker, i, budget, seen, start)
    ensures var (exit, _, _) := CasesExit(cases, docker, i, budget, seen, named);
      exit.Some? ==> Covers(cases, docker, exit.value, start)
    decreases |cases| - i
  {
    if i < |cases| {
      if budget == 0 {
        SpentCovers(cases, docker, seen, start);
      } else {
        CaseCovers(cases, docker, budget, seen, start);
        var o := Observe(cases[i].id, docker.run(i), budget);
        if o.Some? && o.value.0.failure.None? {
          CasesCover(cases, docker, i + 1, o.value.1, seen + [o.value.0], named + 1, start);
        }
      }
    }
  }

  /** The kept bytes fit the budget. */
  lemma {:induction false} KeptFits(docker: Docker, start: nat, seen: seq<Observed>, k: nat)
    requires k <= |seen| && Faithful(docker, start, seen)
    ensures KeptRaw(docker, seen, k) <= RawBefore(docker, k) && KeptRaw(docker, seen, k) <= start
  {
    if k > 0 {
      KeptFits(docker, start, seen, k - 1);
      assert TellsGuest(docker, start, k - 1, seen[k - 1]);
    }
  }

  /** Text is at most three times the bytes it was decoded from. */
  lemma {:induction false} TextAtMostTriples(docker: Docker, start: nat, seen: seq<Observed>, k: nat)
    requires k <= |seen| && Faithful(docker, start, seen)
    ensures TextUpto(seen, k) <= 3 * KeptRaw(docker, seen, k)
  {
    if k > 0 {
      TextAtMostTriples(docker, start, seen, k - 1);
      var r := docker.run(k - 1);
      assert TellsGuest(docker, start, k - 1, seen[k - 1]);
      if seen[k - 1].exitCode.Some? {
        DecodingAtMostTriples(r.out);
        DecodingAtMostTriples(r.err);
      }
    }
  }

  /** The phase goes on after this guest: it is kept, measured or cleanly stopped, and did not
      run out of memory. */
  predicate GoesOn(r: CaseRun, budget: nat) {
    Kept(r, budget) && !r.metrics.Unreadable? && !OutOfMemory(r)
  }

  /** Case `j` goes on and its container is verified absent, in a phase that starts with
      `start` bytes and container `named`. */
  predicate GoesOnAt(docker: Docker, start: nat, named: nat, j: nat) {
    && RawBefore(docker, j) <= start && GoesOn(docker.run(j), start - RawBefore(docker, j)) && docker.gone(named + j)
  }

  predicate AllGoOn(docker: Docker, start: nat, named: nat, i: nat) {
    forall j :: 0 <= j < i ==> GoesOnAt(docker, start, named, j)
  }

  /** How a phase stops at its next case: an abort before the sandbox, a spent budget, a
      container not verified absent, a broken run, or a failure of the guest. */
  predicate StopsSo(r: CaseRun, gone: bool, left: nat, seen: nat, named: nat, e: (Option<seq<Observed>>, nat, bool)) {
    && (r.Aborted? ==> e.0.None? && e.1 == named && e.2)
    && (!r.Aborted? && left == 0 ==> e.0.Some? && |e.0.value| == seen + 1 && e.1 == named && e.2)
    && (!r.Aborted? && left > 0 && !gone ==> e.0.None? && e.1 == named + 1 && !e.2)
    && (!r.Aborted? && left > 0 && gone && (r.Broken? || (Kept(r, left) && r.metrics.Unreadable?)) ==>
          e.0.None? && e.1 == named + 1 && e.2)
    && (!r.Aborted? && left > 0 && gone && !r.Broken? && !(Kept(r, left) && r.metrics.Unreadable?) && !GoesOn(r, left) ==>
          e.0.Some? && |e.0.value| == seen + 1 && e.1 == named + 1 && e.2)
  }

  lemma StopHere(cases: seq<JudgeCase>, docker: Docker, k: nat, budget: nat, seen: seq<Observed>, named: nat)
    requires k < |cases| && |seen| == k
    ensures StopsSo(docker.run(k), docker.gone(named), budget, k, named, CasesExit(cases, docker, k, budget, seen, named))
  {
    if budget > 0 {
      ObserveOk(cases[k], docker.run(k), budget);
    }
  }

  lemma GoOnHere(cases: seq<JudgeCase>, docker: Docker, k: nat, budget: nat, seen: seq<Observed>, named: nat)
    requires k < |cases| && GoesOn(docker.run(k), budget) && docker.gone(named)
    ensures var o := Observe(cases[k].id, docker.run(k), budget);
      && o.Some? && o.value.1 == budget - RunBytes(docker.run(k))
      && CasesExit(cases, docker, k, budget, seen, named) == CasesExit(cases, docker, k + 1, o.value.1, seen + [o.value.0], named + 1)
  {
    ObserveOk(cases[k], docker.run(k), budget);
  }

  lemma RawStep(docker: Docker, start: nat, named: nat, j: nat)
    requires GoesOnAt(docker, start, named, j)
    ensures RawBefore(docker, j + 1) == RawBefore(docker, j) + RunBytes(docker.run(j)) <= start
  {
  }

  /** While the cases go on, so does the loop, with what they have left of the budget. */
  lemma PhaseGoesOn(cases: seq<JudgeCase>, docker: Docker, start: nat, named: nat, i: nat)
    returns (seen: seq<Observed>, left: nat)
    requires i <= |cases| && AllGoOn(docker, start, named, i)
    ensures |seen| == i && left == start - RawBefore(docker, i)
    ensures CasesExit(cases, docker, 0, start, [], named) == CasesExit(cases, docker, i, left, seen, named + i)
  {
    seen, left := [], start;
    for j := 0 to i
      invariant |seen| == j && left == start - RawBefore(docker, j)
      invariant CasesExit(cases, docker, 0, start, [], named) == CasesExit(cases, docker, j, left, seen, named + j)
    {
      assert GoesOnAt(docker, start, named, j);
      GoOnHere(cases, docker, j, left, seen, named + j);
      RawStep(docker, start, named, j);
      var o := Observe(cases[j].id, docker.run(j), left).value;
      seen, left := seen + [o.0], o.1;
    }
  }

  /** Every container but possibly the last was verified absent, and the last one too
      unless the exit says otherwise. */
  lemma {:induction false} CasesClean(cases: seq<JudgeCase>, docker: Docker, i: nat, budget: nat, seen: seq<Observed>, named: nat)
    requires i <= |cases|
    ensures var (exit, total, clean) := CasesExit(cases, docker, i, budget, seen, named);
      && total >= named && (clean <==> forall n :: named <= n < total ==> docker.gone(n))
      && (exit.Some? ==> clean)
    decreases |cases| - i
  {
    if i < |cases| {
      var o := Observe(cases[i].id, docker.run(i), budget);
      if o.Some? {
        CasesClean(cases, docker, i + 1, o.value.1, seen + [o.value.0], named + 1);
      }
    }
  }

  /** The loop over the cases: a shared budget, one sandbox per case, and the exits. Every
      sandbox names a container and verifies its absence before anything else happens. */
  method RunCases(cases: seq<JudgeCase>, docker: Docker, start: nat, containers: nat)
    returns (exit: Option<seq<Observed>>, named: nat, clean: bool)
    ensures (exit, named, clean) == CasesExit(cases, docker, 0, start, [], containers)
  {
    var budget: nat := start;
    var seen: seq<Observed> := [];
    named := containers;
    for i := 0 to |cases|
      invariant CasesExit(cases, docker, 0, start, [], containers) == CasesExit(cases, docker, i, budget, seen, named)
    {
      if docker.run(i).Aborted? {
        return None, named, true;
      }
      if budget == 0 {
        return Some(seen + [SpentObservation(cases[i].id)]), named, true;
      }
      named := named + 1;
      if !docker.gone(named - 1) {
        return None, named, false;
      }
      var o := Observe(cases[i].id, docker.run(i), budget);
      if o.None? {
        return None, named, true;
      }
      seen := seen + [o.value.0];
      budget := o.value.1;
      if o.value.0.failure.Some? {
        return Some(seen), named, true;
      }
    }
    return Some(seen), named, true;
  }

  /** What the judge needs of an observation. */
  predicate Judgeable(cases: seq<JudgeCase>, language: Language, o: Observation) {
    && !o.cancellationConfirmed && (language == Java <==> o.compilation.Some?)
    && TextUpto(o.cases, |o.cases|) + CompilerText(o) <= 3 * OUTPUT_BYTES
    && (if CompileFailed(o) then o.cases == []
        else PrefixOk(cases, o.cases) && o.cases != [] && (|o.cases| < |cases| ==> o.cases[|o.cases| - 1].failure.Some?))
  }

  function CompilerRaw(language: Language, docker: Docker): nat {
    if language == Java && docker.compile.Compiled? then Raw(docker.compile.out) + Raw(docker.compile.err) else 0
  }

  function CompilerText(o: Observation): nat {
    match o.compilation case Some(c) => Utf8Bytes(c.stdout) + Utf8Bytes(c.stderr) case None => 0
  }

  function CasesOutcome(compilation: Option<Compilation>, r: (Option<seq<Observed>>, nat, bool)): (Exit, nat) {
    (if !r.2 then CleanupFailed else if r.0.None? then Failed else Returned(Observation(false, compilation, r.0.value)), r.1)
  }

  /** How `execute` ends, and how many containers it named. */
  function ExecuteOutcome(cases: seq<JudgeCase>, language: Language, docker: Docker): (Exit, nat) {
    var c := docker.compile;
    if language != Java then CasesOutcome(None, CasesExit(cases, docker, 0, OUTPUT_BYTES, [], 0))
    else if !docker.gone(0) then (CleanupFailed, 1)
    else if c.CompileBroken? || Raw(c.out) + Raw(c.err) > OUTPUT_BYTES then (Failed, 1)
    else
      var compilation := CompilationOf(c);
      if c.exitCode != 0 then (Returned(Observation(false, compilation, [])), 1)
      else if !c.artifactsOk then (Failed, 1)
      else CasesOutcome(compilation, CasesExit(cases, docker, 0, OUTPUT_BYTES - Raw(c.out) - Raw(c.err), [], 1))
  }

  /** A normal return: judgeable, telling what the compiler and the guests did, and holding at
      most 256 KiB of raw output of all of them. */
  predicate GoodReturn(cases: seq<JudgeCase>, language: Language, docker: Docker, o: Observation) {
    && Judgeable(cases, language, o) && CompilerRaw(language, docker) <= OUTPUT_BYTES
    && Faithful(docker, OUTPUT_BYTES - CompilerRaw(language, docker), o.cases)
    && CompilerRaw(language, docker) + KeptRaw(docker, o.cases, |o.cases|) <= OUTPUT_BYTES
    && o.compilation == (if language == Java && docker.compile.Compiled? then CompilationOf(docker.compile) else None)
  }

  /** The compilation part of an observation. */
  predicate CompilationOk(language: Language, docker: Docker, compilation: Option<Compilation>) {
    && (language == Java <==> compilation.Some?)
    && CompilerText(Observation(false, compilation, [])) <= 3 * CompilerRaw(language, docker)
    && CompilerRaw(language, docker) <= OUTPUT_BYTES
  }

  lemma CoveredTextFits(language: Language, docker: Docker, compilation: Option<Compilation>, seen: seq<Observed>)
    requires CompilationOk(language, docker, compilation) && Faithful(docker, OUTPUT_BYTES - CompilerRaw(language, docker), seen)
    ensures CompilerRaw(language, docker) + KeptRaw(docker, seen, |seen|) <= OUTPUT_BYTES
    ensures TextUpto(seen, |seen|) + CompilerText(Observation(false, compilation, seen)) <= 3 * OUTPUT_BYTES
  {
    var start := OUTPUT_BYTES - CompilerRaw(language, docker);
    TextAtMostTriples(docker, start, seen, |seen|);
    KeptFits(docker, start, seen, |seen|);
    assert CompilerText(Observation(false, compilation, seen)) == CompilerText(Observation(false, compilation, []));
  }

  lemma CoveredIsGood(cases: seq<JudgeCase>, language: Language, docker: Docker, compilation: Option<Compilation>, seen: seq<Observed>)
    requires cases != [] && CompilationOk(language, docker, compilation) && (compilation.Some? ==> compilation.value.ok)
    requires compilation == (if language == Java && docker.compile.Compiled? then CompilationOf(docker.compile) else None)
    requires Covers(cases, docker, seen, OUTPUT_BYTES - CompilerRaw(language, docker))
    ensures GoodReturn(cases, language, docker, Observation(false, compilation, seen))
  {
    CoveredTextFits(language, docker, compilation, seen);
  }

  lemma PhaseCovers(cases: seq<JudgeCase>, docker: Docker, budget: nat, named: nat, seen: seq<Observed>)
    requires CasesExit(cases, docker, 0, budget, [], named).0 == Some(seen)
    ensures Covers(cases, docker, seen, budget)
  {
    CasesCover(cases, docker, 0, budget, [], named, budget);
  }

  lemma CasesReturn(cases: seq<JudgeCase>, language: Language, docker: Docker, compilation: Option<Compilation>, named: nat, seen: seq<Observed>)
    requires cases != [] && CompilationOk(language, docker, compilation) && (compilation.Some? ==> compilation.value.ok)
    requires compilation == (if language == Java && docker.compile.Compiled? then CompilationOf(docker.compile) else None)
    requires CasesExit(cases, docker, 0, OUTPUT_BYTES - CompilerRaw(language, docker), [], named).0 == Some(seen)
    ensures GoodReturn(cases, language, docker, Observation(false, compilation, seen))
  {
    PhaseCovers(cases, docker, OUTPUT_BYTES - CompilerRaw(language, docker), named, seen);
    CoveredIsGood(cases, language, docker, compilation, seen);
  }

  function CompilationOf(c: CompileRun): Option<Compilation>
    requires c.Compiled?
  {
    Some(Compilation(c.exitCode == 0, Decode(c.out), Decode(c.err)))
  }

  lemma CompilerTextFits(docker: Docker)
    requires docker.compile.Compiled? && CompilerRaw(Java, docker) <= OUTPUT_BYTES
    ensures CompilationOk(Java, docker, CompilationOf(docker.compile))
  {
    DecodingAtMostTriples(docker.compile.out);
    DecodingAtMostTriples(docker.compile.err);
  }

  lemma CompileFailureIsGood(cases: seq<JudgeCase>, docker: Docker)
    requires docker.compile.Compiled? && docker.compile.exitCode != 0 && CompilerRaw(Java, docker) <= OUTPUT_BYTES
    ensures GoodReturn(cases, Java, docker, Observation(false, CompilationOf(docker.compile), []))
  {
    CompilerTextFits(docker);
  }

  /** Whatever Docker does, a normal return of `execute` is a good one. */
  lemma ReturnIsJudgeable(cases: seq<JudgeCase>, language: Language, docker: Docker)
    requires cases != []
    ensures var (exit, _) := ExecuteOutcome(cases, language, docker);
      exit.Returned? ==> GoodReturn(cases, language, docker, exit.observation)
  {
    var c := docker.compile;
    var (exit, _) := ExecuteOutcome(cases, language, docker);
    if exit.Returned? {
      if language != Java {
        CasesReturn(cases, language, docker, None, 0, exit.observation.cases);
      } else if c.exitCode != 0 {
        CompileFailureIsGood(cases, docker);
      } else {
        CompilerTextFits(docker);
        CasesReturn(cases, language, docker, CompilationOf(c), 1, exit.observation.cases);
      }
    }
  }

  /** The compile phase: its container first, then a broken or oversized compilation fails, an
      unsuccessful one is returned by itself, bad artifacts fail, and the cases follow with
      what is left of the budget. */
  lemma CompilePhase(cases: seq<JudgeCase>, docker: Docker)
    ensures var (exit, named) := ExecuteOutcome(cases, Java, docker);
      var c, raw := docker.compile, CompilerRaw(Java, docker);
      var sane := c.Compiled? && raw <= 262144;
      && (!docker.gone(0) ==> exit.CleanupFailed? && named == 1)
      && (docker.gone(0) && !sane ==> exit.Failed? && named == 1)
      && (docker.gone(0) && sane && c.exitCode != 0 ==>
            exit == Returned(Observation(false, Some(Compilation(false, Decode(c.out), Decode(c.err))), [])) && named == 1)
      && (docker.gone(0) && sane && c.exitCode == 0 && !c.artifactsOk ==> exit.Failed? && named == 1)
      && (docker.gone(0) && sane && c.exitCode == 0 && c.artifactsOk ==>
            (exit, named) == CasesOutcome(Some(Compilation(true, Decode(c.out), Decode(c.err))), CasesExit(cases, docker, 0, 262144 - raw, [], 1)))
  {
  }

  /** A phase that was not clean is a clean-up failure, one without observation a failure, and
      any other is returned. */
  lemma PhaseOutcome(compilation: Option<Compilation>, e: (Option<seq<Observed>>, nat, bool))
    ensures var (exit, named) := CasesOutcome(compilation, e);
      && named == e.1
      && (exit.CleanupFailed? <==> !e.2) && (exit.Failed? <==> e.2 && e.0.None?)
      && (exit.Returned? ==> e.0.Some? && exit.observation == Observation(false, compilation, e.0.value))
  {
  }

  /** SandboxCleanupError is the exit exactly when some named container was not verified absent. */
  lemma CleanupIsExact(cases: seq<JudgeCase>, language: Language, docker: Docker)
    ensures var (exit, named) := ExecuteOutcome(cases, language, docker);
      exit.CleanupFailed? <==> exists n :: 0 <= n < named && !docker.gone(n)
  {
    var c := docker.compile;
    if language != Java {
      CasesClean(cases, docker, 0, OUTPUT_BYTES, [], 0);
    } else if docker.gone(0) && c.Compiled? && CompilerRaw(language, docker) <= OUTPUT_BYTES {
      CasesClean(cases, docker, 0, OUTPUT_BYTES - Raw(c.out) - Raw(c.err), [], 1);
    }
  }

  /** The compile phase and the case phase, in order. */
  method RunPhases(cases: seq<JudgeCase>, language: Language, docker: Docker) returns (exit: Exit, named: nat)
    ensures (exit, named) == ExecuteOutcome(cases, language, docker)
  {
    var budget := OUTPUT_BYTES;
    named := 0;
    var compilation := None;
    if language == Java {
      named := 1;
      if !docker.gone(0) {
        return CleanupFailed, named;
      }
      if docker.compile.CompileBroken? || Raw(docker.compile.out) + Raw(docker.compile.err) > budget {
        return Failed, named;
      }
      budget := budget - Raw(docker.compile.out) - Raw(docker.compile.err);
      compilation := Some(Compilation(docker.compile.exitCode == 0, Decode(docker.compile.out), Decode(docker.compile.err)));
      if docker.compile.exitCode != 0 {
        return Returned(Observation(false, compilation, [])), named;
      }
      if !docker.compile.artifactsOk {
        return Failed, named;
      }
    }
    var seen, clean;
    seen, named, clean := RunCases(cases, docker, budget, named);
    if !clean {
      exit := CleanupFailed;
    } else if seen.None? {
      exit := Failed;
    } else {
      exit := Returned(Observation(false, compilation, seen.value));
    }
  }

  /** `execute` between admission and its finally block. Containers are numbered in the
      order they are named; a normal return or an ordinary failure means each of them was
      verified absent. */
  method Execute(cases: seq<JudgeCase>, language: Language, docker: Docker) returns (exit: Exit, named: nat)
    requires cases != []
    ensures (exit, named) == ExecuteOutcome(cases, language, docker)
    ensures exit.Returned? ==> GoodReturn(cases, language, docker, exit.observation)
    ensures exit.CleanupFailed? <==> exists n :: 0 <= n < named && !docker.gone(n)
  {
    exit, named := RunPhases(cases, language, docker);
    ReturnIsJudgeable(cases, language, docker);
    CleanupIsExact(cases, language, docker);
  }

  // ------------------------------------------------------------------
  // The judge accepts it

  lemma {:induction false} TextIsCaseBytes(seen: seq<Observed>, k: nat)
    requires k <= |seen|
    ensures CaseBytesFrom(seen, 0) == TextUpto(seen, k) + CaseBytesFrom(seen, k)
  {
    if k > 0 {
      TextIsCaseBytes(seen, k - 1);
    }
  }

  /** Exit codes and metrics a process and a cgroup can report. */
  predicate NumbersFit(seen: seq<Observed>) {
    forall i :: 0 <= i < |seen| ==>
      && (seen[i].exitCode.Some? ==> 0 <= seen[i].exitCode.value <= 255)
      && SafeInt(seen[i].cpuMs) && SafeInt(seen[i].memoryKiB)
  }

  predicate NumbersOk(o: Observation) {
    NumbersFit(o.cases)
  }

  lemma BytesFit(cases: seq<JudgeCase>, language: Language, o: Observation)
    requires Judgeable(cases, language, o)
    ensures ObservedBytes(o) <= MAX_OBSERVED_BYTES
  {
    TextIsCaseBytes(o.cases, |o.cases|);
  }

  lemma NumbersDecide(cases: seq<JudgeCase>, language: Language, o: Observation)
    requires Judgeable(cases, language, o) && |cases| <= MAX_CASES
    ensures Parses(o) <==> NumbersOk(o)
  {
    if NumbersOk(o) {
      forall i | 0 <= i < |o.cases|
        ensures CaseParses(o.cases[i])
      {
        assert StepOk(cases[i], o.cases[i]);
      }
    }
  }

  lemma JudgeableCovers(cases: seq<JudgeCase>, language: Language, o: Observation)
    requires Judgeable(cases, language, o) && !CompileFailed(o)
    ensures CoversPrefix(cases, o.cases)
  {
  }

  /** Whatever Docker does, the judge accepts a normal return of `execute` on the cases it
      selected: it raises a protocol error exactly when an exit code is not 0..255 (the
      transport reports -1 for a client killed by a signal) or a metric is not a safe
      integer. */
  lemma SupervisorOutputIsJudgeable(strip: Strip, plan: Plan, mode: Mode, language: Language, o: Observation)
    requires SelectCases(plan, mode).Some?
    requires Judgeable(SelectCases(plan, mode).value, language, o)
    ensures JudgeOf(strip, plan, mode, language, o).ProtocolError? <==> !NumbersOk(o)
    ensures NumbersOk(o) ==> JudgeOf(strip, plan, mode, language, o).Result?
  {
    var cases := SelectCases(plan, mode).value;
    BytesFit(cases, language, o);
    NumbersDecide(cases, language, o);
    if !CompileFailed(o) {
      JudgeableCovers(cases, language, o);
    }
  }

  // ------------------------------------------------------------------
  // From the guests to the verdict

  /** The guest did what the case asks. */
  predicate GuestPasses(r: CaseRun, test: JudgeCase) {
    r.Ended? && r.exitCode == 0 && !OutOfMemory(r) && CompareOutput(Decode(r.out), test.expected)
  }

  lemma PassTellsGuest(o: Observed, r: CaseRun, budget: nat, test: JudgeCase)
    requires Tells(o, r, budget) && Passes(o, test)
    ensures GuestPasses(r, test)
  {
  }

  lemma AllPassMeansGuests(docker: Docker, start: nat, cases: seq<JudgeCase>, seen: seq<Observed>, i: nat)
    requires Faithful(docker, start, seen) && AllPass(cases, seen) && i < |cases|
    ensures GuestPasses(docker.run(i), cases[i])
  {
    assert TellsGuest(docker, start, i, seen[i]);
    PassTellsGuest(seen[i], docker.run(i), start - RawBefore(docker, i), cases[i]);
  }

  lemma AcceptedCoversAll(strip: Strip, plan: Plan, mode: Mode, language: Language, o: Observation)
    requires JudgeOf(strip, plan, mode, language, o).Result?
    requires JudgeOf(strip, plan, mode, language, o).result.verdict == Accepted
    ensures AllPass(SelectCases(plan, mode).value, o.cases)
  {
    VerdictSpecification(strip, plan, mode, language, o);
    AcceptedIsAllPass(SelectCases(plan, mode).value, o.cases, Accepted);
  }

  /** ACCEPTED is earned: if the judge accepts what `execute` returned, every selected guest
      ended with exit code 0, within its memory, and with matching output. */
  lemma AcceptedIsEarned(strip: Strip, plan: Plan, mode: Mode, language: Language, docker: Docker, o: Observation, i: nat)
    requires SelectCases(plan, mode).Some? && i < |SelectCases(plan, mode).value|
    requires ExecuteOutcome(SelectCases(plan, mode).value, language, docker).0 == Returned(o)
    requires JudgeOf(strip, plan, mode, language, o).Result?
    requires JudgeOf(strip, plan, mode, language, o).result.verdict == Accepted
    ensures GuestPasses(docker.run(i), SelectCases(plan, mode).value[i])
  {
    var cases := SelectCases(plan, mode).value;
    ReturnIsJudgeable(cases, language, docker);
    AcceptedCoversAll(strip, plan, mode, language, o);
    AllPassMeansGuests(docker, OUTPUT_BYTES - CompilerRaw(language, docker), cases, o.cases, i);
  }

  lemma GuestPassTells(o: Observed, r: CaseRun, budget: nat, test: JudgeCase)
    requires Tells(o, r, budget) && GoesOn(r, budget) && GuestPasses(r, test)
    ensures Passes(o, test)
  {
    match o.failure
    case None =>
    case Some(f) =>
      match f
      case TimeLimit =>
      case MemoryLimit =>
      case OutputLimit =>
  }

  lemma NumbersOfGuests(docker: Docker, start: nat, seen: seq<Observed>)
    requires Faithful(docker, start, seen)
    requires forall i :: 0 <= i < |seen| ==> docker.run(i).Ended? && 0 <= docker.run(i).exitCode <= 255 && SafeMetrics(docker.run(i))
    ensures NumbersFit(seen)
  {
    forall i | 0 <= i < |seen|
      ensures SafeInt(seen[i].cpuMs) && SafeInt(seen[i].memoryKiB) && (seen[i].exitCode.Some? ==> 0 <= seen[i].exitCode.value <= 255)
    {
      assert TellsGuest(docker, start, i, seen[i]);
    }
  }

  /** What a compiled language needs before its cases. */
  predicate CompilesWell(language: Language, docker: Docker) {
    language == Java ==>
      && docker.gone(0) && docker.compile.Compiled? && docker.compile.exitCode == 0 && docker.compile.artifactsOk
      && CompilerRaw(language, docker) <= OUTPUT_BYTES
  }

  /** Every guest passes within what the compiler left of the budget, with safe metrics, and
      every container is verified absent. */
  predicate RightProgram(cases: seq<JudgeCase>, language: Language, docker: Docker) {
    && CompilesWell(language, docker) && CompilerRaw(language, docker) <= OUTPUT_BYTES
    && AllGoOn(docker, OUTPUT_BYTES - CompilerRaw(language, docker), if language == Java then 1 else 0, |cases|)
    && GuestsPass(cases, docker)
  }

  predicate PassesSafely(r: CaseRun, test: JudgeCase) {
    GuestPasses(r, test) && SafeMetrics(r)
  }

  predicate GuestsPass(cases: seq<JudgeCase>, docker: Docker) {
    forall i :: 0 <= i < |cases| ==> PassesSafely(docker.run(i), cases[i])
  }

  predicate SafeMetrics(r: CaseRun) {
    IsMeasured(r) ==> r.metrics.cpuMs <= MAX_SAFE_INTEGER && r.metrics.memoryKiB <= MAX_SAFE_INTEGER
  }

  lemma GuestsAllPass(docker: Docker, start: nat, named: nat, cases: seq<JudgeCase>, seen: seq<Observed>)
    requires Faithful(docker, start, seen) && AllGoOn(docker, start, named, |cases|) && |seen| == |cases|
    requires GuestsPass(cases, docker)
    ensures AllPass(cases, seen)
  {
    forall i | 0 <= i < |cases|
      ensures Passes(seen[i], cases[i])
    {
      assert TellsGuest(docker, start, i, seen[i]) && GoesOnAt(docker, start, named, i);
      assert PassesSafely(docker.run(i), cases[i]);
      GuestPassTells(seen[i], docker.run(i), start - RawBefore(docker, i), cases[i]);
    }
  }

  /** Such a program's run returns an observation of every case. */
  lemma RightProgramReturns(cases: seq<JudgeCase>, language: Language, docker: Docker)
    requires cases != [] && RightProgram(cases, language, docker)
    ensures var exit := ExecuteOutcome(cases, language, docker).0;
      exit.Returned? && |exit.observation.cases| == |cases| && !CompileFailed(exit.observation)
  {
    var start, named := OUTPUT_BYTES - CompilerRaw(language, docker), if language == Java then 1 else 0;
    var seen, left := PhaseGoesOn(cases, docker, start, named, |cases|);
    assert CasesExit(cases, docker, |cases|, left, seen, named + |cases|) == (Some(seen), named + |cases|, true);
  }

  lemma JudgeAcceptsPassing(strip: Strip, plan: Plan, mode: Mode, language: Language, o: Observation)
    requires SelectCases(plan, mode).Some? && Judgeable(SelectCases(plan, mode).value, language, o)
    requires NumbersOk(o) && !CompileFailed(o) && AllPass(SelectCases(plan, mode).value, o.cases)
    ensures JudgeOf(strip, plan, mode, language, o).Result? && JudgeOf(strip, plan, mode, language, o).result.verdict == Accepted
  {
    SupervisorOutputIsJudgeable(strip, plan, mode, language, o);
    VerdictSpecification(strip, plan, mode, language, o);
    AcceptedIsAllPass(SelectCases(plan, mode).value, o.cases, JudgeOf(strip, plan, mode, language, o).result.verdict);
  }

  lemma RightNumbers(docker: Docker, start: nat, cases: seq<JudgeCase>, seen: seq<Observed>)
    requires Faithful(docker, start, seen) && |seen| == |cases|
    requires GuestsPass(cases, docker)
    ensures NumbersFit(seen)
  {
    forall i | 0 <= i < |seen|
      ensures docker.run(i).Ended? && 0 <= docker.run(i).exitCode <= 255 && SafeMetrics(docker.run(i))
    {
      assert PassesSafely(docker.run(i), cases[i]);
    }
    NumbersOfGuests(docker, start, seen);
  }

  lemma RightObservation(cases: seq<JudgeCase>, language: Language, docker: Docker, o: Observation)
    requires RightProgram(cases, language, docker) && |o.cases| == |cases|
    requires Faithful(docker, OUTPUT_BYTES - CompilerRaw(language, docker), o.cases)
    ensures NumbersOk(o) && AllPass(cases, o.cases)
  {
    var start := OUTPUT_BYTES - CompilerRaw(language, docker);
    RightNumbers(docker, start, cases, o.cases);
    GuestsAllPass(docker, start, if language == Java then 1 else 0, cases, o.cases);
  }

  lemma RightRun(cases: seq<JudgeCase>, language: Language, docker: Docker, exit: Exit)
    requires cases != [] && RightProgram(cases, language, docker) && exit == ExecuteOutcome(cases, language, docker).0
    ensures exit.Returned? && Judgeable(cases, language, exit.observation) && NumbersOk(exit.observation)
    ensures !CompileFailed(exit.observation) && AllPass(cases, exit.observation.cases)
  {
    RightProgramReturns(cases, language, docker);
    ReturnIsJudgeable(cases, language, docker);
    RightObservation(cases, language, docker, exit.observation);
  }

  /** A program that does everything right is accepted. */
  lemma RightProgramIsAccepted(strip: Strip, plan: Plan, mode: Mode, language: Language, docker: Docker, exit: Exit)
    requires SelectCases(plan, mode).Some? && RightProgram(SelectCases(plan, mode).value, language, docker)
    requires exit == ExecuteOutcome(SelectCases(plan, mode).value, language, docker).0
    ensures exit.Returned? && JudgeOf(strip, plan, mode, language, exit.observation).Result?
    ensures JudgeOf(strip, plan, mode, language, exit.observation).result.verdict == Accepted
  {
    RightRun(SelectCases(plan, mode).value, language, docker, exit);
    JudgeAcceptsPassing(strip, plan, mode, language, exit.observation);
  }

  // ------------------------------------------------------------------
  // A signalled client

  /** Guests that print nothing; the first ends with `code`, the others with 0. */
  function QuietDocker(code: int): Docker {
    Docker(CompileBroken, i => Ended([], [], if i == 0 then code else 0, Stopped(false), 0), _ => true)
  }

  function QuietCase(id: Id, code: int): Observed {
    Observed(id, [], [], Some(code), None, 0, None, None)
  }

  function QuietCases(cases: seq<JudgeCase>, code: int, k: nat): (seen: seq<Observed>)
    requires k <= |cases|
    ensures |seen| == k && forall i :: 0 <= i < k ==> seen[i] == QuietCase(cases[i].id, if i == 0 then code else 0)
  {
    if k == 0 then [] else QuietCases(cases, code, k - 1) + [QuietCase(cases[k - 1].id, if k == 1 then code else 0)]
  }

  lemma {:induction false} QuietRun(cases: seq<JudgeCase>, code: int, i: nat)
    requires i <= |cases|
    ensures CasesExit(cases, QuietDocker(code), i, OUTPUT_BYTES, QuietCases(cases, code, i), i)
            == (Some(QuietCases(cases, code, |cases|)), |cases|, true)
    decreases |cases| - i
  {
    if i < |cases| {
      QuietRun(cases, code, i + 1);
    }
  }

  /** The exit code alone decides: for the guests above `execute` returns an observation of
      all selected cases, and the judge takes it exactly when the first guest's code is
      0..255. The code -1 of a Docker client killed by a signal is not. */
  lemma SignalledClientIsRejected(strip: Strip, plan: Plan, mode: Mode, code: int)
    requires SelectCases(plan, mode).Some?
    ensures var cases := SelectCases(plan, mode).value;
      var o := Observation(false, None, QuietCases(cases, code, |cases|));
      && ExecuteOutcome(cases, Python, QuietDocker(code)).0 == Returned(o)
      && (JudgeOf(strip, plan, mode, Python, o).Result? <==> 0 <= code <= 255)
      && (code == -1 ==> JudgeOf(strip, plan, mode, Python, o).ProtocolError?)
  {
    var cases := SelectCases(plan, mode).value;
    var o := Observation(false, None, QuietCases(cases, code, |cases|));
    QuietRun(cases, code, 0);
    ReturnIsJudgeable(cases, Python, QuietDocker(code));
    SupervisorOutputIsJudgeable(strip, plan, mode, Python, o);
    assert o.cases[0].exitCode == Some(code);
  }
}
