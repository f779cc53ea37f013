/** Shared vocabulary of the execution pipeline: states, verdicts, failure codes
    and the transition table of packages/contracts. */
module Contracts {
  import opened Text

  type Id = nat
  type Token = nat
  /** Milliseconds on the one nondecreasing clock. */
  type Time = int

  datatype Option<+T> = None | Some(value: T)

  datatype Mode = RunMode | SubmitMode
  datatype State = Queued | Compiling | Running | Finished | Cancelled | InternalError
  datatype Verdict =
    | Accepted | WrongAnswer | CompilationError | RuntimeError
    | TimeLimitExceeded | MemoryLimitExceeded | OutputLimitExceeded
    | VerdictCancelled | VerdictInternalError
  datatype FailureCode = QueueTimeout | JobFailure | LeaseExpired | JobTimeout | CancellationTimeout
  datatype Stream = Stdout | Stderr

  /** One public case of a RUN result. */
  datatype CaseResult = CaseResult(
    caseId: Id, verdict: Verdict, stdout: Option<Str>, stderr: Option<Str>, outputTruncated: bool,
    exitCode: Option<int>, runtimeMs: Option<nat>, memoryKiB: Option<nat>)

  /** What a worker hands to `finish`, and what the judge returns. */
  datatype WorkerResult = WorkerResult(
    verdict: Verdict, runtimeMs: Option<nat>, memoryKiB: Option<nat>, publicCaseResults: Option<seq<CaseResult>>)

  /** The table `transitions`. */
  function Transitions(s: State): set<State> {
    match s
    case Queued => {Compiling, Cancelled, InternalError}
    case Compiling => {Running, Finished, Cancelled, InternalError}
    case Running => {Finished, Cancelled, InternalError}
    case _ => {}
  }

  predicate IsTerminal(s: State) {
    Transitions(s) == {}
  }

  predicate CanTransition(from: State, to: State) {
    to in Transitions(from)
  }

  /** A verdict a worker may report: everything but the two infrastructure verdicts. */
  predicate IsLearnerVerdict(v: Verdict) {
    !v.VerdictCancelled? && !v.VerdictInternalError?
  }

  function Min(a: int, b: int): int {
    if a <= b then a else b
  }

  function Max(a: int, b: int): int {
    if a >= b then a else b
  }

  /** The table's terminal states are exactly the three a reader would name. */
  lemma TerminalStates(s: State)
    ensures IsTerminal(s) <==> s in {Finished, Cancelled, InternalError}
  {
    match s
    case Queued => assert Compiling in Transitions(s);
    case Compiling => assert Running in Transitions(s);
    case Running => assert Finished in Transitions(s);
    case _ =>
  }
}
