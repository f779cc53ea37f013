/** The JSON of events and results as text (RFC 8259, as JSON.stringify writes it), against
    which the sizes used by the limits are checked. Identifiers are 36 characters; the order of
    an object's members does not matter for its size. */
module JsonText {
  import opened Contracts
  import opened Text
  import opened EventLog
  import opened Projection

  /** An ASCII literal. */
  function Ascii(s: string): (t: Str)
    ensures |t| == |s|
  {
    seq(|s|, i requires 0 <= i < |s| => if s[i] as int < 0x80 then s[i] as int else 0x3f)
  }

  lemma {:induction false} AsciiUpto(s: string, k: nat)
    requires k <= |s|
    ensures Utf8Upto(Ascii(s), k) == k
  {
    if k > 0 {
      AsciiUpto(s, k - 1);
    }
  }

  lemma AsciiBytes(s: string)
    ensures Utf8Bytes(Ascii(s)) == |s|
  {
    AsciiUpto(s, |s|);
  }

  lemma {:induction false} BytesUpto(a: Str, b: Str, k: nat)
    requires k <= |b|
    ensures Utf8Upto(a + b, |a| + k) == Utf8Bytes(a) + Utf8Upto(b, k)
  {
    if k == 0 {
      Utf8Prefix(a, a + b, |a|);
    } else {
      BytesUpto(a, b, k - 1);
      assert (a + b)[|a| + k - 1] == b[k - 1];
    }
  }

  lemma BytesAppend(a: Str, b: Str)
    ensures Utf8Bytes(a + b) == Utf8Bytes(a) + Utf8Bytes(b)
  {
    BytesUpto(a, b, |b|);
  }

  // ------------------------------------------------------------------
  // Strings

  function HexDigit(d: nat): CodePoint
    requires d < 16
  {
    if d < 10 then 0x30 + d else 0x57 + d
  }

  /** A two-character escape. */
  function Short(c: CodePoint): Str {
    [0x5c, c]
  }

  /** \uXXXX. */
  function Unicode(c: CodePoint): Str
    requires c < 0x10000
  {
    [0x5c, 0x75, HexDigit(c / 4096), HexDigit(c / 256 % 16), HexDigit(c / 16 % 16), HexDigit(c % 16)]
  }

  /** One character inside a JSON string. */
  function Escaped(c: CodePoint): Str {
    if c == 0x22 || c == 0x5c then Short(c)
    else if c == 0x08 then Short(0x62)
    else if c == 0x09 then Short(0x74)
    else if c == 0x0a then Short(0x6e)
    else if c == 0x0c then Short(0x66)
    else if c == 0x0d then Short(0x72)
    else if c < 0x20 || 0xd800 <= c <= 0xdfff then Unicode(c)
    else [c]
  }

  lemma SixBytes(t: Str)
    requires |t| <= 6 && forall i :: 0 <= i < |t| ==> t[i] < 0x80
    ensures Utf8Bytes(t) == |t|
  {
    for k := 0 to |t|
      invariant Utf8Upto(t, k) == k
    {
    }
  }

  lemma EscapedBytes(c: CodePoint)
    ensures Utf8Bytes(Escaped(c)) == JsonLen(c)
  {
    if JsonLen(c) == 2 && c < 0x80 {
      if |Escaped(c)| == 2 {
        SixBytes(Escaped(c));
      }
    } else if c < 0x20 || 0xd800 <= c <= 0xdfff {
      SixBytes(Unicode(c));
    }
    if Escaped(c) == [c] {
      assert Utf8Upto([c], 1) == Utf8Upto([c], 0) + Utf8Len(c);
    }
  }

  function EscapedUpto(t: Str, k: nat): Str
    requires k <= |t|
  {
    if k == 0 then [] else EscapedUpto(t, k - 1) + Escaped(t[k - 1])
  }

  lemma {:induction false} EscapedUptoBytes(t: Str, k: nat)
    requires k <= |t|
    ensures Utf8Bytes(EscapedUpto(t, k)) == JsonUpto(t, k)
  {
    if k > 0 {
      EscapedUptoBytes(t, k - 1);
      EscapedBytes(t[k - 1]);
      BytesAppend(EscapedUpto(t, k - 1), Escaped(t[k - 1]));
    }
  }

  function Quoted(t: Str): Str {
    [0x22] + EscapedUpto(t, |t|) + [0x22]
  }

  lemma QuotedBytes(t: Str)
    ensures Utf8Bytes(Quoted(t)) == JsonString(t)
  {
    EscapedUptoBytes(t, |t|);
    SixBytes([0x22]);
    BytesAppend([0x22], EscapedUpto(t, |t|));
    BytesAppend([0x22] + EscapedUpto(t, |t|), [0x22]);
  }

  /** A string that needs no escapes: a name or an identifier. */
  function Word(w: string): Str {
    [0x22] + Ascii(w) + [0x22]
  }

  lemma WordBytes(w: string)
    ensures Utf8Bytes(Word(w)) == 2 + |w|
  {
    AsciiBytes(w);
    SixBytes([0x22]);
    BytesAppend([0x22], Ascii(w));
    BytesAppend([0x22] + Ascii(w), [0x22]);
  }

  // ------------------------------------------------------------------
  // Numbers

  function Decimal(n: nat): Str {
    if n < 10 then [0x30 + n] else Decimal(n / 10) + [0x30 + n % 10]
  }

  lemma {:induction false} DecimalBytes(n: nat)
    ensures Utf8Bytes(Decimal(n)) == Digits(n)
  {
    SixBytes([0x30 + n % 10]);
    if n >= 10 {
      DecimalBytes(n / 10);
      BytesAppend(Decimal(n / 10), [0x30 + n % 10]);
    }
  }

  function Integer(n: int): Str {
    if n < 0 then [0x2d] + Decimal(-n) else Decimal(n)
  }

  lemma IntegerBytes(n: int)
    ensures Utf8Bytes(Integer(n)) == JsonInt(n)
  {
    if n < 0 {
      DecimalBytes(-n);
      SixBytes([0x2d]);
      BytesAppend([0x2d], Decimal(-n));
    } else {
      DecimalBytes(n);
    }
  }

  // ------------------------------------------------------------------
  // Objects

  function Pair(key: string, value: Str): Str {
    Word(key) + [0x3a] + value
  }

  lemma PairBytes(key: string, value: Str)
    ensures Utf8Bytes(Pair(key, value)) == Member(|key|, Utf8Bytes(value))
  {
    WordBytes(key);
    SixBytes([0x3a]);
    BytesAppend(Word(key), [0x3a]);
    BytesAppend(Word(key) + [0x3a], value);
  }

  /** One more member. */
  function Then(members: Str, next: Str): Str {
    members + [0x2c] + next
  }

  lemma ThenBytes(members: Str, next: Str)
    ensures Utf8Bytes(Then(members, next)) == Utf8Bytes(members) + 1 + Utf8Bytes(next)
  {
    SixBytes([0x2c]);
    BytesAppend(members, [0x2c]);
    BytesAppend(members + [0x2c], next);
  }

  function ThenPair(members: Str, key: string, value: Str): Str {
    Then(members, Pair(key, value))
  }

  lemma ThenPairBytes(members: Str, key: string, value: Str)
    ensures Utf8Bytes(ThenPair(members, key, value)) == Utf8Bytes(members) + 1 + Member(|key|, Utf8Bytes(value))
  {
    PairBytes(key, value);
    ThenBytes(members, Pair(key, value));
  }

  function ThenOptional(members: Str, key: string, value: Option<Str>): Str {
    match value case Some(v) => ThenPair(members, key, v) case None => members
  }

  lemma ThenOptionalBytes(members: Str, key: string, value: Option<Str>)
    ensures Utf8Bytes(ThenOptional(members, key, value)) ==
              Utf8Bytes(members) + (match value case Some(v) => 1 + Member(|key|, Utf8Bytes(v)) case None => 0)
  {
    if value.Some? {
      ThenPairBytes(members, key, value.value);
    }
  }

  function Braced(members: Str): Str {
    [0x7b] + members + [0x7d]
  }

  lemma BracedBytes(members: Str)
    ensures Utf8Bytes(Braced(members)) == 2 + Utf8Bytes(members)
  {
    SixBytes([0x7b]);
    SixBytes([0x7d]);
    BytesAppend([0x7b], members);
    BytesAppend([0x7b] + members, [0x7d]);
  }

  // ------------------------------------------------------------------
  // Names

  function StateName(s: State): (n: string)
    ensures |n| == StateChars(s)
  {
    match s
    case Queued => "QUEUED"
    case Compiling => "COMPILING"
    case Running => "RUNNING"
    case Finished => "FINISHED"
    case Cancelled => "CANCELLED"
    case InternalError => "INTERNAL_ERROR"
  }

  function VerdictName(v: Verdict): (n: string)
    ensures |n| == VerdictChars(v)
  {
    match v
    case Accepted => "ACCEPTED"
    case WrongAnswer => "WRONG_ANSWER"
    case CompilationError => "COMPILATION_ERROR"
    case RuntimeError => "RUNTIME_ERROR"
    case TimeLimitExceeded => "TIME_LIMIT_EXCEEDED"
    case MemoryLimitExceeded => "MEMORY_LIMIT_EXCEEDED"
    case OutputLimitExceeded => "OUTPUT_LIMIT_EXCEEDED"
    case VerdictCancelled => "CANCELLED"
    case VerdictInternalError => "INTERNAL_ERROR"
  }

  function CodeName(c: FailureCode): (n: string)
    ensures |n| == CodeChars(c)
  {
    match c
    case QueueTimeout => "QUEUE_TIMEOUT"
    case JobFailure => "JOB_FAILURE"
    case LeaseExpired => "LEASE_EXPIRED"
    case JobTimeout => "JOB_TIMEOUT"
    case CancellationTimeout => "CANCELLATION_TIMEOUT"
  }

  function StreamName(s: Stream): (n: string)
    ensures |n| == 6
  {
    match s case Stdout => "stdout" case Stderr => "stderr"
  }

  /** How identifiers are written. */
  type Names = Id -> string

  ghost predicate AreUuids(names: Names) {
    forall id: Id :: |names(id)| == 36
  }

  function OptionalTrue(b: bool): Option<Str> {
    if b then Some(Ascii("true")) else None
  }

  // ------------------------------------------------------------------
  // Events

  function StatusText(s: State, requested: bool): Str {
    ThenOptional(ThenPair(Pair("kind", Word("execution_status")), "state", Word(StateName(s))),
                 "cancellationRequested", OptionalTrue(requested))
  }

  function ConsoleText(caseId: string, stream: Stream, text: Str): Str {
    ThenPair(ThenPair(ThenPair(Pair("kind", Word("console_output")), "caseId", Word(caseId)), "stream", Word(StreamName(stream))),
             "text", Quoted(text))
  }

  function FinalText(s: State, v: Verdict, code: Option<FailureCode>): Str {
    ThenOptional(FinalHead(s, v), "failureCode", match code case Some(c) => Some(Word(CodeName(c))) case None => None)
  }

  function BodyText(names: Names, b: Body): Str {
    match b
    case Status(s, requested) => StatusText(s, requested)
    case ConsoleOutput(id, stream, text) => ConsoleText(names(id), stream, text)
    case FinalVerdict(s, v, code) => FinalText(s, v, code)
  }

  /** The JSON of an event. */
  function EventText(names: Names, e: Event): Str {
    Braced(ThenPair(ThenPair(ThenPair(BodyText(names, e.body), "executionId", Word(names(e.executionId))),
                             "attempt", Decimal(e.attempt)), "sequence", Decimal(e.sequence)))
  }

  lemma StatusBytes(s: State, requested: bool)
    ensures Utf8Bytes(StatusText(s, requested)) == BodyJson(Status(s, requested))
  {
    WordBytes("execution_status");
    PairBytes("kind", Word("execution_status"));
    WordBytes(StateName(s));
    var head := Pair("kind", Word("execution_status"));
    ThenPairBytes(head, "state", Word(StateName(s)));
    AsciiBytes("true");
    ThenOptionalBytes(ThenPair(head, "state", Word(StateName(s))), "cancellationRequested", OptionalTrue(requested));
  }

  lemma ConsoleBytes(id: Id, caseId: string, stream: Stream, text: Str)
    requires |caseId| == 36
    ensures Utf8Bytes(ConsoleText(caseId, stream, text)) == BodyJson(ConsoleOutput(id, stream, text))
  {
    WordBytes("console_output");
    PairBytes("kind", Word("console_output"));
    var a := Pair("kind", Word("console_output"));
    WordBytes(caseId);
    ThenPairBytes(a, "caseId", Word(caseId));
    var b := ThenPair(a, "caseId", Word(caseId));
    WordBytes(StreamName(stream));
    ThenPairBytes(b, "stream", Word(StreamName(stream)));
    QuotedBytes(text);
    ThenPairBytes(ThenPair(b, "stream", Word(StreamName(stream))), "text", Quoted(text));
  }

  function FinalHead(s: State, v: Verdict): Str {
    ThenPair(ThenPair(Pair("kind", Word("final_verdict")), "state", Word(StateName(s))), "verdict", Word(VerdictName(v)))
  }

  lemma FinalHeadBytes(s: State, v: Verdict)
    ensures Utf8Bytes(FinalHead(s, v)) == Member(4, 15) + 1 + Member(5, 2 + StateChars(s)) + 1 + Member(7, 2 + VerdictChars(v))
  {
    WordBytes("final_verdict");
    PairBytes("kind", Word("final_verdict"));
    var a := Pair("kind", Word("final_verdict"));
    WordBytes(StateName(s));
    ThenPairBytes(a, "state", Word(StateName(s)));
    WordBytes(VerdictName(v));
    ThenPairBytes(ThenPair(a, "state", Word(StateName(s))), "verdict", Word(VerdictName(v)));
  }

  lemma FinalBytes(s: State, v: Verdict, code: Option<FailureCode>)
    ensures Utf8Bytes(FinalText(s, v, code)) == BodyJson(FinalVerdict(s, v, code))
  {
    FinalHeadBytes(s, v);
    var text := match code case Some(c) => Some(Word(CodeName(c))) case None => None;
    if code.Some? {
      WordBytes(CodeName(code.value));
    }
    ThenOptionalBytes(FinalHead(s, v), "failureCode", text);
  }

  lemma BodyBytes(names: Names, b: Body)
    requires AreUuids(names)
    ensures Utf8Bytes(BodyText(names, b)) == BodyJson(b)
  {
    match b
    case Status(s, requested) => StatusBytes(s, requested);
    case ConsoleOutput(id, stream, text) => ConsoleBytes(id, names(id), stream, text);
    case FinalVerdict(s, v, code) => FinalBytes(s, v, code);
  }

  /** The size the store compares with 16384 is the size of the event's JSON. */
  lemma EventJsonIsSize(names: Names, e: Event)
    requires AreUuids(names)
    ensures Utf8Bytes(EventText(names, e)) == EventJson(e)
  {
    var a := BodyText(names, e.body);
    BodyBytes(names, e.body);
    WordBytes(names(e.executionId));
    ThenPairBytes(a, "executionId", Word(names(e.executionId)));
    var b := ThenPair(a, "executionId", Word(names(e.executionId)));
    DecimalBytes(e.attempt);
    ThenPairBytes(b, "attempt", Decimal(e.attempt));
    var c := ThenPair(b, "attempt", Decimal(e.attempt));
    DecimalBytes(e.sequence);
    ThenPairBytes(c, "sequence", Decimal(e.sequence));
    BracedBytes(ThenPair(c, "sequence", Decimal(e.sequence)));
  }

  // ------------------------------------------------------------------
  // Results

  function OptionalInteger(n: Option<int>): Option<Str> {
    match n case Some(v) => Some(Integer(v)) case None => None
  }

  function OptionalQuoted(t: Option<Str>): Option<Str> {
    match t case Some(v) => Some(Quoted(v)) case None => None
  }

  lemma ThenIntegerBytes(members: Str, key: string, n: Option<int>)
    ensures Utf8Bytes(ThenOptional(members, key, OptionalInteger(n))) == Utf8Bytes(members) + OptionalInt(|key|, n)
  {
    ThenOptionalBytes(members, key, OptionalInteger(n));
    if n.Some? {
      IntegerBytes(n.value);
    }
  }

  lemma ThenQuotedBytes(members: Str, key: string, t: Option<Str>)
    ensures Utf8Bytes(ThenOptional(members, key, OptionalQuoted(t))) == Utf8Bytes(members) + OptionalText(|key|, t)
  {
    ThenOptionalBytes(members, key, OptionalQuoted(t));
    if t.Some? {
      QuotedBytes(t.value);
    }
  }

  function CaseHead(names: Names, c: CaseResult): Str {
    ThenPair(Pair("caseId", Word(names(c.caseId))), "verdict", Word(VerdictName(c.verdict)))
  }

  function CaseStreams(names: Names, c: CaseResult): Str {
    ThenOptional(ThenOptional(ThenOptional(CaseHead(names, c), "stdout", OptionalQuoted(c.stdout)), "stderr", OptionalQuoted(c.stderr)),
                 "outputTruncated", OptionalTrue(c.outputTruncated))
  }

  function CaseText(names: Names, c: CaseResult): Str {
    Braced(ThenOptional(ThenOptional(ThenOptional(CaseStreams(names, c), "exitCode", OptionalInteger(c.exitCode)),
                                     "runtimeMs", OptionalInteger(c.runtimeMs)), "memoryKiB", OptionalInteger(c.memoryKiB)))
  }

  lemma CaseHeadBytes(names: Names, c: CaseResult)
    requires AreUuids(names)
    ensures Utf8Bytes(CaseHead(names, c)) == Member(6, UUID_JSON) + 1 + Member(7, 2 + VerdictChars(c.verdict))
  {
    WordBytes(names(c.caseId));
    PairBytes("caseId", Word(names(c.caseId)));
    WordBytes(VerdictName(c.verdict));
    ThenPairBytes(Pair("caseId", Word(names(c.caseId))), "verdict", Word(VerdictName(c.verdict)));
  }

  lemma CaseStreamsBytes(names: Names, c: CaseResult)
    ensures Utf8Bytes(CaseStreams(names, c)) ==
              Utf8Bytes(CaseHead(names, c)) + OptionalText(6, c.stdout) + OptionalText(6, c.stderr)
              + (if c.outputTruncated then 1 + Member(15, 4) else 0)
  {
    var a := CaseHead(names, c);
    ThenQuotedBytes(a, "stdout", c.stdout);
    var b := ThenOptional(a, "stdout", OptionalQuoted(c.stdout));
    ThenQuotedBytes(b, "stderr", c.stderr);
    AsciiBytes("true");
    ThenOptionalBytes(ThenOptional(b, "stderr", OptionalQuoted(c.stderr)), "outputTruncated", OptionalTrue(c.outputTruncated));
  }

  lemma CaseBytes(names: Names, c: CaseResult)
    requires AreUuids(names)
    ensures Utf8Bytes(CaseText(names, c)) == CaseJson(c)
  {
    CaseHeadBytes(names, c);
    CaseStreamsBytes(names, c);
    var a := CaseStreams(names, c);
    ThenIntegerBytes(a, "exitCode", c.exitCode);
    var b := ThenOptional(a, "exitCode", OptionalInteger(c.exitCode));
    ThenIntegerBytes(b, "runtimeMs", c.runtimeMs);
    var d := ThenOptional(b, "runtimeMs", OptionalInteger(c.runtimeMs));
    ThenIntegerBytes(d, "memoryKiB", c.memoryKiB);
    BracedBytes(ThenOptional(d, "memoryKiB", OptionalInteger(c.memoryKiB)));
  }

  function CaseTexts(names: Names, cases: seq<CaseResult>): (texts: seq<Str>)
    ensures |texts| == |cases| && forall i :: 0 <= i < |cases| ==> texts[i] == CaseText(names, cases[i])
  {
    seq(|cases|, i requires 0 <= i < |cases| => CaseText(names, cases[i]))
  }

  /** Array elements with commas between them. */
  function Joined(texts: seq<Str>, k: nat): Str
    requires k <= |texts|
  {
    if k == 0 then [] else if k == 1 then texts[0] else Then(Joined(texts, k - 1), texts[k - 1])
  }

  function JoinedSize(texts: seq<Str>, k: nat): nat
    requires k <= |texts|
  {
    if k == 0 then 0 else JoinedSize(texts, k - 1) + (if k == 1 then 0 else 1) + Utf8Bytes(texts[k - 1])
  }

  lemma JoinedBytes(texts: seq<Str>, k: nat)
    requires k <= |texts|
    ensures Utf8Bytes(Joined(texts, k)) == JoinedSize(texts, k)
  {
    for i := 0 to k
      invariant Utf8Bytes(Joined(texts, i)) == JoinedSize(texts, i)
    {
      if i > 0 {
        ThenBytes(Joined(texts, i), texts[i]);
      }
    }
  }

  lemma {:induction false} SizesAgree(texts: seq<Str>, cases: seq<CaseResult>, k: nat)
    requires k <= |texts| == |cases| && forall i :: 0 <= i < |cases| ==> Utf8Bytes(texts[i]) == CaseJson(cases[i])
    ensures JoinedSize(texts, k) == CasesJson(cases, k)
  {
    if k > 0 {
      SizesAgree(texts, cases, k - 1);
    }
  }

  lemma CasesBytes(names: Names, cases: seq<CaseResult>)
    requires AreUuids(names)
    ensures Utf8Bytes(Joined(CaseTexts(names, cases), |cases|)) == CasesJson(cases, |cases|)
  {
    var texts := CaseTexts(names, cases);
    forall i | 0 <= i < |cases|
      ensures Utf8Bytes(texts[i]) == CaseJson(cases[i])
    {
      CaseBytes(names, cases[i]);
    }
    SizesAgree(texts, cases, |cases|);
    JoinedBytes(texts, |cases|);
  }

  function Bracketed(elements: Str): Str {
    [0x5b] + elements + [0x5d]
  }

  lemma BracketedBytes(elements: Str)
    ensures Utf8Bytes(Bracketed(elements)) == 2 + Utf8Bytes(elements)
  {
    SixBytes([0x5b]);
    SixBytes([0x5d]);
    BytesAppend([0x5b], elements);
    BytesAppend([0x5b] + elements, [0x5d]);
  }

  function ArrayText(names: Names, cases: seq<CaseResult>): Str {
    Bracketed(Joined(CaseTexts(names, cases), |cases|))
  }

  lemma ArrayBytes(names: Names, cases: seq<CaseResult>)
    requires AreUuids(names)
    ensures Utf8Bytes(ArrayText(names, cases)) == 2 + CasesJson(cases, |cases|)
  {
    CasesBytes(names, cases);
    BracketedBytes(Joined(CaseTexts(names, cases), |cases|));
  }

  /** The JSON of a result. */
  function ResultText(names: Names, r: WorkerResult): Str {
    Braced(ThenOptional(ThenOptional(ThenOptional(Pair("verdict", Word(VerdictName(r.verdict))), "runtimeMs", OptionalInteger(r.runtimeMs)),
                                     "memoryKiB", OptionalInteger(r.memoryKiB)),
                        "publicCaseResults", match r.publicCaseResults case Some(c) => Some(ArrayText(names, c)) case None => None))
  }

  /** The size `finish` compares with 262144 is the size of the result's JSON. */
  lemma ResultJsonIsSize(names: Names, r: WorkerResult)
    requires AreUuids(names)
    ensures Utf8Bytes(ResultText(names, r)) == ResultJson(r)
  {
    WordBytes(VerdictName(r.verdict));
    PairBytes("verdict", Word(VerdictName(r.verdict)));
    var a := Pair("verdict", Word(VerdictName(r.verdict)));
    ThenIntegerBytes(a, "runtimeMs", r.runtimeMs);
    var b := ThenOptional(a, "runtimeMs", OptionalInteger(r.runtimeMs));
    ThenIntegerBytes(b, "memoryKiB", r.memoryKiB);
    var d := ThenOptional(b, "memoryKiB", OptionalInteger(r.memoryKiB));
    var cases := match r.publicCaseResults case Some(c) => Some(ArrayText(names, c)) case None => None;
    if r.publicCaseResults.Some? {
      ArrayBytes(names, r.publicCaseResults.value);
    }
    ThenOptionalBytes(d, "publicCaseResults", cases);
    BracedBytes(ThenOptional(d, "publicCaseResults", cases));
  }
}
