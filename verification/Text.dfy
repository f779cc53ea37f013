/** Text as code points, its UTF-8 and JSON sizes, and the control-character filter
    shared by the job store and the judge. */
module Text {
  type CodePoint = n: nat | n < 0x110000
  type Str = seq<CodePoint>

  /** UTF-8 length of one code point; a lone surrogate is written as U+FFFD, three bytes. */
  function Utf8Len(c: CodePoint): nat {
    if c < 0x80 then 1 else if c < 0x800 then 2 else if c < 0x10000 then 3 else 4
  }

  /** UTF-8 bytes of the first `k` code points. */
  function Utf8Upto(t: Str, k: nat): nat
    requires k <= |t|
  {
    if k == 0 then 0 else Utf8Upto(t, k - 1) + Utf8Len(t[k - 1])
  }

  function Utf8Bytes(t: Str): nat {
    Utf8Upto(t, |t|)
  }

  /** The class removed by `sanitized` and `safeConsole` after ANSI stripping. */
  predicate IsControl(c: CodePoint) {
    c <= 8 || 0x0b <= c <= 0x1f || 0x7f <= c <= 0x9f || 0x202a <= c <= 0x202e || 0x2066 <= c <= 0x2069
  }

  function RemoveUpto(t: Str, k: nat): (r: Str)
    requires k <= |t|
    ensures |r| <= k && forall c <- r :: !IsControl(c)
  {
    if k == 0 then []
    else RemoveUpto(t, k - 1) + (if IsControl(t[k - 1]) then [] else [t[k - 1]])
  }

  function RemoveControls(t: Str): (r: Str)
    ensures |r| <= |t| && forall c <- r :: !IsControl(c)
  {
    RemoveUpto(t, |t|)
  }

  /** Bytes JSON.stringify spends on one code point (section 7 of RFC 8259, with lone
      surrogates written as \uXXXX). */
  function JsonLen(c: CodePoint): nat {
    if c == 0x22 || c == 0x5c || c == 8 || c == 9 || c == 0x0a || c == 0x0c || c == 0x0d then 2
    else if c < 0x20 || 0xD800 <= c <= 0xDFFF then 6
    else Utf8Len(c)
  }

  function JsonUpto(t: Str, k: nat): nat
    requires k <= |t|
  {
    if k == 0 then 0 else JsonUpto(t, k - 1) + JsonLen(t[k - 1])
  }

  function JsonChars(t: Str): nat {
    JsonUpto(t, |t|)
  }

  /** A quoted JSON string. */
  function JsonString(t: Str): nat {
    2 + JsonChars(t)
  }

  /** Equal beginnings weigh the same. */
  lemma {:induction false} Utf8Prefix(a: Str, b: Str, k: nat)
    requires k <= |a| && k <= |b| && forall i :: 0 <= i < k ==> a[i] == b[i]
    ensures Utf8Upto(a, k) == Utf8Upto(b, k)
  {
    if k > 0 {
      Utf8Prefix(a, b, k - 1);
    }
  }

  lemma Utf8Snoc(t: Str, c: CodePoint)
    ensures Utf8Bytes(t + [c]) == Utf8Bytes(t) + Utf8Len(c)
  {
    Utf8Prefix(t, t + [c], |t|);
  }

  lemma {:induction false} Utf8Monotone(t: Str, j: nat, k: nat)
    requires j <= k <= |t|
    ensures Utf8Upto(t, j) + (k - j) <= Utf8Upto(t, k)
  {
    if j < k {
      Utf8Monotone(t, j, k - 1);
    }
  }

  lemma {:induction false} RemovalShrinksUpto(t: Str, k: nat)
    requires k <= |t|
    ensures Utf8Bytes(RemoveUpto(t, k)) <= Utf8Upto(t, k)
  {
    if k > 0 {
      RemovalShrinksUpto(t, k - 1);
      Utf8Snoc(RemoveUpto(t, k - 1), t[k - 1]);
      assert RemoveUpto(t, k - 1) + [] == RemoveUpto(t, k - 1);
    }
  }

  lemma {:induction false} RemovalKeeps(t: Str, k: nat)
    requires k <= |t| && forall c <- t :: !IsControl(c)
    ensures RemoveUpto(t, k) == t[..k]
  {
    if k > 0 {
      RemovalKeeps(t, k - 1);
      assert t[k - 1] in t;
    }
  }

  // ------------------------------------------------------------------
  // The whole sanitiser

  const ESC: CodePoint := 0x1b
  const CSI: CodePoint := 0x9b

  type Strip = Str -> Str

  /** What is assumed of stripVTControlCharacters: it removes characters, and only
      sequences that begin with ESC or CSI. */
  ghost predicate StripsSequences(strip: Strip) {
    forall t: Str :: Utf8Bytes(strip(t)) <= Utf8Bytes(t) && ((forall c <- t :: c != ESC && c != CSI) ==> strip(t) == t)
  }

  /** `sanitized` in the judge, `safeConsole` in the store. */
  function Sanitized(strip: Strip, t: Str): (r: Str)
    ensures forall c <- r :: !IsControl(c)
  {
    RemoveControls(strip(t))
  }

  /** Sanitising never makes text longer. */
  lemma SanitizingShrinks(strip: Strip, t: Str)
    requires StripsSequences(strip)
    ensures Utf8Bytes(Sanitized(strip, t)) <= Utf8Bytes(t)
  {
    RemovalShrinksUpto(strip(t), |strip(t)|);
  }

  lemma {:induction false} RemovalOfPrefix(a: Str, b: Str, k: nat)
    requires k <= |a|
    ensures RemoveUpto(a + b, k) == RemoveUpto(a, k)
  {
    if k > 0 {
      RemovalOfPrefix(a, b, k - 1);
    }
  }

  lemma {:induction false} RemovalOfSuffix(a: Str, b: Str, k: nat)
    requires k <= |b|
    ensures RemoveUpto(a + b, |a| + k) == RemoveControls(a) + RemoveUpto(b, k)
  {
    if k == 0 {
      RemovalOfPrefix(a, b, |a|);
    } else {
      RemovalOfSuffix(a, b, k - 1);
      assert (a + b)[|a| + k - 1] == b[k - 1];
    }
  }

  lemma RemovalOfAppend(a: Str, b: Str)
    ensures RemoveControls(a + b) == RemoveControls(a) + RemoveControls(b)
  {
    RemovalOfSuffix(a, b, |b|);
  }

  lemma RemovalOfOne(c: CodePoint)
    ensures RemoveControls([c]) == (if IsControl(c) then [] else [c])
  {
    assert RemoveUpto([c], 1) == RemoveUpto([c], 0) + (if IsControl(c) then [] else [c]);
  }

  /** Removal looks at one character at a time: it drops exactly the controls and keeps every
      other character, in order. */
  lemma RemovalIsExact(a: Str, c: CodePoint, b: Str)
    ensures RemoveControls(a + [c] + b) == RemoveControls(a) + (if IsControl(c) then [] else [c]) + RemoveControls(b)
  {
    RemovalOfAppend(a + [c], b);
    RemovalOfAppend(a, [c]);
    RemovalOfOne(c);
  }

  /** Tabs, line feeds and everything printable stay; other control characters, DEL, the C1
      block and the bidirectional overrides and isolates go. */
  lemma ControlsAreExact(c: CodePoint)
    ensures c == 0x09 || c == 0x0a || 0x20 <= c <= 0x7e ==> !IsControl(c)
    ensures c < 0x20 && c != 0x09 && c != 0x0a ==> IsControl(c)
    ensures 0x7f <= c <= 0x9f ==> IsControl(c)
    ensures c >= 0xa0 ==> (IsControl(c) <==> 0x202a <= c <= 0x202e || 0x2066 <= c <= 0x2069)
  {
  }

  /** Payload bits of an encoding of `n` bytes (section 3 of RFC 3629). */
  function PayloadBits(n: nat): nat
    requires 1 <= n <= 4
  {
    if n == 1 then 7 else 5 * n + 1
  }

  function Pow2(n: nat): nat {
    if n == 0 then 1 else 2 * Pow2(n - 1)
  }

  /** UTF-8 takes the fewest bytes whose payload holds the code point. */
  lemma Utf8IsShortest(c: CodePoint)
    ensures 1 <= Utf8Len(c) <= 4 && c < Pow2(PayloadBits(Utf8Len(c)))
    ensures Utf8Len(c) > 1 ==> c >= Pow2(PayloadBits(Utf8Len(c) - 1))
  {
    assert Pow2(7) == 0x80;
    assert Pow2(11) == 16 * Pow2(7);
    assert Pow2(16) == 32 * Pow2(11);
    assert Pow2(21) == 32 * Pow2(16);
  }

  /** Text without control characters is left as it is. */
  lemma SanitizingKeepsClean(strip: Strip, t: Str)
    requires StripsSequences(strip) && forall c <- t :: !IsControl(c)
    ensures Sanitized(strip, t) == t
  {
    assert strip(t) == t;
    RemovalKeeps(t, |t|);
  }

  /** Sanitising twice is sanitising once: what the judge shows, the store keeps. */
  lemma SanitizingIsIdempotent(strip: Strip, t: Str)
    requires StripsSequences(strip)
    ensures Sanitized(strip, Sanitized(strip, t)) == Sanitized(strip, t)
  {
    SanitizingKeepsClean(strip, Sanitized(strip, t));
  }

  lemma {:induction false} EscapingUpto(t: Str, k: nat)
    requires k <= |t| && forall c <- t :: !IsControl(c)
    ensures JsonUpto(t, k) <= 2 * Utf8Upto(t, k)
  {
    if k > 0 {
      EscapingUpto(t, k - 1);
      assert t[k - 1] in t;
    }
  }

  /** Escaping at most doubles sanitised text: the six-byte escapes are for controls,
      which are gone, and lone surrogates, which already cost three bytes. */
  lemma EscapingAtMostDoubles(t: Str)
    requires forall c <- t :: !IsControl(c)
    ensures JsonChars(t) <= 2 * Utf8Bytes(t)
  {
    EscapingUpto(t, |t|);
  }
}
