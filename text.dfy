/**
 * The C library text primitives the adapter leans on: NUL-free strings,
 * strncpy truncation, snprintf into a bounded buffer, printf "%d", atoi,
 * the decimal part of atof, the float-to-int cast and strstr.
 */
module CText {

  datatype Option<T> = None | Some(value: T)

  /** A C string: a character sequence holding no NUL. */
  type CString = s: string | '\0' !in s

  function Min(a: int, b: int): int { if a <= b then a else b }

  /** strncpy(dst, src, n) followed by dst[n] = '\0': at most n characters survive. */
  function Truncate(s: CString, n: nat): (r: CString)
    ensures |r| == Min(|s|, n)
    ensures r == s[..|r|]
  {
    if |s| <= n then s else s[..n]
  }

  /** What snprintf leaves behind: its return value, and the text before the
   *  NUL in the caller's buffer (None when the buffer was not touched). */
  datatype Output = Output(ret: int, buffer: Option<string>)

  /** snprintf(buf, bufLen, "%s", text): it returns the length the whole text
   *  needs, and the buffer keeps the longest prefix that fits before the NUL. */
  function Snprintf(text: CString, bufLen: nat): (o: Output)
    ensures o.ret == |text|
    ensures o.buffer.None? <==> bufLen == 0
    ensures o.buffer.Some? ==> o.buffer.value == text[..Min(|text|, bufLen - 1)]
  {
    if bufLen == 0 then Output(|text|, None) else Output(|text|, Some(Truncate(text, bufLen - 1)))
  }

  /** Text shorter than the buffer is written whole. */
  lemma SnprintfFits(text: CString, bufLen: nat)
    requires |text| < bufLen
    ensures Snprintf(text, bufLen) == Output(|text|, Some(text))
  {
  }

  /** Concatenation is associative. */
  lemma ConcatAssoc(a: string, b: string, c: string)
    ensures (a + b) + c == a + (b + c)
  {
  }

  // ---------------------------------------------------------------------
  // Decimal digits
  // ---------------------------------------------------------------------

  predicate IsDigit(c: char) { '0' <= c <= '9' }

  predicate AllDigits(s: string) { forall i :: 0 <= i < |s| ==> IsDigit(s[i]) }

  /** isspace in the C locale. */
  predicate IsSpace(c: char) {
    c == ' ' || c == '\t' || c == '\n' || c == '\r' || c as int == 11 || c as int == 12
  }

  function DigitChar(d: nat): (c: char)
    requires d < 10
    ensures IsDigit(c) && (c as int) - ('0' as int) == d
  {
    (('0' as int) + d) as char
  }

  function DigitValue(c: char): (d: nat)
    requires IsDigit(c)
    ensures d < 10
  {
    (c as int) - ('0' as int)
  }

  /** The decimal digits of n, most significant first, without leading zeros. */
  function FormatNat(n: nat): (s: string)
    ensures |s| > 0 && AllDigits(s)
    ensures '\0' !in s
  {
    if n < 10 then [DigitChar(n)] else FormatNat(n / 10) + [DigitChar(n % 10)]
  }

  /** printf "%d". */
  function FormatInt(n: int): (s: CString)
    ensures |s| > 0
    ensures forall k :: 0 <= k < |s| ==> s[k] == '-' || IsDigit(s[k])
    ensures n >= 0 ==> AllDigits(s)
    ensures n < 0 ==> s[0] == '-' && AllDigits(s[1..])
  {
    if n < 0 then "-" + FormatNat(-n) else FormatNat(n)
  }

  /** The number a string of decimal digits denotes. */
  function DigitsValue(s: string): nat
    requires AllDigits(s)
  {
    if s == [] then 0 else DigitsValue(s[..|s| - 1]) * 10 + DigitValue(s[|s| - 1])
  }

  /** The longest prefix of s made of decimal digits. */
  function LeadingDigits(s: string): (d: string)
    ensures AllDigits(d) && |d| <= |s|
    ensures |d| == |s| || !IsDigit(s[|d|])
  {
    if s != [] && IsDigit(s[0]) then [s[0]] + LeadingDigits(s[1..]) else []
  }

  /** s without its leading white space. */
  function SkipSpaces(s: string): (t: string)
    ensures |t| <= |s|
    ensures t == [] || !IsSpace(t[0])
  {
    if s != [] && IsSpace(s[0]) then SkipSpaces(s[1..]) else s
  }

  /** atoi: leading white space, an optional sign, then the decimal digits up
   *  to the first non-digit; no digits at all give 0. */
  function Atoi(s: string): int
  {
    var t := SkipSpaces(s);
    if |t| > 0 && (t[0] == '-' || t[0] == '+') then
      var v: int := DigitsValue(LeadingDigits(t[1..]));
      if t[0] == '-' then -v else v
    else
      DigitsValue(LeadingDigits(t))
  }

  /** The value of unsigned decimal text: digits, then optionally '.' and more digits. */
  function DecimalMagnitude(u: string): (v: real)
    ensures v >= 0.0
  {
    var whole := LeadingDigits(u);
    var rest := u[|whole|..];
    var frac := if |rest| > 0 && rest[0] == '.' then LeadingDigits(rest[1..]) else [];
    DigitsValue(whole) as real + FractionValue(frac)
  }

  /** The value of the digits after a decimal point: 0.d1d2... is
   *  (d1 + 0.d2...) / 10. */
  function FractionValue(f: string): (v: real)
    requires AllDigits(f)
    ensures 0.0 <= v < 1.0
    ensures f == [] ==> v == 0.0
  {
    if f == [] then 0.0 else (DigitValue(f[0]) as real + FractionValue(f[1..])) / 10.0
  }

  /** A value of C's floating type: a finite number, an infinity, or NaN. */
  datatype Float = Finite(value: real) | Infinity(negative: bool) | NaN

  /** v < x under IEEE 754 comparison: false whenever v is NaN. */
  predicate FloatLess(v: Float, x: real) {
    match v
    case Finite(r) => r < x
    case Infinity(negative) => negative
    case NaN => false
  }

  /** v > x under IEEE 754 comparison: false whenever v is NaN. */
  predicate FloatGreater(v: Float, x: real) {
    match v
    case Finite(r) => r > x
    case Infinity(negative) => !negative
    case NaN => false
  }

  /** An ASCII letter in lower case; every other character unchanged. */
  function LowerAscii(c: char): char {
    if 'A' <= c <= 'Z' then ((c as int) + 32) as char else c
  }

  /** t starts with the lower-case word w, ignoring the case of letters. */
  predicate StartsNoCase(t: string, w: string) {
    |w| <= |t| && forall i :: 0 <= i < |w| ==> LowerAscii(t[i]) == w[i]
  }

  /** What atof reads after the sign: "inf" (and so "infinity") or "nan"
   *  in any case, otherwise decimal text. */
  function SignedMagnitude(u: string, negative: bool): Float {
    if StartsNoCase(u, "inf") then Infinity(negative)
    else if StartsNoCase(u, "nan") then NaN
    else
      var v := DecimalMagnitude(u);
      Finite(if negative then -v else v)
  }

  /** atof: leading white space, an optional sign, then an infinity, a NaN
   *  or what DecimalMagnitude reads; a finite value is exact. */
  function Atof(s: string): Float
  {
    var t := SkipSpaces(s);
    if |t| > 0 && t[0] == '-' then SignedMagnitude(t[1..], true)
    else if |t| > 0 && t[0] == '+' then SignedMagnitude(t[1..], false)
    else SignedMagnitude(t, false)
  }

  /** The C conversion of a floating value to int: truncation toward zero. */
  function TruncToInt(x: real): (n: int)
    ensures x >= 0.0 ==> n as real <= x < n as real + 1.0
    ensures x < 0.0 ==> n as real - 1.0 < x <= n as real
  {
    if x >= 0.0 then x.Floor else -((-x).Floor)
  }

  // ---------------------------------------------------------------------
  // strstr
  // ---------------------------------------------------------------------

  predicate OccursAt(s: string, p: string, i: nat) {
    i + |p| <= |s| && s[i..i + |p|] == p
  }

  /** strstr: the position of the first occurrence of p in s. */
  function FindSub(s: string, p: string): (r: Option<nat>)
    ensures r.Some? ==> OccursAt(s, p, r.value)
    ensures r.Some? ==> forall j :: 0 <= j < r.value ==> !OccursAt(s, p, j)
    ensures r.None? ==> forall j :: 0 <= j <= |s| ==> !OccursAt(s, p, j)
    decreases |s|
  {
    if |s| < |p| then None
    else if s[..|p|] == p then Some(0)
    else
      OccursShift(s, p);
      match FindSub(s[1..], p)
      case None => None
      case Some(i) => Some(i + 1)
  }

  /** strstr finds i when p occurs there and at no earlier position. */
  lemma FindSubAt(s: string, p: string, i: nat)
    requires OccursAt(s, p, i)
    requires forall j :: 0 <= j < i ==> !OccursAt(s, p, j)
    ensures FindSub(s, p) == Some(i)
  {
    assert i <= |s|;
  }

  /** One differing character rules an occurrence out. */
  lemma MismatchAt(s: string, p: string, j: nat, k: nat)
    requires k < |p| && j + k < |s| && s[j + k] != p[k]
    ensures !OccursAt(s, p, j)
  {
    if j + |p| <= |s| {
      assert s[j..j + |p|][k] == s[j + k];
    }
  }

  /** An occurrence in s after position 0 is an occurrence in s[1..], one place earlier. */
  lemma OccursShift(s: string, p: string)
    requires |s| >= 1
    ensures forall j: nat :: 1 <= j ==> (OccursAt(s, p, j) <==> OccursAt(s[1..], p, j - 1))
  {
    forall j: nat | 1 <= j
      ensures OccursAt(s, p, j) <==> OccursAt(s[1..], p, j - 1)
    {
      if j + |p| <= |s| {
        assert s[1..][j - 1..j - 1 + |p|] == s[j..j + |p|];
      }
    }
  }

  // ---------------------------------------------------------------------
  // Round trips between formatting and parsing
  // ---------------------------------------------------------------------

  /** Reading back the digits printf wrote gives the number. */
  lemma {:induction false} DigitsValueOfFormat(n: nat)
    ensures DigitsValue(FormatNat(n)) == n
  {
    var s := FormatNat(n);
    if n >= 10 {
      DigitsValueOfFormat(n / 10);
      assert s[..|s| - 1] == FormatNat(n / 10);
    }
  }

  /** A digit run followed by a non-digit is exactly what LeadingDigits takes. */
  lemma {:induction false} LeadingDigitsOfRun(d: string, rest: string)
    requires AllDigits(d)
    requires rest == [] || !IsDigit(rest[0])
    ensures LeadingDigits(d + rest) == d
  {
    if d != [] {
      assert (d + rest)[1..] == d[1..] + rest;
      LeadingDigitsOfRun(d[1..], rest);
    } else {
      assert d + rest == rest;
    }
  }

  /** A string that starts with a non-space is left alone by SkipSpaces. */
  lemma SkipSpacesNoop(s: string)
    requires s != [] && !IsSpace(s[0])
    ensures SkipSpaces(s) == s
  {
  }

  /** atoi of an unsigned digit run followed by a non-digit. */
  lemma AtoiOfDigits(d: string, rest: string)
    requires d != [] && AllDigits(d)
    requires rest == [] || !IsDigit(rest[0])
    ensures Atoi(d + rest) == DigitsValue(d)
  {
    var u := d + rest;
    assert u[0] == d[0];
    SkipSpacesNoop(u);
    LeadingDigitsOfRun(d, rest);
  }

  /** atoi of a minus sign, a digit run and a non-digit. */
  lemma AtoiOfNegDigits(d: string, rest: string)
    requires d != [] && AllDigits(d)
    requires rest == [] || !IsDigit(rest[0])
    ensures Atoi("-" + (d + rest)) == -(DigitsValue(d) as int)
  {
    var v := "-" + (d + rest);
    assert v[0] == '-' && v[1..] == d + rest;
    SkipSpacesNoop(v);
    LeadingDigitsOfRun(d, rest);
  }

  /** atoi reads back the text printf "%d" produced, whatever non-digit follows. */
  lemma AtoiOfFormat(n: int, rest: string)
    requires rest == [] || !IsDigit(rest[0])
    ensures Atoi(FormatInt(n) + rest) == n
  {
    if n < 0 {
      var d := FormatNat(-n);
      DigitsValueOfFormat(-n);
      ConcatAssoc("-", d, rest);
      AtoiOfNegDigits(d, rest);
    } else {
      DigitsValueOfFormat(n);
      AtoiOfDigits(FormatNat(n), rest);
    }
  }

  /** The magnitude of a digit run followed by neither a digit nor '.'. */
  lemma MagnitudeOfDigits(d: string, rest: string)
    requires AllDigits(d)
    requires rest == [] || (!IsDigit(rest[0]) && rest[0] != '.')
    ensures DecimalMagnitude(d + rest) == DigitsValue(d) as real
  {
    var u := d + rest;
    LeadingDigitsOfRun(d, rest);
    assert LeadingDigits(u) == d;
    assert u[|d|..] == rest;
  }

  /** Text that starts with a digit names neither an infinity nor a NaN. */
  lemma DigitStartsNoWord(u: string)
    requires u != [] && IsDigit(u[0])
    ensures !StartsNoCase(u, "inf") && !StartsNoCase(u, "nan")
  {
    assert LowerAscii(u[0]) == u[0];
  }

  /** atof of an unsigned digit run followed by neither a digit nor '.'. */
  lemma AtofOfDigits(d: string, rest: string)
    requires d != [] && AllDigits(d)
    requires rest == [] || (!IsDigit(rest[0]) && rest[0] != '.')
    ensures Atof(d + rest) == Finite(DigitsValue(d) as real)
  {
    var u := d + rest;
    assert u[0] == d[0];
    SkipSpacesNoop(u);
    DigitStartsNoWord(u);
    MagnitudeOfDigits(d, rest);
  }

  /** atof of a minus sign, a digit run and neither a digit nor '.'. */
  lemma AtofOfNegDigits(d: string, rest: string)
    requires d != [] && AllDigits(d)
    requires rest == [] || (!IsDigit(rest[0]) && rest[0] != '.')
    ensures Atof("-" + (d + rest)) == Finite(-(DigitsValue(d) as real))
  {
    var v := "-" + (d + rest);
    assert v[0] == '-' && v[1..] == d + rest;
    assert (d + rest)[0] == d[0];
    SkipSpacesNoop(v);
    DigitStartsNoWord(d + rest);
    MagnitudeOfDigits(d, rest);
  }

  /** atof reads back the text printf "%d" produced, when no digit or '.' follows. */
  lemma AtofOfFormat(n: int, rest: string)
    requires rest == [] || (!IsDigit(rest[0]) && rest[0] != '.')
    ensures Atof(FormatInt(n) + rest) == Finite(n as real)
  {
    if n < 0 {
      var d := FormatNat(-n);
      DigitsValueOfFormat(-n);
      ConcatAssoc("-", d, rest);
      AtofOfNegDigits(d, rest);
    } else {
      DigitsValueOfFormat(n);
      AtofOfDigits(FormatNat(n), rest);
    }
  }

  /** A predicate over the characters of a string: all of them are white space. */
  predicate AllSpaces(w: string) {
    forall k :: 0 <= k < |w| ==> IsSpace(w[k])
  }

  /** Leading white space is skipped whatever it is made of. */
  lemma {:induction false} SkipSpacesOfBlanks(w: string, t: string)
    requires AllSpaces(w)
    requires t != [] && !IsSpace(t[0])
    ensures SkipSpaces(w + t) == t
  {
    if w == [] {
      assert w + t == t;
      SkipSpacesNoop(t);
    } else {
      assert (w + t)[0] == w[0];
      assert (w + t)[1..] == w[1..] + t;
      SkipSpacesOfBlanks(w[1..], t);
    }
  }

  /** What atof reads after white space and an optional sign. */
  lemma AtofAfterSign(w: string, u: string)
    requires AllSpaces(w)
    requires u != [] && !IsSpace(u[0]) && u[0] != '-' && u[0] != '+'
    ensures Atof(w + u) == SignedMagnitude(u, false)
    ensures Atof(w + "-" + u) == SignedMagnitude(u, true)
    ensures Atof(w + "+" + u) == SignedMagnitude(u, false)
  {
    SkipSpacesOfBlanks(w, u);
    ConcatAssoc(w, "-", u);
    SkipSpacesOfBlanks(w, "-" + u);
    assert ("-" + u)[1..] == u;
    ConcatAssoc(w, "+", u);
    SkipSpacesOfBlanks(w, "+" + u);
    assert ("+" + u)[1..] == u;
  }

  /** atof reads "nan" in any case, after any white space and either sign
   *  or none, as NaN. */
  lemma AtofOfNan(w: string, u: string)
    requires AllSpaces(w) && StartsNoCase(u, "nan")
    ensures Atof(w + u) == NaN && Atof(w + "-" + u) == NaN && Atof(w + "+" + u) == NaN
  {
    assert LowerAscii(u[0]) == 'n';
    assert !StartsNoCase(u, "inf");
    AtofAfterSign(w, u);
  }

  /** atof reads "inf", and so "infinity", in any case, after any white
   *  space and a sign, as an infinity of that sign. */
  lemma AtofOfInf(w: string, u: string)
    requires AllSpaces(w) && StartsNoCase(u, "inf")
    ensures Atof(w + u) == Infinity(false)
    ensures Atof(w + "-" + u) == Infinity(true)
    ensures Atof(w + "+" + u) == Infinity(false)
  {
    assert LowerAscii(u[0]) == 'i';
    AtofAfterSign(w, u);
  }

  /** Truncating a whole number changes nothing. */
  lemma TruncOfWhole(n: int)
    ensures TruncToInt(n as real) == n
  {
  }
}
