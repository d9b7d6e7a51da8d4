/**
 * The pieces of JavaScript value semantics the application relies on:
 * strings as UTF-16 code units, `undefined`/`null` as an option, settled
 * promises, `String.prototype.trim`, `Number.prototype.toString` on
 * integers and `parseInt(s, 10)`.
 */
module Js {

  /** A UTF-16 code unit; a JavaScript string is a sequence of them and `length` counts them. */
  type CodeUnit = x: int | 0 <= x < 0x1_0000

  type JsString = seq<CodeUnit>

  /** A value that may be `undefined` or `null`. */
  datatype Option<+T> = None | Some(value: T)

  /** How an awaited promise that yields a value settled. */
  datatype Settled<+T> = Fulfilled(value: T) | Rejected(reason: JsString)

  /** How an awaited call whose value is ignored settled. */
  datatype Completion = Done | Threw(message: JsString)

  /** `x || ''` for an optional string: `undefined`, `null` and `''` all give `''`. */
  function OrEmpty(o: Option<JsString>): (r: JsString)
    ensures o.Some? ==> r == o.value
    ensures o.None? ==> r == []
  {
    match o
    case Some(s) => s
    case None => []
  }

  /**
   * The JavaScript string a source literal denotes. Every literal of the
   * application lies in the Basic Multilingual Plane, where UTF-16 spends
   * one code unit per character; a character outside it (none occurs)
   * would come out as U+FFFD.
   */
  function Literal(s: string): (r: JsString)
    ensures |r| == |s|
    ensures forall i :: 0 <= i < |s| && s[i] as int < 0x1_0000 ==> r[i] == s[i] as int
  {
    seq(|s|, i requires 0 <= i < |s| => if s[i] as int < 0x1_0000 then s[i] as int else 0xFFFD)
  }

  // ---------------------------------------------------------------------
  // Well-formed UTF-16

  predicate IsHighSurrogate(u: CodeUnit) {
    0xD800 <= u <= 0xDBFF
  }

  predicate IsLowSurrogate(u: CodeUnit) {
    0xDC00 <= u <= 0xDFFF
  }

  /** A surrogate at `i`, if it is one, has its partner on the correct side. */
  predicate PairedAt(s: JsString, i: nat)
    requires i < |s|
  {
    && (IsHighSurrogate(s[i]) ==> i + 1 < |s| && IsLowSurrogate(s[i + 1]))
    && (IsLowSurrogate(s[i]) ==> 0 < i && IsHighSurrogate(s[i - 1]))
  }

  /**
   * A string without unpaired surrogates: the strings that
   * `encodeURIComponent`, and so every UTF-8 encoding in JavaScript,
   * accepts, and the only ones UTF-8 decoding can produce.
   */
  predicate WellFormedUtf16(s: JsString) {
    forall i :: 0 <= i < |s| ==> PairedAt(s, i)
  }

  // ---------------------------------------------------------------------
  // Whitespace and String.prototype.trim

  /**
   * The code units that `trim` strips and `parseInt` skips: the
   * ECMAScript WhiteSpace and LineTerminator productions.
   */
  predicate IsWhitespace(u: CodeUnit) {
    || u == 0x09 || u == 0x0A || u == 0x0B || u == 0x0C || u == 0x0D
    || u == 0x20 || u == 0xA0 || u == 0x1680
    || (0x2000 <= u <= 0x200A)
    || u == 0x2028 || u == 0x2029 || u == 0x202F || u == 0x205F
    || u == 0x3000 || u == 0xFEFF
  }

  /** Every code unit of `s` is whitespace (vacuously so for `''`). */
  predicate IsBlank(s: JsString) {
    forall i :: 0 <= i < |s| ==> IsWhitespace(s[i])
  }

  /** `s` with its leading whitespace removed: empty exactly when `s` is blank. */
  function TrimStart(s: JsString): (r: JsString)
    ensures |r| <= |s|
    ensures r == [] || !IsWhitespace(r[0])
    ensures r == [] <==> IsBlank(s)
  {
    if s != [] && IsWhitespace(s[0]) then
      var r := TrimStart(s[1..]);
      assert forall i :: 1 <= i < |s| ==> s[i] == s[1..][i - 1];
      r
    else s
  }

  /** `s` with its trailing whitespace removed: empty exactly when `s` is blank. */
  function TrimEnd(s: JsString): (r: JsString)
    ensures |r| <= |s|
    ensures r == [] || !IsWhitespace(r[|r| - 1])
    ensures r == [] <==> IsBlank(s)
  {
    if s != [] && IsWhitespace(s[|s| - 1]) then
      var r := TrimEnd(s[..|s| - 1]);
      assert forall i :: 0 <= i < |s| - 1 ==> s[i] == s[..|s| - 1][i];
      r
    else s
  }

  /** `TrimStart` keeps a suffix of its input and drops only whitespace before it. */
  lemma {:induction false} TrimStartKeepsSuffix(s: JsString)
    ensures var r := TrimStart(s);
      && r == s[|s| - |r|..]
      && forall i :: 0 <= i < |s| - |r| ==> IsWhitespace(s[i])
  {
    if s != [] && IsWhitespace(s[0]) {
      TrimStartKeepsSuffix(s[1..]);
      var r := TrimStart(s);
      assert s[1..][|s| - 1 - |r|..] == s[|s| - |r|..];
      assert forall i :: 1 <= i < |s| - |r| ==> s[i] == s[1..][i - 1];
    }
  }

  /** `TrimEnd` keeps a prefix of its input and drops only whitespace after it. */
  lemma {:induction false} TrimEndKeepsPrefix(s: JsString)
    ensures var r := TrimEnd(s);
      && r == s[..|r|]
      && forall i :: |r| <= i < |s| ==> IsWhitespace(s[i])
  {
    if s != [] && IsWhitespace(s[|s| - 1]) {
      TrimEndKeepsPrefix(s[..|s| - 1]);
      var r := TrimEnd(s);
      assert s[..|s| - 1][..|r|] == s[..|r|];
      assert forall i :: |r| <= i < |s| - 1 ==> s[i] == s[..|s| - 1][i];
    }
  }

  /** `s.trim()`: empty exactly when `s` is blank, so `!s.trim()` tests for blankness. */
  function Trim(s: JsString): (r: JsString)
    ensures r == [] <==> IsBlank(s)
  {
    var t := TrimStart(s);
    assert IsBlank(t) <==> t == [];
    TrimEnd(t)
  }

  // ---------------------------------------------------------------------
  // Decimal integers: Number.prototype.toString and parseInt(s, 10)

  const Zero: CodeUnit := 0x30
  /** U+002D: the sign of a negative number, and the hyphen that joins identifiers. */
  const HyphenMinus: CodeUnit := 0x2D
  const Plus: CodeUnit := 0x2B

  predicate IsDigit(u: CodeUnit) {
    Zero <= u <= Zero + 9
  }

  /** The decimal digits of `n`, most significant first, without leading zeros. */
  function Digits(n: nat): (r: JsString)
    ensures |r| >= 1
    ensures forall i :: 0 <= i < |r| ==> IsDigit(r[i])
    ensures n > 0 ==> r[0] != Zero
  {
    if n < 10 then [Zero + n] else Digits(n / 10) + [Zero + n % 10]
  }

  /** `String(n)` for an integer `n`. */
  function Decimal(n: int): (r: JsString)
    ensures r != []
    ensures r[0] == HyphenMinus || IsDigit(r[0])
  {
    if n < 0 then [HyphenMinus] + Digits(-n) else Digits(n)
  }

  /** The value of a run of decimal digits. */
  function DigitsValue(ds: JsString): nat
    requires forall i :: 0 <= i < |ds| ==> IsDigit(ds[i])
  {
    if ds == [] then 0
    else DigitsValue(ds[..|ds| - 1]) * 10 + DigitValue(ds[|ds| - 1])
  }

  function DigitValue(u: CodeUnit): (d: nat)
    requires IsDigit(u)
    ensures d < 10
  {
    u - Zero
  }

  /** The length of the longest prefix of `s` made of decimal digits. */
  function DigitRun(s: JsString): (k: nat)
    ensures k <= |s|
    ensures forall i :: 0 <= i < k ==> IsDigit(s[i])
    ensures k < |s| ==> !IsDigit(s[k])
  {
    if s != [] && IsDigit(s[0]) then 1 + DigitRun(s[1..]) else 0
  }

  /**
   * `parseInt(s, 10)`: skip leading whitespace, read an optional sign and
   * the longest run of digits after it; `None` stands for `NaN`, which
   * is what a string with no digit right after the optional sign yields.
   */
  function ParseInt(s: JsString): (r: Option<int>)
    ensures TrimStart(s) == [] ==> r.None?
    ensures r.Some? && r.value < 0 ==> TrimStart(s) != [] && TrimStart(s)[0] == HyphenMinus
  {
    var t := TrimStart(s);
    var negative := t != [] && t[0] == HyphenMinus;
    var rest := if t != [] && (t[0] == HyphenMinus || t[0] == Plus) then t[1..] else t;
    var k := DigitRun(rest);
    if k == 0 then None
    else
      var v: int := DigitsValue(rest[..k]);
      Some(if negative then -v else v)
  }

  /**
   * `parseInt` gives `NaN` exactly when, after the leading whitespace, there
   * is nothing, or the first code unit is neither a digit nor a sign
   * followed by a digit.
   */
  lemma ParseIntNaN(s: JsString)
    ensures var t := TrimStart(s);
      ParseInt(s).None? <==>
        (t == [] || (!IsDigit(t[0]) && !((t[0] == HyphenMinus || t[0] == Plus) && |t| > 1 && IsDigit(t[1]))))
  {
  }

  lemma {:induction false} DigitsValueOfDigits(n: nat)
    ensures DigitsValue(Digits(n)) == n
  {
    if n >= 10 {
      DigitsValueOfDigits(n / 10);
      var ds := Digits(n);
      assert ds[..|ds| - 1] == Digits(n / 10);
    }
  }

  /** A run of digits followed by anything that is not a digit is read exactly to its end. */
  lemma {:induction false} DigitRunStopsAtNonDigit(ds: JsString, tail: JsString)
    requires forall i :: 0 <= i < |ds| ==> IsDigit(ds[i])
    requires tail == [] || !IsDigit(tail[0])
    ensures DigitRun(ds + tail) == |ds|
  {
    if ds == [] {
      assert ds + tail == tail;
    } else {
      assert (ds + tail)[1..] == ds[1..] + tail;
      DigitRunStopsAtNonDigit(ds[1..], tail);
    }
  }

  /** A blank prefix is all that leading trimming removes from it. */
  lemma {:induction false} TrimStartBlankPrefix(w: JsString, s: JsString)
    requires IsBlank(w)
    ensures TrimStart(w + s) == TrimStart(s)
  {
    if w == [] {
      assert w + s == s;
    } else {
      assert (w + s)[0] == w[0];
      assert (w + s)[1..] == w[1..] + s;
      TrimStartBlankPrefix(w[1..], s);
    }
  }

  /** `parseInt` skips leading whitespace. */
  lemma ParseIntSkipsWhitespace(w: JsString, s: JsString)
    requires IsBlank(w)
    ensures ParseInt(w + s) == ParseInt(s)
  {
    TrimStartBlankPrefix(w, s);
  }

  /** `parseInt` reads a run of digits and ignores whatever follows its first non-digit. */
  lemma ParseIntStopsAtNonDigit(ds: JsString, tail: JsString)
    requires ds != [] && forall i :: 0 <= i < |ds| ==> IsDigit(ds[i])
    requires tail == [] || !IsDigit(tail[0])
    ensures ParseInt(ds + tail) == Some(DigitsValue(ds))
  {
    var t := ds + tail;
    assert t[0] == ds[0] && IsDigit(t[0]);
    assert TrimStart(t) == t;
    assert !(t[0] == HyphenMinus || t[0] == Plus);
    DigitRunStopsAtNonDigit(ds, tail);
    assert t[..|ds|] == ds;
  }

  /** A leading `-` negates what follows, a leading `+` changes nothing, and neither turns `NaN` into a number. */
  lemma ParseIntSign(s: JsString)
    requires s == [] || (!IsWhitespace(s[0]) && s[0] != HyphenMinus && s[0] != Plus)
    ensures ParseInt(s).None? ==> ParseInt([HyphenMinus] + s).None?
    ensures ParseInt(s).Some? ==> ParseInt([HyphenMinus] + s) == Some(-ParseInt(s).value)
    ensures ParseInt([Plus] + s) == ParseInt(s)
  {
    assert TrimStart(s) == s;
    assert TrimStart([HyphenMinus] + s) == [HyphenMinus] + s;
    assert TrimStart([Plus] + s) == [Plus] + s;
    assert ([HyphenMinus] + s)[1..] == s;
    assert ([Plus] + s)[1..] == s;
  }

  /** Reading back the digits of a natural number gives the number. */
  lemma ParseIntDigits(m: nat)
    ensures ParseInt(Digits(m)) == Some(m)
  {
    var ds := Digits(m);
    assert ds + [] == ds;
    ParseIntStopsAtNonDigit(ds, []);
    DigitsValueOfDigits(m);
  }

  /** Reading back a minus sign and the digits of a positive number gives the negative number. */
  lemma ParseIntNegativeDigits(m: nat)
    ensures ParseInt([HyphenMinus] + Digits(m)) == Some(-(m as int))
  {
    var ds := Digits(m);
    ParseIntDigits(m);
    assert IsDigit(ds[0]);
    ParseIntSign(ds);
  }

  /** Reading back the decimal rendering of any integer gives the integer. */
  lemma ParseIntDecimal(n: int)
    ensures ParseInt(Decimal(n)) == Some(n)
  {
    if n < 0 {
      ParseIntNegativeDigits(-n);
    } else {
      ParseIntDigits(n);
    }
  }
}
