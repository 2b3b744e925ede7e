/**
 * The few JavaScript value semantics the client relies on: `null`/`undefined`
 * as an optional value, string truthiness, `parseInt` with no radix,
 * number-to-string conversion in template literals and `Math.max`.
 * Numbers here are always integer-valued (they come from `parseInt`), so a
 * JavaScript number is modelled as an unbounded integer or NaN.
 */
module Js {

  /** A value that may be `null` or `undefined` (both are `None`). */
  datatype Option<+T> = None | Some(value: T)

  /** JavaScript truthiness of a possibly missing string: missing and "" are falsy. */
  predicate Truthy(s: Option<string>)
  {
    s.Some? && s.value != ""
  }

  /** `s || fallback` on a possibly missing string. */
  function OrElse(s: Option<string>, fallback: string): (r: string)
    ensures Truthy(s) ==> r == s.value
    ensures !Truthy(s) ==> r == fallback
  {
    if Truthy(s) then s.value else fallback
  }

  // ---------------------------------------------------------------------------
  // Decimal digits

  predicate IsDigit(c: char)
  {
    '0' <= c <= '9'
  }

  predicate AllDigits(s: string)
  {
    forall i :: 0 <= i < |s| ==> IsDigit(s[i])
  }

  function DigitChar(d: nat): (c: char)
    requires d < 10
    ensures IsDigit(c)
  {
    ('0' as int + d) as char
  }

  function DigitValue(c: char): (d: nat)
    requires IsDigit(c)
    ensures d < 10 && DigitChar(d) == c
  {
    c as int - '0' as int
  }

  /** The value of a string of decimal digits, most significant first. */
  function DigitsToNat(s: string): nat
    requires AllDigits(s)
  {
    if s == [] then 0 else DigitsToNat(s[..|s| - 1]) * 10 + DigitValue(s[|s| - 1])
  }

  /** The shortest decimal spelling of a natural number. */
  function NatToDigits(n: nat): (s: string)
    ensures |s| > 0 && AllDigits(s)
  {
    if n < 10 then [DigitChar(n)] else NatToDigits(n / 10) + [DigitChar(n % 10)]
  }

  lemma {:induction false} DigitsRoundTrip(n: nat)
    ensures DigitsToNat(NatToDigits(n)) == n
  {
    var s := NatToDigits(n);
    if n < 10 {
      assert s[..|s| - 1] == [];
    } else {
      assert s[..|s| - 1] == NatToDigits(n / 10);
      DigitsRoundTrip(n / 10);
    }
  }

  /** Length of the longest prefix of `s` made of decimal digits. */
  function DigitRunLength(s: string): (k: nat)
    ensures k <= |s| && AllDigits(s[..k])
    ensures k < |s| ==> !IsDigit(s[k])
  {
    if s == [] || !IsDigit(s[0]) then 0
    else
      var k := 1 + DigitRunLength(s[1..]);
      assert s[..k] == [s[0]] + s[1..][..k - 1];
      k
  }

  /** A digit string followed by a non-digit (or nothing) is read up to its end. */
  lemma DigitRunOfDigits(ds: string, rest: string)
    requires AllDigits(ds)
    requires rest == [] || !IsDigit(rest[0])
    ensures DigitRunLength(ds + rest) == |ds|
    ensures (ds + rest)[..|ds|] == ds
  {
    var s := ds + rest;
    assert s[..|ds|] == ds;
    assert |ds| < |s| ==> s[|ds|] == rest[0];
  }

  // ---------------------------------------------------------------------------
  // Numbers

  /** An integer-valued JavaScript number, or NaN. */
  datatype JsNumber = Num(value: int) | NaN

  /** `x + k` for an integer `k`: NaN absorbs. */
  function Add(x: JsNumber, k: int): (r: JsNumber)
    ensures r.NaN? <==> x.NaN?
    ensures r.Num? ==> r.value == x.value + k
  {
    match x
    case Num(v) => Num(v + k)
    case NaN => NaN
  }

  /**
   * JavaScript white space and line terminators, the characters `parseInt`
   * skips before the number.
   */
  predicate IsJsWhitespace(c: char)
  {
    || c == '\t' || c == '\n' || c == '\r' || c == ' '
    || c as int == 0x0B || c as int == 0x0C || c as int == 0xA0
    || c as int == 0x1680 || 0x2000 <= c as int <= 0x200A
    || c as int == 0x2028 || c as int == 0x2029 || c as int == 0x202F
    || c as int == 0x205F || c as int == 0x3000 || c as int == 0xFEFF
  }

  function TrimStart(s: string): (t: string)
    ensures |t| <= |s| && t == s[|s| - |t|..]
    ensures t == [] || !IsJsWhitespace(t[0])
  {
    if s != [] && IsJsWhitespace(s[0]) then TrimStart(s[1..]) else s
  }

  /** The leading run of decimal digits read as a number; NaN when there is none. */
  function ReadDigits(body: string): (r: JsNumber)
    ensures r.Num? <==> body != [] && IsDigit(body[0])
    ensures r.Num? ==> r.value >= 0
  {
    var k := DigitRunLength(body);
    if k == 0 then NaN else Num(DigitsToNat(body[..k]))
  }

  /** Unary minus on a number read by `parseInt`: NaN stays NaN. */
  function Negate(x: JsNumber): (r: JsNumber)
    ensures r.NaN? <==> x.NaN?
    ensures r.Num? ==> r.value == 0 - x.value
  {
    match x
    case Num(v) => Num(0 - v)
    case NaN => NaN
  }

  /**
   * `parseInt(s)` with no radix: skip leading white space, accept one sign,
   * then read the longest run of decimal digits; no digit gives NaN.
   */
  function ParseInt(s: string): JsNumber
  {
    var t := TrimStart(s);
    if t != [] && t[0] == '-' then Negate(ReadDigits(t[1..]))
    else if t != [] && t[0] == '+' then ReadDigits(t[1..])
    else ReadDigits(t)
  }

  /**
   * `parseInt` yields a number exactly when a digit follows the leading
   * white space and the optional sign.
   */
  lemma ParseIntIsNumber(s: string)
    ensures ParseInt(s).Num? <==>
      var t := TrimStart(s);
      var body := if t != [] && (t[0] == '-' || t[0] == '+') then t[1..] else t;
      body != [] && IsDigit(body[0])
  {
  }

  /** The decimal spelling of an integer, as a template literal renders it. */
  function IntToString(i: int): (s: string)
    ensures |s| > 0 && (IsDigit(s[0]) || s[0] == '-')
  {
    if i < 0 then "-" + NatToDigits(-i) else NatToDigits(i)
  }

  /** The spelling of an integer holds only digits and a leading minus: never a '/'. */
  lemma IntToStringHasNoSlash(i: int)
    ensures forall j :: 0 <= j < |IntToString(i)| ==> IntToString(i)[j] != '/'
  {
    if i < 0 {
      var ds := NatToDigits(-i);
      forall j | 0 <= j < |IntToString(i)|
        ensures IntToString(i)[j] != '/'
      {
        if j > 0 {
          assert IntToString(i)[j] == ds[j - 1];
        }
      }
    }
  }

  /** `${x}` for a JavaScript number. */
  function NumberToString(x: JsNumber): string
  {
    match x
    case Num(v) => IntToString(v)
    case NaN => "NaN"
  }

  /** Text that starts with neither white space, a sign nor a digit reads as NaN. */
  lemma ParseIntOfNonNumeric(s: string)
    requires s != [] && !IsJsWhitespace(s[0]) && !IsDigit(s[0]) && s[0] != '-' && s[0] != '+'
    ensures ParseInt(s) == NaN
  {
    assert TrimStart(s) == s;
  }

  /** A digit is neither white space nor a sign. */
  lemma DigitIsNotSpaceOrSign(c: char)
    requires IsDigit(c)
    ensures !IsJsWhitespace(c) && c != '-' && c != '+'
  {
  }

  /** Text that does not start with white space is left as it is. */
  lemma TrimStartOfUnspaced(s: string)
    requires s != [] && !IsJsWhitespace(s[0])
    ensures TrimStart(s) == s
  {
  }

  /** A digit string followed by a non-digit is read as its value. */
  lemma ReadDigitsOf(ds: string, rest: string)
    requires ds != [] && AllDigits(ds)
    requires rest == [] || !IsDigit(rest[0])
    ensures ReadDigits(ds + rest) == Num(DigitsToNat(ds))
  {
    DigitRunOfDigits(ds, rest);
  }

  /** A digit string followed by a non-digit reads as its value. */
  lemma ParseIntUnsigned(ds: string, rest: string)
    requires ds != [] && AllDigits(ds)
    requires rest == [] || !IsDigit(rest[0])
    ensures ParseInt(ds + rest) == Num(DigitsToNat(ds))
  {
    var s := ds + rest;
    assert s[0] == ds[0];
    DigitIsNotSpaceOrSign(s[0]);
    TrimStartOfUnspaced(s);
    assert ParseInt(s) == ReadDigits(s);
    ReadDigitsOf(ds, rest);
  }

  /** A minus sign, a digit string and a non-digit read as the negated value. */
  lemma ParseIntNegative(ds: string, rest: string)
    requires ds != [] && AllDigits(ds)
    requires rest == [] || !IsDigit(rest[0])
    ensures ParseInt("-" + ds + rest) == Num(0 - DigitsToNat(ds))
  {
    var s := "-" + ds + rest;
    TrimStartOfUnspaced(s);
    assert s[1..] == ds + rest;
    ReadDigitsOf(ds, rest);
  }

  /** A non-negative spelling followed by a non-digit reads back as its value. */
  lemma ParseIntOfNatToDigits(n: nat, rest: string)
    requires rest == [] || !IsDigit(rest[0])
    ensures ParseInt(NatToDigits(n) + rest) == Num(n)
  {
    ParseIntUnsigned(NatToDigits(n), rest);
    DigitsRoundTrip(n);
  }

  /** A negative integer's spelling, then a non-digit, reads back as the integer. */
  lemma ParseIntOfNegative(i: int, rest: string)
    requires i < 0
    requires rest == [] || !IsDigit(rest[0])
    ensures ParseInt(IntToString(i) + rest) == Num(i)
  {
    var ds := NatToDigits(-i);
    assert IntToString(i) == "-" + ds;
    assert IntToString(i) + rest == "-" + ds + rest;
    ParseIntNegative(ds, rest);
    assert ParseInt("-" + ds + rest) == Num(0 - DigitsToNat(ds));
    DigitsRoundTrip(-i);
    assert DigitsToNat(ds) == -i;
    assert ParseInt("-" + ds + rest) == Num(i);
    assert ParseInt(IntToString(i) + rest) == Num(i);
  }

  /** Spelling an integer and reading it back with `parseInt` gives the integer. */
  lemma ParseIntOfIntToString(i: int, rest: string)
    requires rest == [] || !IsDigit(rest[0])
    ensures ParseInt(IntToString(i) + rest) == Num(i)
  {
    if i < 0 {
      ParseIntOfNegative(i, rest);
    } else {
      ParseIntOfNatToDigits(i, rest);
    }
  }

  /**
   * `Math.max(...xs)` over a non-empty list: NaN as soon as one element is NaN,
   * otherwise the largest element.
   */
  function Max(xs: seq<JsNumber>): (r: JsNumber)
    requires |xs| > 0
    ensures r.NaN? <==> exists i :: 0 <= i < |xs| && xs[i].NaN?
    ensures r.Num? ==> r in xs && forall i :: 0 <= i < |xs| ==> xs[i].Num? && xs[i].value <= r.value
  {
    if |xs| == 1 then xs[0]
    else
      var m := Max(xs[1..]);
      assert forall i :: 1 <= i < |xs| ==> xs[i] == xs[1..][i - 1];
      match (xs[0], m)
      case (Num(a), Num(b)) => if a >= b then xs[0] else m
      case _ => NaN
  }

  /** Over numbers only, `Math.max` is a number and sits at some index `k`. */
  lemma MaxOfNumbers(xs: seq<JsNumber>) returns (k: nat)
    requires |xs| > 0
    requires forall i :: 0 <= i < |xs| ==> xs[i].Num?
    ensures k < |xs| && Max(xs) == xs[k] && xs[k].Num?
  {
    k :| 0 <= k < |xs| && xs[k] == Max(xs);
  }

  /** A numeric `Math.max` bounds every element, which is then a number. */
  lemma MaxBounds(xs: seq<JsNumber>, i: nat)
    requires i < |xs| && Max(xs).Num?
    ensures xs[i].Num? && xs[i].value <= Max(xs).value
  {
  }

  /** A present element that bounds all the others is the maximum. */
  lemma MaxIsBound(xs: seq<JsNumber>, j: nat, m: int)
    requires j < |xs| && xs[j] == Num(m)
    requires forall k :: 0 <= k < |xs| ==> xs[k].Num? && xs[k].value <= m
    ensures Max(xs) == Num(m)
  {
  }
}
