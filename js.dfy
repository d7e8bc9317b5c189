/** The slice of JavaScript's value model and built-ins that the dashboard's
    config, version and formatting code relies on: property-bag objects,
    truthiness, `parseInt(_, 10)`, integer-to-string conversion,
    `String.prototype.indexOf` and upper-casing of one character. */
module Js {

  datatype Option<+T> = None | Some(value: T)

  datatype Result<+T, +E> = Success(value: T) | Failure(error: E)

  /** A JavaScript value as the core sees it.  Numbers are integers (ports,
      byte counts, flags); `NaN` is the one non-integer number the core can
      produce (from a failed `parseInt`).  An absent key of an object stands
      for `undefined`. */
  datatype Value =
    | Null
    | Bool(b: bool)
    | Num(n: int)
    | NaN
    | Str(s: string)
    | Obj(fields: map<string, Value>)

  /** JavaScript truthiness (`if (v)`, `v || d`). */
  predicate Truthy(v: Value)
  {
    match v
    case Null => false
    case Bool(b) => b
    case Num(n) => n != 0
    case NaN => false
    case Str(s) => s != ""
    case Obj(_) => true
  }

  /** Truthiness of `o[k]`, where a missing key reads as `undefined`. */
  predicate TruthyProp(o: map<string, Value>, k: string)
  {
    k in o && Truthy(o[k])
  }

  /** A plain JavaScript object whose properties are assigned in place. */
  class JsObject {
    var props: map<string, Value>

    constructor (props: map<string, Value>)
      ensures this.props == props
    {
      this.props := props;
    }
  }

  // ---------------------------------------------------------------------
  // JSON.stringify, at the level of values

  /** No `NaN` anywhere inside `v`. */
  predicate NaNFree(v: Value)
  {
    match v
    case NaN => false
    case Obj(m) => forall k :: k in m ==> NaNFree(m[k])
    case _ => true
  }

  /** The value that `JSON.stringify` writes out for `v`: a number that is
      not finite is written as `null`; everything else keeps its shape. */
  function JsonValue(v: Value): (r: Value)
    ensures NaNFree(r)
    ensures NaNFree(v) ==> r == v
    ensures v.Obj? <==> r.Obj?
    ensures v.Obj? ==> r.fields.Keys == v.fields.Keys
    ensures v.Obj? ==> forall k :: k in v.fields && v.fields[k] == NaN ==> r.fields[k] == Null
    ensures v == NaN ==> r == Null
    ensures v.Obj? ==> forall k :: k in v.fields && NaNFree(v.fields[k]) ==> r.fields[k] == v.fields[k]
  {
    match v
    case NaN => Null
    case Obj(m) =>
      var r := Obj(map k | k in m :: JsonValue(m[k]));
      assert NaNFree(v) ==> r.fields == m;
      r
    case _ => v
  }

  // ---------------------------------------------------------------------
  // Number to string, for integers

  function DigitChar(d: nat): (c: char)
    requires d < 10
    ensures IsDigit(c) && c as int - '0' as int == d
  {
    (d + '0' as int) as char
  }

  /** Decimal digits of a natural number, most significant first. */
  function NatToString(n: nat): (r: string)
    ensures |r| > 0 && AllDigits(r)
  {
    if n < 10 then [DigitChar(n)] else NatToString(n / 10) + [DigitChar(n % 10)]
  }

  /** `String(n)` for an integer `n`. */
  function IntToString(n: int): string
  {
    if n < 0 then "-" + NatToString(-n) else NatToString(n)
  }

  /** `String(v)`, as `parseInt` applies it to its argument. */
  function ToString(v: Value): string
  {
    match v
    case Null => "null"
    case Bool(b) => if b then "true" else "false"
    case Num(n) => IntToString(n)
    case NaN => "NaN"
    case Str(s) => s
    case Obj(_) => "[object Object]"
  }

  // ---------------------------------------------------------------------
  // parseInt(s, 10)

  /** The characters that `parseInt` skips before the number: the
      ECMAScript WhiteSpace and LineTerminator code points. */
  predicate IsStrWhiteSpace(c: char)
  {
    || c == '\t' || c == '\n' || c == '\U{000B}' || c == '\U{000C}' || c == '\r'
    || c == ' ' || c == '\U{00A0}' || c == '\U{1680}'
    || ('\U{2000}' <= c <= '\U{200A}')
    || c == '\U{2028}' || c == '\U{2029}' || c == '\U{202F}' || c == '\U{205F}'
    || c == '\U{3000}' || c == '\U{FEFF}'
  }

  predicate IsDigit(c: char)
  {
    '0' <= c <= '9'
  }

  predicate AllDigits(s: string)
  {
    forall i :: 0 <= i < |s| ==> IsDigit(s[i])
  }

  /** `s` without its leading white space. */
  function TrimStart(s: string): (r: string)
    ensures |r| <= |s| && r == s[|s| - |r|..]
    ensures r == [] || !IsStrWhiteSpace(r[0])
    ensures forall i :: 0 <= i < |s| - |r| ==> IsStrWhiteSpace(s[i])
  {
    if |s| > 0 && IsStrWhiteSpace(s[0]) then TrimStart(s[1..]) else s
  }

  /** The longest prefix of `s` made of decimal digits. */
  function DigitPrefix(s: string): (r: string)
    ensures |r| <= |s| && r == s[..|r|]
    ensures AllDigits(r)
    ensures |r| < |s| ==> !IsDigit(s[|r|])
  {
    if |s| > 0 && IsDigit(s[0]) then [s[0]] + DigitPrefix(s[1..]) else []
  }

  /** The number a string of decimal digits denotes. */
  function DigitsValue(d: string): nat
    requires AllDigits(d)
  {
    if d == [] then 0 else DigitsValue(d[..|d| - 1]) * 10 + (d[|d| - 1] as int - '0' as int)
  }

  /** `parseInt(s, 10)`: skip white space, read an optional sign and the
      longest run of digits after it; no digits gives `NaN` (`None`).
      Whatever follows the digits is ignored. */
  function ParseInt(s: string): (r: Option<int>)
    ensures var t := TrimStart(s);
      t == [] || (!IsDigit(t[0]) && t[0] != '-' && t[0] != '+') ==> r.None?
    ensures |s| > 0 && IsDigit(s[0]) ==> r == ParseDigits(s) && r.Some? && r.value >= 0
  {
    assert |s| > 0 && IsDigit(s[0]) ==> TrimStart(s) == s;
    ParseSigned(TrimStart(s))
  }

  /** `parseInt` on text that no longer starts with white space. */
  function ParseSigned(t: string): Option<int>
  {
    if |t| > 0 && t[0] == '-' then Negate(ParseDigits(t[1..]))
    else if |t| > 0 && t[0] == '+' then ParseDigits(t[1..])
    else ParseDigits(t)
  }

  function ParseDigits(u: string): Option<int>
  {
    var z := DigitPrefix(u);
    if z == [] then None else Some(DigitsValue(z))
  }

  function Negate(r: Option<int>): Option<int>
  {
    match r
    case None => None
    case Some(v) => Some(-v)
  }

  lemma {:induction false} DigitPrefixOfDigits(d: string, tail: string)
    requires AllDigits(d)
    requires tail == [] || !IsDigit(tail[0])
    ensures DigitPrefix(d + tail) == d
  {
    if d != [] {
      assert (d + tail)[1..] == d[1..] + tail;
      DigitPrefixOfDigits(d[1..], tail);
    }
  }

  lemma {:induction false} DigitsValueOfNat(n: nat)
    ensures DigitsValue(NatToString(n)) == n
  {
    if n >= 10 {
      var d := NatToString(n);
      assert d[..|d| - 1] == NatToString(n / 10);
      DigitsValueOfNat(n / 10);
    }
  }

  /** Reading back the decimal text of an integer, followed by anything that
      does not start with a digit, gives that integer. */
  lemma ParseIntOfDecimal(n: int, tail: string)
    requires tail == [] || !IsDigit(tail[0])
    ensures ParseInt(IntToString(n) + tail) == Some(n)
  {
    if n < 0 {
      ParseIntOfNegative(n, tail);
    } else {
      ParseIntOfNatural(n, tail);
    }
  }

  lemma ParseIntOfNegative(n: int, tail: string)
    requires n < 0
    requires tail == [] || !IsDigit(tail[0])
    ensures ParseInt(IntToString(n) + tail) == Some(n)
  {
    var d := NatToString(-n);
    ParseDigitsOfNat(-n, tail);
    assert IntToString(n) == "-" + d;
    ParseNegativeText(d, tail, -n);
  }

  lemma ParseNegativeText(d: string, tail: string, m: int)
    requires ParseDigits(d + tail) == Some(m)
    ensures ParseInt("-" + d + tail) == Some(-m)
  {
    assert "-" + d + tail == "-" + (d + tail);
    ParseNegative(d + tail, m);
  }

  lemma ParseIntOfNatural(n: nat, tail: string)
    requires tail == [] || !IsDigit(tail[0])
    ensures ParseInt(IntToString(n) + tail) == Some(n)
  {
    var d := NatToString(n);
    ParseDigitsOfNat(n, tail);
    assert (d + tail)[0] == d[0];
  }

  lemma ParseDigitsOfNat(m: nat, tail: string)
    requires tail == [] || !IsDigit(tail[0])
    ensures ParseDigits(NatToString(m) + tail) == Some(m)
  {
    DigitPrefixOfDigits(NatToString(m), tail);
    DigitsValueOfNat(m);
  }

  lemma ParseNegative(u: string, m: int)
    requires ParseDigits(u) == Some(m)
    ensures ParseInt("-" + u) == Some(-m)
  {
    var t := "-" + u;
    assert t[0] == '-' && t[1..] == u;
    NoLeadingSpace(t);
  }

  lemma NoLeadingSpace(t: string)
    requires |t| > 0 && !IsStrWhiteSpace(t[0])
    ensures ParseInt(t) == ParseSigned(t)
  {
  }

  /** Leading white space does not change what `parseInt` reads. */
  lemma ParseIntSkipsWhiteSpace(c: char, t: string)
    requires IsStrWhiteSpace(c)
    ensures ParseInt([c] + t) == ParseInt(t)
  {
    assert ([c] + t)[1..] == t;
  }

  /** A leading `+` is dropped and the digits after it are read. */
  lemma ParseIntPlus(u: string)
    ensures ParseInt("+" + u) == ParseDigits(u)
  {
    assert ("+" + u)[1..] == u;
    NoLeadingSpace("+" + u);
  }

  /** A leading `-` negates the digits after it; with none, the result is `NaN`. */
  lemma ParseIntMinus(u: string)
    ensures ParseInt("-" + u) == Negate(ParseDigits(u))
  {
    assert ("-" + u)[1..] == u;
    NoLeadingSpace("-" + u);
  }

  /** `parseInt(String(v), 10)`. */
  function ParseIntValue(v: Value): Option<int>
  {
    ParseInt(ToString(v))
  }

  /** Only strings and numbers can carry an integer through `parseInt`; a
      number comes back unchanged. */
  lemma ParseIntValueCases(v: Value)
    ensures v.Num? ==> ParseIntValue(v) == Some(v.n)
    ensures (v.Null? || v.Bool? || v.NaN? || v.Obj?) ==> ParseIntValue(v) == None
  {
    match v
    case Num(n) =>
      assert IntToString(n) + [] == IntToString(n);
      ParseIntOfDecimal(n, []);
    case Null => NoNumberIn("null");
    case Bool(b) => NoNumberIn(if b then "true" else "false");
    case NaN => NoNumberIn("NaN");
    case Obj(_) => NoNumberIn("[object Object]");
    case Str(_) =>
  }

  lemma NoNumberIn(s: string)
    requires |s| > 0 && !IsStrWhiteSpace(s[0]) && !IsDigit(s[0]) && s[0] != '-' && s[0] != '+'
    ensures ParseInt(s) == None
  {
    assert TrimStart(s) == s;
  }

  // ---------------------------------------------------------------------
  // indexOf

  /** `pat` occurs in `s` at position `j`. */
  predicate OccursAt(s: string, pat: string, j: int)
  {
    0 <= j && j + |pat| <= |s| && s[j..j + |pat|] == pat
  }

  ghost predicate Occurs(s: string, pat: string)
  {
    exists j :: OccursAt(s, pat, j)
  }

  /** `s.indexOf(pat)`: the first position where `pat` occurs, or -1. */
  function IndexOf(s: string, pat: string): (r: int)
    ensures r == -1 || OccursAt(s, pat, r)
    ensures forall j :: 0 <= j && (r == -1 || j < r) ==> !OccursAt(s, pat, j)
    decreases |s|
  {
    if |pat| > |s| then -1
    else if s[..|pat|] == pat then 0
    else
      var k := IndexOf(s[1..], pat);
      assert forall j :: 1 <= j ==> (OccursAt(s, pat, j) <==> OccursAt(s[1..], pat, j - 1)) by {
        forall j | 1 <= j ensures OccursAt(s, pat, j) <==> OccursAt(s[1..], pat, j - 1) {
          OccursAtShift(s, pat, j);
        }
      }
      if k == -1 then -1 else k + 1
  }

  lemma OccursAtShift(s: string, pat: string, j: int)
    requires |s| > 0 && 1 <= j
    ensures OccursAt(s, pat, j) <==> OccursAt(s[1..], pat, j - 1)
  {
    if j + |pat| <= |s| {
      assert s[j..j + |pat|] == s[1..][j - 1..j - 1 + |pat|];
    }
  }

  /** `s.indexOf(pat) > -1` says exactly that `pat` occurs in `s`. */
  lemma IndexOfFindsOccurrence(s: string, pat: string)
    ensures IndexOf(s, pat) > -1 <==> Occurs(s, pat)
  {
    var r := IndexOf(s, pat);
    if r > -1 {
      assert OccursAt(s, pat, r);
    }
  }

  // ---------------------------------------------------------------------
  // toUpperCase, on one character

  /** `c.toUpperCase()` for the Basic Latin letters. */
  function ToUpperAscii(c: char): (u: char)
    ensures 'a' <= c <= 'z' ==> 'A' <= u <= 'Z' && u as int == c as int - 32
    ensures !('a' <= c <= 'z') ==> u == c
  {
    if 'a' <= c <= 'z' then (c as int - 32) as char else c
  }
}
