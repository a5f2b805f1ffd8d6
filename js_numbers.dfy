/** `parseInt(s, 10)` and the decimal string of an integer, the two number
    conversions the option builders rely on. Only integers are modelled:
    JavaScript numbers are doubles, so very large values lose precision in
    the source, which this model does not reproduce. */
module JsNumbers {
  import opened Js
  import opened JsStrings

  /** The result of `parseInt`: `NaN`, or an integer. */
  datatype Number = NaN | Int(i: int)

  predicate IsDigit(c: char)
  {
    '0' <= c <= '9'
  }

  predicate AllDigits(s: string)
  {
    forall i :: 0 <= i < |s| ==> IsDigit(s[i])
  }

  function DigitValue(c: char): nat
    requires IsDigit(c)
  {
    c as int - '0' as int
  }

  function DigitChar(d: nat): (c: char)
    requires d < 10
    ensures IsDigit(c) && DigitValue(c) == d
  {
    ('0' as int + d) as char
  }

  /** The longest prefix of `s` made of decimal digits. */
  function DigitPrefix(s: string): (r: string)
    ensures |r| <= |s| && r == s[..|r|]
    ensures AllDigits(r)
    ensures |r| < |s| ==> !IsDigit(s[|r|])
  {
    if s != [] && IsDigit(s[0]) then [s[0]] + DigitPrefix(s[1..]) else []
  }

  /** The value of a string of decimal digits, most significant first. */
  function DigitsValue(ds: string): nat
    requires AllDigits(ds)
  {
    if ds == [] then 0 else 10 * DigitsValue(ds[..|ds| - 1]) + DigitValue(ds[|ds| - 1])
  }

  /** What `parseInt` reads its digits from: `s` after its leading
      whitespace and an optional sign. */
  function Unsigned(s: string): (u: string)
    ensures |u| <= |s|
  {
    var t := TrimStart(s);
    if t != [] && (t[0] == '-' || t[0] == '+') then t[1..] else t
  }

  /** `parseInt(s, 10)`: skip leading whitespace, read an optional sign, then
      the longest run of decimal digits; no digits gives `NaN`. Whatever
      follows the digits (a decimal point, units, garbage) is ignored. */
  function ParseInt(s: string): (r: Number)
    ensures r == NaN <==> Unsigned(s) == [] || !IsDigit(Unsigned(s)[0])
    ensures r.Int? && r.i < 0 ==> TrimStart(s)[0] == '-'
  {
    var t := TrimStart(s);
    var negative := t != [] && t[0] == '-';
    var ds := DigitPrefix(Unsigned(s));
    if ds == [] then NaN
    else if negative then Int(-(DigitsValue(ds) as int))
    else Int(DigitsValue(ds))
  }

  /** The decimal digits of a natural number, without leading zeros. */
  function NatToString(n: nat): (r: string)
    ensures |r| >= 1 && AllDigits(r)
  {
    if n < 10 then [DigitChar(n)] else NatToString(n / 10) + [DigitChar(n % 10)]
  }

  /** `String(n)` for an integer. */
  function IntToString(n: int): (r: string)
    ensures |r| >= 1
  {
    if n < 0 then "-" + NatToString(-n) else NatToString(n)
  }

  /** `String(v)`, the conversion `parseInt` applies to a non-string argument. */
  function ToJsString(v: Value): (r: string)
    ensures v.Str? ==> r == v.s
    ensures v.Num? ==> ParseInt(r) == Int(v.n)
  {
    match v
    case Undefined => "undefined"
    case Null => "null"
    case Bool(b) => if b then "true" else "false"
    case Num(n) => ParseIntRoundTrip(n); IntToString(n)
    case Str(s) => s
    case Object => "[object Object]"
  }

  /** `parseInt(v, 10)` on a form value of any type: a number gives itself,
      a text is parsed, and `undefined`, `null`, booleans and objects give `NaN`. */
  function ParseIntValue(v: Value): (r: Number)
    ensures v.Num? ==> r == Int(v.n)
    ensures v.Str? ==> r == ParseInt(v.s)
    ensures v.Undefined? || v.Null? || v.Bool? || v.Object? ==> r == NaN
  {
    var s := ToJsString(v);
    if v.Undefined? || v.Null? || v.Bool? || v.Object? then
      ParseIntOfWord(s);
      ParseInt(s)
    else ParseInt(s)
  }

  lemma {:induction false} NatToStringValue(n: nat)
    ensures DigitsValue(NatToString(n)) == n
  {
    var r := NatToString(n);
    if n >= 10 {
      NatToStringValue(n / 10);
      assert r[..|r| - 1] == NatToString(n / 10);
    }
  }

  /** A string of digits is its own digit prefix. */
  lemma DigitPrefixOfDigits(ds: string)
    requires AllDigits(ds)
    ensures DigitPrefix(ds) == ds
  {
  }

  /** The digit prefix ends where the first non-digit stands. */
  lemma {:induction false} DigitPrefixStops(ds: string, tail: string)
    requires AllDigits(ds)
    requires tail == [] || !IsDigit(tail[0])
    ensures DigitPrefix(ds + tail) == ds
  {
    if ds == [] {
      assert ds + tail == tail;
    } else {
      assert (ds + tail)[0] == ds[0] && (ds + tail)[1..] == ds[1..] + tail;
      DigitPrefixStops(ds[1..], tail);
    }
  }

  /** A string that starts with something other than whitespace is left
      alone by `trimStart`. */
  lemma TrimStartNoLead(s: string)
    requires s != [] && !IsWhitespace(s[0])
    ensures TrimStart(s) == s
  {
  }

  /** `parseInt` reads back the decimal string of every integer. */
  lemma ParseIntRoundTrip(n: int)
    ensures ParseInt(IntToString(n)) == Int(n)
  {
    var m: nat := if n < 0 then -n else n;
    var digits := NatToString(m);
    NatToStringValue(m);
    DigitPrefixOfDigits(digits);
    var s := IntToString(n);
    TrimStartNoLead(s);
    if n < 0 {
      assert s[1..] == digits;
      assert Unsigned(s) == digits;
    } else {
      assert s == digits;
      assert Unsigned(s) == digits;
    }
    assert DigitPrefix(Unsigned(s)) == digits;
  }

  /** `parseInt` of a number value is that number. */
  lemma ParseIntOfNumber(n: int)
    ensures ParseIntValue(Num(n)) == Int(n)
  {
    ParseIntRoundTrip(n);
  }

  /** `parseInt` stops at the first character that is not a digit, so a
      decimal such as "0.9" is truncated to its integer part. */
  lemma ParseIntTruncates(ds: string, c: char, rest: string)
    requires ds != [] && AllDigits(ds) && !IsDigit(c)
    ensures ParseInt(ds + [c] + rest) == ParseInt(ds)
  {
    var s := ds + [c] + rest;
    assert s[0] == ds[0];
    TrimStartNoLead(s);
    TrimStartNoLead(ds);
    DigitPrefixOfDigits(ds);
    assert s == ds + ([c] + rest);
    DigitPrefixStops(ds, [c] + rest);
  }

  /** A decimal written as a string is cut at its point: "0.9" gives 0. */
  lemma ParseIntOfDecimal()
    ensures ParseInt("0.9") == Int(0)
  {
    var s := "0.9";
    assert s[0] == '0' && s == "0" + ".9";
    TrimStartNoLead(s);
    DigitPrefixStops("0", ".9");
    assert DigitsValue("0") == 0;
  }

  /** A text that starts with neither whitespace, a sign nor a digit gives
      `NaN`, as "abc" does. */
  lemma ParseIntOfWord(s: string)
    requires s != [] && !IsWhitespace(s[0]) && !IsDigit(s[0]) && s[0] != '-' && s[0] != '+'
    ensures ParseInt(s) == NaN
  {
    TrimStartNoLead(s);
  }

  /** `if (v) obj.f = parseInt(v, 10)`: the field of an options object that
      is set only from a truthy input. */
  function IntField(v: Value): (f: Option<Number>)
    ensures f.None? <==> !Truthy(v)
    ensures f.Some? ==> f.value == ParseIntValue(v)
  {
    if Truthy(v) then Some(ParseIntValue(v)) else None
  }

  /** A non-zero number, or its decimal string, sets the field to itself;
      zero and the empty string leave it out. */
  lemma IntFieldOfInteger(n: int)
    ensures IntField(Num(n)) == if n == 0 then None else Some(Int(n))
    ensures n != 0 ==> IntField(Str(IntToString(n))) == Some(Int(n))
  {
    ParseIntRoundTrip(n);
  }
}
