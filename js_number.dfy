/** The JavaScript numbers this front end computes with: integers, and the
    NaN that `parseInt` returns for text without a leading number. */
module JsNumber {
  import opened JsString

  /** A JavaScript number restricted to the values the page arithmetic can
      produce. NaN is sticky: every arithmetic step on it yields NaN, and
      every comparison with it is false. */
  datatype Num = Int(value: int) | NaN

  /** `n + k`. */
  function Add(n: Num, k: int): (r: Num)
    ensures r.NaN? <==> n.NaN?
    ensures r.Int? ==> r.value - k == n.value
  {
    match n
    case Int(v) => Int(v + k)
    case NaN => NaN
  }

  /** `n * k`. */
  function Mul(n: Num, k: int): (r: Num)
    ensures r.NaN? <==> n.NaN?
    ensures r.Int? ==> r.value == n.value * k
  {
    match n
    case Int(v) => Int(v * k)
    case NaN => NaN
  }

  /** `Math.max(a, b)`: NaN when either argument is NaN. */
  function Max(a: Num, b: Num): (r: Num)
    ensures r.NaN? <==> a.NaN? || b.NaN?
    ensures r.Int? ==> r.value >= a.value && r.value >= b.value
    ensures r.Int? ==> r.value == a.value || r.value == b.value
  {
    if a.NaN? || b.NaN? then NaN
    else if a.value >= b.value then a else b
  }

  /** `a > k`, false when `a` is NaN. */
  predicate Greater(a: Num, k: int) {
    a.Int? && a.value > k
  }

  /** `a <= k`, false when `a` is NaN. */
  predicate AtMost(a: Num, k: int) {
    a.Int? && a.value <= k
  }

  /** `Number.prototype.toString()`. */
  function ToString(n: Num): string {
    match n
    case Int(v) => IntToString(v)
    case NaN => "NaN"
  }

  /** The longest prefix of `s` made of decimal digits. */
  function DigitPrefix(s: string): (r: string)
    ensures |r| <= |s| && r == s[..|r|] && AllDigits(r)
    ensures |r| == |s| || !IsDigit(s[|r|])
  {
    if s != [] && IsDigit(s[0]) then [s[0]] + DigitPrefix(s[1..]) else []
  }

  /** The text after one optional sign character. */
  function Unsigned(t: string): string {
    if t != [] && (t[0] == '+' || t[0] == '-') then t[1..] else t
  }

  /** `parseInt` on text whose leading whitespace is already gone. */
  function ParseSigned(t: string): (r: Num)
    ensures r.NaN? <==> Unsigned(t) == [] || !IsDigit(Unsigned(t)[0])
    ensures r.Int? && (t == [] || t[0] != '-') ==> r.value >= 0
  {
    var z := DigitPrefix(Unsigned(t));
    if z == [] then NaN
    else if t[0] == '-' then Int(-(DigitsValue(z) as int))
    else Int(DigitsValue(z))
  }

  /** `parseInt(s, 10)` of ECMA-262: skip leading whitespace, take one
      optional sign, then the longest run of decimal digits; NaN when that
      run is empty. Whatever follows the digits is ignored. */
  function ParseInt(s: string): (r: Num)
    ensures r.NaN? <==> var u := Unsigned(TrimStart(s)); u == [] || !IsDigit(u[0])
  {
    ParseSigned(TrimStart(s))
  }

  lemma {:induction false} DigitPrefixOfNumber(d: string, rest: string)
    requires AllDigits(d)
    requires rest == [] || !IsDigit(rest[0])
    ensures DigitPrefix(d + rest) == d
    decreases |d|
  {
    if d == [] {
      assert d + rest == rest;
    } else {
      assert (d + rest)[1..] == d[1..] + rest;
      DigitPrefixOfNumber(d[1..], rest);
    }
  }

  /** The digits of `m` followed by non-digit text start with those digits. */
  lemma DigitsThenRest(m: nat, rest: string)
    requires rest == [] || !IsDigit(rest[0])
    ensures var u := NatToString(m) + rest;
            IsDigit(u[0]) && DigitPrefix(u) == NatToString(m)
            && DigitsValue(DigitPrefix(u)) == m
  {
    DigitPrefixOfNumber(NatToString(m), rest);
    NatToStringRoundTrip(m);
  }

  /** `parseInt` reads back the decimal form of any integer, whatever
      non-digit text follows it (so `parseInt("3x")` is 3). */
  lemma ParseIntOfDecimal(n: int, rest: string)
    requires rest == [] || !IsDigit(rest[0])
    ensures ParseInt(IntToString(n) + rest) == Int(n)
  {
    if n < 0 {
      var digits := NatToString(-n);
      assert IntToString(n) == "-" + digits;
      ParseIntOfNegative(-n, rest);
    } else {
      assert IntToString(n) == NatToString(n);
      ParseIntOfNatural(n, rest);
    }
  }

  lemma ParseIntOfNatural(m: nat, rest: string)
    requires rest == [] || !IsDigit(rest[0])
    ensures ParseInt(NatToString(m) + rest) == Int(m)
  {
    var u := NatToString(m) + rest;
    assert IsDigit(u[0]) && DigitsValue(DigitPrefix(u)) == m by { DigitsThenRest(m, rest); }
    assert TrimStart(u) == u && Unsigned(u) == u;
  }

  lemma ParseIntOfNegative(m: nat, rest: string)
    requires m > 0
    requires rest == [] || !IsDigit(rest[0])
    ensures ParseInt("-" + NatToString(m) + rest) == Int(-(m as int))
  {
    var u := NatToString(m) + rest;
    var s := "-" + NatToString(m) + rest;
    assert IsDigit(u[0]) && DigitsValue(DigitPrefix(u)) == m by { DigitsThenRest(m, rest); }
    assert s[0] == '-' && TrimStart(s) == s && Unsigned(s) == u by {
      assert s == ['-'] + u;
      assert s[1..] == u;
    }
  }

  /** Leading whitespace does not change what `parseInt` reads. */
  lemma ParseIntIgnoresLeadingWhitespace(w: string, s: string)
    requires AllWhitespace(w)
    ensures ParseInt(w + s) == ParseInt(s)
  {
    TrimStartSkipsWhitespace(w, s);
  }

  /** Text that does not start, after whitespace and a sign, with a digit
      parses to NaN, for instance `parseInt("abc")`. */
  lemma ParseIntNaN(s: string)
    requires s != [] && !IsDigit(s[0]) && !IsWhitespace(s[0]) && s[0] != '+' && s[0] != '-'
    ensures ParseInt(s) == NaN
  {
    assert TrimStart(s) == s;
  }
}
