/**
 * Reading numbers typed into the calculator's text fields.
 *
 * Every numeric field goes through `parse(val) = parseFloat(val.replace(",", ".")) || 0`:
 * the first comma becomes a decimal point, JavaScript's `parseFloat` reads the
 * longest decimal literal at the start of the text, and a failed read (NaN) becomes 0.
 * `ParseFloat` below is that reader restricted to plain decimal literals
 * (leading white space, an optional sign, digits, an optional point and digits);
 * `None` stands for NaN.
 */
module Numeros {

  datatype Option<+T> = None | Some(value: T)

  predicate IsDigit(c: char) { '0' <= c <= '9' }

  /** The white space and line terminators `parseFloat` skips before the literal
      (the ASCII ones, no-break space and the byte-order mark). */
  predicate IsSpace(c: char) {
    c == ' ' || c == '\t' || c == '\n' || c == '\r' ||
    c as int == 0x0B || c as int == 0x0C || c as int == 0xA0 || c as int == 0xFEFF ||
    c as int == 0x2028 || c as int == 0x2029
  }

  predicate AllDigits(s: string) {
    forall i :: 0 <= i < |s| ==> IsDigit(s[i])
  }

  /** The value of a decimal digit (other characters never reach it). */
  function DigitValue(c: char): (d: nat)
    ensures d <= 9
  {
    if IsDigit(c) then c as int - '0' as int else 0
  }

  /** Length of the run of digits at the start of `s`. */
  function DigitRun(s: string): (n: nat)
    ensures n <= |s|
    ensures AllDigits(s[..n])
    ensures n < |s| ==> !IsDigit(s[n])
  {
    if s == [] || !IsDigit(s[0]) then 0 else 1 + DigitRun(s[1..])
  }

  /** Length of the run of white space at the start of `s`. */
  function SpaceRun(s: string): (n: nat)
    ensures n <= |s|
    ensures forall i :: 0 <= i < n ==> IsSpace(s[i])
    ensures n < |s| ==> !IsSpace(s[n])
  {
    if s == [] || !IsSpace(s[0]) then 0 else 1 + SpaceRun(s[1..])
  }

  /** The value of a string of decimal digits, read most significant first. */
  function DigitsValue(ds: string): (v: real)
    ensures 0.0 <= v
  {
    if ds == [] then 0.0
    else DigitsValue(ds[..|ds| - 1]) * 10.0 + DigitValue(ds[|ds| - 1]) as real
  }

  /** The value of the digits after a decimal point: "45" is 0.45. */
  function FractionValue(ds: string): (v: real)
    ensures 0.0 <= v < 1.0
  {
    if ds == [] then 0.0 else (DigitValue(ds[0]) as real + FractionValue(ds[1..])) / 10.0
  }

  /** The pieces of a decimal literal: its sign, the digits before the point and
      the digits after it. */
  datatype Literal = Literal(negative: bool, whole: string, frac: string)

  /** The digits after a leading decimal point, if `rest` starts with one. */
  function FractionDigits(rest: string): (frac: string)
    ensures AllDigits(frac)
  {
    if |rest| > 0 && rest[0] == '.' then rest[1..][..DigitRun(rest[1..])] else []
  }

  /** The literal at the start of `u`, which follows the sign (if any). */
  function ScanUnsigned(u: string, negative: bool): (lit: Literal)
    ensures AllDigits(lit.whole) && AllDigits(lit.frac)
  {
    Literal(negative, u[..DigitRun(u)], FractionDigits(u[DigitRun(u)..]))
  }

  /** The decimal literal at the start of `s`, after white space, as `parseFloat`
      delimits it. */
  function Scan(s: string): (lit: Literal)
    ensures AllDigits(lit.whole) && AllDigits(lit.frac)
  {
    var t := s[SpaceRun(s)..];
    if |t| > 0 && t[0] == '-' then ScanUnsigned(t[1..], true)
    else if |t| > 0 && t[0] == '+' then ScanUnsigned(t[1..], false)
    else ScanUnsigned(t, false)
  }

  function LiteralValue(lit: Literal): real
  {
    var magnitude := DigitsValue(lit.whole) + FractionValue(lit.frac);
    if lit.negative then -magnitude else magnitude
  }

  /** JavaScript's `parseFloat` on plain decimal literals: the value of the literal
      at the start of the text after white space, or `None` (NaN) when there is none. */
  function ParseFloat(s: string): (r: Option<real>)
    ensures (forall i :: 0 <= i < |s| ==> !IsDigit(s[i])) ==> r == None
    ensures |s| > 0 && IsDigit(s[0]) ==> r.Some? && 0.0 <= r.value
  {
    var lit := Scan(s);
    if lit.whole == [] && lit.frac == [] then None else Some(LiteralValue(lit))
  }

  /** `val.replace(",", ".")`: only the first comma becomes a point. */
  function ReplaceFirstComma(s: string): (r: string)
    ensures |r| == |s|
    ensures forall i :: 0 <= i < |s| ==> (IsDigit(r[i]) <==> IsDigit(s[i]))
    ensures ',' !in s ==> r == s
  {
    if s == [] then []
    else if s[0] == ',' then ['.'] + s[1..]
    else [s[0]] + ReplaceFirstComma(s[1..])
  }

  /** The calculator's `parse`: decimal comma tolerated, a failed read counts as 0. */
  function ParseField(s: string): (v: real)
    ensures (forall i :: 0 <= i < |s| ==> !IsDigit(s[i])) ==> v == 0.0
  {
    match ParseFloat(ReplaceFirstComma(s))
    case Some(x) => x
    case None => 0.0
  }

  lemma {:induction false} DigitRunOfDigits(ds: string, rest: string)
    requires AllDigits(ds)
    requires rest == [] || !IsDigit(rest[0])
    ensures DigitRun(ds + rest) == |ds|
  {
    if ds != [] {
      assert (ds + rest)[1..] == ds[1..] + rest;
      DigitRunOfDigits(ds[1..], rest);
    } else {
      assert ds + rest == rest;
    }
  }

  lemma FractionDigitsOf(frac: string, rest: string)
    requires AllDigits(frac)
    requires rest == [] || !IsDigit(rest[0])
    ensures FractionDigits(['.'] + frac + rest) == frac
  {
    assert (['.'] + frac + rest)[1..] == frac + rest;
    DigitRunOfDigits(frac, rest);
    assert (frac + rest)[..|frac|] == frac;
  }

  /** Text that begins with a decimal literal `whole.frac` is delimited as that
      literal, whatever follows it. */
  lemma ScanDecimal(whole: string, frac: string, rest: string)
    requires AllDigits(whole) && AllDigits(frac)
    requires rest == [] || !IsDigit(rest[0])
    ensures Scan(whole + ['.'] + frac + rest) == Literal(false, whole, frac)
  {
    var s := whole + ['.'] + frac + rest;
    var tail := ['.'] + frac + rest;
    assert s == whole + tail;
    assert s[0] == (if whole == [] then '.' else whole[0]);
    assert SpaceRun(s) == 0;
    assert s[0..] == s;
    assert Scan(s) == ScanUnsigned(s, false);
    DigitRunOfDigits(whole, tail);
    assert s[..|whole|] == whole;
    assert s[|whole|..] == tail;
    FractionDigitsOf(frac, rest);
  }

  /** Text that begins with digits and no decimal point is delimited as those digits. */
  lemma ScanWhole(whole: string, rest: string)
    requires AllDigits(whole) && |whole| > 0
    requires rest == [] || (!IsDigit(rest[0]) && rest[0] != '.')
    ensures Scan(whole + rest) == Literal(false, whole, [])
  {
    var s := whole + rest;
    assert s[0] == whole[0];
    assert SpaceRun(s) == 0;
    assert s[0..] == s;
    DigitRunOfDigits(whole, rest);
    assert s[..|whole|] == whole;
    assert s[|whole|..] == rest;
  }

  /** Text that begins with a decimal literal reads as its value. */
  lemma DecimalLiteral(whole: string, frac: string, rest: string)
    requires AllDigits(whole) && AllDigits(frac) && |whole| + |frac| > 0
    requires rest == [] || !IsDigit(rest[0])
    ensures ParseFloat(whole + ['.'] + frac + rest).Some?
    ensures ParseFloat(whole + ['.'] + frac + rest).value == DigitsValue(whole) + FractionValue(frac)
  {
    ScanDecimal(whole, frac, rest);
  }

  /** Text that begins with digits and no decimal point reads as those digits. */
  lemma WholeLiteral(whole: string, rest: string)
    requires AllDigits(whole) && |whole| > 0
    requires rest == [] || (!IsDigit(rest[0]) && rest[0] != '.')
    ensures ParseFloat(whole + rest).Some?
    ensures ParseFloat(whole + rest).value == DigitsValue(whole)
  {
    ScanWhole(whole, rest);
  }

  /** A minus sign in front of a literal negates its value; without a literal
      after it the text is still NaN. */
  lemma NegatedLiteral(u: string)
    requires u == [] || (!IsSpace(u[0]) && u[0] != '-' && u[0] != '+')
    ensures ParseFloat(['-'] + u).Some? == ParseFloat(u).Some?
    ensures ParseFloat(u).Some? ==> ParseFloat(['-'] + u).value == -ParseFloat(u).value
  {
    var s := ['-'] + u;
    assert SpaceRun(s) == 0;
    assert s[0..] == s && s[1..] == u;
    assert Scan(s) == ScanUnsigned(u, true);
    assert SpaceRun(u) == 0;
    assert u[0..] == u;
    assert Scan(u) == ScanUnsigned(u, false);
  }

  lemma ReplaceFirstCommaCons(c: char, t: string)
    requires c != ','
    ensures ReplaceFirstComma([c] + t) == [c] + ReplaceFirstComma(t)
  {
    assert ([c] + t)[0] == c && ([c] + t)[1..] == t;
  }

  lemma {:induction false} ReplaceFirstCommaAt(a: string, b: string)
    requires ',' !in a
    ensures ReplaceFirstComma(a + [','] + b) == a + ['.'] + b
  {
    if a == [] {
      assert a + [','] + b == [','] + b;
      assert ([','] + b)[1..] == b;
    } else {
      var t := a[1..] + [','] + b;
      assert a + [','] + b == [a[0]] + t;
      ReplaceFirstCommaCons(a[0], t);
      ReplaceFirstCommaAt(a[1..], b);
      assert [a[0]] + (a[1..] + ['.'] + b) == a + ['.'] + b;
    }
  }

  /** A decimal comma reads exactly like a decimal point: "1980,45" and "1980.45"
      give the same number, whatever surrounds the separator. */
  lemma CommaReadsAsPoint(a: string, b: string)
    requires ',' !in a && ',' !in b
    ensures ParseField(a + [','] + b) == ParseField(a + ['.'] + b)
  {
    ReplaceFirstCommaAt(a, b);
    assert ',' !in a + ['.'] + b;
  }

  /** A field without a comma that reads as a number reads as that number. */
  lemma FieldWithoutComma(s: string)
    requires ',' !in s && ParseFloat(s).Some?
    ensures ParseField(s) == ParseFloat(s).value
  {
    assert ReplaceFirstComma(s) == s;
  }

  /** A field holding just a decimal literal `whole.frac` reads as its value. */
  lemma ReadsDecimal(whole: string, frac: string)
    requires AllDigits(whole) && AllDigits(frac) && |whole| + |frac| > 0
    ensures ParseField(whole + ['.'] + frac) == DigitsValue(whole) + FractionValue(frac)
  {
    var s := whole + ['.'] + frac;
    assert s == whole + ['.'] + frac + [];
    DecimalLiteral(whole, frac, []);
    assert ',' !in s;
    FieldWithoutComma(s);
  }

  /** A field holding just digits reads as their value. */
  lemma ReadsWhole(whole: string)
    requires AllDigits(whole) && |whole| > 0
    ensures ParseField(whole) == DigitsValue(whole)
  {
    assert whole == whole + [];
    WholeLiteral(whole, []);
    assert ',' !in whole;
    FieldWithoutComma(whole);
  }

  lemma PointExample()
    ensures ParseField("1980.45") == 1980.45
  {
    assert "1980.45" == "1980" + ['.'] + "45";
    assert AllDigits("1980") && AllDigits("45");
    ReadsDecimal("1980", "45");
    DigitsExample();
  }

  /** "1980,45" and "1980.45" both read as 1980.45. */
  lemma CommaExample()
    ensures ParseField("1980,45") == 1980.45
  {
    assert "1980,45" == "1980" + [','] + "45";
    assert "1980.45" == "1980" + ['.'] + "45";
    CommaReadsAsPoint("1980", "45");
    PointExample();
  }

  lemma DigitsExample()
    ensures DigitsValue("1980") + FractionValue("45") == 1980.45
  {
    assert DigitsValue("1980") == 1980.0 by {
      assert "1980"[..3] == "198";
      assert "198"[..2] == "19";
      assert "19"[..1] == "1";
    }
    assert FractionValue("45") == 0.45 by {
      assert "45"[1..] == "5";
      assert "5"[1..] == "";
    }
  }
}
