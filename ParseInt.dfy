/**
 * `parseInt(string, 10)` as defined in section 19.2.5 of ECMA-262 (2022
 * edition): convert the argument to a string, drop leading white space and
 * line terminators, read an optional sign, then take the longest run of
 * decimal digits; no digits at all gives NaN. With radix 10 no "0x" prefix
 * is stripped. The mathematical value is kept exactly (no rounding to a
 * double).
 */
module JsParse {
  import opened Js

  /** WhiteSpace and LineTerminator code points (sections 12.2 and 12.3 of ECMA-262). */
  predicate IsWhitespace(c: char) {
    var n := c as int;
    n == 0x09 || n == 0x0B || n == 0x0C || n == 0x20 || n == 0xA0 || n == 0xFEFF
    || n == 0x1680 || (0x2000 <= n <= 0x200A) || n == 0x202F || n == 0x205F || n == 0x3000
    || n == 0x0A || n == 0x0D || n == 0x2028 || n == 0x2029
  }

  predicate IsDigit(c: char) {
    '0' <= c <= '9'
  }

  predicate AllDigits(s: string) {
    forall i :: 0 <= i < |s| ==> IsDigit(s[i])
  }

  predicate AllWhitespace(s: string) {
    forall i :: 0 <= i < |s| ==> IsWhitespace(s[i])
  }

  /** TrimString(s, start): the suffix of `s` left after its leading white space. */
  function TrimStart(s: string): (r: string)
    ensures |r| <= |s| && r == s[|s| - |r|..]
    ensures r == [] || !IsWhitespace(r[0])
  {
    if s != [] && IsWhitespace(s[0]) then TrimStart(s[1..]) else s
  }

  /** The longest prefix of `s` made of decimal digits. */
  function DigitRun(s: string): (r: string)
    ensures |r| <= |s| && r == s[..|r|]
    ensures AllDigits(r)
    ensures |r| == |s| || !IsDigit(s[|r|])
  {
    if s != [] && IsDigit(s[0]) then [s[0]] + DigitRun(s[1..]) else []
  }

  /** The value of a digit string read in radix 10. */
  function DigitsValue(d: string): nat
    requires AllDigits(d)
  {
    if d == [] then 0 else DigitsValue(d[..|d| - 1]) * 10 + ((d[|d| - 1] as int) - ('0' as int))
  }

  /** The string left once an optional leading '+' or '-' is removed. */
  function Unsigned(s: string): string {
    if s != [] && (s[0] == '+' || s[0] == '-') then s[1..] else s
  }

  /**
   * The string algorithm: NaN exactly when no digit follows the white
   * space and the optional sign; a negative result only after a '-'.
   */
  function ParseIntString(input: string): (r: Num)
    ensures r == NaN <==> (var t := Unsigned(TrimStart(input)); t == [] || !IsDigit(t[0]))
    ensures r.Int? && r.i < 0 ==> TrimStart(input) != [] && TrimStart(input)[0] == '-'
  {
    var s := TrimStart(input);
    var sign := if s != [] && s[0] == '-' then -1 else 1;
    var z := DigitRun(Unsigned(s));
    if z == [] then NaN else Int(sign * DigitsValue(z))
  }

  /**
   * `parseInt(v, 10)` for any value. The algorithm first applies ToString;
   * the strings of undefined, null, booleans, NaN and objects have no
   * leading digit and a Number's string reads back as the Number
   * (ParseIntAgreesWithToString proves this case split equal to ToString
   * followed by ParseIntString).
   */
  function ParseInt(v: Value): (r: Num)
    ensures r.Int? ==> v.Str? || v.Number?
    ensures v.Number? ==> r == v.n
  {
    match v
    case Str(s) => ParseIntString(s)
    case Number(n) => n
    case _ => NaN
  }

  // ---------------------------------------------------------------------------
  // Properties

  lemma NotWhitespace(c: char)
    requires IsDigit(c) || c == '+' || c == '-'
    ensures !IsWhitespace(c)
  {
  }

  /** A digit string is its own longest digit run. */
  lemma {:induction false} DigitRunOfDigits(d: string, rest: string)
    requires AllDigits(d)
    requires rest == [] || !IsDigit(rest[0])
    ensures DigitRun(d + rest) == d
  {
    if d != [] {
      assert (d + rest)[1..] == d[1..] + rest;
      DigitRunOfDigits(d[1..], rest);
    }
  }

  lemma {:induction false} NatStringValue(n: nat)
    ensures DigitsValue(NatString(n)) == n
  {
    if n >= 10 {
      var s := NatString(n);
      assert s[..|s| - 1] == NatString(n / 10);
      NatStringValue(n / 10);
    }
  }

  /** parseInt(String(n), 10) == n: the decimal rendering of an integer parses back to it. */
  lemma {:induction false} ParseIntString_IntString(n: int)
    ensures ParseIntString(IntString(n)) == Int(n)
  {
    var s := IntString(n);
    NotWhitespace(s[0]);
    assert TrimStart(s) == s;
    if n < 0 {
      assert Unsigned(s) == NatString(-n);
      DigitRunOfDigits(NatString(-n), []);
      assert NatString(-n) + [] == NatString(-n);
      NatStringValue(-n);
    } else {
      assert Unsigned(s) == NatString(n);
      DigitRunOfDigits(NatString(n), []);
      assert NatString(n) + [] == NatString(n);
      NatStringValue(n);
    }
  }

  /** A string whose first character is neither white space, a sign nor a digit has no digits. */
  lemma NoLeadingDigitIsNaN(s: string)
    requires s != [] && !IsWhitespace(s[0]) && !IsDigit(s[0]) && s[0] != '+' && s[0] != '-'
    ensures ParseIntString(s) == NaN
  {
    assert TrimStart(s) == s;
    assert Unsigned(s) == s;
    assert DigitRun(s) == [];
  }

  /** parseInt(v, 10) is ParseIntString applied to ToString(v), as the standard defines it. */
  lemma ParseIntAgreesWithToString(v: Value)
    ensures ParseInt(v) == ParseIntString(ToString(v))
  {
    match v
    case Str(_) =>
    case Number(Int(i)) => ParseIntString_IntString(i);
    case Number(NaN) => NoLeadingDigitIsNaN(NaNText);
    case Undefined => NoLeadingDigitIsNaN(UndefinedText);
    case Null => NoLeadingDigitIsNaN(NullText);
    case Bool(b) => NoLeadingDigitIsNaN(if b then TrueText else FalseText);
    case Object(_) => NoLeadingDigitIsNaN(ObjectText);
  }

  /** Leading white space does not change the result. */
  lemma {:induction false} SkipsLeadingWhitespace(ws: string, s: string)
    requires AllWhitespace(ws)
    ensures ParseIntString(ws + s) == ParseIntString(s)
  {
    TrimStartSkips(ws, s);
  }

  lemma {:induction false} TrimStartSkips(ws: string, s: string)
    requires AllWhitespace(ws)
    ensures TrimStart(ws + s) == TrimStart(s)
  {
    if ws != [] {
      var t := ws + s;
      assert t[0] == ws[0];
      assert t != [] && IsWhitespace(t[0]);
      assert t[1..] == ws[1..] + s;
      assert TrimStart(t) == TrimStart(ws[1..] + s);
      assert AllWhitespace(ws[1..]) by {
        forall i | 0 <= i < |ws| - 1 ensures IsWhitespace(ws[1..][i]) {
          assert ws[1..][i] == ws[i + 1];
        }
      }
      TrimStartSkips(ws[1..], s);
    } else {
      assert ws + s == s;
    }
  }

  /**
   * Digits followed by anything that does not start with a digit parse to
   * the value of the digits: "2abc" gives 2, "-7 items" gives -7.
   */
  lemma {:induction false} StopsAtFirstNonDigit(sign: string, d: string, rest: string)
    requires sign == "" || sign == "+" || sign == "-"
    requires d != [] && AllDigits(d)
    requires rest == [] || !IsDigit(rest[0])
    ensures ParseIntString(sign + d + rest) == Int((if sign == "-" then -1 else 1) * DigitsValue(d))
  {
    var s := sign + d + rest;
    assert s[0] == (if sign == "" then d[0] else sign[0]);
    NotWhitespace(s[0]);
    assert TrimStart(s) == s;
    assert Unsigned(s) == d + rest;
    DigitRunOfDigits(d, rest);
  }

  /** "2abc" is a "parseable" value: parseInt reads 2 and ignores the rest. */
  lemma ParseIntTrailingGarbage()
    ensures ParseInt(Str("2abc")) == Int(2)
  {
    var d, rest := "2", "abc";
    assert DigitsValue(d) == 2 by { assert d[..0] == []; }
    assert !IsDigit(rest[0]);
    assert "2abc" == "" + d + rest;
    StopsAtFirstNonDigit("", d, rest);
  }

  lemma ParseIntMinusOne()
    ensures ParseInt(Str("-1")) == Int(-1)
  {
    var d := "1";
    assert DigitsValue(d) == 1 by { assert d[..0] == []; }
    assert "-1" == "-" + d + "";
    StopsAtFirstNonDigit("-", d, "");
  }

  /** "-0" reads as minus zero, which is not below zero. */
  lemma ParseIntMinusZero()
    ensures ParseInt(Str("-0")) == Int(0)
  {
    var d := "0";
    assert DigitsValue(d) == 0 by { assert d[..0] == []; }
    var s := "-0";
    assert s == "-" + d + "";
    StopsAtFirstNonDigit("-", d, "");
    assert ParseIntString(s) == Int(-1 * 0);
  }
}
