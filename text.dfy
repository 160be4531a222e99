/**
 * String helpers used by the configuration code: Java's `String.equalsIgnoreCase`,
 * `Boolean.parseBoolean` and `Integer.parseInt`, restricted to ASCII.
 */
module Text {
  import opened Wrappers

  // ---------------------------------------------------------------------------
  // Case-insensitive comparison
  // ---------------------------------------------------------------------------

  /** Maps an ASCII upper-case letter to its lower-case form; every other character to itself. */
  function LowerAscii(c: char): char {
    if 'A' <= c <= 'Z' then (c as int + 32) as char else c
  }

  function Lowered(s: string): (r: string)
    ensures |r| == |s|
    ensures forall i :: 0 <= i < |s| ==> r[i] == LowerAscii(s[i])
  {
    seq(|s|, i requires 0 <= i < |s| => LowerAscii(s[i]))
  }

  /** `a.equalsIgnoreCase(b)`: same length, and every pair of characters equal after folding. */
  predicate EqualsIgnoreCase(a: string, b: string) {
    |a| == |b| && forall i :: 0 <= i < |a| ==> LowerAscii(a[i]) == LowerAscii(b[i])
  }

  /** Ignoring case is equality of the folded strings, hence an equivalence relation. */
  lemma EqualsIgnoreCaseIsFoldedEquality(a: string, b: string)
    ensures EqualsIgnoreCase(a, b) <==> Lowered(a) == Lowered(b)
  {
    if Lowered(a) == Lowered(b) {
      assert |a| == |b|;
      forall i | 0 <= i < |a| ensures LowerAscii(a[i]) == LowerAscii(b[i]) {
        assert Lowered(a)[i] == Lowered(b)[i];
      }
    }
  }

  /** `Boolean.parseBoolean(s)`: true exactly for "true" in any case. */
  predicate ParseBoolean(s: string) {
    EqualsIgnoreCase(s, "true")
  }

  // ---------------------------------------------------------------------------
  // Decimal integers
  // ---------------------------------------------------------------------------

  const INT_MIN: int := -0x8000_0000
  const INT_MAX: int := 0x7fff_ffff

  predicate IsDigit(c: char) {
    '0' <= c <= '9'
  }

  predicate AllDigits(s: string) {
    forall i :: 0 <= i < |s| ==> IsDigit(s[i])
  }

  /** The value of a string of decimal digits, most significant first. */
  function DigitsValue(s: string): nat
    requires AllDigits(s)
  {
    if s == [] then 0
    else DigitsValue(s[..|s| - 1]) * 10 + (s[|s| - 1] as int - '0' as int)
  }

  /** `Integer.toString(n)` for n >= 0. */
  function NatToString(n: nat): string {
    if n < 10 then [('0' as int + n) as char]
    else NatToString(n / 10) + [('0' as int + n % 10) as char]
  }

  /** `Integer.toString(n)`. */
  function IntToString(n: int): string {
    if n < 0 then "-" + NatToString(-n) else NatToString(n)
  }

  /** A decimal numeral: a digit, or a sign followed by at least one digit, then digits only. */
  predicate IsNumeral(s: string) {
    |s| > 0 && (IsDigit(s[0]) || (|s| > 1 && (s[0] == '-' || s[0] == '+'))) && AllDigits(s[1..])
  }

  /** The value a numeral denotes, leading zeros allowed. */
  function NumeralValue(s: string): int
    requires IsNumeral(s)
  {
    var magnitude: int := if s[0] == '-' || s[0] == '+' then DigitsValue(s[1..]) else 0;
    if s[0] == '-' then -magnitude
    else if s[0] == '+' then magnitude
    else
      assert forall i :: 1 <= i < |s| ==> s[i] == s[1..][i - 1];
      DigitsValue(s)
  }

  /**
   * `Integer.parseInt(s)`: an optional sign followed by at least one decimal digit, in the
   * 32-bit range; None stands for the NumberFormatException.
   */
  function ParseInt(s: string): (r: Option<int>)
    ensures r.Some? ==> INT_MIN <= r.value <= INT_MAX
    ensures r.Some? ==> |s| > 0 && (IsDigit(s[0]) || (|s| > 1 && (s[0] == '-' || s[0] == '+'))) && AllDigits(s[1..])
    ensures r.Some? && s[0] == '-' ==> r.value <= 0
    ensures r.Some? && s[0] != '-' ==> r.value >= 0
    ensures |s| > 0 && AllDigits(s) && DigitsValue(s) <= INT_MAX ==> r == Some(DigitsValue(s))
    ensures r.Some? <==> IsNumeral(s) && INT_MIN <= NumeralValue(s) <= INT_MAX
    ensures r.Some? ==> r.value == NumeralValue(s)
  {
    var signed := |s| > 0 && (s[0] == '-' || s[0] == '+');
    var digits := if signed then s[1..] else s;
    if |digits| == 0 || !AllDigits(digits) then None
    else
      var magnitude: int := DigitsValue(digits);
      var v := if signed && s[0] == '-' then -magnitude else magnitude;
      if INT_MIN <= v <= INT_MAX then Some(v) else None
  }

  lemma {:induction false} NatToStringDigits(n: nat)
    ensures |NatToString(n)| > 0 && AllDigits(NatToString(n))
    ensures DigitsValue(NatToString(n)) == n
  {
    if n >= 10 {
      NatToStringDigits(n / 10);
      var s := NatToString(n);
      assert s[..|s| - 1] == NatToString(n / 10);
    }
  }

  /** Parsing inverts printing on the whole 32-bit range. */
  lemma ParseIntOfIntToString(n: int)
    requires INT_MIN <= n <= INT_MAX
    ensures ParseInt(IntToString(n)) == Some(n)
  {
    if n < 0 {
      NatToStringDigits(-n);
      assert IntToString(n)[1..] == NatToString(-n);
    } else {
      NatToStringDigits(n);
    }
  }

  /** Signs, leading zeros and malformed text. */
  lemma ParseIntExamples()
    ensures ParseInt("+5") == Some(5) && ParseInt("-05") == Some(-5) && ParseInt("-0") == Some(0)
    ensures ParseInt("") == None && ParseInt("-") == None && ParseInt("+") == None && ParseInt("1a") == None
  {
    assert "-05"[1..] == "05" && "05"[..1] == "0";
    assert "1a"[1] == 'a';
  }

  lemma DigitsValueSnoc(s: string, c: char)
    requires AllDigits(s) && IsDigit(c)
    ensures AllDigits(s + [c]) && DigitsValue(s + [c]) == DigitsValue(s) * 10 + (c as int - '0' as int)
  {
    assert (s + [c])[..|s|] == s;
  }

  /** The first four digits of both ends of the 32-bit range. */
  lemma RangeEdgeHead()
    ensures AllDigits("2147") && DigitsValue("2147") == 2147
  {
    DigitsValueSnoc("", '2');
    assert "" + ['2'] == "2";
    DigitsValueSnoc("2", '1');
    assert "2" + ['1'] == "21";
    DigitsValueSnoc("21", '4');
    assert "21" + ['4'] == "214";
    DigitsValueSnoc("214", '7');
    assert "214" + ['7'] == "2147";
  }

  /** The first nine digits of both ends of the 32-bit range. */
  lemma RangeEdgePrefix()
    ensures AllDigits("214748364") && DigitsValue("214748364") == 214748364
  {
    RangeEdgeHead();
    DigitsValueSnoc("2147", '4');
    assert "2147" + ['4'] == "21474";
    DigitsValueSnoc("21474", '8');
    assert "21474" + ['8'] == "214748";
    DigitsValueSnoc("214748", '3');
    assert "214748" + ['3'] == "2147483";
    DigitsValueSnoc("2147483", '6');
    assert "2147483" + ['6'] == "21474836";
    DigitsValueSnoc("21474836", '4');
    assert "21474836" + ['4'] == "214748364";
  }

  /** The largest 32-bit value parses; one more does not. */
  lemma ParseIntMaxEdge()
    ensures ParseInt("2147483647") == Some(INT_MAX) && ParseInt("2147483648") == None
  {
    RangeEdgePrefix();
    DigitsValueSnoc("214748364", '7');
    DigitsValueSnoc("214748364", '8');
    assert "214748364" + ['7'] == "2147483647" && "214748364" + ['8'] == "2147483648";
  }

  /** The smallest 32-bit value parses; one less does not. */
  lemma ParseIntMinEdge()
    ensures ParseInt("-2147483648") == Some(INT_MIN) && ParseInt("-2147483649") == None
  {
    RangeEdgePrefix();
    DigitsValueSnoc("214748364", '8');
    DigitsValueSnoc("214748364", '9');
    assert "214748364" + ['8'] == "2147483648" && "214748364" + ['9'] == "2147483649";
    assert "-2147483648"[1..] == "2147483648" && "-2147483649"[1..] == "2147483649";
  }
}
