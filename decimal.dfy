/**
 * Decimal conversion between Go's `int` and text, as `strconv.Itoa` and
 * `strconv.Atoi` perform it; `fmt.Sprintf("%d", n)` spells `n` the same way.
 * Go's `int` is taken to be 64 bits wide.
 */
module Decimal {
  import opened Wrappers

  const MinInt: int := -0x8000_0000_0000_0000
  const MaxInt: int := 0x7FFF_FFFF_FFFF_FFFF

  /** The values a Go `int` can hold. */
  predicate InIntRange(n: int) {
    MinInt <= n <= MaxInt
  }

  predicate IsDigit(ch: char) {
    '0' <= ch <= '9'
  }

  predicate AllDigits(s: string) {
    forall i :: 0 <= i < |s| ==> IsDigit(s[i])
  }

  function DigitValue(ch: char): (d: nat)
    requires IsDigit(ch)
    ensures d < 10
  {
    ch as int - '0' as int
  }

  function DigitChar(d: nat): (ch: char)
    requires d < 10
    ensures IsDigit(ch) && DigitValue(ch) == d
  {
    (d + '0' as int) as char
  }

  /** The value of a string of decimal digits, most significant first; leading zeros are allowed. */
  function DigitsValue(s: string): nat
    requires AllDigits(s)
    decreases |s|
  {
    if s == [] then 0 else DigitsValue(s[..|s| - 1]) * 10 + DigitValue(s[|s| - 1])
  }

  /** The decimal digits of `n`, without a leading zero (zero itself is "0"). */
  function NatToString(n: nat): (s: string)
    ensures |s| >= 1 && AllDigits(s)
    ensures s[0] == '0' ==> n == 0
    decreases n
  {
    if n < 10 then [DigitChar(n)] else NatToString(n / 10) + [DigitChar(n % 10)]
  }

  /** `strconv.Itoa`: a '-' for negative numbers, then the digits of the magnitude. */
  function Itoa(n: int): (s: string)
    ensures |s| >= 1
    ensures s[0] == '-' <==> n < 0
    ensures AllDigits(if n < 0 then s[1..] else s)
  {
    if n < 0 then "-" + NatToString(-n) else NatToString(n)
  }

  /** The syntax `strconv.Atoi` accepts: an optional '+' or '-', then one or more decimal digits. */
  predicate IsDecimal(s: string) {
    if |s| >= 1 && (s[0] == '-' || s[0] == '+') then |s| >= 2 && AllDigits(s[1..])
    else |s| >= 1 && AllDigits(s)
  }

  /** The mathematical value of a decimal string, before any range check. */
  function DecimalValue(s: string): int
    requires IsDecimal(s)
  {
    if s[0] == '-' then -(DigitsValue(s[1..]) as int)
    else if s[0] == '+' then DigitsValue(s[1..])
    else DigitsValue(s)
  }

  /**
   * `strconv.Atoi`: the value of a decimal string, or None (Go's non-nil
   * error) for a syntax error or a value outside the range of `int`.
   */
  function Atoi(s: string): (r: Option<int>)
    ensures r.Some? ==> InIntRange(r.value)
    ensures r.Some? ==> |s| >= 1 && IsDigit(s[|s| - 1])
  {
    if IsDecimal(s) && InIntRange(DecimalValue(s)) then Some(DecimalValue(s)) else None
  }

  /** The spelling `Itoa` produces: no '+', no leading zero, no "-0". */
  predicate IsCanonical(s: string) {
    if |s| >= 1 && s[0] == '-' then |s| >= 2 && AllDigits(s[1..]) && s[1] != '0'
    else |s| >= 1 && AllDigits(s) && (s[0] != '0' || |s| == 1)
  }

  lemma {:induction false} DigitsValueOfNatToString(n: nat)
    ensures DigitsValue(NatToString(n)) == n
    decreases n
  {
    if n >= 10 {
      DigitsValueOfNatToString(n / 10);
      var s := NatToString(n);
      assert s[..|s| - 1] == NatToString(n / 10);
    }
  }

  /** Reading back what `Itoa` wrote gives the number back. */
  lemma AtoiItoa(n: int)
    requires InIntRange(n)
    ensures Atoi(Itoa(n)) == Some(n)
  {
    var s := Itoa(n);
    if n < 0 {
      var d := NatToString(-n);
      DigitsValueOfNatToString(-n);
      assert s == "-" + d && s[1..] == d;
      assert IsDecimal(s);
      assert DecimalValue(s) == -(DigitsValue(d) as int) == n;
    } else {
      var d := NatToString(n);
      DigitsValueOfNatToString(n);
      assert s == d && IsDigit(s[0]);
      assert IsDecimal(s);
      assert DecimalValue(s) == DigitsValue(d) == n;
    }
  }

  lemma {:induction false} LeadingDigitPositive(d: string)
    requires |d| >= 1 && AllDigits(d) && d[0] != '0'
    ensures DigitsValue(d) >= 1
    decreases |d|
  {
    if |d| > 1 {
      LeadingDigitPositive(d[..|d| - 1]);
    }
  }

  lemma {:induction false} NatToStringOfDigitsValue(d: string)
    requires |d| >= 1 && AllDigits(d) && (d[0] != '0' || |d| == 1)
    ensures NatToString(DigitsValue(d)) == d
    decreases |d|
  {
    var last := d[|d| - 1];
    if |d| == 1 {
      assert DigitChar(DigitValue(last)) == last;
      assert d == [last];
    } else {
      var p := d[..|d| - 1];
      LeadingDigitPositive(p);
      NatToStringOfDigitsValue(p);
      var v := DigitsValue(d);
      assert v == DigitsValue(p) * 10 + DigitValue(last);
      assert v / 10 == DigitsValue(p) && v % 10 == DigitValue(last);
      assert DigitChar(DigitValue(last)) == last;
      assert d == p + [last];
    }
  }

  /** A canonically spelled number that `Atoi` accepts is exactly what `Itoa` writes for its value. */
  lemma ItoaAtoi(s: string)
    requires IsCanonical(s) && Atoi(s).Some?
    ensures Itoa(Atoi(s).value) == s
  {
    var v := Atoi(s).value;
    if s[0] == '-' {
      var d := s[1..];
      assert d[0] == s[1];
      LeadingDigitPositive(d);
      NatToStringOfDigitsValue(d);
      assert v == -(DigitsValue(d) as int) < 0;
      assert Itoa(v) == "-" + NatToString(DigitsValue(d));
      assert s == "-" + d;
    } else {
      assert IsDigit(s[0]);
      NatToStringOfDigitsValue(s);
      assert v == DigitsValue(s) >= 0;
    }
  }

  /** `Atoi` accepts a '+' sign and leading zeros, and rejects an empty string or a bare sign. */
  lemma AtoiExamples()
    ensures Atoi("007") == Some(7)
    ensures Atoi("+12") == Some(12)
    ensures Atoi("-3") == Some(-3)
    ensures Atoi("") == None && Atoi("-") == None && Atoi("1a") == None
  {
    assert "007"[..2] == "00" && "00"[..1] == "0" && "0"[..0] == "";
    assert DigitsValue("007") == 7;
    assert "+12"[1..] == "12" && "12"[..1] == "1";
    assert "-3"[1..] == "3";
    assert !IsDigit("1a"[1]);
  }
}
