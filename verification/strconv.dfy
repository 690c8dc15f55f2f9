/**
 * Go's decimal integer conversions (strconv.Atoi and strconv.FormatInt with
 * base 10) on unbounded integers, with the 64-bit limits written out.
 */
module Strconv {

  const MaxInt64: int := 0x7fff_ffff_ffff_ffff
  const MinInt64: int := -0x8000_0000_0000_0000
  const MaxUint64: int := 0xffff_ffff_ffff_ffff

  predicate IsDigit(c: char) {
    '0' <= c <= '9'
  }

  predicate AllDigits(s: string) {
    forall i :: 0 <= i < |s| ==> IsDigit(s[i])
  }

  /** The number of leading decimal digits of `s`. */
  function DigitRun(s: string): (n: nat)
    ensures n <= |s|
    ensures AllDigits(s[..n])
    ensures n < |s| ==> !IsDigit(s[n])
    decreases |s|
  {
    if s == [] || !IsDigit(s[0]) then 0
    else
      var n := 1 + DigitRun(s[1..]);
      assert s[..n] == [s[0]] + s[1..][..n - 1];
      n
  }

  /** The value of a run of decimal digits, most significant first. */
  function DigitsValue(s: string): nat
    requires AllDigits(s)
    decreases |s|
  {
    if s == [] then 0
    else 10 * DigitsValue(s[..|s| - 1]) + (s[|s| - 1] as int - '0' as int)
  }

  /**
   * strconv.Atoi's integer result, its error dropped as the callers here do:
   * an optional sign, then decimal digits; a syntax error gives 0 and a
   * value outside the 64-bit range gives the nearest limit. The digits are
   * read left to right, so an unsigned 64-bit overflow is reported even
   * when a bad character follows it.
   */
  function Atoi(s: string): (n: int)
    ensures MinInt64 <= n <= MaxInt64
  {
    var neg := |s| > 0 && s[0] == '-';
    var body := if |s| > 0 && (s[0] == '-' || s[0] == '+') then s[1..] else s;
    var d := DigitRun(body);
    var v: int := DigitsValue(body[..d]);
    if body == [] then 0
    else if v > MaxUint64 then (if neg then MinInt64 else MaxInt64)
    else if d < |body| then 0
    else if neg then (if v > -MinInt64 then MinInt64 else -v)
    else if v > MaxInt64 then MaxInt64
    else v
  }

  function DigitChar(d: nat): (c: char)
    requires d < 10
    ensures IsDigit(c)
  {
    ('0' as int + d) as char
  }

  /** The decimal digits of a natural number, without leading zeros. */
  function Itoa(n: nat): (r: string)
    ensures |r| >= 1 && AllDigits(r)
    ensures r[0] == '0' ==> n == 0
    decreases n
  {
    if n < 10 then [DigitChar(n)] else Itoa(n / 10) + [DigitChar(n % 10)]
  }

  /** strconv.FormatInt(i, 10). */
  function FormatInt(i: int): (r: string)
    ensures |r| >= 1
  {
    if i < 0 then "-" + Itoa(-i) else Itoa(i)
  }

  lemma {:induction false} DigitsValueItoa(n: nat)
    ensures DigitsValue(Itoa(n)) == n
    decreases n
  {
    var r := Itoa(n);
    if n >= 10 {
      DigitsValueItoa(n / 10);
      assert r[..|r| - 1] == Itoa(n / 10);
    }
  }

  /** Reading back a formatted value gives the value, across the whole 64-bit range. */
  lemma AtoiFormatInt(i: int)
    requires MinInt64 <= i <= MaxInt64
    ensures Atoi(FormatInt(i)) == i
  {
    var digits := if i < 0 then Itoa(-i) else Itoa(i);
    DigitsValueItoa(if i < 0 then -i else i);
    assert digits[..|digits|] == digits;
    if i < 0 {
      assert FormatInt(i)[1..] == digits;
    }
  }

  /** Text that does not start with a sign or a digit reads as 0. */
  lemma AtoiSyntaxError(s: string)
    requires s != [] && !IsDigit(s[0]) && s[0] != '-' && s[0] != '+'
    ensures Atoi(s) == 0
  {
    assert DigitRun(s) == 0;
  }
}
