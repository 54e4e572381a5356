/** Decimal rendering of integers, as Rust's `Display` for `i64`/`u32` writes
    them inside `format!("{}", n)`: an optional '-', then the digits of the
    magnitude with no leading zero. `ReadInt` is the matching reader used by
    the inverse lemmas of the request model. */
module Decimal {
  import opened Wrappers

  predicate IsDigit(c: char) { '0' <= c <= '9' }

  predicate AllDigits(s: string) { forall i :: 0 <= i < |s| ==> IsDigit(s[i]) }

  function DigitChar(d: nat): (c: char)
    requires d < 10
    ensures IsDigit(c) && c as int - '0' as int == d
  {
    ('0' as int + d) as char
  }

  /** The digits of `n`, most significant first. */
  function Digits(n: nat): (s: string)
    ensures |s| > 0 && AllDigits(s)
    ensures s[0] == '0' <==> n == 0
    decreases n
  {
    if n < 10 then [DigitChar(n)] else Digits(n / 10) + [DigitChar(n % 10)]
  }

  /** `format!("{}", n)` for an integer `n`. */
  function Decimal(n: int): (s: string)
    ensures |s| > 0
    ensures s[0] == '-' <==> n < 0
    ensures n >= 0 ==> AllDigits(s)
  {
    if n < 0 then "-" + Digits(-n) else Digits(n)
  }

  /** The number a string of digits denotes. */
  function DigitsValue(s: string): nat
    requires AllDigits(s)
  {
    if s == [] then 0 else 10 * DigitsValue(s[..|s| - 1]) + (s[|s| - 1] as int - '0' as int)
  }

  /** Length of the run of digits at the front of `s`. */
  function DigitRun(s: string): (k: nat)
    ensures k <= |s| && AllDigits(s[..k])
    ensures k < |s| ==> !IsDigit(s[k])
  {
    if s != [] && IsDigit(s[0]) then
      var k := 1 + DigitRun(s[1..]);
      assert s[..k] == [s[0]] + s[1..][..k - 1];
      k
    else 0
  }

  /** Reads an optionally signed decimal integer from the front of `s` and
      returns it with the rest of `s`; `None` when no digit follows. */
  function ReadInt(s: string): Option<(int, string)>
  {
    if |s| > 0 && s[0] == '-' then
      var t := s[1..];
      var k := DigitRun(t);
      if k == 0 then None else Some((0 - DigitsValue(t[..k]) as int, t[k..]))
    else
      var k := DigitRun(s);
      if k == 0 then None else Some((DigitsValue(s[..k]), s[k..]))
  }

  /** `t` can follow a number without being read as more of its digits. */
  predicate Delimits(t: string) { t == [] || !IsDigit(t[0]) }

  lemma {:induction false} DigitsValueOfDigits(n: nat)
    ensures DigitsValue(Digits(n)) == n
    decreases n
  {
    if n >= 10 {
      var d := Digits(n / 10);
      var s := d + [DigitChar(n % 10)];
      assert s[..|s| - 1] == d;
      DigitsValueOfDigits(n / 10);
    }
  }

  lemma {:induction false} DigitRunOfDigits(d: string, t: string)
    requires AllDigits(d) && Delimits(t)
    ensures DigitRun(d + t) == |d|
    decreases |d|
  {
    if d == [] {
      assert d + t == t;
    } else {
      assert (d + t)[1..] == d[1..] + t;
      DigitRunOfDigits(d[1..], t);
    }
  }

  /** Reading back what `Decimal` wrote gives the number and the rest. */
  lemma ReadIntDecimal(n: int, t: string)
    requires Delimits(t)
    ensures ReadInt(Decimal(n) + t) == Some((n, t))
  {
    var m: nat := if n < 0 then -n else n;
    var d := Digits(m);
    DigitRunOfDigits(d, t);
    DigitsValueOfDigits(m);
    assert (d + t)[..|d|] == d && (d + t)[|d|..] == t;
    if n < 0 {
      assert ("-" + d + t)[1..] == d + t;
    }
  }

  /** Rendering is injective: distinct numbers never print alike. */
  lemma DecimalInjective(m: int, n: int)
    requires Decimal(m) == Decimal(n)
    ensures m == n
  {
    ReadIntDecimal(m, "");
    ReadIntDecimal(n, "");
    assert Decimal(m) + "" == Decimal(m) && Decimal(n) + "" == Decimal(n);
  }
}
