/** Go's 64-bit `int` and the two `strconv` conversions the NumberEdit widget uses. */
module GoInt {
  import opened Wrappers

  const MinInt: int := -0x8000_0000_0000_0000
  const MaxInt: int := 0x7fff_ffff_ffff_ffff

  type Int64 = x: int | MinInt <= x <= MaxInt

  /** Two's-complement wrap-around of an exact sum into 64 bits, as Go's `+` and `-` on int. */
  function Wrap(x: int): (r: Int64)
    ensures MinInt <= x <= MaxInt ==> r == x
    ensures (r - x) % 0x1_0000_0000_0000_0000 == 0
  {
    (x - MinInt) % 0x1_0000_0000_0000_0000 + MinInt
  }

  predicate IsDigit(c: char)
  {
    '0' <= c <= '9'
  }

  predicate AllDigits(s: string)
  {
    forall i :: 0 <= i < |s| ==> IsDigit(s[i])
  }

  function DigitChar(d: int): (c: char)
    requires 0 <= d < 10
    ensures IsDigit(c)
  {
    (('0' as int) + d) as char
  }

  /** The decimal digits of n, most significant first, without leading zeros. */
  function Digits(n: nat): (s: string)
    decreases n
  {
    if n < 10 then [DigitChar(n)] else Digits(n / 10) + [DigitChar(n % 10)]
  }

  /** The number a string of decimal digits denotes. */
  function DigitsValue(s: string): nat
    requires AllDigits(s)
  {
    if s == [] then 0 else DigitsValue(s[..|s| - 1]) * 10 + (s[|s| - 1] as int - '0' as int)
  }

  /** `strconv.Itoa`. */
  function Itoa(v: int): string
  {
    if v < 0 then "-" + Digits(-v) else Digits(v)
  }

  /** `strconv.Atoi` on a 64-bit platform: an optional sign, then one or more decimal digits, and the
      value must fit in 64 bits; anything else is an error (None). */
  function Atoi(s: string): Option<Int64>
  {
    if |s| == 0 then None
    else
      var negative := s[0] == '-';
      var body := if s[0] == '-' || s[0] == '+' then s[1..] else s;
      if |body| == 0 || !AllDigits(body) then None
      else
        var magnitude: int := DigitsValue(body);
        var v := if negative then -magnitude else magnitude;
        if MinInt <= v <= MaxInt then Some(v) else None
  }

  lemma {:induction false} DigitsSound(n: nat)
    ensures |Digits(n)| > 0 && AllDigits(Digits(n)) && DigitsValue(Digits(n)) == n
    decreases n
  {
    if n >= 10 {
      DigitsSound(n / 10);
      var s := Digits(n);
      assert s[..|s| - 1] == Digits(n / 10);
    }
  }

  /** Reading back what Itoa wrote gives the same number, for every 64-bit value. */
  lemma AtoiItoa(v: Int64)
    ensures Atoi(Itoa(v)) == Some(v)
  {
    if v < 0 {
      var n: nat := -(v as int);
      DigitsSound(n);
      assert Itoa(v)[1..] == Digits(n);
    } else {
      DigitsSound(v);
      assert IsDigit(Itoa(v)[0]);
    }
  }
}
