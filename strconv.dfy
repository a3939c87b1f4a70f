/**
 * Go's `strconv.Itoa`, and the decimal reading that inverts it.
 */
module Strconv {
  import opened Wrappers
  import opened GoTypes

  predicate IsDigit(c: Byte) {
    '0' <= c <= '9'
  }

  predicate AllDigits(s: GoString) {
    forall i :: 0 <= i < |s| ==> IsDigit(s[i])
  }

  function DigitChar(d: int): (c: Byte)
    requires 0 <= d < 10
    ensures IsDigit(c) && c as int - '0' as int == d
  {
    ('0' as int + d) as char
  }

  /** The decimal digits of `n`, most significant first, without leading zeros. */
  function FormatNat(n: nat): (r: GoString)
    ensures |r| >= 1 && AllDigits(r)
    ensures r[0] == '0' ==> n == 0
    decreases n
  {
    if n < 10 then [DigitChar(n)]
    else FormatNat(n / 10) + [DigitChar(n % 10)]
  }

  /** `strconv.Itoa`: the decimal text of `i`, with a leading `-` when it is negative. */
  function Itoa(i: int): (r: GoString)
  {
    if i < 0 then "-" + FormatNat(-i) else FormatNat(i)
  }

  /** The number a run of decimal digits denotes (0 for the empty run). */
  function DigitsValue(s: GoString): nat
    requires AllDigits(s)
  {
    if s == [] then 0
    else DigitsValue(s[..|s| - 1]) * 10 + (s[|s| - 1] as int - '0' as int)
  }

  /**
   * Reading a decimal integer back, as `strconv.Atoi` does for base 10: an
   * optional sign followed by at least one digit. Go's 64-bit range check is
   * not modelled.
   */
  function Atoi(s: GoString): (r: Option<int>)
  {
    if |s| >= 2 && (s[0] == '-' || s[0] == '+') && AllDigits(s[1..]) then
      var v: int := DigitsValue(s[1..]);
      Some(if s[0] == '-' then -v else v)
    else if |s| >= 1 && AllDigits(s) then Some(DigitsValue(s))
    else None
  }

  /** Reading the digits `FormatNat` writes gives `n` back. */
  lemma {:induction false} DigitsValueFormatNat(n: nat)
    ensures DigitsValue(FormatNat(n)) == n
    decreases n
  {
    var r := FormatNat(n);
    if n >= 10 {
      DigitsValueFormatNat(n / 10);
      assert r[..|r| - 1] == FormatNat(n / 10);
    }
  }

  /** `Itoa` is inverted by `Atoi`, so distinct timestamps have distinct texts. */
  lemma AtoiItoa(i: int)
    ensures Atoi(Itoa(i)) == Some(i)
  {
    var r := Itoa(i);
    if i < 0 {
      var d := FormatNat(-i);
      assert r[1..] == d;
      assert r[0] == '-' && AllDigits(r[1..]);
      DigitsValueFormatNat(-i);
      var v: int := DigitsValue(d);
      assert Atoi(r) == Some(-v);
    } else {
      var d := FormatNat(i);
      assert r == d && IsDigit(r[0]);
      DigitsValueFormatNat(i);
      assert Atoi(r) == Some(DigitsValue(d));
    }
  }

  /** The text of a timestamp starts with `-` exactly when it is negative, and is otherwise digits only. */
  lemma ItoaShape(i: int)
    ensures |Itoa(i)| >= 1
    ensures Itoa(i)[0] == '-' <==> i < 0
    ensures i >= 0 ==> AllDigits(Itoa(i))
    ensures i < 0 ==> |Itoa(i)| >= 2 && AllDigits(Itoa(i)[1..])
  {
    if i < 0 {
      assert Itoa(i)[1..] == FormatNat(-i);
    }
  }
}
