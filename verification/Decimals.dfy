/** Signed decimal numbers as text. */
module Decimals {
  const DECIMALS: string := "0123456789"

  function Decimal(n: nat): string {
    if n < 10 then [DECIMALS[n]] else Decimal(n / 10) + [DECIMALS[n % 10]]
  }

  /** `%d` of a signed integer. */
  function DecimalInt(n: int): string {
    if n < 0 then "-" + Decimal(-n) else Decimal(n)
  }

  predicate AllDecimalDigits(s: string) {
    forall i :: 0 <= i < |s| ==> '0' <= s[i] <= '9'
  }

  /** The number that decimal digits denote. */
  function DecimalValue(s: string): nat
    requires AllDecimalDigits(s)
  {
    if s == "" then 0 else DecimalValue(s[..|s| - 1]) * 10 + ((s[|s| - 1] as int) - ('0' as int))
  }

  /** `digits` are decimal digits for `n` without a leading zero. */
  ghost predicate Denotes(digits: string, n: nat) {
    && digits != "" && AllDecimalDigits(digits) && DecimalValue(digits) == n
    && (digits[0] == '0' ==> digits == "0")
  }

  lemma DenotesNext(digits: string, n: nat, d: nat)
    requires Denotes(digits, n) && n > 0 && d < 10
    ensures Denotes(digits + [DECIMALS[d]], n * 10 + d)
  {
    var next := digits + [DECIMALS[d]];
    assert next[..|digits|] == digits;
    assert DECIMALS[d] as int == '0' as int + d;
    assert digits == "0" ==> DecimalValue(digits[..0]) == 0;
  }

  lemma DenotesDigit(d: nat)
    requires d < 10
    ensures Denotes([DECIMALS[d]], d)
  {
    assert [DECIMALS[d]][..0] == "";
    assert DECIMALS[d] as int == '0' as int + d;
  }

  lemma {:induction false} DecimalRoundTrip(n: nat)
    ensures Denotes(Decimal(n), n)
  {
    hide Denotes;
    if n < 10 {
      DenotesDigit(n);
    } else {
      DecimalRoundTrip(n / 10);
      DenotesNext(Decimal(n / 10), n / 10, n % 10);
    }
  }

  /** `s` is a signed decimal that reads as `n`, in its shortest form. */
  ghost predicate ReadsAs(s: string, n: int) {
    if n < 0 then s != "" && s[0] == '-' && Denotes(s[1..], -n) else Denotes(s, n)
  }

  lemma DecimalIntReads(n: int)
    ensures ReadsAs(DecimalInt(n), n)
  {
    hide Decimal, Denotes;
    if n < 0 {
      DecimalRoundTrip(-n);
      assert ("-" + Decimal(-n))[1..] == Decimal(-n);
    } else {
      DecimalRoundTrip(n);
    }
  }
}
