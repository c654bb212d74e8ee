/** The decimal text of integers, as JSON writes them. */
module Decimals {
  import opened Options
  import opened Json

  function Digits(n: nat): string {
    var digit := [(n % 10 + '0' as int) as char];
    if n < 10 then digit else Digits(n / 10) + digit
  }

  predicate AreDigits(s: string) {
    forall i :: 0 <= i < |s| ==> IsDigit(s[i])
  }

  function ParseDigits(s: string): int
    requires AreDigits(s)
  {
    if s == [] then 0 else 10 * ParseDigits(s[..|s|-1]) + (s[|s|-1] as int - '0' as int)
  }

  lemma {:induction false} DigitsRoundTrip(n: nat)
    ensures Digits(n) != [] && AreDigits(Digits(n)) && ParseDigits(Digits(n)) == n
    decreases n
  {
    if n >= 10 {
      DigitsRoundTrip(n / 10);
      var digit := (n % 10 + '0' as int) as char;
      assert Digits(n)[..|Digits(n)|-1] == Digits(n / 10) && Digits(n)[|Digits(n)|-1] == digit;
    } else {
      assert Digits(n)[..0] == [];
    }
  }

  function Decimal(n: int): string {
    if n < 0 then "-" + Digits(-n) else Digits(n)
  }

  function ParseDecimal(s: string): Option<int> {
    if s != [] && AreDigits(s) then Some(ParseDigits(s))
    else if |s| > 1 && s[0] == '-' && AreDigits(s[1..]) then Some(-ParseDigits(s[1..]))
    else None
  }

  lemma DecimalRoundTrip(n: int)
    ensures IsNumber(Decimal(n)) && ParseDecimal(Decimal(n)) == Some(n)
  {
    DigitsRoundTrip(if n < 0 then -n else n);
    if n < 0 {
      assert Decimal(n)[1..] == Digits(-n);
      assert !IsDigit(Decimal(n)[0]);
    }
  }
}
