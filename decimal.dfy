/** Decimal text for user ids: Go's strconv.Atoi, which CollectData applies to the
    seed (internal/clients/vk_api.go:147), and strconv.Itoa, which produces the
    seed string when it is resolved from the current user (line 133). Both are
    modelled for a 64-bit `int`. */
module Decimal {
  import opened Wrappers

  const MaxInt64: int := 0x7fff_ffff_ffff_ffff
  const MinInt64: int := -0x8000_0000_0000_0000

  predicate IsDigit(c: char) {
    '0' <= c <= '9'
  }

  predicate AllDigits(s: string) {
    forall i | 0 <= i < |s| :: IsDigit(s[i])
  }

  function DigitValue(c: char): (d: nat)
    requires IsDigit(c)
    ensures d < 10
  {
    c as int - '0' as int
  }

  function DigitChar(d: nat): (c: char)
    requires d < 10
    ensures IsDigit(c) && DigitValue(c) == d
  {
    ('0' as int + d) as char
  }

  /** The value of a run of decimal digits, most significant first. */
  function DigitsValue(s: string): nat
    requires AllDigits(s)
  {
    if s == [] then 0 else 10 * DigitsValue(s[..|s| - 1]) + DigitValue(s[|s| - 1])
  }

  /** `s` without one leading sign character, if it has one. */
  function Unsigned(s: string): string {
    if |s| > 0 && (s[0] == '-' || s[0] == '+') then s[1..] else s
  }

  /** What Atoi accepts syntactically: an optional sign followed by at least one digit. */
  predicate IsDecimal(s: string) {
    |Unsigned(s)| > 0 && AllDigits(Unsigned(s))
  }

  /** The integer a decimal text denotes: its digits' value, negated under a leading '-'. */
  function DecimalValue(s: string): int
    requires IsDecimal(s)
  {
    var magnitude: int := DigitsValue(Unsigned(s));
    if s[0] == '-' then -magnitude else magnitude
  }

  /** strconv.Atoi: None is Go's syntax or range error. */
  function Atoi(s: string): (r: Option<int>)
    ensures r.Some? <==> IsDecimal(s) && MinInt64 <= DecimalValue(s) <= MaxInt64
    ensures r.Some? ==> r.value == DecimalValue(s)
    ensures r.Some? ==> (r.value < 0 ==> s[0] == '-')
  {
    var digits := Unsigned(s);
    if |digits| == 0 || !AllDigits(digits) then None
    else
      var magnitude: int := DigitsValue(digits);
      var v := if s[0] == '-' then -magnitude else magnitude;
      if MinInt64 <= v <= MaxInt64 then Some(v) else None
  }

  /** A sign of either kind and leading zeros are accepted; an empty text, a bare sign and a
      stray character are not. */
  lemma AtoiExamples()
    ensures Atoi("+007") == Some(7) && Atoi("-0") == Some(0) && Atoi("-12") == Some(-12)
    ensures Atoi("") == None && Atoi("-") == None && Atoi("1 2") == None && Atoi("12a") == None
  {
    assert Unsigned("+007") == "007";
    assert "007"[..2] == "00" && "00"[..1] == "0";
    assert DigitsValue("00") == 0;
  }

  /** The digits of a natural number, without leading zeros. */
  function NatDigits(n: nat): string
  {
    if n < 10 then [DigitChar(n)] else NatDigits(n / 10) + [DigitChar(n % 10)]
  }

  /** strconv.Itoa. */
  function Itoa(n: int): string {
    if n < 0 then "-" + NatDigits(-n) else NatDigits(n)
  }

  lemma {:induction false} NatDigitsValue(n: nat)
    ensures |NatDigits(n)| > 0 && AllDigits(NatDigits(n))
    ensures NatDigits(n)[0] != '-' && NatDigits(n)[0] != '+'
    ensures DigitsValue(NatDigits(n)) == n
  {
    if n >= 10 {
      NatDigitsValue(n / 10);
      var s := NatDigits(n);
      assert s[..|s| - 1] == NatDigits(n / 10);
    }
  }

  /** Every 64-bit integer survives the trip through its decimal text. */
  lemma AtoiItoa(n: int)
    requires MinInt64 <= n <= MaxInt64
    ensures Atoi(Itoa(n)) == Some(n)
  {
    if n < 0 {
      NatDigitsValue(-n);
      assert Unsigned(Itoa(n)) == NatDigits(-n);
    } else {
      NatDigitsValue(n);
    }
  }
}
