// Amounts on the wire: the minor-unit and major-unit conversions of
// app/providers/nomba.py and app/reconciliation/service.py.
module Money {
  import opened Prelude
  import Proration

  // ------------------------------------------------------------ decimal numerals

  predicate IsDigit(c: char) {
    '0' <= c <= '9'
  }

  function DigitValue(c: char): int {
    c as int - '0' as int
  }

  function Digit(d: int): char
    requires 0 <= d < 10
  {
    ('0' as int + d) as char
  }

  function Digits(n: nat): string {
    if n < 10 then [Digit(n)] else Digits(n / 10) + [Digit(n % 10)]
  }

  function ValueOf(s: string): int {
    if s == [] then 0 else 10 * ValueOf(s[..|s| - 1]) + DigitValue(s[|s| - 1])
  }

  predicate AllDigits(s: string) {
    forall i :: 0 <= i < |s| ==> IsDigit(s[i])
  }

  // coefficient / 10^scale
  datatype Decimal = Decimal(coefficient: int, scale: nat)

  function PowerOf10(n: nat): (p: nat)
    ensures p > 0
  {
    if n == 0 then 1 else 10 * PowerOf10(n - 1)
  }

  function IndexOf(s: string, c: char): nat {
    if s == [] then 0 else if s[0] == c then 0 else 1 + IndexOf(s[1..], c)
  }

  // Digits with at most one point among them, and at least one digit.
  function ParseUnsigned(s: string): Option<Decimal> {
    var i := IndexOf(s, '.');
    if i >= |s| then
      if s != [] && AllDigits(s) then Some(Decimal(ValueOf(s), 0)) else None
    else
      IndexBound(s, '.');
      var digits := s[..i] + s[i + 1..];
      if digits != [] && AllDigits(digits) then Some(Decimal(ValueOf(digits), |s| - i - 1)) else None
  }

  lemma {:induction false} IndexBound(s: string, c: char)
    ensures IndexOf(s, c) <= |s|
  {
    if s != [] { IndexBound(s[1..], c); }
  }

  function Parse(s: string): Option<Decimal> {
    if s != [] && s[0] == '-' then
      match ParseUnsigned(s[1..])
      case None => None
      case Some(d) => Some(Decimal(-d.coefficient, d.scale))
    else if s != [] && s[0] == '+' then ParseUnsigned(s[1..])
    else ParseUnsigned(s)
  }

  // -------------------------------------------------------------- the conversions

  // Decimal arithmetic carries 28 significant digits.
  const PRECISION := 28

  function Abs(n: int): nat {
    if n < 0 then -n else n
  }

  function TwoPlaces(n: nat): string {
    Digits(n / 100) + "." + [Digit(n / 10 % 10), Digit(n % 10)]
  }

  // _minor_to_major_str. Quantizing to two places raises when the result needs more
  // digits than the precision, which is None here.
  function MinorToMajorStr(amountMinor: int): Option<string> {
    if Abs(amountMinor) >= PowerOf10(PRECISION) then None
    else Some((if amountMinor < 0 then "-" else "") + TwoPlaces(Abs(amountMinor)))
  }

  // int((d * 100).quantize(1)): ties to even; None beyond the precision.
  function RoundToMinor(d: Decimal): Option<int> {
    var n := Proration.RoundHalfEven(100 * d.coefficient, PowerOf10(d.scale));
    if Abs(n) >= PowerOf10(PRECISION) then None else Some(n)
  }

  // int(d * 100): towards zero.
  function TruncateToMinor(d: Decimal): int {
    var n := 100 * Abs(d.coefficient) / PowerOf10(d.scale);
    if d.coefficient < 0 then -n else n
  }

  // _major_to_minor
  function MajorToMinor(amount: Option<string>): Option<int> {
    if amount.None? then None
    else
      match Parse(amount.value)
      case None => None
      case Some(d) => RoundToMinor(d)
  }

  // _nomba_amount_to_minor
  function NombaAmountToMinor(amount: Option<string>): Option<int> {
    if amount.None? then None
    else
      match Parse(amount.value)
      case None => None
      case Some(d) => Some(TruncateToMinor(d))
  }

  // ------------------------------------------------------------------- round trip

  lemma {:induction false} DigitsSpell(n: nat)
    ensures AllDigits(Digits(n)) && Digits(n) != [] && ValueOf(Digits(n)) == n
  {
    if n < 10 {
      assert [Digit(n)][..0] == [];
    } else {
      DigitsSpell(n / 10);
      ValueOfAppend(Digits(n / 10), Digit(n % 10));
    }
  }

  lemma ValueOfAppend(s: string, c: char)
    ensures ValueOf(s + [c]) == 10 * ValueOf(s) + DigitValue(c)
  {
    assert (s + [c])[..|s|] == s;
  }

  lemma {:induction false} IndexAfterDigits(a: string, b: string)
    requires AllDigits(a)
    ensures IndexOf(a + "." + b, '.') == |a|
  {
    if a != [] {
      assert (a + "." + b)[1..] == a[1..] + "." + b;
      IndexAfterDigits(a[1..], b);
    } else {
      assert a + "." + b == "." + b;
    }
  }

  lemma TwoPlacesParse(n: nat)
    ensures ParseUnsigned(TwoPlaces(n)) == Some(Decimal(n, 2))
    ensures TwoPlaces(n)[0] != '-' && TwoPlaces(n)[0] != '+'
  {
    hide Digits, ValueOf, IndexOf;
    var whole, tens, units := Digits(n / 100), Digit(n / 10 % 10), Digit(n % 10);
    DigitsSpell(n / 100);
    IndexAfterDigits(whole, [tens, units]);
    var s := TwoPlaces(n);
    assert s[..|whole|] == whole && s[|whole| + 1..] == [tens, units];
    assert s[..|whole|] + s[|whole| + 1..] == whole + [tens] + [units];
    ValueOfAppend(whole, tens);
    ValueOfAppend(whole + [tens], units);
    assert 10 * (10 * (n / 100) + n / 10 % 10) + n % 10 == n;
    assert s[0] == whole[0] && IsDigit(whole[0]);
  }

  lemma RenderedParses(amountMinor: int)
    requires MinorToMajorStr(amountMinor).Some?
    ensures Parse(MinorToMajorStr(amountMinor).value) == Some(Decimal(amountMinor, 2))
  {
    hide TwoPlaces, ParseUnsigned, PowerOf10;
    var n := Abs(amountMinor);
    TwoPlacesParse(n);
    if amountMinor < 0 {
      assert ("-" + TwoPlaces(n))[1..] == TwoPlaces(n);
    } else {
      assert "" + TwoPlaces(n) == TwoPlaces(n);
    }
  }

  lemma HundredExact(n: int)
    ensures Proration.RoundHalfEven(100 * n, 100) == n
  {
    Proration.RoundExact(n, 100);
  }

  // An amount can be printed exactly when it has at most 28 digits, and then both the
  // rounding parser and the truncating one read the same amount back.
  lemma MoneyRoundTrip(amountMinor: int)
    ensures MinorToMajorStr(amountMinor).Some? <==> Abs(amountMinor) < PowerOf10(PRECISION)
    ensures MinorToMajorStr(amountMinor).Some? ==>
              && MajorToMinor(MinorToMajorStr(amountMinor)) == Some(amountMinor)
              && NombaAmountToMinor(MinorToMajorStr(amountMinor)) == Some(amountMinor)
  {
    if MinorToMajorStr(amountMinor).Some? {
      RenderedParses(amountMinor);
      ScaleTwo();
      BothRead(amountMinor);
    }
  }

  lemma ScaleTwo()
    ensures PowerOf10(2) == 100
  {
    assert PowerOf10(1) == 10 * PowerOf10(0);
  }

  lemma BothRead(amountMinor: int)
    requires Abs(amountMinor) < PowerOf10(PRECISION) && PowerOf10(2) == 100
    ensures RoundToMinor(Decimal(amountMinor, 2)) == Some(amountMinor)
    ensures TruncateToMinor(Decimal(amountMinor, 2)) == amountMinor
  {
    hide PowerOf10;
    HundredExact(amountMinor);
  }

  // Distinct amounts are printed differently.
  lemma PrintingIsInjective(a: int, b: int)
    requires MinorToMajorStr(a).Some? && MinorToMajorStr(a) == MinorToMajorStr(b)
    ensures a == b
  {
    MoneyRoundTrip(a);
    MoneyRoundTrip(b);
  }

  lemma RoundNegates(n: int, d: int)
    requires d > 0
    ensures Proration.RoundHalfEven(-n, d) == -Proration.RoundHalfEven(n, d)
  {
    hide Proration.RoundHalfEven;
    var x := Proration.RoundHalfEven(n, d);
    Proration.RoundHalfEvenCorrect(n, d);
    Proration.RoundHalfEvenCorrect(-n, d);
    assert (-x) * d == -(x * d);
    Proration.HalfEvenUnique(Proration.RoundHalfEven(-n, d), -x, -n, d);
  }

  // On other numerals the two parsers part exactly when the fraction of a minor unit
  // that is left over exceeds one half, or is one half over an odd amount.
  lemma ParsersAgreeIff(d: Decimal)
    requires RoundToMinor(d).Some?
    ensures var p := PowerOf10(d.scale);
            var q, r := 100 * Abs(d.coefficient) / p, 100 * Abs(d.coefficient) % p;
            RoundToMinor(d) == Some(TruncateToMinor(d)) <==> 2 * r < p || (2 * r == p && q % 2 == 0)
  {
    hide PowerOf10;
    RoundNegates(100 * Abs(d.coefficient), PowerOf10(d.scale));
  }
}
