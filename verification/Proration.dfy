// app/proration/calculator.py: what a mid-cycle plan change costs.
module Proration {
  import opened Prelude
  import opened Model

  // round(n / d): the nearest integer, ties to the even one.
  function RoundHalfEven(n: int, d: int): int
    requires d > 0
  {
    var q, r := n / d, n % d;
    if 2 * r < d then q
    else if 2 * r > d then q + 1
    else if q % 2 == 0 then q
    else q + 1
  }

  function Clamp(x: int, hi: int): int {
    var m := if x < hi then x else hi;
    if m > 0 then m else 0
  }

  function Prorate(amountMinor: int, daysRemaining: int, totalDays: int): int {
    if totalDays <= 0 then 0
    else RoundHalfEven(amountMinor * Clamp(daysRemaining, totalDays), totalDays)
  }

  datatype ProrationResult = ProrationResult(
    currency: string, creditMinor: int, chargeMinor: int, netMinor: int, lineItems: seq<LineItem>)

  // None is the ValueError raised for plans in different currencies.
  function CalculateProration(oldPlan: Plan, newPlan: Plan, daysRemaining: int, totalDays: int)
    : Option<ProrationResult>
  {
    if oldPlan.currency != newPlan.currency then None
    else
      var credit := Prorate(oldPlan.amount, daysRemaining, totalDays);
      var charge := Prorate(newPlan.amount, daysRemaining, totalDays);
      Some(ProrationResult(
        oldPlan.currency, credit, charge, charge - credit,
        [LineItem("Credit for unused time on " + oldPlan.name, -credit),
         LineItem("Remaining time on " + newPlan.name, charge)]))
  }

  // ------------------------------------------------------------------ rounding

  // x is a nearest integer to n / d, and the even one when two are equally near.
  predicate IsHalfEvenQuotient(x: int, n: int, d: int)
    requires d > 0
  {
    && -d <= 2 * (n - x * d) <= d
    && (2 * (n - x * d) == d || 2 * (n - x * d) == -d ==> x % 2 == 0)
  }

  // Multiples of d lie at least d apart.
  lemma MultiplesApart(x: int, y: int, d: int)
    requires d > 0
    ensures x == y + 1 ==> x * d == y * d + d
    ensures x >= y + 2 ==> x * d >= y * d + 2 * d
  {
    var e := x - y;
    assert x * d == y * d + e * d;
    assert e >= 2 ==> e * d >= 2 * d;
  }

  lemma HalfEvenUnique(x: int, y: int, n: int, d: int)
    requires d > 0
    requires IsHalfEvenQuotient(x, n, d) && IsHalfEvenQuotient(y, n, d)
    ensures x == y
  {
    MultiplesApart(x, y, d);
    MultiplesApart(y, x, d);
  }

  lemma RoundHalfEvenCorrect(n: int, d: int)
    requires d > 0
    ensures IsHalfEvenQuotient(RoundHalfEven(n, d), n, d)
  {
    var q, r := n / d, n % d;
    assert n == q * d + r;
    MultiplesApart(q + 1, q, d);
  }

  // Days outside the cycle count as none of it or all of it.
  function ClampedDays(days: int, total: int): int {
    if days < 0 then 0 else if days > total then total else days
  }

  // The prorated amount is the half-even rounding of the amount times the clamped days
  // over the days of the cycle.
  lemma ProrateIsRounded(amount: int, days: int, total: int)
    ensures total <= 0 ==> Prorate(amount, days, total) == 0
    ensures total > 0 ==>
              IsHalfEvenQuotient(Prorate(amount, days, total),
                amount * ClampedDays(days, total), total)
  {
    hide RoundHalfEven, IsHalfEvenQuotient;
    if total > 0 { RoundHalfEvenCorrect(amount * Clamp(days, total), total); }
  }

  lemma RoundMonotone(n: int, m: int, d: int)
    requires d > 0 && n <= m
    ensures RoundHalfEven(n, d) <= RoundHalfEven(m, d)
  {
    hide RoundHalfEven;
    var x, y := RoundHalfEven(n, d), RoundHalfEven(m, d);
    RoundHalfEvenCorrect(n, d);
    RoundHalfEvenCorrect(m, d);
    MultiplesApart(x, y, d);
  }

  lemma RoundExact(q: int, d: int)
    requires d > 0
    ensures RoundHalfEven(q * d, d) == q
  {
    hide RoundHalfEven;
    RoundHalfEvenCorrect(q * d, d);
    HalfEvenUnique(RoundHalfEven(q * d, d), q, q * d, d);
  }

  // The prorated amount lies between nothing and the whole amount, and grows with
  // the days remaining and with the amount.
  lemma ProrateBounds(amount: int, days: int, total: int)
    requires amount >= 0
    ensures 0 <= Prorate(amount, days, total) <= amount
    ensures total > 0 && days <= 0 ==> Prorate(amount, days, total) == 0
    ensures total > 0 && days >= total ==> Prorate(amount, days, total) == amount
  {
    hide RoundHalfEven;
    if total > 0 {
      var c := Clamp(days, total);
      RoundExact(0, total);
      RoundExact(amount, total);
      assert 0 <= amount * c <= amount * total;
      RoundMonotone(0 * total, amount * c, total);
      RoundMonotone(amount * c, amount * total, total);
    }
  }

  lemma ProrateMonotoneInDays(amount: int, d1: int, d2: int, total: int)
    requires amount >= 0 && d1 <= d2
    ensures Prorate(amount, d1, total) <= Prorate(amount, d2, total)
  {
    hide RoundHalfEven;
    if total > 0 {
      var c1, c2 := Clamp(d1, total), Clamp(d2, total);
      assert amount * c1 <= amount * c2;
      RoundMonotone(amount * c1, amount * c2, total);
    }
  }

  lemma ProrateMonotoneInAmount(a: int, b: int, days: int, total: int)
    requires a <= b
    ensures Prorate(a, days, total) <= Prorate(b, days, total)
  {
    hide RoundHalfEven;
    if total > 0 {
      var c := Clamp(days, total);
      assert a * c <= b * c;
      RoundMonotone(a * c, b * c, total);
    }
  }

  // n / d lies half way between two integers.
  predicate IsTie(n: int, d: int)
    requires d > 0
  {
    2 * (n % d) == d
  }

  lemma Distribute(a: int, b: int, d: int)
    ensures (a - b) * d == a * d - b * d
  {}

  // The rounding of m when z misses it by e: z itself, or its even neighbour on a
  // tie.
  lemma ReflectedCandidates(y: int, z: int, m: int, d: int, e: int)
    requires d > 0 && IsHalfEvenQuotient(y, m, d)
    requires z * d - m == e && -d <= 2 * e <= d
    ensures -1 <= y - z <= 1
    ensures y == z <==> (2 * e != d && 2 * e != -d) || z % 2 == 0
  {
    MultiplesApart(z, z - 1, d);
    MultiplesApart(z + 1, z, d);
    var w := if (2 * e != d && 2 * e != -d) || z % 2 == 0 then z
             else if 2 * e == d then z - 1 else z + 1;
    HalfEvenUnique(y, w, m, d);
  }

  lemma TieMissesByHalf(n: int, d: int)
    requires d > 0
    ensures var e := n - RoundHalfEven(n, d) * d;
            IsTie(n, d) <==> 2 * e == d || 2 * e == -d
  {
    var q, r := n / d, n % d;
    assert n == q * d + r;
    MultiplesApart(q + 1, q, d);
  }

  // Rounding the complement: reflecting n in a whole number of units reflects the
  // rounded quotient, except for a tie when that number is odd.
  lemma RoundReflected(n: int, m: int, a: int, d: int)
    requires d > 0 && n + m == a * d
    ensures var x, y := RoundHalfEven(n, d), RoundHalfEven(m, d);
            && (x + y == a <==> !IsTie(n, d) || a % 2 == 0)
            && -1 <= x + y - a <= 1
  {
    hide IsTie, RoundHalfEven;
    var x, y := RoundHalfEven(n, d), RoundHalfEven(m, d);
    RoundHalfEvenCorrect(n, d);
    RoundHalfEvenCorrect(m, d);
    TieMissesByHalf(n, d);
    ReflectParts(x, y, n, m, a, d);
  }

  lemma ReflectParts(x: int, y: int, n: int, m: int, a: int, d: int)
    requires d > 0 && n + m == a * d
    requires IsHalfEvenQuotient(x, n, d) && IsHalfEvenQuotient(y, m, d)
    ensures var e := n - x * d;
            (x + y == a <==> !(2 * e == d || 2 * e == -d) || a % 2 == 0) && -1 <= x + y - a <= 1
  {
    hide IsHalfEvenQuotient;
    HalfEvenError(x, n, d);
    Distribute(a, x, d);
    ReflectedCandidates(y, a - x, m, d, n - x * d);
  }

  lemma HalfEvenError(x: int, n: int, d: int)
    requires d > 0 && IsHalfEvenQuotient(x, n, d)
    ensures var e := n - x * d;
            -d <= 2 * e <= d && (2 * e == d || 2 * e == -d ==> x % 2 == 0)
  {}

  // The two halves of a split cycle add up to the amount, except that an exact
  // tie on an odd amount loses or gains one unit.
  lemma ProrateSplit(amount: int, d: int, total: int)
    requires 0 <= d <= total && 0 < total
    ensures var sum := Prorate(amount, d, total) + Prorate(amount, total - d, total);
            && (sum == amount <==> !IsTie(amount * d, total) || amount % 2 == 0)
            && -1 <= sum - amount <= 1
  {
    hide RoundHalfEven, IsTie;
    Distribute(total, d, amount);
    RoundReflected(amount * d, amount * (total - d), amount, total);
  }

  // ------------------------------------------------ the floating-point division

  // round() of a real quotient.
  function RoundReal(x: real): int {
    var q := x.Floor;
    var r := x - q as real;
    if r < 0.5 then q
    else if r > 0.5 then q + 1
    else if q % 2 == 0 then q
    else q + 1
  }

  const TWO_52: int := 0x10_0000_0000_0000
  const TWO_53: real := 9007199254740992.0

  // What IEEE-754 double division guarantees of the stored quotient q of n / d: a
  // relative error of at most 2^-53, and none when the quotient is a multiple of
  // one half (those below 2^52 are representable).
  ghost predicate IsDoubleQuotient(q: real, n: nat, d: nat)
    requires d > 0
  {
    var exact := n as real / d as real;
    && (exact - q) * TWO_53 <= exact
    && (q - exact) * TWO_53 <= exact
    && ((2 * n) % d == 0 ==> q == exact)
  }

  // Below 2^52 the division that round() is applied to never moves a quotient to
  // or across a tie: the rounded double is the half-even rounding of the exact
  // quotient.
  lemma DoubleDivisionRoundsExactly(q: real, n: nat, d: nat)
    requires 0 < d && n < TWO_52
    requires IsDoubleQuotient(q, n, d)
    ensures RoundReal(q) == RoundHalfEven(n, d)
  {
    hide RoundReal, IsDoubleQuotient, RoundHalfEven;
    var k, r := n / d, n % d;
    RoundByRemainder(n, d);
    if (2 * n) % d == 0 {
      HalfMultiple(n, d);
      ExactQuotient(q, n, d);
      RoundRealOfHalves(q, k, if r == 0 then 0.0 else 0.5);
    } else {
      NotHalfMultiple(n, d);
      ScaledQuotient(q, n, d);
      Sandwich(q, k, r, d, q * d as real - n as real);
    }
  }

  lemma RoundByRemainder(n: nat, d: nat)
    requires 0 < d
    ensures 0 <= n / d && 0 <= n % d < d
    ensures n % d == 0 ==> RoundHalfEven(n, d) == n / d
    ensures 2 * (n % d) == d ==> RoundHalfEven(n, d) == if (n / d) % 2 == 0 then n / d else n / d + 1
    ensures 2 * (n % d) < d ==> RoundHalfEven(n, d) == n / d
    ensures 2 * (n % d) > d ==> RoundHalfEven(n, d) == n / d + 1
  {}

  lemma ExactQuotient(q: real, n: nat, d: nat)
    requires 0 < d && (2 * n) % d == 0 && (n % d == 0 || 2 * (n % d) == d)
    requires IsDoubleQuotient(q, n, d)
    ensures q == (n / d) as real + (if n % d == 0 then 0.0 else 0.5)
  {
    var k, r := n / d, n % d;
    assert n == k * d + r;
    RealParts(q, k, r, d);
  }

  lemma RoundRealOfHalves(q: real, k: int, f: real)
    requires q == k as real + f && (f == 0.0 || f == 0.5)
    ensures RoundReal(q) == if f == 0.0 || k % 2 == 0 then k else k + 1
  {
    assert q.Floor == k;
  }

  lemma ScaledQuotient(q: real, n: nat, d: nat)
    requires 0 < d && n < TWO_52
    requires IsDoubleQuotient(q, n, d)
    ensures -0.5 < q * d as real - n as real < 0.5
    ensures n as real == (n / d) as real * d as real + (n % d) as real
  {
    var exact, dr := n as real / d as real, d as real;
    assert exact * dr == n as real;
    ScaledError(q, exact, n, d);
    assert (q - exact) * dr == q * dr - exact * dr;
    var k, r := n / d, n % d;
    assert n == k * d + r;
    assert (k * d) as real == k as real * dr;
  }

  lemma HalfMultiple(n: nat, d: nat)
    requires d > 0 && (2 * n) % d == 0
    ensures n % d == 0 || 2 * (n % d) == d
  {
    var k, r := n / d, n % d;
    assert 2 * n == (2 * k) * d + 2 * r;
    var j := (2 * n) / d;
    assert 2 * n == j * d;
    assert (j - 2 * k) * d == 2 * r;
    var e := j - 2 * k;
    assert e * d == 2 * r;
    MultiplesApart(0, e, d);
    MultiplesApart(e, 0, d);
    assert e == 0 || e == 1;
  }

  lemma NotHalfMultiple(n: nat, d: nat)
    requires d > 0 && (2 * n) % d != 0
    ensures n % d != 0 && 2 * (n % d) != d
  {
    var k, r := n / d, n % d;
    assert n == k * d + r;
    if r == 0 {
      assert 2 * n == (2 * k) * d;
      MultipleHasNoRemainder(2 * k, d);
    } else if 2 * r == d {
      assert 2 * n == (2 * k) * d + d == (2 * k + 1) * d;
      MultipleHasNoRemainder(2 * k + 1, d);
    }
  }

  lemma MultipleHasNoRemainder(k: int, d: nat)
    requires d > 0
    ensures (k * d) % d == 0
  {
    var q, r := (k * d) / d, (k * d) % d;
    assert k * d == q * d + r;
    MultiplesApart(k, q, d);
    MultiplesApart(q, k, d);
  }

  lemma ScaledError(q: real, exact: real, n: nat, d: nat)
    requires d > 0 && n < TWO_52
    requires exact * d as real == n as real
    requires (exact - q) * TWO_53 <= exact && (q - exact) * TWO_53 <= exact
    ensures -0.5 < (q - exact) * d as real < 0.5
  {
    var dr, err := d as real, (q - exact) * d as real;
    ProductOrder((q - exact) * TWO_53, exact, dr);
    ProductOrder((exact - q) * TWO_53, exact, dr);
    assert ((q - exact) * TWO_53) * dr == 9007199254740992.0 * err;
    assert ((exact - q) * TWO_53) * dr == -9007199254740992.0 * err;
    assert n as real < 4503599627370496.0;
  }

  lemma ProductOrder(x: real, y: real, dr: real)
    requires x <= y && dr > 0.0
    ensures x * dr <= y * dr
  {}

  lemma RealParts(q: real, k: nat, r: nat, d: nat)
    requires d > 0 && r < d && (r == 0 || 2 * r == d)
    requires q == (k * d + r) as real / d as real
    ensures q == k as real + (if r == 0 then 0.0 else 0.5)
    ensures q.Floor == k
  {
    var dr := d as real;
    assert q * dr == (k * d + r) as real;
    assert (k * d + r) as real == k as real * dr + r as real;
    var f := if r == 0 then 0.0 else 0.5;
    assert f * dr == r as real;
    assert (q - k as real - f) * dr == 0.0;
  }

  lemma ScaledOrder(x: real, y: real, dr: real, xs: real, ys: real)
    requires dr > 0.0 && xs == x * dr && ys == y * dr && xs < ys
    ensures x < y
  {
    assert (y - x) * dr > 0.0;
  }

  // A quotient within half a unit of an inexact, untied one rounds the same way.
  lemma Sandwich(q: real, k: nat, r: nat, d: nat, err: real)
    requires 0 < r < d && 2 * r != d
    requires -0.5 < err < 0.5
    requires q * d as real == k as real * d as real + r as real + err
    ensures RoundReal(q) == if 2 * r < d then k else k + 1
  {
    var dr, rr := d as real, r as real;
    var f, fs := q - k as real, rr + err;
    assert f * dr == fs;
    assert 1.0 <= rr <= dr - 1.0;
    ScaledOrder(0.0, f, dr, 0.0, fs);
    ScaledOrder(f, 1.0, dr, fs, dr);
    assert q.Floor == k;
    if 2 * r < d {
      assert 2.0 * rr + 1.0 <= dr;
      ScaledOrder(f, 0.5, dr, fs, 0.5 * dr);
    } else {
      assert 2.0 * rr >= dr + 1.0;
      ScaledOrder(0.5, f, dr, 0.5 * dr, fs);
    }
  }

  // --------------------------------------------------------------- plan changes

  function NetOf(oldPlan: Plan, newPlan: Plan, days: int, total: int): int {
    Prorate(newPlan.amount, days, total) - Prorate(oldPlan.amount, days, total)
  }

  // Whatever the plans cost, the two line items add up to the net.
  lemma LineItemsAddUp(oldPlan: Plan, newPlan: Plan, days: int, total: int)
    ensures var p := CalculateProration(oldPlan, newPlan, days, total);
            p.Some? ==> LineTotal(p.value.lineItems) == p.value.netMinor == NetOf(oldPlan, newPlan, days, total)
  {
    hide Prorate;
    var p := CalculateProration(oldPlan, newPlan, days, total);
    if p.Some? { LineTotalOfTwo(p.value.lineItems[0], p.value.lineItems[1]); }
  }

  // A proration is refused exactly across currencies; otherwise its line items are
  // a credit and a charge of non-negative magnitude that add up to its net.
  lemma ProrationAddsUp(oldPlan: Plan, newPlan: Plan, days: int, total: int)
    requires oldPlan.amount >= 0 && newPlan.amount >= 0
    ensures var p := CalculateProration(oldPlan, newPlan, days, total);
            && (p.None? <==> oldPlan.currency != newPlan.currency)
            && (p.Some? ==>
                  && LineTotal(p.value.lineItems) == p.value.netMinor == NetOf(oldPlan, newPlan, days, total)
                  && p.value.creditMinor == Prorate(oldPlan.amount, days, total)
                  && p.value.chargeMinor == Prorate(newPlan.amount, days, total)
                  && |p.value.lineItems| == 2
                  && p.value.lineItems[0].amountMinor == -p.value.creditMinor <= 0
                  && p.value.lineItems[1].amountMinor == p.value.chargeMinor
                  && (total > 0 ==>
                        && IsHalfEvenQuotient(p.value.creditMinor, oldPlan.amount * ClampedDays(days, total), total)
                        && IsHalfEvenQuotient(p.value.chargeMinor, newPlan.amount * ClampedDays(days, total), total))
                  && 0 <= p.value.creditMinor <= oldPlan.amount
                  && 0 <= p.value.chargeMinor <= newPlan.amount
                  && (newPlan.amount >= oldPlan.amount ==> p.value.netMinor >= 0)
                  && (newPlan.amount <= oldPlan.amount ==> p.value.netMinor <= 0))
  {
    hide Prorate, IsHalfEvenQuotient;
    ProrateIsRounded(oldPlan.amount, days, total);
    ProrateIsRounded(newPlan.amount, days, total);
    ProrateBounds(oldPlan.amount, days, total);
    ProrateBounds(newPlan.amount, days, total);
    if newPlan.amount >= oldPlan.amount {
      ProrateMonotoneInAmount(oldPlan.amount, newPlan.amount, days, total);
    }
    if newPlan.amount <= oldPlan.amount {
      ProrateMonotoneInAmount(newPlan.amount, oldPlan.amount, days, total);
    }
    LineItemsAddUp(oldPlan, newPlan, days, total);
  }

  function LineTotal(items: seq<LineItem>): int {
    if items == [] then 0 else LineTotal(items[..|items| - 1]) + items[|items| - 1].amountMinor
  }

  lemma LineTotalOfTwo(a: LineItem, b: LineItem)
    ensures LineTotal([a, b]) == a.amountMinor + b.amountMinor
  {
    assert [a, b][..1] == [a] && [a][..0] == [];
    assert LineTotal([a]) == a.amountMinor;
  }

  function ChainNet(plans: seq<Plan>, days: int, total: int): int
    requires |plans| > 0
    requires forall i, j :: 0 <= i < |plans| && 0 <= j < |plans| ==> plans[i].currency == plans[j].currency
    decreases |plans|
  {
    if |plans| == 1 then 0
    else
      CalculateProration(plans[0], plans[1], days, total).value.netMinor + ChainNet(plans[1..], days, total)
  }

  // The nets of a chain of plan changes at one instant add up to the net of going
  // from the first plan to the last; in particular a change and its reversal
  // cancel.
  lemma {:induction false} ChainTelescopes(plans: seq<Plan>, days: int, total: int)
    requires |plans| > 0
    requires forall i, j :: 0 <= i < |plans| && 0 <= j < |plans| ==> plans[i].currency == plans[j].currency
    ensures ChainNet(plans, days, total) ==
            CalculateProration(plans[0], plans[|plans| - 1], days, total).value.netMinor
    ensures plans[0] == plans[|plans| - 1] ==> ChainNet(plans, days, total) == 0
    decreases |plans|
  {
    hide Prorate;
    if |plans| > 1 {
      ChainTelescopes(plans[1..], days, total);
    }
  }
}
