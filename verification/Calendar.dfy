// The proleptic Gregorian calendar and the interval arithmetic of
// app/worker/utils.py and app/subscriptions/service.py.
module Calendar {
  import opened Prelude

  datatype Date = Date(year: int, month: int, day: int)

  datatype Interval = Daily | Weekly | Monthly | Quarterly | Yearly | Annually | Biannually

  predicate IsLeap(y: int) {
    y % 4 == 0 && (y % 100 != 0 || y % 400 == 0)
  }

  function DaysInYear(y: int): int {
    if IsLeap(y) then 366 else 365
  }

  function DaysInMonth(y: int, m: int): int {
    if m == 2 then (if IsLeap(y) then 29 else 28)
    else if m == 4 || m == 6 || m == 9 || m == 11 then 30
    else 31
  }

  predicate ValidDate(d: Date) {
    1 <= d.month <= 12 && 1 <= d.day <= DaysInMonth(d.year, d.month)
  }

  predicate DateBefore(a: Date, b: Date) {
    a.year < b.year ||
    (a.year == b.year && (a.month < b.month || (a.month == b.month && a.day < b.day)))
  }

  // ---------------------------------------------------------------- ordinals

  function DaysBeforeYear(y: int): int {
    365 * (y - 1) + (y - 1) / 4 - (y - 1) / 100 + (y - 1) / 400
  }

  function DaysBeforeMonth(y: int, m: int): int
    requires 1 <= m
    decreases m
  {
    if m == 1 then 0 else DaysBeforeMonth(y, m - 1) + DaysInMonth(y, m - 1)
  }

  function Ordinal(d: Date): int
    requires ValidDate(d)
  {
    DaysBeforeYear(d.year) + DaysBeforeMonth(d.year, d.month) + d.day
  }

  // The date whose month is m of year y or later and which lies r days after the
  // first of month m.
  function MonthOf(y: int, m: int, r: nat): Date
    requires 1 <= m <= 12
    decreases 12 - m
  {
    if m == 12 || r < DaysInMonth(y, m) then Date(y, m, r + 1)
    else MonthOf(y, m + 1, r - DaysInMonth(y, m))
  }

  function YearOf(y: int, r: nat): (int, nat)
    decreases r
  {
    if r < DaysInYear(y) then (y, r) else YearOf(y + 1, r - DaysInYear(y))
  }

  function FromOrdinal(n: int): Date {
    var cycle := (n - 1) / 146_097;
    var (y, r) := YearOf(400 * cycle + 1, (n - 1) % 146_097);
    MonthOf(y, 1, r)
  }

  lemma YearLength(y: int)
    ensures DaysBeforeYear(y + 1) == DaysBeforeYear(y) + DaysInYear(y)
  {
    var q4, q100, q400 := (y - 1) / 4, (y - 1) / 100, (y - 1) / 400;
    assert y / 4 == q4 + (if y % 4 == 0 then 1 else 0);
    assert y / 100 == q100 + (if y % 100 == 0 then 1 else 0);
    assert y / 400 == q400 + (if y % 400 == 0 then 1 else 0);
  }

  // The months are those of the calendar: the days before each follow one closed form,
  // with the leap day before March.
  lemma MonthsInClosedForm(y: int, m: int)
    requires 1 <= m <= 12
    ensures DaysBeforeMonth(y, m) ==
            (367 * m - 362) / 12 - (if m <= 2 then 0 else if y % 4 == 0 && (y % 100 != 0 || y % 400 == 0) then 1 else 2)
    ensures m == 12 ==> DaysInMonth(y, m) == 31
  {
    assert DaysBeforeMonth(y, 3) == (if IsLeap(y) then 60 else 59);
    assert DaysBeforeMonth(y, 5) == DaysBeforeMonth(y, 3) + 61;
    assert DaysBeforeMonth(y, 7) == DaysBeforeMonth(y, 5) + 61;
    assert DaysBeforeMonth(y, 9) == DaysBeforeMonth(y, 7) + 62;
    assert DaysBeforeMonth(y, 11) == DaysBeforeMonth(y, 9) + 61;
  }

  lemma MonthsFillYear(y: int)
    ensures DaysBeforeMonth(y, 12) + 31 == DaysInYear(y)
  {
    assert DaysBeforeMonth(y, 4) == DaysInMonth(y, 1) + DaysInMonth(y, 2) + DaysInMonth(y, 3);
    assert DaysBeforeMonth(y, 7) == DaysBeforeMonth(y, 4) + 91;
    assert DaysBeforeMonth(y, 10) == DaysBeforeMonth(y, 7) + 92;
  }

  lemma {:induction false} YearOfDay(y: int, r: nat)
    ensures var (y', r') := YearOf(y, r);
            r' < DaysInYear(y') && DaysBeforeYear(y') + r' == DaysBeforeYear(y) + r
    decreases r
  {
    if r >= DaysInYear(y) {
      YearLength(y);
      YearOfDay(y + 1, r - DaysInYear(y));
    }
  }

  lemma {:induction false} MonthOfDay(y: int, m: int, r: nat)
    requires 1 <= m <= 12
    requires DaysBeforeMonth(y, m) + r < DaysInYear(y)
    ensures var d := MonthOf(y, m, r);
            ValidDate(d) && d.year == y &&
            DaysBeforeMonth(y, d.month) + d.day == DaysBeforeMonth(y, m) + r + 1
    decreases 12 - m
  {
    MonthsFillYear(y);
    if m < 12 && r >= DaysInMonth(y, m) {
      MonthOfDay(y, m + 1, r - DaysInMonth(y, m));
    }
  }

  lemma CycleStart(c: int)
    ensures DaysBeforeYear(400 * c + 1) == 146_097 * c
  {
    assert (400 * c) / 4 == 100 * c && (400 * c) / 100 == 4 * c && (400 * c) / 400 == c;
  }

  // Every ordinal names a valid date and is recovered from it.
  lemma OrdinalOfFromOrdinal(n: int)
    ensures ValidDate(FromOrdinal(n))
    ensures Ordinal(FromOrdinal(n)) == n
  {
    var c, r0 := (n - 1) / 146_097, (n - 1) % 146_097;
    CycleStart(c);
    YearOfDay(400 * c + 1, r0);
    var (y, r) := YearOf(400 * c + 1, r0);
    MonthOfDay(y, 1, r);
  }

  lemma {:induction false} MonthsMonotone(y: int, a: int, b: int)
    requires 1 <= a < b <= 12
    ensures DaysBeforeMonth(y, a) + DaysInMonth(y, a) <= DaysBeforeMonth(y, b)
    decreases b
  {
    if a < b - 1 { MonthsMonotone(y, a, b - 1); }
  }

  lemma {:induction false} YearsMonotone(a: int, b: int)
    requires a < b
    ensures DaysBeforeYear(a) + DaysInYear(a) <= DaysBeforeYear(b)
    decreases b - a
  {
    YearLength(b - 1);
    if a < b - 1 { YearsMonotone(a, b - 1); } else { YearLength(a); }
  }

  lemma OrdinalWithinYear(d: Date)
    requires ValidDate(d)
    ensures DaysBeforeYear(d.year) < Ordinal(d) <= DaysBeforeYear(d.year) + DaysInYear(d.year)
  {
    MonthsFillYear(d.year);
    if d.month < 12 { MonthsMonotone(d.year, d.month, 12); }
    if d.month > 1 { MonthsMonotone(d.year, 1, d.month); }
  }

  // Ordinals order valid dates exactly as the calendar does.
  lemma OrdinalOrder(a: Date, b: Date)
    requires ValidDate(a) && ValidDate(b)
    ensures DateBefore(a, b) <==> Ordinal(a) < Ordinal(b)
  {
    if DateBefore(a, b) { OrdinalStrict(a, b); }
    else if a != b { OrdinalStrict(b, a); }
  }

  lemma OrdinalStrict(a: Date, b: Date)
    requires ValidDate(a) && ValidDate(b) && DateBefore(a, b)
    ensures Ordinal(a) < Ordinal(b)
  {
    if a.year < b.year {
      YearsMonotone(a.year, b.year);
      OrdinalWithinYear(a);
      OrdinalWithinYear(b);
    } else if a.month < b.month {
      MonthsMonotone(a.year, a.month, b.month);
    }
  }

  lemma FromOrdinalOfOrdinal(d: Date)
    requires ValidDate(d)
    ensures FromOrdinal(Ordinal(d)) == d
  {
    var e := FromOrdinal(Ordinal(d));
    OrdinalOfFromOrdinal(Ordinal(d));
    OrdinalOrder(d, e);
    OrdinalOrder(e, d);
  }

  // ------------------------------------------------------- instants and deltas

  function DateOf(t: Instant): Date {
    FromOrdinal(t / 86_400_000_000)
  }

  function TimeOfDay(t: Instant): int {
    t % 86_400_000_000
  }

  function At(d: Date, tod: int): Instant
    requires ValidDate(d)
  {
    Days(Ordinal(d)) + tod
  }

  lemma InstantParts(t: Instant)
    ensures ValidDate(DateOf(t))
    ensures 0 <= TimeOfDay(t) < Days(1)
    ensures At(DateOf(t), TimeOfDay(t)) == t
  {
    OrdinalOfFromOrdinal(t / 86_400_000_000);
  }

  lemma PartsOfInstant(d: Date, tod: int)
    requires ValidDate(d) && 0 <= tod < Days(1)
    ensures DateOf(At(d, tod)) == d && TimeOfDay(At(d, tod)) == tod
  {
    assert At(d, tod) / 86_400_000_000 == Ordinal(d);
    FromOrdinalOfOrdinal(d);
  }

  function Min(a: int, b: int): int {
    if a <= b then a else b
  }

  // Month addition with the day clamped to the length of the target month.
  function AddMonths(d: Date, n: int): Date {
    var t := 12 * d.year + (d.month - 1) + n;
    Date(t / 12, t % 12 + 1, Min(d.day, DaysInMonth(t / 12, t % 12 + 1)))
  }

  // The keyword arguments of a relative delta.
  datatype Delta = Delta(years: int, months: int, weeks: int, days: int)

  function InMonths(n: int): Delta { Delta(0, n, 0, 0) }
  function InYears(n: int): Delta { Delta(n, 0, 0, 0) }
  function InWeeks(n: int): Delta { Delta(0, 0, n, 0) }
  function InDays(n: int): Delta { Delta(0, 0, 0, n) }

  lemma AddMonthsValid(d: Date, n: int)
    requires ValidDate(d)
    ensures ValidDate(AddMonths(d, n))
  {}

  // Years and months first, clamped; then weeks and days.
  function AddDelta(t: Instant, delta: Delta): Instant {
    InstantParts(t);
    AddMonthsValid(DateOf(t), 12 * delta.years + delta.months);
    At(AddMonths(DateOf(t), 12 * delta.years + delta.months), TimeOfDay(t))
      + Days(7 * delta.weeks + delta.days)
  }

  // app/worker/utils.py
  function AdvanceBillingPeriod(start: Instant, interval: Interval, count: int): Instant {
    match interval
    case Daily => AddDelta(start, InDays(count))
    case Weekly => AddDelta(start, InWeeks(count))
    case Monthly => AddDelta(start, InMonths(count))
    case Quarterly => AddDelta(start, InMonths(3 * count))
    case Yearly => AddDelta(start, InYears(count))
    case Annually => AddDelta(start, InYears(count))
    case Biannually => AddDelta(start, InMonths(6 * count))
  }

  // The table of _compute_period_end in app/subscriptions/service.py; its last
  // branch falls back to months.
  function ComputePeriodEnd(start: Instant, interval: Interval, count: int): Instant {
    var delta :=
      if interval == Daily then InDays(count)
      else if interval == Weekly then InWeeks(count)
      else if interval == Monthly then InMonths(count)
      else if interval == Quarterly then InMonths(3 * count)
      else if interval == Yearly || interval == Annually then InYears(count)
      else if interval == Biannually then InMonths(6 * count)
      else InMonths(count);
    AddDelta(start, delta)
  }

  // The inline table of create_subscription_flow: the offset of the i-th due date.
  function ScheduleOffset(start: Instant, interval: Interval, i: int, count: int): Instant {
    var delta :=
      if interval == Daily then InDays(i * count)
      else if interval == Weekly then InWeeks(i * count)
      else if interval == Monthly then InMonths(i * count)
      else if interval == Quarterly then InMonths(3 * i * count)
      else if interval == Yearly || interval == Annually then InYears(i * count)
      else if interval == Biannually then InMonths(6 * i * count)
      else Delta(0, 0, 0, 0);
    AddDelta(start, delta)
  }

  // ------------------------------------------------------------- elementary laws

  predicate DayBased(interval: Interval) {
    interval == Daily || interval == Weekly
  }

  // n intervals in whole months, or in whole days.
  function MonthsIn(interval: Interval, n: int): int {
    match interval
    case Monthly => n
    case Quarterly => 3 * n
    case Biannually => 6 * n
    case Yearly => 12 * n
    case Annually => 12 * n
    case Daily => 0
    case Weekly => 0
  }

  function DaysIn(interval: Interval, n: int): int {
    match interval
    case Daily => n
    case Weekly => 7 * n
    case _ => 0
  }

  lemma AddZeroMonths(d: Date)
    requires ValidDate(d)
    ensures AddMonths(d, 0) == d
  {
    assert (12 * d.year + (d.month - 1)) / 12 == d.year;
  }

  lemma AddDeltaOfDays(t: Instant, delta: Delta)
    requires delta.years == 0 && delta.months == 0
    ensures AddDelta(t, delta) == t + Days(7 * delta.weeks + delta.days)
  {
    InstantParts(t);
    AddZeroMonths(DateOf(t));
  }

  lemma AddDeltaOfMonths(t: Instant, delta: Delta)
    requires delta.weeks == 0 && delta.days == 0
    ensures DateOf(AddDelta(t, delta)) == AddMonths(DateOf(t), 12 * delta.years + delta.months)
    ensures TimeOfDay(AddDelta(t, delta)) == TimeOfDay(t)
  {
    hide DateOf, TimeOfDay, At, AddMonths;
    InstantParts(t);
    AddMonthsValid(DateOf(t), 12 * delta.years + delta.months);
    PartsOfInstant(AddMonths(DateOf(t), 12 * delta.years + delta.months), TimeOfDay(t));
  }

  // Month-based advances keep the time of day and add months to the date; the
  // others add whole days to the instant.
  lemma AdvanceShape(t: Instant, interval: Interval, count: int)
    ensures var u := AdvanceBillingPeriod(t, interval, count);
            if DayBased(interval) then u == t + Days(DaysIn(interval, count))
            else DateOf(u) == AddMonths(DateOf(t), MonthsIn(interval, count)) &&
                 TimeOfDay(u) == TimeOfDay(t)
  {
    hide AddDelta, AddMonths, DateOf, TimeOfDay;
    match interval
    case Daily => AddDeltaOfDays(t, InDays(count));
    case Weekly => AddDeltaOfDays(t, InWeeks(count));
    case Monthly => AddDeltaOfMonths(t, InMonths(count));
    case Quarterly => AddDeltaOfMonths(t, InMonths(3 * count));
    case Yearly => AddDeltaOfMonths(t, InYears(count));
    case Annually => AddDeltaOfMonths(t, InYears(count));
    case Biannually => AddDeltaOfMonths(t, InMonths(6 * count));
  }

  // The three interval tables of the source agree: one step of either renewal
  // table is the first slot of the creation table, and slot i is one advance by
  // i times the count.
  lemma IntervalTablesAgree(t: Instant, interval: Interval, count: int, i: int)
    ensures ComputePeriodEnd(t, interval, count) == AdvanceBillingPeriod(t, interval, count)
    ensures ScheduleOffset(t, interval, i, count) == AdvanceBillingPeriod(t, interval, i * count)
    ensures ScheduleOffset(t, interval, 1, count) == AdvanceBillingPeriod(t, interval, count)
    ensures ScheduleOffset(t, interval, 0, count) == t
  {
    hide AddDelta;
    assert 3 * i * count == 3 * (i * count) && 6 * i * count == 6 * (i * count);
    assert 0 * count == 0 && 1 * count == count;
    AddNothing(t);
  }

  lemma AddNothing(t: Instant)
    ensures AddDelta(t, Delta(0, 0, 0, 0)) == t
  {
    AddDeltaOfDays(t, Delta(0, 0, 0, 0));
  }

  lemma MonthIndex(d: Date, n: int)
    requires ValidDate(d)
    ensures var e := AddMonths(d, n);
            12 * e.year + e.month == 12 * d.year + d.month + n &&
            e.day <= d.day && (d.day <= 28 ==> e.day == d.day)
  {}

  lemma LaterMonthIsLater(a: Date, b: Date)
    requires ValidDate(a) && ValidDate(b)
    requires 12 * a.year + a.month < 12 * b.year + b.month
    ensures DateBefore(a, b)
  {}

  // A positive count moves the period end by at least one whole day.
  lemma AdvanceMakesProgress(t: Instant, interval: Interval, count: int)
    requires count >= 1
    ensures AdvanceBillingPeriod(t, interval, count) >= t + Days(1)
  {
    hide AdvanceBillingPeriod, DateOf, TimeOfDay, AddMonths, Ordinal;
    AdvanceShape(t, interval, count);
    InstantParts(t);
    var u := AdvanceBillingPeriod(t, interval, count);
    if !DayBased(interval) {
      var n := MonthsIn(interval, count);
      assert n >= 1;
      MonthIndex(DateOf(t), n);
      AddMonthsValid(DateOf(t), n);
      LaterMonthIsLater(DateOf(t), AddMonths(DateOf(t), n));
      OrdinalOrder(DateOf(t), AddMonths(DateOf(t), n));
      InstantParts(u);
    }
  }

  // Advancing preserves the calendar order of dates, weakly: clamping may merge
  // the last days of a month.
  lemma AddMonthsMonotone(a: Date, b: Date, n: int)
    requires ValidDate(a) && ValidDate(b) && !DateBefore(b, a)
    ensures !DateBefore(AddMonths(b, n), AddMonths(a, n))
  {
    MonthIndex(a, n);
    MonthIndex(b, n);
    AddMonthsValid(a, n);
    AddMonthsValid(b, n);
    var a', b' := AddMonths(a, n), AddMonths(b, n);
    if 12 * a.year + a.month < 12 * b.year + b.month {
      LaterMonthIsLater(a', b');
    } else {
      assert a.year == b.year && a.month == b.month;
    }
  }

  lemma AdvanceMonotoneOnDates(t: Instant, u: Instant, interval: Interval, count: int)
    requires t <= u
    ensures !DateBefore(DateOf(AdvanceBillingPeriod(u, interval, count)),
                        DateOf(AdvanceBillingPeriod(t, interval, count)))
  {
    hide AdvanceBillingPeriod, DateOf, TimeOfDay, AddMonths;
    var t', u' := AdvanceBillingPeriod(t, interval, count), AdvanceBillingPeriod(u, interval, count);
    AdvanceShape(t, interval, count);
    AdvanceShape(u, interval, count);
    if DayBased(interval) {
      assert t' <= u';
      DateOrderOfInstants(t', u');
    } else {
      DateOrderOfInstants(t, u);
      InstantParts(t);
      InstantParts(u);
      AddMonthsMonotone(DateOf(t), DateOf(u), MonthsIn(interval, count));
    }
  }

  lemma DateOrderOfInstants(t: Instant, u: Instant)
    requires t <= u
    ensures !DateBefore(DateOf(u), DateOf(t))
  {
    InstantParts(t);
    InstantParts(u);
    OrdinalOrder(DateOf(u), DateOf(t));
  }

  // The length of the month n months after the month of d.
  function MonthLengthAfter(d: Date, n: int): int {
    var t := 12 * d.year + (d.month - 1) + n;
    DaysInMonth(t / 12, t % 12 + 1)
  }

  lemma ClampedDay(d: Date, n: int)
    ensures AddMonths(d, n).day == Min(d.day, MonthLengthAfter(d, n))
  {}

  // The later of two instants overtaken by clamping: two days of one month, both cut
  // to the last day of the target month, the later one earlier in its day.
  predicate OvertakenByClamping(t: Instant, u: Instant, months: int) {
    var d, e := DateOf(t), DateOf(u);
    && d.year == e.year && d.month == e.month && d.day != e.day
    && d.day >= MonthLengthAfter(d, months)
    && TimeOfDay(t) > TimeOfDay(u)
  }

  // The timestamps keep their order exactly when clamping does not overtake them.
  lemma AdvanceKeepsOrderIff(t: Instant, u: Instant, interval: Interval, count: int)
    requires t <= u
    ensures AdvanceBillingPeriod(t, interval, count) <= AdvanceBillingPeriod(u, interval, count) <==>
            DayBased(interval) || !OvertakenByClamping(t, u, MonthsIn(interval, count))
  {
    hide AdvanceBillingPeriod, DateOf, TimeOfDay, AddMonths, MonthLengthAfter, Ordinal;
    var t', u' := AdvanceBillingPeriod(t, interval, count), AdvanceBillingPeriod(u, interval, count);
    AdvanceShape(t, interval, count);
    AdvanceShape(u, interval, count);
    if !DayBased(interval) {
      InstantOrder(t, u);
      InstantOrder(t', u');
      InstantParts(t);
      InstantParts(u);
      AdvancedDateOrder(DateOf(t), DateOf(u), MonthsIn(interval, count));
    }
  }

  // Instants are ordered by date, then by time of day.
  lemma InstantOrder(t: Instant, u: Instant)
    ensures t <= u <==> DateBefore(DateOf(t), DateOf(u)) ||
                        (DateOf(t) == DateOf(u) && TimeOfDay(t) <= TimeOfDay(u))
  {
    hide DateOf, TimeOfDay, Ordinal;
    InstantParts(t);
    InstantParts(u);
    OrdinalOrder(DateOf(t), DateOf(u));
    OrdinalOrder(DateOf(u), DateOf(t));
  }

  // Two dates in order stay strictly apart, unless they are one date or are both cut to
  // the last day of one month.
  lemma AdvancedDateOrder(a: Date, b: Date, n: int)
    requires ValidDate(a) && ValidDate(b) && !DateBefore(b, a)
    ensures !DateBefore(AddMonths(b, n), AddMonths(a, n))
    ensures AddMonths(a, n) == AddMonths(b, n) <==>
            a.year == b.year && a.month == b.month && (a.day == b.day || a.day >= MonthLengthAfter(a, n))
  {
    AddMonthsMonotone(a, b, n);
    MonthIndex(a, n);
    MonthIndex(b, n);
  }

  // An instance: late on 30 January
  // precedes early on 31 January, but one month on the order is reversed.
  lemma AdvanceNotMonotoneOnInstants()
    ensures exists t: Instant, u: Instant ::
              t < u && AdvanceBillingPeriod(u, Monthly, 1) < AdvanceBillingPeriod(t, Monthly, 1)
  {
    hide AdvanceBillingPeriod, DateOf, TimeOfDay, Ordinal;
    var a, b, f := Date(2023, 1, 30), Date(2023, 1, 31), Date(2023, 2, 28);
    var t, u := At(a, 3_600_000_000), At(b, 0);
    PartsOfInstant(a, 3_600_000_000);
    PartsOfInstant(b, 0);
    assert AddMonths(a, 1) == f == AddMonths(b, 1);
    AdvanceShape(t, Monthly, 1);
    AdvanceShape(u, Monthly, 1);
    InstantParts(AdvanceBillingPeriod(t, Monthly, 1));
    InstantParts(AdvanceBillingPeriod(u, Monthly, 1));
    assert t < u by { OrdinalOrder(a, b); }
  }

  // ------------------------------------------------- iterated against one-shot

  function Iterate(t: Instant, interval: Interval, count: int, n: nat): Instant {
    if n == 0 then t
    else AdvanceBillingPeriod(Iterate(t, interval, count, n - 1), interval, count)
  }

  lemma {:induction false} IteratedDays(t: Instant, interval: Interval, count: int, n: nat)
    requires DayBased(interval)
    ensures Iterate(t, interval, count, n) == t + Days(DaysIn(interval, n * count))
  {
    hide AdvanceBillingPeriod;
    if n > 0 {
      IteratedDays(t, interval, count, n - 1);
      AdvanceShape(Iterate(t, interval, count, n - 1), interval, count);
      assert n * count == (n - 1) * count + count;
    }
  }

  lemma {:induction false} IteratedMonths(t: Instant, interval: Interval, count: int, n: nat)
    requires !DayBased(interval)
    ensures var d, e := DateOf(t), DateOf(Iterate(t, interval, count, n));
            ValidDate(d) && ValidDate(e) && e.day <= d.day && (d.day <= 28 ==> e.day == d.day) &&
            12 * e.year + e.month == 12 * d.year + d.month + MonthsIn(interval, n * count) &&
            TimeOfDay(Iterate(t, interval, count, n)) == TimeOfDay(t)
  {
    hide AdvanceBillingPeriod, DateOf, TimeOfDay, AddMonths;
    InstantParts(t);
    if n == 0 {
      assert n * count == 0;
    } else {
      var p := Iterate(t, interval, count, n - 1);
      IteratedMonths(t, interval, count, n - 1);
      AdvanceShape(p, interval, count);
      MonthIndex(DateOf(p), MonthsIn(interval, count));
      AddMonthsValid(DateOf(p), MonthsIn(interval, count));
      assert n * count == (n - 1) * count + count;
    }
  }

  // n renewals land in the same year and month as the n-th slot of the creation
  // table, on a day no later, on the same day whenever the start day is at most
  // 28, and at the same time of day; day and week intervals agree exactly.
  lemma IteratedNoLater(t: Instant, interval: Interval, count: int, n: nat)
    ensures var iterated, oneShot := Iterate(t, interval, count, n), ScheduleOffset(t, interval, n, count);
            var d, e := DateOf(iterated), DateOf(oneShot);
            && d.year == e.year && d.month == e.month && d.day <= e.day
            && TimeOfDay(iterated) == TimeOfDay(oneShot)
            && iterated <= oneShot
            && (DateOf(t).day <= 28 || DayBased(interval) ==> iterated == oneShot)
  {
    hide Iterate, ScheduleOffset, AdvanceBillingPeriod, DateOf, TimeOfDay;
    var iterated, oneShot := Iterate(t, interval, count, n), ScheduleOffset(t, interval, n, count);
    IntervalTablesAgree(t, interval, count, n);
    AdvanceShape(t, interval, n * count);
    if DayBased(interval) {
      IteratedDays(t, interval, count, n);
    } else {
      IteratedMonths(t, interval, count, n);
      MonthIndex(DateOf(t), MonthsIn(interval, n * count));
      InstantParts(iterated);
      InstantParts(oneShot);
      var d, e := DateOf(iterated), DateOf(oneShot);
      assert d.year == e.year && d.month == e.month;
      OrdinalOrder(e, d);
    }
  }

  // The day of an iterated advance is bounded by the start day and by the length of
  // every month visited, and by nothing else.
  lemma {:induction false} IteratedDayBound(t: Instant, interval: Interval, count: int, n: nat, b: int)
    requires !DayBased(interval)
    ensures b <= DateOf(Iterate(t, interval, count, n)).day <==>
            b <= DateOf(t).day && FitsMonths(DateOf(t), interval, count, n, b)
  {
    hide AdvanceBillingPeriod, DateOf, TimeOfDay, AddMonths, MonthLengthAfter;
    if n > 0 {
      var p := Iterate(t, interval, count, n - 1);
      IteratedDayBound(t, interval, count, n - 1, b);
      IteratedMonths(t, interval, count, n - 1);
      AdvanceShape(p, interval, count);
      ClampedDay(DateOf(p), MonthsIn(interval, count));
      assert n * count == (n - 1) * count + count;
      SameMonthSameLength(DateOf(t), DateOf(p), MonthsIn(interval, (n - 1) * count), MonthsIn(interval, count));
      assert VisitedLength(DateOf(t), interval, count, n) == MonthLengthAfter(DateOf(p), MonthsIn(interval, count));
    }
  }

  lemma SameMonthSameLength(d: Date, e: Date, m: int, n: int)
    requires 12 * e.year + e.month == 12 * d.year + d.month + m
    ensures MonthLengthAfter(e, n) == MonthLengthAfter(d, m + n)
  {}

  // The length of the month in which the k-th advance lands.
  function VisitedLength(d: Date, interval: Interval, count: int, k: nat): int {
    MonthLengthAfter(d, MonthsIn(interval, k * count))
  }

  // A day exists in every month that n advances visit.
  predicate FitsMonths(d: Date, interval: Interval, count: int, n: nat, day: int) {
    forall k: nat :: 1 <= k <= n ==> day <= VisitedLength(d, interval, count, k)
  }

  // n renewals against the n-th slot of the creation table: the same year, month and
  // time of day, on a day no later. They are one instant exactly when the day that the
  // slot falls on exists in every month visited on the way; so it is whenever the start
  // day is at most 28.
  lemma IteratedAgainstOneShot(t: Instant, interval: Interval, count: int, n: nat)
    ensures var iterated, oneShot := Iterate(t, interval, count, n), ScheduleOffset(t, interval, n, count);
            var d, e := DateOf(iterated), DateOf(oneShot);
            && d.year == e.year && d.month == e.month && d.day <= e.day
            && TimeOfDay(iterated) == TimeOfDay(oneShot)
            && iterated <= oneShot
            && (iterated == oneShot <==> DayBased(interval) || FitsMonths(DateOf(t), interval, count, n, e.day))
            && (DateOf(t).day <= 28 ==> iterated == oneShot)
  {
    hide Iterate, ScheduleOffset, AdvanceBillingPeriod, DateOf, TimeOfDay, FitsMonths, AddMonths;
    var iterated, oneShot := Iterate(t, interval, count, n), ScheduleOffset(t, interval, n, count);
    IteratedNoLater(t, interval, count, n);
    if !DayBased(interval) {
      IntervalTablesAgree(t, interval, count, n);
      AdvanceShape(t, interval, n * count);
      InstantParts(t);
      MonthIndex(DateOf(t), MonthsIn(interval, n * count));
      IteratedDayBound(t, interval, count, n, DateOf(oneShot).day);
      InstantParts(iterated);
      InstantParts(oneShot);
    }
  }

  // Clamping sticks: a renewal never falls on a later day of the month than an earlier
  // one did, and its day exists in every month visited before it.
  lemma DayNeverRecovers(t: Instant, interval: Interval, count: int, k: nat, n: nat)
    requires !DayBased(interval) && k <= n
    ensures var day := DateOf(Iterate(t, interval, count, n)).day;
            && day <= DateOf(Iterate(t, interval, count, k)).day
            && FitsMonths(DateOf(t), interval, count, n, day)
  {
    hide Iterate, DateOf, VisitedLength;
    var day := DateOf(Iterate(t, interval, count, n)).day;
    IteratedDayBound(t, interval, count, n, day);
    IteratedDayBound(t, interval, count, k, day);
  }

  // An instance: two monthly renewals of 31 January
  // end on 28 March, one addition of two months on 31 March.
  lemma ClampingSticks()
    ensures var t := At(Date(2023, 1, 31), 0);
            DateOf(Iterate(t, Monthly, 1, 2)) == Date(2023, 3, 28) &&
            DateOf(ScheduleOffset(t, Monthly, 2, 1)) == Date(2023, 3, 31)
  {
    hide AdvanceBillingPeriod, ScheduleOffset, DateOf, TimeOfDay, At;
    var jan := Date(2023, 1, 31);
    var t := At(jan, 0);
    PartsOfInstant(jan, 0);
    assert AddMonths(jan, 1) == Date(2023, 2, 28) && AddMonths(jan, 2) == Date(2023, 3, 31);
    assert AddMonths(Date(2023, 2, 28), 1) == Date(2023, 3, 28);
    var t1 := AdvanceBillingPeriod(t, Monthly, 1);
    assert Iterate(t, Monthly, 1, 0) == t;
    assert Iterate(t, Monthly, 1, 1) == t1;
    AdvanceShape(t, Monthly, 1);
    AdvanceShape(t1, Monthly, 1);
    IntervalTablesAgree(t, Monthly, 1, 2);
    AdvanceShape(t, Monthly, 2);
  }

  // n renewals move the period end by at least n days, so finitely many of them
  // pass any given instant.
  lemma {:induction false} IterateReaches(t: Instant, interval: Interval, count: int, n: nat)
    requires count >= 1
    ensures Iterate(t, interval, count, n) >= t + Days(n)
  {
    hide AdvanceBillingPeriod;
    if n > 0 {
      IterateReaches(t, interval, count, n - 1);
      AdvanceMakesProgress(Iterate(t, interval, count, n - 1), interval, count);
    }
  }

  lemma OverdueCatchesUp(t: Instant, now: Instant, interval: Interval, count: int)
    requires count >= 1
    ensures exists n: nat :: Days(n) <= Days(1) + (if now > t then now - t else 0) &&
                             Iterate(t, interval, count, n) > now
  {
    var n: nat := if now < t then 0 else (now - t) / 86_400_000_000 + 1;
    IterateReaches(t, interval, count, n);
    assert Days(n) <= Days(1) + (if now > t then now - t else 0);
  }

  // Slots of the creation table are strictly increasing.
  lemma ScheduleIncreasing(t: Instant, interval: Interval, count: int, i: int)
    requires count >= 1
    ensures ScheduleOffset(t, interval, i, count) < ScheduleOffset(t, interval, i + 1, count)
  {
    hide AdvanceBillingPeriod, ScheduleOffset, DateOf, TimeOfDay, AddMonths, Ordinal;
    IntervalTablesAgree(t, interval, count, i);
    IntervalTablesAgree(t, interval, count, i + 1);
    AdvanceShape(t, interval, i * count);
    AdvanceShape(t, interval, (i + 1) * count);
    assert (i + 1) * count == i * count + count;
    InstantParts(t);
    var u, v := AdvanceBillingPeriod(t, interval, i * count), AdvanceBillingPeriod(t, interval, (i + 1) * count);
    if !DayBased(interval) {
      MonthIndex(DateOf(t), MonthsIn(interval, i * count));
      MonthIndex(DateOf(t), MonthsIn(interval, (i + 1) * count));
      InstantParts(u);
      InstantParts(v);
      LaterMonthIsLater(DateOf(u), DateOf(v));
      OrdinalOrder(DateOf(u), DateOf(v));
    }
  }
}
