/** Gregorian calendar dates as the application stores them: TEXT of the form
    `YYYY-MM-DD` in the `tanggal` column, produced by `strftime('%Y-%m-%d')`. */
module Calendar {
  import opened Text

  datatype Date = Date(year: int, month: int, day: int)

  predicate IsLeap(y: int) {
    y % 4 == 0 && (y % 100 != 0 || y % 400 == 0)
  }

  /** The second component of Python's `calendar.monthrange(y, m)`. */
  function DaysInMonth(y: int, m: int): (n: int)
    requires 1 <= m <= 12
    ensures 28 <= n <= 31
    ensures m == 2 ==> (n == 29 <==> IsLeap(y))
    ensures m != 2 ==> (n == 31 <==> m in {1, 3, 5, 7, 8, 10, 12})
    ensures m == 2 && !IsLeap(y) ==> n == 28
    ensures m in {4, 6, 9, 11} ==> n == 30
  {
    if m == 2 then (if IsLeap(y) then 29 else 28)
    else if m in {4, 6, 9, 11} then 30
    else 31
  }

  /** A real calendar day (any year). */
  predicate ValidDate(d: Date) {
    1 <= d.month <= 12 && 1 <= d.day <= DaysInMonth(d.year, d.month)
  }

  /** A day Python's `datetime` can represent (MINYEAR 1 to MAXYEAR 9999). */
  predicate WellFormed(d: Date) {
    ValidDate(d) && 1 <= d.year <= 9999
  }

  /** The dates a `tanggal` value can hold. */
  type Day = d: Date | WellFormed(d) witness Date(1970, 1, 1)

  /** Calendar order. */
  predicate Before(a: Date, b: Date) {
    a.year < b.year
    || (a.year == b.year && a.month < b.month)
    || (a.year == b.year && a.month == b.month && a.day < b.day)
  }

  predicate AtOrBefore(a: Date, b: Date) {
    Before(a, b) || a == b
  }

  /** `d.strftime('%Y-%m-%d')`. */
  function Iso(d: Date): (s: string)
    requires WellFormed(d)
    ensures |s| == 10 && s[4] == '-' && s[7] == '-'
  {
    Pad(d.year, 4) + ("-" + (Pad(d.month, 2) + ("-" + Pad(d.day, 2))))
  }

  /** `d.replace(day=1)`. */
  function FirstOfMonth(d: Date): (r: Date)
    requires ValidDate(d)
    ensures ValidDate(r) && r.day == 1
    ensures r.year == d.year && r.month == d.month
    ensures AtOrBefore(r, d)
  {
    Date(d.year, d.month, 1)
  }

  /** `d.replace(month=d.month + 1, day=1)`, or `d.replace(year=d.year + 1,
      month=1, day=1)` in December. */
  function FirstOfNextMonth(d: Date): (r: Date)
    requires ValidDate(d)
    ensures ValidDate(r) && r.day == 1 && Before(d, r)
    ensures d.month == 12 ==> r.year == d.year + 1 && r.month == 1
    ensures d.month < 12 ==> r.year == d.year && r.month == d.month + 1
  {
    if d.month == 12 then Date(d.year + 1, 1, 1) else Date(d.year, d.month + 1, 1)
  }

  /** The last day of the month before `d`'s month. */
  function PrevMonthEnd(d: Date): (r: Date)
    requires ValidDate(d)
    ensures ValidDate(r) && Before(r, d)
    ensures r.day == DaysInMonth(r.year, r.month)
    ensures MonthIndex(r) == MonthIndex(d) - 1
  {
    if d.month == 1 then Date(d.year - 1, 12, 31)
    else Date(d.year, d.month - 1, DaysInMonth(d.year, d.month - 1))
  }

  /** The day before `d`. */
  function PrevDay(d: Date): (r: Date)
    requires ValidDate(d)
    ensures ValidDate(r) && Before(r, d)
  {
    if d.day > 1 then Date(d.year, d.month, d.day - 1) else PrevMonthEnd(d)
  }

  /** Months counted from year 0, so that consecutive months differ by one. */
  function MonthIndex(d: Date): int {
    12 * d.year + d.month
  }

  /** `d - timedelta(days=n)`, computed a month at a time. */
  function MinusDays(d: Date, n: nat): (r: Date)
    requires ValidDate(d)
    ensures ValidDate(r) && AtOrBefore(r, d)
    ensures n > 0 ==> Before(r, d)
    decreases n
  {
    if n < d.day then Date(d.year, d.month, d.day - n)
    else MinusDays(PrevMonthEnd(d), n - d.day)
  }

  /** Reference definition: step back one day, `n` times. */
  function StepBack(d: Date, n: nat): (r: Date)
    requires ValidDate(d)
    ensures ValidDate(r)
  {
    if n == 0 then d else PrevDay(StepBack(d, n - 1))
  }

  // ---------------------------------------------------------------------------
  // ISO text order is calendar order

  lemma IsoInjective(a: Date, b: Date)
    requires WellFormed(a) && WellFormed(b)
    ensures Iso(a) == Iso(b) <==> a == b
  {
    if Iso(a) == Iso(b) {
      ConcatEq(Pad(a.year, 4), "-" + (Pad(a.month, 2) + ("-" + Pad(a.day, 2))),
               Pad(b.year, 4), "-" + (Pad(b.month, 2) + ("-" + Pad(b.day, 2))));
      ConcatEq("-", Pad(a.month, 2) + ("-" + Pad(a.day, 2)), "-", Pad(b.month, 2) + ("-" + Pad(b.day, 2)));
      ConcatEq(Pad(a.month, 2), "-" + Pad(a.day, 2), Pad(b.month, 2), "-" + Pad(b.day, 2));
      ConcatEq("-", Pad(a.day, 2), "-", Pad(b.day, 2));
      PadInjective(a.year, b.year, 4);
      PadInjective(a.month, b.month, 2);
      PadInjective(a.day, b.day, 2);
    }
  }

  /** The lexicographic order of zero-padded ISO dates is calendar order; this
      is what makes SQL's `tanggal >= ?` and `tanggal < ?` on TEXT compare days. */
  lemma IsoLtIsBefore(a: Date, b: Date)
    requires WellFormed(a) && WellFormed(b)
    ensures LexLt(Iso(a), Iso(b)) <==> Before(a, b)
  {
    var ra := "-" + (Pad(a.month, 2) + ("-" + Pad(a.day, 2)));
    var rb := "-" + (Pad(b.month, 2) + ("-" + Pad(b.day, 2)));
    LexLtAppend(Pad(a.year, 4), ra, Pad(b.year, 4), rb);
    PadLt(a.year, b.year, 4);
    PadInjective(a.year, b.year, 4);
    var sa := Pad(a.month, 2) + ("-" + Pad(a.day, 2));
    var sb := Pad(b.month, 2) + ("-" + Pad(b.day, 2));
    LexLtAppend("-", sa, "-", sb);
    LexLtIrreflexive("-");
    LexLtAppend(Pad(a.month, 2), "-" + Pad(a.day, 2), Pad(b.month, 2), "-" + Pad(b.day, 2));
    PadLt(a.month, b.month, 2);
    PadInjective(a.month, b.month, 2);
    LexLtAppend("-", Pad(a.day, 2), "-", Pad(b.day, 2));
    PadLt(a.day, b.day, 2);
  }

  lemma IsoLeIsAtOrBefore(a: Date, b: Date)
    requires WellFormed(a) && WellFormed(b)
    ensures LexLe(Iso(a), Iso(b)) <==> AtOrBefore(a, b)
  {
    IsoLtIsBefore(a, b);
    IsoInjective(a, b);
  }

  /** A day lies in `[first of d's month, first of the following month)`
      exactly when it is in d's calendar month. */
  lemma MonthWindow(d: Date, t: Date)
    requires ValidDate(d) && ValidDate(t)
    ensures AtOrBefore(FirstOfMonth(d), t) && Before(t, FirstOfNextMonth(d))
            <==> t.year == d.year && t.month == d.month
  {
  }

  // ---------------------------------------------------------------------------
  // Subtracting days

  /** Subtracting one more day is taking the previous day. */
  lemma {:induction false} MinusDaysStep(d: Date, n: nat)
    requires ValidDate(d)
    ensures MinusDays(d, n + 1) == PrevDay(MinusDays(d, n))
    decreases n
  {
    if n + 1 < d.day {
    } else if n + 1 == d.day {
      assert MinusDays(d, n) == Date(d.year, d.month, 1);
      assert MinusDays(PrevMonthEnd(d), 0) == PrevMonthEnd(d);
    } else {
      MinusDaysStep(PrevMonthEnd(d), n - d.day);
    }
  }

  /** The month-at-a-time computation agrees with stepping back day by day. */
  lemma {:induction false} MinusDaysIsStepBack(d: Date, n: nat)
    requires ValidDate(d)
    ensures MinusDays(d, n) == StepBack(d, n)
  {
    if n > 0 {
      MinusDaysIsStepBack(d, n - 1);
      MinusDaysStep(d, n - 1);
    }
  }

  lemma {:induction false} StepBackSplit(d: Date, n: nat, m: nat)
    requires ValidDate(d)
    ensures StepBack(d, n + m) == StepBack(StepBack(d, n), m)
    decreases m
  {
    if m > 0 {
      StepBackSplit(d, n, m - 1);
    }
  }

  /** Going back `n + m` days is going back `n` days, then `m`. */
  lemma MinusDaysSplit(d: Date, n: nat, m: nat)
    requires ValidDate(d)
    ensures MinusDays(d, n + m) == MinusDays(MinusDays(d, n), m)
  {
    MinusDaysIsStepBack(d, n + m);
    MinusDaysIsStepBack(d, n);
    MinusDaysIsStepBack(MinusDays(d, n), m);
    StepBackSplit(d, n, m);
  }

  /** Going further back never lands later. */
  lemma {:induction false} MinusDaysMonotone(d: Date, n: nat, m: nat)
    requires ValidDate(d) && n <= m
    ensures AtOrBefore(MinusDays(d, m), MinusDays(d, n))
    decreases n
  {
    if m < d.day {
    } else if n < d.day {
      assert AtOrBefore(MinusDays(PrevMonthEnd(d), m - d.day), PrevMonthEnd(d));
    } else {
      MinusDaysMonotone(PrevMonthEnd(d), n - d.day, m - d.day);
    }
  }

  lemma {:induction false} MinusDaysMonthBoundFromEnd(d: Date, n: nat)
    requires ValidDate(d) && d.day >= 28
    ensures MonthIndex(MinusDays(d, n)) >= MonthIndex(d) - n / 28
    decreases n
  {
    if n >= d.day {
      MinusDaysMonthBoundFromEnd(PrevMonthEnd(d), n - d.day);
    }
  }

  /** Going back `n` days crosses at most `1 + n / 28` month boundaries. */
  lemma MinusDaysMonthBound(d: Date, n: nat)
    requires ValidDate(d)
    ensures MonthIndex(MinusDays(d, n)) >= MonthIndex(d) - 1 - n / 28
  {
    if n >= d.day {
      MinusDaysMonthBoundFromEnd(PrevMonthEnd(d), n - d.day);
    }
  }

  /** Within a year's worth of days, the result stays in the current or the
      previous year. */
  lemma MinusDaysYearBound(d: Date, n: nat)
    requires ValidDate(d) && n <= 308
    ensures d.year - 1 <= MinusDays(d, n).year <= d.year
  {
    MinusDaysMonthBound(d, n);
  }
}
