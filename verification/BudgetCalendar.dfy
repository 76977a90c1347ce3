/** The calendar arithmetic of budget resets: fixed steps on the time line, and months with an anchor day. */
module BudgetCalendar {
  import opened Options
  import opened Arithmetic

  const DAY: int := 86_400_000_000
  const HOUR: int := 3_600_000_000
  const MIN_YEAR: int := 1
  const MAX_YEAR: int := 9999

  /** A UTC date and the microseconds since its midnight. */
  datatype Moment = Moment(year: int, month: int, day: int, time: int)

  predicate IsLeap(year: int) {
    year % 4 == 0 && (year % 100 != 0 || year % 400 == 0)
  }

  function LastDay(year: int, month: int): (d: int)
    ensures 28 <= d <= 31
  {
    if month == 2 then (if IsLeap(year) then 29 else 28)
    else if month == 4 || month == 6 || month == 9 || month == 11 then 30
    else 31
  }

  predicate Valid(m: Moment) {
    && MIN_YEAR <= m.year <= MAX_YEAR && 1 <= m.month <= 12
    && 1 <= m.day <= LastDay(m.year, m.month) && 0 <= m.time < DAY
  }

  predicate Before(a: Moment, b: Moment) {
    || a.year < b.year
    || (a.year == b.year && a.month < b.month)
    || (a.year == b.year && a.month == b.month && a.day < b.day)
    || (a.year == b.year && a.month == b.month && a.day == b.day && a.time < b.time)
  }

  /** Months since year 0. */
  function MonthIndex(m: Moment): int {
    m.year * 12 + m.month - 1
  }

  // ----- adding months

  predicate ValidAnchor(anchor: Option<int>) {
    anchor.Some? ==> 1 <= anchor.value <= 31
  }

  predicate IsLastDayOfMonth(m: Moment) {
    m.day == LastDay(m.year, m.month)
  }

  /** `None` is the error raised for a year outside the calendar. */
  function AddMonths(v: Moment, months: int, anchor: Option<int>): Option<Moment> {
    var zeroBased := v.month - 1 + months;
    var year := v.year + zeroBased / 12;
    var month := zeroBased % 12 + 1;
    var last := LastDay(year, month);
    var day := match anchor
               case Some(a) => Min(a, last)
               case None => if IsLastDayOfMonth(v) then last else Min(v.day, last);
    if MIN_YEAR <= year <= MAX_YEAR then Some(Moment(year, month, day, v.time)) else None
  }

  function YearOf(index: int): int {
    index / 12
  }

  function MonthOf(index: int): int {
    index % 12 + 1
  }

  /** Adding months lands in the month counted by the index, keeps the time, and stays a date. */
  lemma AddMonthsLands(v: Moment, months: int, anchor: Option<int>)
    requires Valid(v) && ValidAnchor(anchor)
    ensures var index := MonthIndex(v) + months;
            match AddMonths(v, months, anchor)
            case None => YearOf(index) < MIN_YEAR || YearOf(index) > MAX_YEAR
            case Some(t) =>
              && Valid(t) && t.year == YearOf(index) && t.month == MonthOf(index)
              && MonthIndex(t) == index && t.time == v.time
              && (anchor.Some? ==> t.day == Min(anchor.value, LastDay(t.year, t.month)))
              && (anchor == None && IsLastDayOfMonth(v) ==> IsLastDayOfMonth(t))
              && (anchor == None && !IsLastDayOfMonth(v) ==> t.day == Min(v.day, LastDay(t.year, t.month)))
  {
    var index := MonthIndex(v) + months;
    assert index == 12 * v.year + (v.month - 1 + months);
    assert index / 12 == v.year + (v.month - 1 + months) / 12;
    assert index % 12 == (v.month - 1 + months) % 12;
  }

  /** No drift: with an anchor, two additions are one. */
  lemma AnchoredMonthsCompose(v: Moment, m: int, n: int, anchor: int)
    requires Valid(v) && 1 <= anchor <= 31 && AddMonths(v, m, Some(anchor)).Some?
    ensures AddMonths(AddMonths(v, m, Some(anchor)).value, n, Some(anchor)) == AddMonths(v, m + n, Some(anchor))
  {
    AddMonthsLands(v, m, Some(anchor));
    var mid := AddMonths(v, m, Some(anchor)).value;
    AddMonthsLands(mid, n, Some(anchor));
    AddMonthsLands(v, m + n, Some(anchor));
  }

  /** An anchor taken from the start date keeps the start date. */
  lemma AnchorFromStart(v: Moment)
    requires Valid(v)
    ensures AddMonths(v, 0, Some(v.day)) == Some(v)
  {
    AddMonthsLands(v, 0, Some(v.day));
  }

  /**
   Without an anchor two additions are one exactly when the start is a month end,
   or the month in between is long enough not to clamp the day, or the final
   month clamps it as well.
   */
  lemma UnanchoredMonthsCompose(v: Moment, m: int, n: int)
    requires Valid(v) && AddMonths(v, m, None).Some? && AddMonths(v, m + n, None).Some?
    ensures var mid, end := AddMonths(v, m, None).value, AddMonths(v, m + n, None).value;
            AddMonths(mid, n, None) == Some(end)
            <==> || IsLastDayOfMonth(v)
                 || v.day < LastDay(mid.year, mid.month)
                 || v.day >= LastDay(end.year, end.month)
  {
    AddMonthsLands(v, m, None);
    AddMonthsLands(v, m + n, None);
    AddMonthsLands(AddMonths(v, m, None).value, n, None);
  }

  /** January 30 drifts to March 31 through February 28. */
  lemma UnanchoredMonthsDrift()
    ensures var start := Moment(2023, 1, 30, 0);
            && AddMonths(start, 1, None) == Some(Moment(2023, 2, 28, 0))
            && AddMonths(Moment(2023, 2, 28, 0), 1, None) == Some(Moment(2023, 3, 31, 0))
            && AddMonths(start, 2, None) == Some(Moment(2023, 3, 30, 0))
  {
  }

  // ----- the time line

  function DaysInMonth(index: int): int {
    LastDay(YearOf(index), MonthOf(index))
  }

  /** Days of all months from the first month of the calendar up to this one. */
  function MonthStart(index: int): int
    decreases index
  {
    if index <= 12 then 0 else MonthStart(index - 1) + DaysInMonth(index - 1)
  }

  /** Microseconds since the beginning of the calendar. */
  function Line(m: Moment): int {
    (MonthStart(MonthIndex(m)) + m.day - 1) * DAY + m.time
  }

  lemma {:induction false} MonthStartGrows(i: int, j: int)
    requires 12 <= i < j
    ensures MonthStart(i) + DaysInMonth(i) <= MonthStart(j)
    decreases j
  {
    if i < j - 1 {
      MonthStartGrows(i, j - 1);
    }
  }

  lemma IndexParts(m: Moment)
    requires Valid(m)
    ensures YearOf(MonthIndex(m)) == m.year && MonthOf(MonthIndex(m)) == m.month
  {
  }

  /** The order of dates is the order on the time line. */
  lemma {:induction false} LineIsMonotone(a: Moment, b: Moment)
    requires Valid(a) && Valid(b)
    ensures Before(a, b) <==> Line(a) < Line(b)
    ensures a == b <==> Line(a) == Line(b)
  {
    IndexParts(a);
    IndexParts(b);
    if MonthIndex(a) < MonthIndex(b) {
      MonthStartGrows(MonthIndex(a), MonthIndex(b));
    } else if MonthIndex(b) < MonthIndex(a) {
      MonthStartGrows(MonthIndex(b), MonthIndex(a));
    }
  }

  /** Every date lies before the end of the calendar. */
  lemma {:induction false} DatesEnd(m: Moment)
    requires Valid(m)
    ensures Line(m) < MonthStart(12 * (MAX_YEAR + 1)) * DAY
  {
    IndexParts(m);
    MonthStartGrows(MonthIndex(m), 12 * (MAX_YEAR + 1));
  }

  // ----- the calendar is the Gregorian one

  /** Whole days before the first day of a year, counted by the 400-year rule. */
  function DaysBeforeYear(year: int): int {
    var y := year - 1;
    365 * y + y / 4 - y / 100 + y / 400
  }

  lemma NextMonthStart(year: int, month: int)
    requires year >= 1 && 1 <= month <= 12
    ensures MonthStart(12 * year + month) == MonthStart(12 * year + month - 1) + LastDay(year, month)
  {
    var index := 12 * year + month - 1;
    assert index / 12 == year && index % 12 == month - 1;
    assert YearOf(index) == year && MonthOf(index) == month;
  }

  /** The months of a year up to this one. */
  function DaysOfMonths(year: int, months: nat): int {
    if months == 0 then 0 else DaysOfMonths(year, months - 1) + LastDay(year, months)
  }

  lemma {:induction false} MonthsAddUp(year: int, months: nat)
    requires year >= 1 && months <= 12
    ensures MonthStart(12 * year + months) == MonthStart(12 * year) + DaysOfMonths(year, months)
  {
    if months > 0 {
      MonthsAddUp(year, months - 1);
      NextMonthStart(year, months);
    }
  }

  /** The lengths of the months. */
  lemma MonthLengths(year: int)
    ensures var february := if year % 4 == 0 && (year % 100 != 0 || year % 400 == 0) then 29 else 28;
            seq(12, m requires 0 <= m < 12 => LastDay(year, m + 1))
            == [31, february, 31, 30, 31, 30, 31, 31, 30, 31, 30, 31]
  {
  }

  lemma {:induction false} YearLength(year: int)
    requires year >= 1
    ensures DaysOfMonths(year, 12) == if year % 4 == 0 && (year % 100 != 0 || year % 400 == 0) then 366 else 365
  {
    assert DaysOfMonths(year, 1) == 31;
    assert DaysOfMonths(year, 3) == 62 + LastDay(year, 2);
    assert DaysOfMonths(year, 5) == 123 + LastDay(year, 2);
    assert DaysOfMonths(year, 7) == 184 + LastDay(year, 2);
    assert DaysOfMonths(year, 9) == 245 + LastDay(year, 2);
    assert DaysOfMonths(year, 11) == 306 + LastDay(year, 2);
  }

  lemma QuotientStep(y: int, n: int)
    requires n > 0
    ensures (y + 1) / n == y / n + if (y + 1) % n == 0 then 1 else 0
  {
    DivMod(y, n);
    DivMod(y + 1, n);
    var d := (y + 1) / n - y / n;
    Distribute(n, (y + 1) / n, -(y / n));
    assert n * d == 1 + y % n - (y + 1) % n;
    Above(n, d);
    Above(n, 1 - d);
  }

  lemma RuleStep(year: int)
    ensures DaysBeforeYear(year + 1)
            == DaysBeforeYear(year) + if year % 4 == 0 && (year % 100 != 0 || year % 400 == 0) then 366 else 365
  {
    QuotientStep(year - 1, 4);
    QuotientStep(year - 1, 100);
    QuotientStep(year - 1, 400);
  }

  /** The time line counts days as the 400-year rule does. */
  lemma {:induction false} YearsAreGregorian(year: int)
    requires year >= 1
    ensures MonthStart(12 * year) == DaysBeforeYear(year)
    decreases year
  {
    if year > 1 {
      var y := year - 1;
      YearsAreGregorian(y);
      MonthsAddUp(y, 12);
      YearLength(y);
      RuleStep(y);
    }
  }

  /** The date `days` days after the first of a month, walking over whole months. */
  function WalkDays(index: int, days: nat): Option<(int, int)>
    decreases days
  {
    if YearOf(index) > MAX_YEAR then None
    else if days < DaysInMonth(index) then Some((index, days + 1))
    else WalkDays(index + 1, days - DaysInMonth(index))
  }

  /** A date plus a positive time span; `None` is the overflow error. */
  function AddTime(m: Moment, span: nat): Option<Moment>
    requires Valid(m)
  {
    var total := m.time + span;
    match WalkDays(MonthIndex(m), m.day - 1 + total / DAY)
    case None => None
    case Some((index, day)) => Some(Moment(YearOf(index), MonthOf(index), day, total % DAY))
  }

  lemma {:induction false} WalkLands(index: int, days: nat)
    requires index >= 12
    ensures match WalkDays(index, days)
            case None => MonthStart(12 * (MAX_YEAR + 1)) <= MonthStart(index) + days
            case Some((i, day)) =>
              && index <= i && YearOf(i) <= MAX_YEAR && 1 <= day <= DaysInMonth(i)
              && MonthStart(i) + day - 1 == MonthStart(index) + days
    decreases days
  {
    if YearOf(index) > MAX_YEAR {
      if index > 12 * (MAX_YEAR + 1) {
        MonthStartGrows(12 * (MAX_YEAR + 1), index);
      }
    } else if days >= DaysInMonth(index) {
      WalkLands(index + 1, days - DaysInMonth(index));
    }
  }

  /** Days before, days more, and the rest of the time, on the line. */
  lemma CarryDays(days: int, more: int, rest: int, total: int)
    requires total == more * DAY + rest
    ensures (days + more) * DAY + rest == days * DAY + total
  {
  }

  /** `AddTime` moves along the time line by exactly the span, and fails only past the last year. */
  lemma {:induction false} AddTimeLands(m: Moment, span: nat)
    requires Valid(m)
    ensures match AddTime(m, span)
            case None => Line(m) + span >= MonthStart(12 * (MAX_YEAR + 1)) * DAY
            case Some(t) => Valid(t) && Line(t) == Line(m) + span
  {
    var total := m.time + span;
    var more, rest := total / DAY, total % DAY;
    DivMod(total, DAY);
    WalkLands(MonthIndex(m), m.day - 1 + more);
    CarryDays(MonthStart(MonthIndex(m)) + m.day - 1, more, rest, total);
    match WalkDays(MonthIndex(m), m.day - 1 + more)
    case None =>
    case Some((index, day)) =>
      assert MonthIndex(Moment(YearOf(index), MonthOf(index), day, rest)) == index;
  }

  // ----- the next reset

  datatype Unit = Hours | Days | Months

  datatype Duration = Duration(amount: int, unit: Unit)

  predicate ValidDuration(d: Duration) {
    1 <= d.amount <= 10_000
  }

  function StepOf(d: Duration): int {
    d.amount * (if d.unit == Hours then HOUR else DAY)
  }

  function NextFixedReset(v: Moment, step: int, now: Moment): Option<Moment>
    requires Valid(v) && step > 0
  {
    var elapsed := Max(0, (Line(now) - Line(v)) / step);
    StepIsPositive(step, elapsed);
    AddTime(v, step * (elapsed + 1))
  }

  lemma StepIsPositive(step: int, k: int)
    requires step > 0 && k >= 0
    ensures step * (k + 1) == step * k + step && step * k >= 0
  {
  }

  /**
   The fixed-step reset is the least `v + k * step`, k >= 1, after now; there is
   none only when that multiple lies past the last year.
   */
  lemma {:induction false} FixedResetIsLeast(v: Moment, step: int, now: Moment) returns (k: int)
    requires Valid(v) && Valid(now) && step > 0
    ensures k >= 1 && Line(v) + step * k > Line(now)
    ensures forall j | 1 <= j < k :: Line(v) + step * j <= Line(now)
    ensures match NextFixedReset(v, step, now)
            case None => Line(v) + step * k >= MonthStart(12 * (MAX_YEAR + 1)) * DAY
            case Some(t) => Valid(t) && Before(now, t) && Line(t) == Line(v) + step * k
  {
    var gap := Line(now) - Line(v);
    var elapsed := Max(0, gap / step);
    k := elapsed + 1;
    DivMod(gap, step);
    StepIsPositive(step, elapsed);
    Scale(step, elapsed, gap / step);
    AddTimeLands(v, step * k);
    forall j | 1 <= j < k
      ensures Line(v) + step * j <= Line(now)
    {
      Scale(step, elapsed, j);
    }
    var r := NextFixedReset(v, step, now);
    if r.Some? {
      LineIsMonotone(now, r.value);
    }
  }

  // ----- monthly resets

  /** The k-th candidate; candidates are counted from 1. */
  function Candidate(v: Moment, amount: int, anchor: Option<int>, k: int): Option<Moment> {
    AddMonths(v, amount * k, anchor)
  }

  function ElapsedMonths(v: Moment, now: Moment): int {
    Max(0, (now.year - v.year) * 12 + (now.month - v.month))
  }

  function FirstGuess(v: Moment, amount: int, now: Moment): int
    requires amount > 0
  {
    Max(1, ElapsedMonths(v, now) / amount)
  }

  /** The guess and, when that is not after now, the next candidate. */
  function NextMonthReset(v: Moment, amount: int, now: Moment, anchor: Option<int>): Option<Moment>
    requires amount > 0
  {
    var k := FirstGuess(v, amount, now);
    var guess := Candidate(v, amount, anchor, k);
    if guess.Some? && !Before(now, guess.value) then Candidate(v, amount, anchor, k + 1) else guess
  }

  lemma EarlierMonthIsBefore(a: Moment, b: Moment)
    requires Valid(a) && Valid(b) && MonthIndex(a) < MonthIndex(b)
    ensures Before(a, b)
  {
  }

  /** Candidates below the guess lie in months before now; the one above lies in a month after now. */
  lemma {:induction false} GuessBrackets(v: Moment, amount: int, now: Moment, anchor: Option<int>, j: int)
    requires Valid(v) && Valid(now) && amount > 0 && ValidAnchor(anchor)
    ensures 1 <= j < FirstGuess(v, amount, now) ==>
              Candidate(v, amount, anchor, j).Some? && Before(Candidate(v, amount, anchor, j).value, now)
    ensures j > FirstGuess(v, amount, now) && Candidate(v, amount, anchor, j).Some? ==>
              Before(now, Candidate(v, amount, anchor, j).value)
  {
    var elapsed := ElapsedMonths(v, now);
    var k := FirstGuess(v, amount, now);
    DivMod(elapsed, amount);
    AddMonthsLands(v, amount * j, anchor);
    if 1 <= j < k {
      Scale(amount, elapsed / amount - 1, j);
      Distribute(amount, elapsed / amount, 1);
      Scale(amount, j, 1);
      assert MonthIndex(v) + amount * j < MonthIndex(now);
      EarlierMonthIsBefore(Candidate(v, amount, anchor, j).value, now);
    } else if j > k && Candidate(v, amount, anchor, j).Some? {
      Scale(amount, j, elapsed / amount + 1);
      Distribute(amount, elapsed / amount, 1);
      EarlierMonthIsBefore(now, Candidate(v, amount, anchor, j).value);
    }
  }

  /**
   The monthly reset is the least candidate after now; there is none exactly when
   every candidate inside the calendar is at or before now.
   */
  lemma {:induction false} MonthResetIsLeast(v: Moment, amount: int, now: Moment, anchor: Option<int>) returns (k: int)
    requires Valid(v) && Valid(now) && amount > 0 && ValidAnchor(anchor)
    ensures k >= 1 && NextMonthReset(v, amount, now, anchor) == Candidate(v, amount, anchor, k)
    ensures forall j | 1 <= j < k ::
              Candidate(v, amount, anchor, j).Some? && !Before(now, Candidate(v, amount, anchor, j).value)
    ensures match NextMonthReset(v, amount, now, anchor)
            case Some(t) => Valid(t) && Before(now, t)
            case None => forall j | j >= k :: Candidate(v, amount, anchor, j) == None
  {
    var guess := FirstGuess(v, amount, now);
    var first := Candidate(v, amount, anchor, guess);
    k := if first.Some? && !Before(now, first.value) then guess + 1 else guess;
    forall j | 1 <= j < k
      ensures Candidate(v, amount, anchor, j).Some? && !Before(now, Candidate(v, amount, anchor, j).value)
    {
      if j < guess {
        GuessBrackets(v, amount, now, anchor, j);
      }
    }
    GuessBrackets(v, amount, now, anchor, guess + 1);
    AddMonthsLands(v, amount * k, anchor);
    if Candidate(v, amount, anchor, k) == None {
      forall j | j >= k
        ensures Candidate(v, amount, anchor, j) == None
      {
        LaterCandidateOverflows(v, amount, anchor, k, j);
      }
    }
  }

  lemma LaterCandidateOverflows(v: Moment, amount: int, anchor: Option<int>, k: int, j: int)
    requires Valid(v) && amount > 0 && ValidAnchor(anchor) && 1 <= k <= j
    requires Candidate(v, amount, anchor, k) == None
    ensures Candidate(v, amount, anchor, j) == None
  {
    Scale(amount, j, k);
    Scale(amount, k, 0);
    AddMonthsLands(v, amount * k, anchor);
    AddMonthsLands(v, amount * j, anchor);
    assert YearOf(MonthIndex(v) + amount * j) >= YearOf(MonthIndex(v) + amount * k);
    assert YearOf(MonthIndex(v) + amount * k) >= MIN_YEAR;
  }

  /** The loop of the original: it corrects the guess at most once. */
  method NextMonthResetAfter(v: Moment, amount: int, now: Moment, anchor: Option<int>)
    returns (next: Option<Moment>, corrections: nat)
    requires Valid(v) && Valid(now) && amount > 0 && ValidAnchor(anchor)
    ensures next == NextMonthReset(v, amount, now, anchor)
    ensures corrections <= 1
  {
    var intervals := FirstGuess(v, amount, now);
    ghost var guess := intervals;
    next := Candidate(v, amount, anchor, intervals);
    corrections := 0;
    while next.Some? && !Before(now, next.value)
      invariant corrections <= 1 && intervals == guess + corrections
      invariant next == Candidate(v, amount, anchor, intervals)
      invariant corrections == 1 ==>
                  var first := Candidate(v, amount, anchor, guess); first.Some? && !Before(now, first.value)
      decreases 1 - corrections
    {
      GuessBrackets(v, amount, now, anchor, guess + 1);
      intervals := intervals + 1;
      next := Candidate(v, amount, anchor, intervals);
      corrections := corrections + 1;
    }
    GuessBrackets(v, amount, now, anchor, guess + 1);
  }

  /** `None` when no later reset can be computed. */
  function NextResetAfter(d: Duration, v: Moment, now: Moment, anchor: Option<int>): Option<Moment>
    requires Valid(v) && ValidDuration(d)
  {
    if d.unit == Months then NextMonthReset(v, d.amount, now, anchor) else NextFixedReset(v, StepOf(d), now)
  }

  /** Whatever the unit, the next reset is a date strictly after now. */
  lemma {:induction false} NextResetIsLater(d: Duration, v: Moment, now: Moment, anchor: Option<int>)
    requires Valid(v) && Valid(now) && ValidDuration(d) && ValidAnchor(anchor)
    ensures var next := NextResetAfter(d, v, now, anchor);
            next.Some? ==> Valid(next.value) && Before(now, next.value)
  {
    if d.unit == Months {
      var k := MonthResetIsLeast(v, d.amount, now, anchor);
    } else {
      var k := FixedResetIsLeast(v, StepOf(d), now);
    }
  }
}
