/** Monthly budgets do not drift, whatever stale rows the racing checkers read. */
module BudgetSchedule {
  import opened Options
  import opened BudgetCalendar
  import opened SpendLedger
  import opened BillingRuns

  /** The day of the month a monthly budget is anchored to. */
  function AnchorOf(row: Row): int
    requires row.resetAt.Some?
  {
    if row.anchor.Some? then row.anchor.value else row.resetAt.value.day
  }

  predicate IsMonthly(row: Row) {
    row.resetAt.Some? && row.duration.Some? && row.duration.value.unit == Months
  }

  /** Reset to the n-th period after the first reset date, and anchored to the first day. */
  predicate Periodic(first: Row, row: Row, n: int)
    requires IsMonthly(first)
  {
    && n >= 1 && row.anchor == Some(AnchorOf(first))
    && row.resetAt == Candidate(first.resetAt.value, first.duration.value.amount, Some(AnchorOf(first)), n)
  }

  /** Never reset, or reset to the first date plus a whole number of periods, clamped to the month's end. */
  ghost predicate OnSchedule(first: Row, row: Row) {
    IsMonthly(first) ==>
      (row.resetAt == first.resetAt && row.anchor == first.anchor) || exists n :: Periodic(first, row, n)
  }

  lemma {:induction false} PlanForRow(entity: Row, now: Moment) returns (k: int)
    requires ValidRow(entity) && Valid(now)
    ensures var plan := PlanReset(entity, now);
            plan.Some? ==>
              && entity.resetAt == Some(plan.value.from) && Forward(plan)
              && (IsMonthly(entity) ==>
                    && k >= 1
                    && Candidate(plan.value.from, entity.duration.value.amount, Some(AnchorOf(entity)), k)
                        == Some(plan.value.to)
                    && (plan.value.inferredAnchor == if entity.anchor.Some? then None else Some(AnchorOf(entity))))
  {
    PlansAreForward(entity, now);
    k := 1;
    if PlanReset(entity, now).Some? && IsMonthly(entity) {
      k := MonthResetIsLeast(entity.resetAt.value, entity.duration.value.amount, now, Some(AnchorOf(entity)));
    }
  }

  lemma ComposePeriods(start: Moment, amount: int, anchor: int, n: int, k: int)
    requires Valid(start) && 1 <= anchor <= 31 && Candidate(start, amount, Some(anchor), n).Some?
    ensures Candidate(Candidate(start, amount, Some(anchor), n).value, amount, Some(anchor), k)
            == Candidate(start, amount, Some(anchor), n + k)
  {
    AnchoredMonthsCompose(start, amount * n, amount * k, anchor);
    assert amount * (n + k) == amount * n + amount * k;
  }

  /** Two rows of one account, the second one later: a reset time never goes back, and determines the anchor. */
  predicate InOrder(r: Row, r': Row) {
    && r'.duration == r.duration
    && (r'.resetAt.Some? <==> r.resetAt.Some?)
    && (r.resetAt.Some? ==> Line(r.resetAt.value) <= Line(r'.resetAt.value))
    && (r'.resetAt == r.resetAt ==> r'.anchor == r.anchor)
  }

  lemma {:induction false} CheckKeepsSchedule(first: Row, row: Row, entity: Row, now: Moment, db: DbOutcome)
    requires ValidRow(first) && ValidRow(row) && ValidRow(entity) && Valid(now)
    requires OnSchedule(first, row) && first.duration == row.duration && InOrder(entity, row)
    ensures var row' := CheckedRow(row, PlanReset(entity, now), db);
            OnSchedule(first, row') && ValidRow(row') && InOrder(row, row')
  {
    var k := PlanForRow(entity, now);
    var plan := PlanReset(entity, now);
    if Applies(row, plan, db) && IsMonthly(first) {
      var row' := CheckedRow(row, plan, db);
      if row.resetAt == first.resetAt && row.anchor == first.anchor {
        assert Periodic(first, row', k);
      } else {
        var n :| Periodic(first, row, n);
        ComposePeriods(first.resetAt.value, first.duration.value.amount, AnchorOf(first), n, k);
        assert Periodic(first, row', n + k);
      }
    }
  }

  ghost predicate Kept(history: seq<Billing>, last: Ledger, a: Account) {
    && history != []
    && (forall i | 0 <= i < |history| ::
          && (a in history[i].ledger.rows <==> a in last.rows)
          && (a in last.rows ==> InOrder(history[i].ledger.rows[a], last.rows[a])))
    && (a in last.rows ==>
          && ValidRow(history[0].ledger.rows[a]) && ValidRow(last.rows[a])
          && OnSchedule(history[0].ledger.rows[a], last.rows[a]))
  }

  lemma {:induction false} OrderExtends(early: Row, late: Row, row: Row)
    requires InOrder(early, late) && InOrder(late, row)
    requires row.resetAt == late.resetAt
             || (row.resetAt.Some? && late.resetAt.Some? && Line(late.resetAt.value) < Line(row.resetAt.value))
    ensures InOrder(early, row)
  {
  }

  /** One account's row moved on, whatever else changed. */
  lemma {:induction false} RowKeeps(history: seq<Billing>, last: Ledger, next: Ledger, a: Account)
    requires Kept(history, last, a) && (a in next.rows <==> a in last.rows)
    requires a in last.rows ==>
               && InOrder(last.rows[a], next.rows[a]) && ValidRow(next.rows[a])
               && OnSchedule(history[0].ledger.rows[a], next.rows[a])
               && (next.rows[a].resetAt == last.rows[a].resetAt
                   || Line(last.rows[a].resetAt.value) < Line(next.rows[a].resetAt.value))
    ensures Kept(history, next, a)
  {
    if a in last.rows {
      forall i | 0 <= i < |history|
        ensures InOrder(history[i].ledger.rows[a], next.rows[a])
      {
        OrderExtends(history[i].ledger.rows[a], last.rows[a], next.rows[a]);
      }
    }
  }

  lemma {:induction false} SpendKeepsSchedule(first: Row, row: Row, spend: real)
    requires OnSchedule(first, row)
    ensures OnSchedule(first, row.(spend := spend))
  {
    if IsMonthly(first) && !(row.resetAt == first.resetAt && row.anchor == first.anchor) {
      var n :| Periodic(first, row, n);
      assert Periodic(first, row.(spend := spend), n);
    }
  }

  lemma {:induction false} LogSpendKeepsRow(history: seq<Billing>, s: Billing, c: Charge, a: Account)
    requires Kept(history, s.ledger, a)
    ensures Kept(history, AfterLogSpend(s, c).ledger, a)
  {
    var next := AfterLogSpend(s, c).ledger;
    IncrementRowsAt(s.ledger.rows, c, a);
    if a in s.ledger.rows {
      SpendKeepsSchedule(history[0].ledger.rows[a], s.ledger.rows[a], next.rows[a].spend);
      assert next.rows[a] == s.ledger.rows[a].(spend := next.rows[a].spend);
    }
    RowKeeps(history, s.ledger, next, a);
  }

  lemma {:induction false} CheckKeepsRow(history: seq<Billing>, s: Billing, entity: Row, now: Moment, db: DbOutcome,
                                         a: Account)
    requires Kept(history, s.ledger, a) && a in s.ledger.rows
    requires ValidRow(entity) && Valid(now) && InOrder(entity, s.ledger.rows[a])
    ensures Kept(history, AfterCheck(s, a, PlanReset(entity, now), db).ledger, a)
  {
    var plan := PlanReset(entity, now);
    var row := s.ledger.rows[a];
    PlansAreForward(entity, now);
    CheckKeepsSchedule(history[0].ledger.rows[a], row, entity, now, db);
    assert AfterCheck(s, a, plan, db).ledger.rows[a] == CheckedRow(row, plan, db);
    RowKeeps(history, s.ledger, AfterCheck(s, a, plan, db).ledger, a);
  }

  lemma {:induction false} StepKeeps(history: seq<Billing>, step: Step, next: Billing, a: Account)
    requires Follows(history, step, next)
    requires Kept(history, history[|history| - 1].ledger, a)
    ensures Kept(history, next.ledger, a)
  {
    var s := history[|history| - 1];
    match step
    case LogSpend(c) => LogSpendKeepsRow(history, s, c, a);
    case CheckBudget(account, readAt, now, db) =>
      if account == a {
        CheckKeepsRow(history, s, history[readAt].ledger.rows[a], now, db, a);
      } else {
        RowKeeps(history, s.ledger, next.ledger, a);
      }
  }

  /**
   No drift: in every run, an account with a monthly budget is reset only to its
   first reset date plus whole periods, clamped to the month's end; the rows that
   checkers may have read earlier are in order, and every row stays valid.
   */
  lemma {:induction false} EveryRunKeepsSchedule(history: seq<Billing>, steps: seq<Step>, a: Account)
    requires IsRun(history, steps)
    ensures Kept(history, history[|steps|].ledger, a)
    decreases |steps|
  {
    if steps != [] {
      var n := |steps| - 1;
      var before := history[..n + 1];
      EveryRunKeepsSchedule(before, steps[..n], a);
      StepKeeps(before, steps[n], history[n + 1], a);
      assert forall i | 0 <= i <= n :: history[i] == before[i];
    }
  }
}
