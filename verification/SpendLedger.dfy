/**
 Spend events and the cumulative counters of keys, users, teams, organizations and
 team-models: logging an event once, and resetting a budget by compare-and-swap.
 Amounts are exact reals.
 */
module SpendLedger {
  import opened Options
  import opened BudgetCalendar

  datatype Account = Key(id: nat) | User(id: nat) | Team(id: nat) | Organization(id: nat)

  datatype Row = Row(spend: real, resetAt: Option<Moment>, duration: Option<Duration>, anchor: Option<int>)

  /** A missing or empty identifier is `None`. */
  datatype Charge = Charge(
    event: nat,
    key: Option<nat>,
    user: Option<nat>,
    team: Option<nat>,
    organization: Option<nat>,
    model: Option<nat>,
    cost: real)

  datatype Ledger = Ledger(rows: map<Account, Row>, teamModels: map<(nat, nat), real>, events: map<nat, Charge>)

  datatype LogResult = Inserted | Duplicate

  function AccountsOf(c: Charge): set<Account> {
    (if c.key.Some? then {Key(c.key.value)} else {})
    + (if c.user.Some? then {User(c.user.value)} else {})
    + (if c.team.Some? then {Team(c.team.value)} else {})
    + (if c.organization.Some? then {Organization(c.organization.value)} else {})
  }

  function TeamModelsOf(c: Charge): set<(nat, nat)> {
    if c.team.Some? && c.model.Some? then {(c.team.value, c.model.value)} else {}
  }

  /** An update of one table touches the row of the account, if there is one. */
  function IncrementAccount(rows: map<Account, Row>, account: Account, id: Option<nat>,
                            amount: real): map<Account, Row> {
    if id.Some? && account in rows then rows[account := rows[account].(spend := rows[account].spend + amount)] else rows
  }

  function Or0(id: Option<nat>): nat {
    if id.Some? then id.value else 0
  }

  function IncrementRows(rows: map<Account, Row>, c: Charge): map<Account, Row> {
    var r1 := IncrementAccount(rows, Key(Or0(c.key)), c.key, c.cost);
    var r2 := IncrementAccount(r1, User(Or0(c.user)), c.user, c.cost);
    var r3 := IncrementAccount(r2, Team(Or0(c.team)), c.team, c.cost);
    IncrementAccount(r3, Organization(Or0(c.organization)), c.organization, c.cost)
  }

  /** The team-model counter is created on demand. */
  function IncrementTeamModels(teamModels: map<(nat, nat), real>, c: Charge): map<(nat, nat), real> {
    if c.team.Some? && c.model.Some? then
      var k := (c.team.value, c.model.value);
      teamModels[k := (if k in teamModels then teamModels[k] else 0.0) + c.cost]
    else teamModels
  }

  function Increment(l: Ledger, c: Charge): Ledger {
    if c.cost <= 0.0 then l
    else l.(rows := IncrementRows(l.rows, c), teamModels := IncrementTeamModels(l.teamModels, c))
  }

  /** The four updates add the cost to exactly the accounts of the charge, and change nothing else. */
  lemma IncrementRowsAt(rows: map<Account, Row>, c: Charge, a: Account)
    ensures IncrementRows(rows, c).Keys == rows.Keys
    ensures a in rows ==>
              IncrementRows(rows, c)[a]
              == rows[a].(spend := rows[a].spend + if a in AccountsOf(c) then c.cost else 0.0)
  {
  }

  /** Whom a charge is for: the counters of its own key, user, team and organization. */
  lemma ChargedAccounts(c: Charge, a: Account, k: (nat, nat))
    ensures a in AccountsOf(c)
            <==> match a
                 case Key(id) => c.key == Some(id)
                 case User(id) => c.user == Some(id)
                 case Team(id) => c.team == Some(id)
                 case Organization(id) => c.organization == Some(id)
    ensures k in TeamModelsOf(c) <==> c.team == Some(k.0) && c.model == Some(k.1)
  {
  }

  /** The insert that skips an event identifier already present. */
  function LogOnce(l: Ledger, c: Charge): (LogResult, Ledger) {
    if c.event in l.events then (Duplicate, l)
    else (Inserted, Increment(l.(events := l.events[c.event := c]), c))
  }

  function CounterOf(l: Ledger, k: (nat, nat)): real {
    if k in l.teamModels then l.teamModels[k] else 0.0
  }

  /** Logging charges what the event names, the first time and if the cost is positive. */
  lemma LogOnceCharges(l: Ledger, c: Charge, a: Account, k: (nat, nat))
    ensures var after := LogOnce(l, c).1;
            var charged := c.event !in l.events && c.cost > 0.0;
            && after.rows.Keys == l.rows.Keys
            && (a in l.rows ==>
                  var raised := if charged && a in AccountsOf(c) then c.cost else 0.0;
                  after.rows[a] == l.rows[a].(spend := l.rows[a].spend + raised))
            && CounterOf(after, k) == CounterOf(l, k) + (if charged && k in TeamModelsOf(c) then c.cost else 0.0)
            && after.events == if c.event in l.events then l.events else l.events[c.event := c]
  {
    IncrementRowsAt(l.rows, c, a);
  }

  // ----- budget resets

  datatype ResetPlan = ResetPlan(from: Moment, to: Moment, inferredAnchor: Option<int>)

  predicate ValidRow(r: Row) {
    && (r.resetAt.Some? ==> Valid(r.resetAt.value))
    && (r.duration.Some? ==> ValidDuration(r.duration.value))
    && ValidAnchor(r.anchor)
  }

  /** What a checker that read `entity` will try to write at time `now`. */
  function PlanReset(entity: Row, now: Moment): Option<ResetPlan>
    requires ValidRow(entity) && Valid(now)
  {
    if entity.duration == None || entity.resetAt == None || Before(now, entity.resetAt.value) then None
    else
      var from, duration := entity.resetAt.value, entity.duration.value;
      var inferred := if entity.anchor == None && duration.unit == Months then Some(from.day) else None;
      var anchor := if inferred.Some? then inferred else entity.anchor;
      match NextResetAfter(duration, from, now, anchor)
      case None => None
      case Some(to) => Some(ResetPlan(from, to, inferred))
  }

  /** A row is due for a reset when it has a budget period and its reset time is not after now. */
  predicate IsDue(row: Row, now: Moment) {
    row.duration.Some? && row.resetAt.Some? && (row.resetAt.value == now || Before(row.resetAt.value, now))
  }

  lemma NoPlanUnlessDue(row: Row, now: Moment)
    requires ValidRow(row) && Valid(now)
    ensures PlanReset(row, now).Some? ==> IsDue(row, now)
  {
    if row.duration.Some? && row.resetAt.Some? {
      LineIsMonotone(row.resetAt.value, now);
      LineIsMonotone(now, row.resetAt.value);
    }
  }

  /**
   A due budget of hours or days is reset to the least `from + k * span`, k >= 1, after now; there is a plan unless no
   date lies that late.
   */
  lemma {:induction false} FixedBudgetIsPlanned(row: Row, now: Moment) returns (k: int)
    requires ValidRow(row) && Valid(now) && IsDue(row, now) && row.duration.value.unit != Months
    ensures var from, amount := row.resetAt.value, row.duration.value.amount;
            var span := if row.duration.value.unit == Hours then amount * 3_600_000_000 else amount * 86_400_000_000;
            && k >= 1 && Line(from) + span * k > Line(now)
            && (forall j | 1 <= j < k :: Line(from) + span * j <= Line(now))
            && match PlanReset(row, now)
               case None => forall m | Valid(m) :: Line(m) < Line(from) + span * k
               case Some(plan) =>
                 && plan.from == from && plan.inferredAnchor == None
                 && Valid(plan.to) && Line(plan.to) == Line(from) + span * k
  {
    var from := row.resetAt.value;
    LineIsMonotone(from, now);
    LineIsMonotone(now, from);
    k := FixedResetIsLeast(from, StepOf(row.duration.value), now);
    forall m | Valid(m) ensures Line(m) < MonthStart(12 * (MAX_YEAR + 1)) * DAY {
      DatesEnd(m);
    }
  }

  /** The date in this month that a monthly budget anchored to this day is reset on. */
  function AnchoredDate(index: int, day: int, time: int): Moment {
    Moment(YearOf(index), MonthOf(index), if day <= DaysInMonth(index) then day else DaysInMonth(index), time)
  }

  /** What the planning of a due monthly budget comes to. */
  lemma MonthlyPlan(row: Row, now: Moment)
    requires ValidRow(row) && Valid(now) && IsDue(row, now) && row.duration.value.unit == Months
    ensures var from, amount := row.resetAt.value, row.duration.value.amount;
            var day := if row.anchor.Some? then row.anchor.value else from.day;
            PlanReset(row, now)
            == match NextMonthReset(from, amount, now, Some(day))
               case None => None
               case Some(to) => Some(ResetPlan(from, to, if row.anchor.Some? then None else Some(from.day)))
  {
    LineIsMonotone(row.resetAt.value, now);
    LineIsMonotone(now, row.resetAt.value);
  }

  /**
   A due budget of months is reset to the first period after now: `amount` months further each time, on the anchored
   day clamped to the month, at the same time of day; there is a plan unless that lies past the last year.
   */
  lemma {:induction false} MonthlyBudgetIsPlanned(row: Row, now: Moment) returns (k: int)
    requires ValidRow(row) && Valid(now) && IsDue(row, now) && row.duration.value.unit == Months
    ensures var from, amount := row.resetAt.value, row.duration.value.amount;
            var day := if row.anchor.Some? then row.anchor.value else from.day;
            && k >= 1
            && (forall j | 1 <= j < k :: !Before(now, AnchoredDate(MonthIndex(from) + amount * j, day, from.time)))
            && match PlanReset(row, now)
               case None => YearOf(MonthIndex(from) + amount * k) > 9999
               case Some(plan) =>
                 && plan.from == from && Before(now, plan.to)
                 && plan.to == AnchoredDate(MonthIndex(from) + amount * k, day, from.time)
                 && (plan.inferredAnchor == if row.anchor.Some? then None else Some(from.day))
  {
    var from, amount := row.resetAt.value, row.duration.value.amount;
    var day := if row.anchor.Some? then row.anchor.value else from.day;
    MonthlyPlan(row, now);
    k := MonthResetIsLeast(from, amount, now, Some(day));
    CandidateIsAnchored(from, amount, day, k);
    forall j | 1 <= j < k ensures !Before(now, AnchoredDate(MonthIndex(from) + amount * j, day, from.time)) {
      CandidateIsAnchored(from, amount, day, j);
    }
  }

  lemma CandidateIsAnchored(from: Moment, amount: int, day: int, k: int)
    requires Valid(from) && 1 <= day <= 31 && amount >= 1 && k >= 1
    ensures var index := MonthIndex(from) + amount * k;
            match Candidate(from, amount, Some(day), k)
            case None => YearOf(index) > 9999
            case Some(t) => t == AnchoredDate(index, day, from.time)
  {
    AddMonthsLands(from, amount * k, Some(day));
    assert amount * k >= 1;
  }

  function ApplyReset(r: Row, plan: ResetPlan): Row {
    r.(spend := 0.0,
       resetAt := Some(plan.to),
       anchor := if plan.inferredAnchor.Some? then plan.inferredAnchor else r.anchor)
  }

  /** The write happens only if the reset time is still the one that was read. */
  predicate Applies(r: Row, plan: Option<ResetPlan>, db: DbOutcome) {
    plan.Some? && db != RaisesBeforeCommit && r.resetAt == Some(plan.value.from)
  }

  /** The row after the planned compare-and-swap. */
  function CheckedRow(r: Row, plan: Option<ResetPlan>, db: DbOutcome): Row {
    if Applies(r, plan, db) then ApplyReset(r, plan.value) else r
  }

  // ----- the services, in place

  class LedgerStore {
    var rows: map<Account, Row>
    var teamModels: map<(nat, nat), real>
    var events: map<nat, Charge>

    ghost function View(): Ledger
      reads this
    {
      Ledger(rows, teamModels, events)
    }

    constructor (l: Ledger)
      ensures View() == l
    {
      rows, teamModels, events := l.rows, l.teamModels, l.events;
    }

    method IncrementTable(account: Account, id: Option<nat>, amount: real)
      modifies this`rows
      ensures rows == IncrementAccount(old(rows), account, id, amount)
    {
      if id.Some? && account in rows {
        rows := rows[account := rows[account].(spend := rows[account].spend + amount)];
      }
    }

    method IncrementTeamModel(c: Charge)
      modifies this`teamModels
      ensures teamModels == IncrementTeamModels(old(teamModels), c)
    {
      if c.team.Some? && c.model.Some? {
        var k := (c.team.value, c.model.value);
        teamModels := teamModels[k := (if k in teamModels then teamModels[k] else 0.0) + c.cost];
      }
    }

    method IncrementSpend(c: Charge)
      modifies this`rows, this`teamModels
      ensures View() == Increment(old(View()), c)
    {
      if c.cost <= 0.0 {
        return;
      }
      IncrementTable(Key(Or0(c.key)), c.key, c.cost);
      IncrementTable(User(Or0(c.user)), c.user, c.cost);
      IncrementTable(Team(Or0(c.team)), c.team, c.cost);
      IncrementTable(Organization(Or0(c.organization)), c.organization, c.cost);
      IncrementTeamModel(c);
    }

    method LogSpendOnce(c: Charge) returns (result: LogResult)
      modifies this
      ensures (result, View()) == LogOnce(old(View()), c)
    {
      if c.event in events {
        return Duplicate;
      }
      events := events[c.event := c];
      IncrementSpend(c);
      return Inserted;
    }

    /** Checks a budget read earlier as `entity`, and answers with what the caller will enforce against. */
    method CheckBudgetReset(account: Account, entity: Row, now: Moment, db: DbOutcome) returns (r: Row)
      requires account in rows && ValidRow(entity) && Valid(now)
      modifies this`rows
      ensures rows == old(rows)[account := CheckedRow(old(rows)[account], PlanReset(entity, now), db)]
      ensures match PlanReset(entity, now)
              case None => r == entity
              case Some(plan) =>
                if db != Commits then r == entity
                else if old(rows)[account].resetAt == Some(plan.from) then r == ApplyReset(entity, plan)
                else r == rows[account]
    {
      r := entity;
      if entity.duration == None || entity.resetAt == None {
        return;
      }
      var from, duration := entity.resetAt.value, entity.duration.value;
      if Before(now, from) {
        return;
      }
      var anchor, inferred := entity.anchor, None;
      if anchor == None && duration.unit == Months {
        inferred := Some(from.day);
        anchor := inferred;
      }
      var next := NextResetAfter(duration, from, now, anchor);
      if next == None || db == RaisesBeforeCommit {
        return;
      }
      var matched := rows[account].resetAt == Some(from);
      if matched {
        var anchorColumn := if inferred.Some? then inferred else rows[account].anchor;
        rows := rows[account := rows[account].(spend := 0.0, resetAt := next, anchor := anchorColumn)];
      }
      if db == RaisesAfterCommit {
        return;
      }
      if !matched {
        return rows[account];
      }
      r := entity.(spend := 0.0, resetAt := next);
      if inferred.Some? {
        r := r.(anchor := inferred);
      }
    }
  }
}
