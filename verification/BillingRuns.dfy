/** Every interleaving of spend transactions and racing budget resets. */
module BillingRuns {
  import opened Options
  import opened BudgetCalendar
  import opened SpendLedger

  /** What changed the ledger. */
  datatype Entry = Charged(charge: Charge) | WasReset(account: Account, from: Moment, to: Moment)

  /** The changes so far, newest last. */
  datatype Log = Start | Then(before: Log, entry: Entry)

  datatype Billing = Billing(ledger: Ledger, log: Log)

  /** A budget check acts on the row it read when the run was `readAt` steps old. */
  datatype Step =
    | LogSpend(charge: Charge)
    | CheckBudget(account: Account, readAt: nat, now: Moment, db: DbOutcome)

  ghost predicate ValidLedger(l: Ledger) {
    forall a | a in l.rows :: ValidRow(l.rows[a])
  }

  function AfterLogSpend(s: Billing, c: Charge): Billing {
    var (result, ledger) := LogOnce(s.ledger, c);
    Billing(ledger, if result == Inserted then Then(s.log, Charged(c)) else s.log)
  }

  function AfterCheck(s: Billing, a: Account, plan: Option<ResetPlan>, db: DbOutcome): Billing {
    if a in s.ledger.rows && Applies(s.ledger.rows[a], plan, db) then
      Billing(s.ledger.(rows := s.ledger.rows[a := CheckedRow(s.ledger.rows[a], plan, db)]),
              Then(s.log, WasReset(a, plan.value.from, plan.value.to)))
    else s
  }

  ghost predicate Follows(history: seq<Billing>, step: Step, next: Billing) {
    && history != []
    && var s := history[|history| - 1];
       match step
       case LogSpend(c) => next == AfterLogSpend(s, c)
       case CheckBudget(a, readAt, now, db) =>
         && readAt < |history| && Valid(now) && a in history[readAt].ledger.rows
         && ValidRow(history[readAt].ledger.rows[a])
         && next == AfterCheck(s, a, PlanReset(history[readAt].ledger.rows[a], now), db)
  }

  /** A run: its states, starting with an empty log, each one following from those before. */
  ghost predicate IsRun(history: seq<Billing>, steps: seq<Step>)
    decreases |steps|
  {
    && |history| == |steps| + 1
    && if steps == [] then history[0].log == Start && ValidLedger(history[0].ledger)
       else
         && IsRun(history[..|steps|], steps[..|steps| - 1])
         && Follows(history[..|steps|], steps[|steps| - 1], history[|steps|])
  }

  // ----- plans

  /** A plan moves the reset time it read forward, to a date. */
  ghost predicate Forward(plan: Option<ResetPlan>) {
    plan.Some? ==>
      && Valid(plan.value.to) && Line(plan.value.from) < Line(plan.value.to)
      && (plan.value.inferredAnchor.Some? ==> 1 <= plan.value.inferredAnchor.value <= 31)
  }

  lemma {:induction false} PlansAreForward(entity: Row, now: Moment)
    requires ValidRow(entity) && Valid(now)
    ensures Forward(PlanReset(entity, now))
  {
    var plan := PlanReset(entity, now);
    if plan.Some? {
      var from := entity.resetAt.value;
      var anchor := if plan.value.inferredAnchor.Some? then plan.value.inferredAnchor else entity.anchor;
      NextResetIsLater(entity.duration.value, from, now, anchor);
      LineIsMonotone(now, plan.value.to);
      LineIsMonotone(now, from);
      LineIsMonotone(from, now);
    }
  }

  lemma {:induction false} StepIsForward(history: seq<Billing>, step: Step, next: Billing)
    requires Follows(history, step, next)
    ensures step.CheckBudget? ==> Forward(PlanReset(history[step.readAt].ledger.rows[step.account], step.now))
  {
    if step.CheckBudget? {
      PlansAreForward(history[step.readAt].ledger.rows[step.account], step.now);
    }
  }

  // ----- counters

  function PositiveCost(e: Entry, a: Account): real {
    if e.Charged? && e.charge.cost > 0.0 && a in AccountsOf(e.charge) then e.charge.cost else 0.0
  }

  predicate Resets(e: Entry, a: Account) {
    e.WasReset? && e.account == a
  }

  predicate EverReset(log: Log, a: Account) {
    log.Then? && (Resets(log.entry, a) || EverReset(log.before, a))
  }

  /** The entries after the last reset of the account. */
  function SinceReset(log: Log, a: Account): Log {
    if log == Start || Resets(log.entry, a) then Start else Then(SinceReset(log.before, a), log.entry)
  }

  function SumCosts(log: Log, a: Account): real {
    if log == Start then 0.0 else SumCosts(log.before, a) + PositiveCost(log.entry, a)
  }

  function TeamModelCost(e: Entry, k: (nat, nat)): real {
    if e.Charged? && e.charge.cost > 0.0 && k in TeamModelsOf(e.charge) then e.charge.cost else 0.0
  }

  function SumTeamModel(log: Log, k: (nat, nat)): real {
    if log == Start then 0.0 else SumTeamModel(log.before, k) + TeamModelCost(log.entry, k)
  }

  /** How often an event was charged. */
  function TimesCharged(log: Log, id: nat): nat {
    if log == Start then 0
    else TimesCharged(log.before, id) + if log.entry.Charged? && log.entry.charge.event == id then 1 else 0
  }

  /** The row's spend is what was logged since its last reset, plus its first value if there was none. */
  ghost predicate SpendMatches(first: Billing, s: Billing, a: Account) {
    && (a in s.ledger.rows <==> a in first.ledger.rows)
    && (a in s.ledger.rows ==>
          s.ledger.rows[a].spend
          == (if EverReset(s.log, a) then 0.0 else first.ledger.rows[a].spend) + SumCosts(SinceReset(s.log, a), a))
  }

  ghost predicate TeamModelMatches(first: Billing, s: Billing, k: (nat, nat)) {
    CounterOf(s.ledger, k) == CounterOf(first.ledger, k) + SumTeamModel(s.log, k)
  }

  ghost predicate EventMatches(first: Billing, s: Billing, id: nat) {
    TimesCharged(s.log, id) == (if id in s.ledger.events && id !in first.ledger.events then 1 else 0)
    && (id in first.ledger.events ==> id in s.ledger.events)
  }

  lemma {:induction false} LogSpendKeeps(first: Billing, s: Billing, c: Charge, a: Account, k: (nat, nat), id: nat)
    ensures SpendMatches(first, s, a) ==> SpendMatches(first, AfterLogSpend(s, c), a)
    ensures TeamModelMatches(first, s, k) ==> TeamModelMatches(first, AfterLogSpend(s, c), k)
    ensures EventMatches(first, s, id) ==> EventMatches(first, AfterLogSpend(s, c), id)
  {
    IncrementRowsAt(s.ledger.rows, c, a);
  }

  lemma {:induction false} CheckKeeps(first: Billing, s: Billing, account: Account, plan: Option<ResetPlan>,
                                      db: DbOutcome, a: Account, k: (nat, nat), id: nat)
    ensures SpendMatches(first, s, a) ==> SpendMatches(first, AfterCheck(s, account, plan, db), a)
    ensures TeamModelMatches(first, s, k) ==> TeamModelMatches(first, AfterCheck(s, account, plan, db), k)
    ensures EventMatches(first, s, id) ==> EventMatches(first, AfterCheck(s, account, plan, db), id)
  {
  }

  /**
   In every run, for every account, team-model and event: the account's counter is
   the sum of the positive costs logged since its last reset (plus its first value
   if it was never reset), the team-model's counter is the sum of all of them, and
   an event is charged exactly when its row was inserted, once.
   */
  lemma {:induction false} EveryRunCounts(history: seq<Billing>, steps: seq<Step>, a: Account, k: (nat, nat), id: nat)
    requires IsRun(history, steps)
    ensures var first, s := history[0], history[|steps|];
            SpendMatches(first, s, a) && TeamModelMatches(first, s, k) && EventMatches(first, s, id)
    decreases |steps|
  {
    if steps != [] {
      var n := |steps| - 1;
      EveryRunCounts(history[..n + 1], steps[..n], a, k, id);
      match steps[n]
      case LogSpend(c) => LogSpendKeeps(history[0], history[n], c, a, k, id);
      case CheckBudget(account, readAt, now, db) =>
        var plan := PlanReset(history[readAt].ledger.rows[account], now);
        CheckKeeps(history[0], history[n], account, plan, db, a, k, id);
    }
  }

  // ----- reset times

  /** The date of the last reset of the account. */
  function LastReset(log: Log, a: Account): Option<Moment> {
    if log == Start then None else if Resets(log.entry, a) then Some(log.entry.to) else LastReset(log.before, a)
  }

  /** How often the account was reset from this date. */
  function TimesResetFrom(log: Log, a: Account, t: Moment): nat {
    if log == Start then 0
    else TimesResetFrom(log.before, a, t) + if Resets(log.entry, a) && log.entry.from == t then 1 else 0
  }

  /** Each reset of the account starts where the one before ended, and ends later. */
  ghost predicate Chain(log: Log, a: Account) {
    log.Then? ==>
      && Chain(log.before, a)
      && (Resets(log.entry, a) ==>
            && Line(log.entry.from) < Line(log.entry.to)
            && (EverReset(log.before, a) ==> LastReset(log.before, a) == Some(log.entry.from)))
  }

  ghost predicate ResetMatches(s: Billing, a: Account) {
    && Chain(s.log, a)
    && (EverReset(s.log, a) ==> a in s.ledger.rows && s.ledger.rows[a].resetAt == LastReset(s.log, a))
  }

  lemma {:induction false} LogSpendKeepsReset(s: Billing, c: Charge, a: Account)
    requires ResetMatches(s, a)
    ensures ResetMatches(AfterLogSpend(s, c), a)
  {
    IncrementRowsAt(s.ledger.rows, c, a);
  }

  lemma {:induction false} CheckKeepsReset(s: Billing, account: Account, plan: Option<ResetPlan>, db: DbOutcome,
                                           a: Account)
    requires ResetMatches(s, a) && Forward(plan)
    ensures ResetMatches(AfterCheck(s, account, plan, db), a)
  {
  }

  /** In a chain every date used before is earlier than the last reset, so none is used twice. */
  lemma {:induction false} ChainUsesDatesOnce(log: Log, a: Account, t: Moment)
    requires Chain(log, a)
    ensures TimesResetFrom(log, a, t) <= 1
    ensures TimesResetFrom(log, a, t) == 1 ==> LastReset(log, a).Some? && Line(t) < Line(LastReset(log, a).value)
    ensures LastReset(log, a).Some? <==> EverReset(log, a)
  {
    if log.Then? {
      ChainUsesDatesOnce(log.before, a, t);
    }
  }

  /**
   In every run the resets of an account form a chain going forward in time that
   ends at the row's reset time, and no reset time is the start of two resets.
   */
  lemma {:induction false} EveryRunResetsOnce(history: seq<Billing>, steps: seq<Step>, a: Account, t: Moment)
    requires IsRun(history, steps)
    ensures ResetMatches(history[|steps|], a) && TimesResetFrom(history[|steps|].log, a, t) <= 1
  {
    EveryRunChains(history, steps, a);
    ChainUsesDatesOnce(history[|steps|].log, a, t);
  }

  lemma {:induction false} EveryRunChains(history: seq<Billing>, steps: seq<Step>, a: Account)
    requires IsRun(history, steps)
    ensures ResetMatches(history[|steps|], a)
    decreases |steps|
  {
    if steps != [] {
      var n := |steps| - 1;
      EveryRunChains(history[..n + 1], steps[..n], a);
      match steps[n]
      case LogSpend(c) => LogSpendKeepsReset(history[n], c, a);
      case CheckBudget(account, readAt, now, db) =>
        StepIsForward(history[..n + 1], steps[n], history[n + 1]);
        CheckKeepsReset(history[n], account, PlanReset(history[readAt].ledger.rows[account], now), db, a);
    }
  }
}
