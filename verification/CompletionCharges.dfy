/** Whom a delivered completion is charged to, and how much, in every run of the completion protocol. */
module CompletionCharges {
  import opened Options
  import opened SpendLedger
  import BillingRuns
  import opened CompletionProtocol
  import CompletionRuns

  /** The counter is one of those a completion with this payload is paid from. */
  predicate Pays(p: Payload, a: Account) {
    match a
    case Key(id) => p.key == Some(id)
    case User(id) => p.user == Some(id)
    case Team(id) => p.team == Some(id)
    case Organization(id) => p.organization == Some(id)
  }

  predicate PaysModel(p: Payload, k: (nat, nat)) {
    p.team == Some(k.0) && p.model == Some(k.1)
  }

  /** The event of a completion says what its payload says, field by field. */
  predicate Carries(e: Charge, id: nat, p: Payload) {
    && e.event == id && e.key == p.key && e.user == p.user && e.team == p.team
    && e.organization == p.organization && e.model == p.model && e.cost == p.cost
  }

  /** What the payload makes one counter pay. */
  function Owed(p: Payload, pays: bool): real {
    if p.cost > 0.0 && pays then p.cost else 0.0
  }

  // ----- one delivery

  /**
   A delivery that commits raises exactly the counters of the payload's key, user, team, organization and team-model,
   each by the payload's cost if that is positive, the first time, and only if there is a key.
   */
  lemma {:induction false} DeliveryCharges(first: Store, s: Store, claim: Claim, db: DbOutcome, a: Account,
                                           k: (nat, nat))
    requires CompletionRuns.Inv(first, s) && claim in s.claims && db != RaisesBeforeCommit
    ensures var (before, after) := (s.billing.ledger, Deliver(s, claim, db).billing.ledger);
            && claim.id in s.outbox && after.rows.Keys == before.rows.Keys
            && var p := s.outbox[claim.id].payload;
               var charged := p.key.Some? && claim.id !in before.events;
               && (a in before.rows ==>
                     after.rows[a] == before.rows[a].(spend := before.rows[a].spend + Owed(p, charged && Pays(p, a))))
               && CounterOf(after, k) == CounterOf(before, k) + Owed(p, charged && PaysModel(p, k))
               && (claim.id in after.events <==> claim.id in before.events || p.key.Some?)
               && (charged ==> Carries(after.events[claim.id], claim.id, p))
  {
    CompletionRuns.ClaimIsTrue(s, claim);
    var c := ChargeOf(claim.id, claim.record.payload);
    LogOnceCharges(s.billing.ledger, c, a, k);
    ChargedAccounts(c, a, k);
  }

  // ----- every run

  predicate Logged(log: BillingRuns.Log, e: BillingRuns.Entry) {
    log.Then? && (log.entry == e || Logged(log.before, e))
  }

  /** Every charge in the log is the event stored under its identifier. */
  ghost predicate LogIsStored(b: BillingRuns.Billing) {
    forall e | Logged(b.log, e) && e.Charged? ::
      e.charge.event in b.ledger.events && b.ledger.events[e.charge.event] == e.charge
  }

  lemma {:induction false} LogSpendStores(b: BillingRuns.Billing, c: Charge)
    requires LogIsStored(b)
    ensures LogIsStored(BillingRuns.AfterLogSpend(b, c))
  {
    var next := BillingRuns.AfterLogSpend(b, c);
    forall e | Logged(next.log, e) && e.Charged?
      ensures e.charge.event in next.ledger.events && next.ledger.events[e.charge.event] == e.charge
    {
      assert e == BillingRuns.Charged(c) || Logged(b.log, e);
    }
  }

  lemma {:induction false} StepStores(s: Store, step: Step)
    requires LogIsStored(s.billing) && Enabled(s, step)
    ensures LogIsStored(Next(s, step).billing)
  {
    match step
    case DeliverStep(claim, db) => LogSpendStores(s.billing, ChargeOf(claim.id, claim.record.payload));
    case ForeignCharge(charge) => LogSpendStores(s.billing, charge);
    case ForeignReset(account, plan, db) =>
      var next := BillingRuns.AfterCheck(s.billing, account, plan, db);
      forall e | Logged(next.log, e) && e.Charged? ensures Logged(s.billing.log, e) {
      }
    case _ =>
  }

  lemma {:induction false} RunStores(s: Store, steps: seq<Step>)
    requires LogIsStored(s.billing) && Feasible(s, steps)
    ensures LogIsStored(Run(s, steps).billing)
    decreases |steps|
  {
    if steps != [] {
      StepStores(s, steps[0]);
      RunStores(Next(s, steps[0]), steps[1..]);
    }
  }

  /** In every run the event of a completion carries the payload of its row, which has a key. */
  lemma {:induction false} EventsCarryPayloads(s: Store, steps: seq<Step>, c: nat)
    requires CompletionRuns.Start(s) && Feasible(s, steps)
    ensures var t := Run(s, steps);
            c in t.outbox && c in t.billing.ledger.events ==>
              t.outbox[c].payload.key.Some? && Carries(t.billing.ledger.events[c], c, t.outbox[c].payload)
  {
    CompletionRuns.EveryRunIsSafe(s, steps);
    var t := Run(s, steps);
    if c in t.outbox {
      assert CompletionRuns.EventIsOf(t.billing.ledger.events, c, t.outbox[c]);
    }
  }

  /**
   In every run each logged charge of a completion costs every counter exactly what the payload of its row makes that
   counter pay; so the sums that the counters hold are sums of payload costs.
   */
  lemma {:induction false} LoggedChargesPay(s: Store, steps: seq<Step>, charge: Charge, a: Account, k: (nat, nat))
    requires CompletionRuns.Start(s) && Feasible(s, steps)
    ensures var t := Run(s, steps);
            Logged(t.billing.log, BillingRuns.Charged(charge)) && charge.event in t.outbox ==>
              var p := t.outbox[charge.event].payload;
              && p.key.Some? && Carries(charge, charge.event, p)
              && BillingRuns.PositiveCost(BillingRuns.Charged(charge), a) == Owed(p, Pays(p, a))
              && BillingRuns.TeamModelCost(BillingRuns.Charged(charge), k) == Owed(p, PaysModel(p, k))
  {
    RunStores(s, steps);
    EventsCarryPayloads(s, steps, charge.event);
    ChargedAccounts(charge, a, k);
    var t := Run(s, steps);
    if Logged(t.billing.log, BillingRuns.Charged(charge)) {
      assert t.billing.ledger.events[charge.event] == charge;
    }
  }
}
