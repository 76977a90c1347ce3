/**
 The completion protocol of batch items: claims fenced by worker and epoch, bulk
 completion together with outbox rows, and delivery of outbox rows to the spend ledger.
 A statement of the database is one atomic update; times are microseconds.
 */
module CompletionProtocol {
  import opened Options
  import opened SpendLedger
  import opened BillingRuns

  datatype Status = Pending | InProgress | Completed | Failed | Cancelled

  /** `expires` is the deadline of the item's job, `billed` the cost stored on completion. */
  datatype Item = Item(
    status: Status,
    lockedBy: Option<nat>,
    leaseEnds: Option<int>,
    notBefore: Option<int>,
    epoch: nat,
    expires: Option<int>,
    billed: Option<real>)

  /** What the spend event of a completion is made from; a blank API key is `None`. */
  datatype Payload = Payload(
    key: Option<nat>,
    user: Option<nat>,
    team: Option<nat>,
    organization: Option<nat>,
    model: Option<nat>,
    cost: real)

  datatype Delivery = Queued | Processing | Retrying | Sent | Abandoned

  datatype Completion = Completion(
    item: nat,
    payload: Payload,
    delivery: Delivery,
    attempts: nat,
    maxAttempts: int,
    nextAttempt: int,
    lockedBy: Option<nat>,
    leaseEnds: Option<int>)

  /** A record that an outbox worker got from claiming a completion, as it was then. */
  datatype Claim = Claim(worker: nat, id: nat, record: Completion)

  /** `index` is the unique index of the outbox on items, `claims` every record ever handed to a worker. */
  datatype Store = Store(
    items: map<nat, Item>,
    outbox: map<nat, Completion>,
    index: map<nat, nat>,
    claims: set<Claim>,
    billing: Billing)

  // ----- items

  /** The statements that update items without completing them. */
  datatype ItemOp =
    | ClaimItems(worker: nat, chosen: set<nat>, now: int, lease: int)
    | ReleaseForRetry(worker: nat, epochs: map<nat, nat>, delay: int, now: int)
    | FailItem(worker: nat, item: nat, epoch: nat, retryable: bool, delay: int, now: int)
    | RenewItemLease(worker: nat, item: nat, epoch: nat, lease: int, now: int)
    | ReleaseClaim(worker: nat, chosen: set<nat>)
    | RequeueExpired(chosen: set<nat>, now: int)
    | CancelPending(chosen: set<nat>)
    | FailNonterminal(chosen: set<nat>)

  predicate Claimable(i: Item, now: int) {
    || (i.status == Pending
        && (i.leaseEnds == None || i.leaseEnds.value < now)
        && (i.notBefore == None || i.notBefore.value <= now))
    || (i.status == InProgress && i.leaseEnds.Some? && i.leaseEnds.value < now)
  }

  /** The fence: in progress, under this worker and this epoch. */
  predicate OwnedBy(i: Item, worker: nat, epoch: nat) {
    i.status == InProgress && i.lockedBy == Some(worker) && i.epoch == epoch
  }

  predicate BeforeDeadline(i: Item, delay: int, now: int) {
    i.expires == None || now + delay < i.expires.value
  }

  function Ended(i: Item, status: Status): Item {
    i.(status := status, lockedBy := None, leaseEnds := None, notBefore := None)
  }

  function Delayed(i: Item, until: Option<int>): Item {
    i.(status := Pending, lockedBy := None, leaseEnds := until, notBefore := until)
  }

  function Max0(delay: int): nat {
    if delay < 0 then 0 else delay
  }

  function ItemAfter(op: ItemOp, id: nat, i: Item): Item {
    match op
    case ClaimItems(worker, chosen, now, lease) =>
      if id in chosen && Claimable(i, now) then
        i.(status := InProgress, lockedBy := Some(worker), leaseEnds := Some(now + lease), notBefore := None,
           epoch := i.epoch + 1)
      else i
    case ReleaseForRetry(worker, epochs, delay, now) =>
      if id in epochs && OwnedBy(i, worker, epochs[id]) && BeforeDeadline(i, Max0(delay), now) then
        Delayed(i, if delay > 0 then Some(now + delay) else None)
      else i
    case FailItem(worker, item, epoch, retryable, delay, now) =>
      if id != item || !OwnedBy(i, worker, epoch) then i
      else if !retryable then Ended(i, Failed)
      else if BeforeDeadline(i, Max0(delay), now) then Delayed(i, Some(now + Max0(delay)))
      else i
    case RenewItemLease(worker, item, epoch, lease, now) =>
      if id == item && OwnedBy(i, worker, epoch) then i.(leaseEnds := Some(now + lease)) else i
    case ReleaseClaim(worker, chosen) =>
      if id in chosen && i.status == InProgress && i.lockedBy == Some(worker) then Delayed(i, None) else i
    case RequeueExpired(chosen, now) =>
      if id in chosen && i.status == InProgress && i.leaseEnds.Some? && i.leaseEnds.value < now then Delayed(i, None)
      else i
    case CancelPending(chosen) =>
      if id in chosen && i.status == Pending then Ended(i, Cancelled) else i
    case FailNonterminal(chosen) =>
      if id in chosen && (i.status == Pending || i.status == InProgress) then Ended(i, Failed) else i
  }

  function UpdateItems(items: map<nat, Item>, op: ItemOp): map<nat, Item> {
    map id | id in items :: ItemAfter(op, id, items[id])
  }

  // ----- bulk completion

  /** A claim epoch may be missing; the stored cost is the one in the payload. */
  datatype Entry = Entry(item: nat, epoch: Option<nat>, payload: Payload, maxAttempts: int)

  datatype Answer = Done | AlreadyDone | NotOwned | Raised

  predicate Distinct(entries: seq<Entry>) {
    forall j, k | 0 <= j < k < |entries| :: entries[j].item != entries[k].item
  }

  /** Every entry matches an owned row that no other transaction has locked. */
  predicate AllOwned(items: map<nat, Item>, worker: Option<nat>, entries: seq<Entry>, locked: set<nat>) {
    && worker.Some?
    && forall k | 0 <= k < |entries| ::
         && entries[k].epoch.Some? && entries[k].item in items && entries[k].item !in locked
         && OwnedBy(items[entries[k].item], worker.value, entries[k].epoch.value)
  }

  function CompleteItem(items: map<nat, Item>, e: Entry): map<nat, Item> {
    if e.item in items then items[e.item := Ended(items[e.item], Completed).(billed := Some(e.payload.cost))] else items
  }

  /** The first of several entries for one item decides what is stored. */
  function CompleteAll(items: map<nat, Item>, entries: seq<Entry>): map<nat, Item> {
    if entries == [] then items
    else
      CompleteItem(CompleteAll(items, entries[1..]), entries[0])
  }

  function NewRow(e: Entry, now: int): Completion {
    Completion(e.item, e.payload, Queued, 0, e.maxAttempts, now, None, None)
  }

  /** A new row is skipped when its item has one; the result counts the rows inserted. */
  function Enqueue(outbox: map<nat, Completion>, index: map<nat, nat>, entries: seq<Entry>, ids: seq<nat>, now: int)
      : (map<nat, Completion>, map<nat, nat>, nat)
    requires |ids| == |entries|
    decreases |entries|
  {
    if entries == [] then (outbox, index, 0)
    else
      var e := entries[0];
      if e.item in index then Enqueue(outbox, index, entries[1..], ids[1..], now)
      else
        var outbox1, index1 := outbox[ids[0] := NewRow(e, now)], index[e.item := ids[0]];
        var (o, x, n) := Enqueue(outbox1, index1, entries[1..], ids[1..], now);
        (o, x, n + 1)
  }

  predicate AllDone(items: map<nat, Item>, index: map<nat, nat>, entries: seq<Entry>) {
    forall k | 0 <= k < |entries| ::
      entries[k].item in items && items[entries[k].item].status == Completed && entries[k].item in index
  }

  /**
   The body of the completing transaction. The update touches each row once, so the
   number of rows it returns is the number of entries exactly when the items are distinct.
   */
  function CompleteInTransaction(s: Store, worker: Option<nat>, entries: seq<Entry>, ids: seq<nat>, locked: set<nat>,
                                 now: int)
      : (Answer, Store)
    requires |ids| == |entries|
  {
    var applies := AllOwned(s.items, worker, entries, locked);
    var items := if applies then CompleteAll(s.items, entries) else s.items;
    if applies && Distinct(entries) then
      var (outbox, index, n) := Enqueue(s.outbox, s.index, entries, ids, now);
      if n == |entries| then (Done, s.(items := items, outbox := outbox, index := index)) else (Raised, s)
    else
      (if AllDone(items, s.index, entries) then AlreadyDone else NotOwned, s.(items := items))
  }

  /** An exception of the database reaches the caller before the commit, or after it. */
  function Complete(s: Store, worker: Option<nat>, entries: seq<Entry>, ids: seq<nat>, locked: set<nat>, now: int,
                    db: DbOutcome)
      : (Answer, Store)
    requires |ids| == |entries|
  {
    if entries == [] then (Done, s)
    else
      var (answer, next) := CompleteInTransaction(s, worker, entries, ids, locked, now);
      if db == RaisesBeforeCommit || answer == Raised then (Raised, s)
      else (if db == Commits then answer else Raised, next)
  }

  // ----- delivery

  predicate Due(c: Completion, now: int) {
    || ((c.delivery == Queued || c.delivery == Retrying) && c.nextAttempt <= now)
    || (c.delivery == Processing && c.leaseEnds.Some? && c.leaseEnds.value < now)
  }

  function ClaimedCompletion(c: Completion, worker: nat, now: int, lease: int): Completion {
    c.(delivery := Processing, attempts := c.attempts + 1, lockedBy := Some(worker), leaseEnds := Some(now + lease))
  }

  function ClaimOutbox(s: Store, worker: nat, chosen: set<nat>, now: int, lease: int): Store {
    var due := set id | id in s.outbox && id in chosen && Due(s.outbox[id], now);
    s.(outbox := map id | id in s.outbox ::
                   if id in due then ClaimedCompletion(s.outbox[id], worker, now, lease) else s.outbox[id],
       claims := s.claims + set id | id in due ::
           Claim(worker, id, ClaimedCompletion(s.outbox[id], worker, now, lease)))
  }

  predicate Holds(outbox: map<nat, Completion>, id: nat, worker: nat) {
    id in outbox && outbox[id].delivery == Processing && outbox[id].lockedBy == Some(worker)
  }

  /** Ends the processing of a completion, if this worker still holds it. */
  function Mark(outbox: map<nat, Completion>, id: nat, worker: nat, delivery: Delivery): map<nat, Completion> {
    if Holds(outbox, id, worker)
        then outbox[id := outbox[id].(delivery := delivery, lockedBy := None, leaseEnds := None)]
    else outbox
  }

  function MarkRetry(outbox: map<nat, Completion>, id: nat, worker: nat, nextAttempt: int): map<nat, Completion> {
    if Holds(outbox, id, worker) then
      outbox[id := outbox[id].(delivery := Retrying, nextAttempt := nextAttempt, lockedBy := None, leaseEnds := None)]
    else outbox
  }

  function RenewOutbox(outbox: map<nat, Completion>, id: nat, worker: nat, until: int): map<nat, Completion> {
    if Holds(outbox, id, worker) then outbox[id := outbox[id].(leaseEnds := Some(until))] else outbox
  }

  function ChargeOf(id: nat, p: Payload): Charge {
    Charge(id, p.key, p.user, p.team, p.organization, p.model, p.cost)
  }

  /** The delivering transaction: the spend event, once, and the mark. */
  function Deliver(s: Store, claim: Claim, db: DbOutcome): Store {
    if db == RaisesBeforeCommit then s
    else
      s.(outbox := Mark(s.outbox, claim.id, claim.worker, Sent),
         billing := if claim.record.payload.key.Some?
             then AfterLogSpend(s.billing, ChargeOf(claim.id, claim.record.payload))
                    else s.billing)
  }

  function RetryDelay(initial: int, most: int, attempts: nat): int {
    var factor := if attempts < 1 then 1 else attempts;
    var delay := if initial < initial * factor then initial * factor else initial;
    if delay < most then delay else most
  }

  /** After a failed delivery: the last attempt is abandoned, any other retried later; the statement may fail too. */
  function AfterFailure(s: Store, claim: Claim, now: int, initial: int, most: int, db: DbOutcome): Store {
    if db == RaisesBeforeCommit then s
    else if claim.record.attempts >= claim.record.maxAttempts then
      s.(outbox := Mark(s.outbox, claim.id, claim.worker, Abandoned))
    else
      s.(outbox := MarkRetry(s.outbox, claim.id, claim.worker, now + RetryDelay(initial, most, claim.record.attempts)))
  }

  // ----- steps of the whole system

  /** Foreign steps are charges of other services and budget resets. */
  datatype Step =
    | OnItems(op: ItemOp)
    | CompleteStep(worker: Option<nat>, entries: seq<Entry>, ids: seq<nat>, locked: set<nat>, now: int, db: DbOutcome)
    | ClaimStep(outboxWorker: nat, chosen: set<nat>, now: int, lease: int)
    | DeliverStep(claim: Claim, db: DbOutcome)
    | FailureStep(claim: Claim, now: int, initial: int, most: int, db: DbOutcome)
    | RenewStep(id: nat, outboxWorker: nat, until: int)
    | ForeignCharge(charge: Charge)
    | ForeignReset(account: Account, plan: Option<ResetPlan>, db: DbOutcome)

  /** Identifiers made for new rows: unused so far, and different from each other. */
  predicate Fresh(s: Store, ids: seq<nat>) {
    && (forall k | 0 <= k < |ids| :: ids[k] !in s.outbox && ids[k] !in s.billing.ledger.events)
    && forall j, k | 0 <= j < k < |ids| :: ids[j] != ids[k]
  }

  /** What workers do: entries are distinct claimed items, and records come from claims. */
  predicate Enabled(s: Store, step: Step) {
    match step
    case CompleteStep(worker, entries, ids, locked, now, db) =>
      |ids| == |entries| && Distinct(entries) && Fresh(s, ids)
    case DeliverStep(claim, db) => claim in s.claims
    case FailureStep(claim, now, initial, most, db) => claim in s.claims
    case ForeignCharge(charge) => charge.event !in s.outbox
    case _ => true
  }

  function Next(s: Store, step: Step): Store
    requires step.CompleteStep? ==> |step.ids| == |step.entries|
  {
    match step
    case OnItems(op) => s.(items := UpdateItems(s.items, op))
    case CompleteStep(worker, entries, ids, locked, now, db) => Complete(s, worker, entries, ids, locked, now, db).1
    case ClaimStep(worker, chosen, now, lease) => ClaimOutbox(s, worker, chosen, now, lease)
    case DeliverStep(claim, db) => Deliver(s, claim, db)
    case FailureStep(claim, now, initial, most, db) => AfterFailure(s, claim, now, initial, most, db)
    case RenewStep(id, worker, until) => s.(outbox := RenewOutbox(s.outbox, id, worker, until))
    case ForeignCharge(charge) => s.(billing := AfterLogSpend(s.billing, charge))
    case ForeignReset(account, plan, db) => s.(billing := AfterCheck(s.billing, account, plan, db))
  }

  /** A schedule whose every step is enabled when its turn comes. */
  predicate Feasible(s: Store, steps: seq<Step>)
    decreases |steps|
  {
    steps == [] || (Enabled(s, steps[0]) && Feasible(Next(s, steps[0]), steps[1..]))
  }

  function Run(s: Store, steps: seq<Step>): Store
    requires Feasible(s, steps)
    decreases |steps|
  {
    if steps == [] then s else Run(Next(s, steps[0]), steps[1..])
  }
}
