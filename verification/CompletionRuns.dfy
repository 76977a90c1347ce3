/** What every run of the completion protocol keeps. */
module CompletionRuns {
  import opened Options
  import opened SpendLedger
  import opened CompletionProtocol

  // ----- the invariant

  /** The completed items are the indexed ones, and the index is a bijection onto the outbox. */
  ghost predicate ItemsMatchOutbox(s: Store) {
    && (forall i | i in s.items :: s.items[i].status == Completed ==> i in s.index)
    && (forall i | i in s.index ::
          && i in s.items && s.items[i].status == Completed
          && s.index[i] in s.outbox && s.outbox[s.index[i]].item == i
          && s.items[i].billed == Some(s.outbox[s.index[i]].payload.cost))
    && (forall c | c in s.outbox :: s.outbox[c].item in s.index && s.index[s.outbox[c].item] == c)
  }

  /** Nobody holds an item or a completion that is not in progress. */
  ghost predicate LocksMatch(s: Store) {
    && (forall i | i in s.items :: ItemLock(s.items[i]))
    && (forall c | c in s.outbox :: RowLock(s.outbox[c]))
  }

  /** Held exactly while in progress, and then under a lease. */
  predicate ItemLock(i: Item) {
    && (i.status == InProgress <==> i.lockedBy.Some?)
    && (i.status == InProgress ==> i.leaseEnds.Some?)
  }

  predicate RowLock(c: Completion) {
    && (c.delivery == Processing <==> c.lockedBy.Some?)
    && (c.delivery == Processing ==> c.leaseEnds.Some?)
  }

  /** A record handed out earlier still says the truth about what is delivered. */
  predicate Describes(record: Completion, row: Completion) {
    && record.item == row.item && record.payload == row.payload && record.maxAttempts == row.maxAttempts
    && record.attempts <= row.attempts
  }

  ghost predicate ClaimsMatch(s: Store) {
    && (forall claim | claim in s.claims :: claim.id in s.outbox && Describes(claim.record, s.outbox[claim.id]))
    && (forall c | c in s.outbox :: s.outbox[c].delivery == Abandoned
          ==> s.outbox[c].attempts >= s.outbox[c].maxAttempts)
  }

  /** A completion's event carries its payload, and a sent completion with a key has one. */
  predicate EventIsOf(events: map<nat, Charge>, id: nat, row: Completion) {
    && (id in events ==> row.payload.key.Some? && events[id] == ChargeOf(id, row.payload))
    && (row.delivery == Sent && row.payload.key.Some? ==> id in events)
  }

  ghost predicate EventsMatch(first: Store, s: Store) {
    forall c | c in s.outbox ::
      c !in first.billing.ledger.events && EventIsOf(s.billing.ledger.events, c, s.outbox[c])
  }

  ghost predicate Inv(first: Store, s: Store) {
    && ItemsMatchOutbox(s) && LocksMatch(s) && ClaimsMatch(s) && EventsMatch(first, s)
    && first.billing.ledger.events.Keys <= s.billing.ledger.events.Keys
  }

  /** Nothing completed or handed out yet; any ledger. */
  ghost predicate Start(s: Store) {
    && s.outbox == map[] && s.index == map[] && s.claims == {} && s.billing.log == BillingRuns.Start
    && (forall i | i in s.items :: s.items[i].status != Completed)
    && LocksMatch(s)
  }

  // ----- items

  /** Epochs never fall; what is completed stays as it is; only completion completes. */
  predicate Evolves(i: Item, i': Item) {
    && i.epoch <= i'.epoch
    && (i.status == Completed ==> i' == i)
    && (i'.status == Completed ==> i' == i)
    && (ItemLock(i) ==> ItemLock(i'))
    && (i'.status == InProgress && i'.epoch == i.epoch ==> i.status == InProgress && i'.lockedBy == i.lockedBy)
  }

  lemma ItemEvolves(op: ItemOp, id: nat, i: Item)
    ensures Evolves(i, ItemAfter(op, id, i))
  {
  }

  /** Can be claimed: pending with every delay over, or in progress under a lease that has run out. */
  predicate Free(i: Item, now: int) {
    if i.status == Pending then
      (i.leaseEnds.Some? ==> i.leaseEnds.value < now) && (i.notBefore.Some? ==> i.notBefore.value <= now)
    else i.status == InProgress && i.leaseEnds.Some? && i.leaseEnds.value < now
  }

  /** A claim takes exactly the free items chosen, and nobody else can claim them before its lease has run out. */
  lemma ClaimsTakeTheFree(worker: nat, chosen: set<nat>, now: int, lease: int, id: nat, i: Item, later: int)
    ensures var i' := ItemAfter(ClaimItems(worker, chosen, now, lease), id, i);
            if id in chosen && Free(i, now) then
              && i' == i.(status := InProgress, lockedBy := Some(worker), epoch := i.epoch + 1, notBefore := None,
                          leaseEnds := i'.leaseEnds)
              && (Free(i', later) <==> later > now + lease)
            else i' == i
  {
  }

  /** The item goes back to the pending ones, apart from when it may be claimed again. */
  predicate GoesBack(i: Item, i': Item) {
    i' == i.(status := Pending, lockedBy := None, leaseEnds := i'.leaseEnds, notBefore := i'.notBefore)
  }

  /** Held under this very claim, and a retry after the delay would still meet the deadline. */
  predicate RetryMeetsDeadline(i: Item, delay: int, now: int) {
    i.expires.Some? ==> now + (if delay > 0 then delay else 0) < i.expires.value
  }

  predicate Holding(i: Item, worker: nat, epoch: nat) {
    i.status == InProgress && i.lockedBy == Some(worker) && i.epoch == epoch
  }

  /**
   What the statements of a worker do to an item that it holds, and that they do nothing to any other: a retry makes
   it claimable again exactly when the delay is over, a failure is final, a renewal keeps it until the new lease ends.
   */
  lemma HeldStatements(op: ItemOp, id: nat, i: Item, later: int)
    ensures var i' := ItemAfter(op, id, i);
            match op
            case ReleaseForRetry(worker, epochs, delay, now) =>
              if id in epochs && Holding(i, worker, epochs[id]) && RetryMeetsDeadline(i, delay, now) then
                GoesBack(i, i') && (Free(i', later) <==> delay <= 0 || later > now + delay)
              else i' == i
            case FailItem(worker, item, epoch, retryable, delay, now) =>
              if id != item || !Holding(i, worker, epoch) then i' == i
              else if !retryable then
                i' == i.(status := Failed, lockedBy := None, leaseEnds := None, notBefore := None)
              else if RetryMeetsDeadline(i, delay, now) then
                GoesBack(i, i') && (Free(i', later) <==> later > now + if delay > 0 then delay else 0)
              else i' == i
            case RenewItemLease(worker, item, epoch, lease, now) =>
              if id == item && Holding(i, worker, epoch) then
                i' == i.(leaseEnds := i'.leaseEnds) && (Free(i', later) <==> later > now + lease)
              else i' == i
            case ReleaseClaim(worker, chosen) =>
              if id in chosen && Holding(i, worker, i.epoch) then GoesBack(i, i') && Free(i', later) else i' == i
            case RequeueExpired(chosen, now) =>
              if id in chosen && i.status == InProgress && Free(i, now) then GoesBack(i, i') && Free(i', later)
              else i' == i
            case CancelPending(chosen) =>
              if id in chosen && i.status == Pending then
                i' == i.(status := Cancelled, lockedBy := None, leaseEnds := None, notBefore := None)
              else i' == i
            case FailNonterminal(chosen) =>
              if id in chosen && i.status in {Pending, InProgress} then
                i' == i.(status := Failed, lockedBy := None, leaseEnds := None, notBefore := None)
              else i' == i
            case ClaimItems(_, _, _, _) => true
  {
  }

  lemma {:induction false} ItemStepKeeps(first: Store, s: Store, op: ItemOp)
    requires Inv(first, s)
    ensures Inv(first, s.(items := UpdateItems(s.items, op)))
  {
    forall i | i in s.items
      ensures Evolves(s.items[i], UpdateItems(s.items, op)[i])
    {
      ItemEvolves(op, i, s.items[i]);
    }
  }

  // ----- completion

  predicate Mentions(entries: seq<Entry>, i: nat) {
    exists k :: 0 <= k < |entries| && entries[k].item == i
  }

  /** The cost of the first entry for the item. */
  function CostFor(entries: seq<Entry>, i: nat): real
    requires Mentions(entries, i)
    decreases |entries|
  {
    if entries[0].item == i then entries[0].payload.cost
    else
      assert Mentions(entries[1..], i) by {
        var k :| 0 <= k < |entries| && entries[k].item == i;
        assert entries[1..][k - 1] == entries[k];
      }
      CostFor(entries[1..], i)
  }

  lemma {:induction false} CompleteAllAt(items: map<nat, Item>, entries: seq<Entry>, i: nat)
    ensures CompleteAll(items, entries).Keys == items.Keys
    ensures i in items && !Mentions(entries, i) ==> CompleteAll(items, entries)[i] == items[i]
    ensures i in items && Mentions(entries, i) ==>
              var done := CompleteAll(items, entries)[i];
              && done.status == Completed && done.lockedBy == None && done.epoch == items[i].epoch
              && done.billed == Some(CostFor(entries, i))
    decreases |entries|
  {
    if entries != [] {
      var rest := entries[1..];
      CompleteAllAt(items, rest, i);
      if Mentions(rest, i) {
        var k :| 0 <= k < |rest| && rest[k].item == i;
        assert entries[k + 1].item == i;
      } else if Mentions(entries, i) {
        var k :| 0 <= k < |entries| && entries[k].item == i;
        assert k > 0 ==> rest[k - 1].item == i;
      }
    }
  }

  lemma {:induction false} CostForDistinct(entries: seq<Entry>, k: nat)
    requires Distinct(entries) && k < |entries|
    ensures Mentions(entries, entries[k].item) && CostFor(entries, entries[k].item) == entries[k].payload.cost
    decreases |entries|
  {
    assert entries[k].item == entries[k].item;
    if k > 0 {
      CostForDistinct(entries[1..], k - 1);
    }
  }

  /** Every entry has a new row, and nothing else changed. */
  ghost predicate Inserted(outbox: map<nat, Completion>, index: map<nat, nat>, entries: seq<Entry>, ids: seq<nat>,
                           now: int, outbox': map<nat, Completion>, index': map<nat, nat>)
    requires |ids| == |entries|
  {
    && (forall k | 0 <= k < |entries| ::
          && entries[k].item in index' && index'[entries[k].item] == ids[k]
          && ids[k] in outbox' && outbox'[ids[k]] == NewRow(entries[k], now))
    && (forall i | i in index :: i in index' && index'[i] == index[i])
    && (forall i | i in index' :: i in index || Mentions(entries, i))
    && (forall c | c in outbox :: c in outbox' && outbox'[c] == outbox[c])
    && (forall c | c in outbox' :: c in outbox || c in ids)
  }

  /** Without conflicts every row is inserted. */
  lemma {:induction false} EnqueueInserts(outbox: map<nat, Completion>, index: map<nat, nat>, entries: seq<Entry>,
                                          ids: seq<nat>, now: int)
    requires |ids| == |entries| && Distinct(entries)
    requires forall k | 0 <= k < |entries| :: entries[k].item !in index
    requires forall k | 0 <= k < |ids| :: ids[k] !in outbox
    requires forall j, k | 0 <= j < k < |ids| :: ids[j] != ids[k]
    ensures var (outbox', index', n) := Enqueue(outbox, index, entries, ids, now);
            n == |entries| && Inserted(outbox, index, entries, ids, now, outbox', index')
    decreases |entries|
  {
    if entries != [] {
      var e, rest := entries[0], entries[1..];
      var outbox1, index1 := outbox[ids[0] := NewRow(e, now)], index[e.item := ids[0]];
      EnqueueInserts(outbox1, index1, rest, ids[1..], now);
      var (outbox', index', n) := Enqueue(outbox1, index1, rest, ids[1..], now);
      forall k | 0 <= k < |entries|
        ensures entries[k].item in index' && index'[entries[k].item] == ids[k]
        ensures ids[k] in outbox' && outbox'[ids[k]] == NewRow(entries[k], now)
      {
        if k > 0 {
          assert entries[k] == rest[k - 1] && ids[k] == ids[1..][k - 1];
        }
      }
      forall i | i in index' && i !in index ensures Mentions(entries, i) {
        MentionsRest(entries, i);
      }
    }
  }

  lemma MentionsRest(entries: seq<Entry>, i: nat)
    requires entries != [] && (entries[0].item == i || Mentions(entries[1..], i))
    ensures Mentions(entries, i)
  {
    if entries[0].item != i {
      var k :| 0 <= k < |entries[1..]| && entries[1..][k].item == i;
      assert entries[k + 1].item == i;
    }
  }

  /** Whatever is indexed already: the item keeps its row, every entry ends up indexed, and the new ones are counted. */
  lemma {:induction false} EnqueueSkips(outbox: map<nat, Completion>, index: map<nat, nat>, entries: seq<Entry>,
                                        ids: seq<nat>, now: int)
    requires |ids| == |entries|
    requires forall k | 0 <= k < |ids| :: ids[k] !in outbox
    requires forall j, k | 0 <= j < k < |ids| :: ids[j] != ids[k]
    ensures var (outbox', index', n) := Enqueue(outbox, index, entries, ids, now);
            && (forall i | i in index :: i in index' && index'[i] == index[i])
            && (forall c | c in outbox :: c in outbox' && outbox'[c] == outbox[c])
            && (forall k | 0 <= k < |entries| :: entries[k].item in index')
            && |index'| == |index| + n
    decreases |entries|
  {
    if entries != [] {
      var e, rest := entries[0], entries[1..];
      if e.item in index {
        EnqueueSkips(outbox, index, rest, ids[1..], now);
      } else {
        EnqueueSkips(outbox[ids[0] := NewRow(e, now)], index[e.item := ids[0]], rest, ids[1..], now);
      }
      forall k | 0 <= k < |entries|
        ensures entries[k].item in Enqueue(outbox, index, entries, ids, now).1
      {
        assert k > 0 ==> entries[k] == rest[k - 1];
      }
    }
  }

  /** Owned items are not completed, so none has an outbox row, and all are inserted. */
  lemma {:induction false} OwnedAreInserted(s: Store, worker: Option<nat>, entries: seq<Entry>, ids: seq<nat>,
                                            locked: set<nat>, now: int)
    requires ItemsMatchOutbox(s) && |ids| == |entries| && Distinct(entries) && Fresh(s, ids)
    requires AllOwned(s.items, worker, entries, locked)
    ensures var (outbox, index, n) := Enqueue(s.outbox, s.index, entries, ids, now);
            n == |entries| && Inserted(s.outbox, s.index, entries, ids, now, outbox, index)
  {
    forall k | 0 <= k < |entries| ensures entries[k].item !in s.index {
      OwnedHaveNoRow(s, worker, entries, locked, k);
    }
    EnqueueInserts(s.outbox, s.index, entries, ids, now);
  }

  lemma OwnedHaveNoRow(s: Store, worker: Option<nat>, entries: seq<Entry>, locked: set<nat>, k: nat)
    requires ItemsMatchOutbox(s) && AllOwned(s.items, worker, entries, locked) && k < |entries|
    ensures entries[k].item !in s.index
  {
  }

  /** An item is completed exactly when it is indexed, and then its row stores what it was billed. */
  lemma {:induction false} CompletedIsIndexed(s: Store, entries: seq<Entry>, ids: seq<nat>, now: int, next: Store,
                                              i: nat)
    requires ItemsMatchOutbox(s) && |ids| == |entries| && Distinct(entries) && i in s.items
    requires Inserted(s.outbox, s.index, entries, ids, now, next.outbox, next.index)
    requires next.items == CompleteAll(s.items, entries)
    ensures i in next.items && (next.items[i].status == Completed <==> i in next.index)
    ensures i in next.index ==>
              && next.index[i] in next.outbox && next.outbox[next.index[i]].item == i
              && next.items[i].billed == Some(next.outbox[next.index[i]].payload.cost)
  {
    CompleteAllAt(s.items, entries, i);
    if Mentions(entries, i) {
      var k :| 0 <= k < |entries| && entries[k].item == i;
      CostForDistinct(entries, k);
    }
  }

  lemma {:induction false} RowIsIndexed(s: Store, entries: seq<Entry>, ids: seq<nat>, now: int, next: Store, c: nat)
    requires ItemsMatchOutbox(s) && |ids| == |entries| && c in next.outbox
    requires Inserted(s.outbox, s.index, entries, ids, now, next.outbox, next.index)
    ensures next.outbox[c].item in next.index && next.index[next.outbox[c].item] == c
  {
    if c !in s.outbox {
      var k :| 0 <= k < |ids| && ids[k] == c;
      assert next.outbox[ids[k]].item == entries[k].item;
    }
  }

  lemma {:induction false} IndexedIsItem(s: Store, worker: Option<nat>, entries: seq<Entry>, ids: seq<nat>,
                                         locked: set<nat>, now: int, next: Store, i: nat)
    requires ItemsMatchOutbox(s) && |ids| == |entries| && AllOwned(s.items, worker, entries, locked)
    requires Inserted(s.outbox, s.index, entries, ids, now, next.outbox, next.index) && i in next.index
    ensures i in s.items
  {
    if i !in s.index {
      var k :| 0 <= k < |entries| && entries[k].item == i;
    }
  }

  /** The state after every entry was completed and enqueued. */
  lemma {:induction false} CompletingKeepsIndex(s: Store, worker: Option<nat>, entries: seq<Entry>, ids: seq<nat>,
                                                locked: set<nat>, now: int)
    requires ItemsMatchOutbox(s) && |ids| == |entries| && Distinct(entries) && Fresh(s, ids)
    requires AllOwned(s.items, worker, entries, locked)
    ensures var (answer, next) := CompleteInTransaction(s, worker, entries, ids, locked, now);
            && answer == Done && ItemsMatchOutbox(next)
            && Inserted(s.outbox, s.index, entries, ids, now, next.outbox, next.index)
  {
    OwnedAreInserted(s, worker, entries, ids, locked, now);
    var next := CompleteInTransaction(s, worker, entries, ids, locked, now).1;
    ItemsOfCompleted(s, entries);
    forall i | i in s.items
      ensures next.items[i].status == Completed <==> i in next.index
      ensures i in next.index ==> next.index[i] in next.outbox && next.outbox[next.index[i]].item == i
      ensures i in next.index ==> next.items[i].billed == Some(next.outbox[next.index[i]].payload.cost)
    {
      CompletedIsIndexed(s, entries, ids, now, next, i);
    }
    forall i | i in next.index ensures i in s.items {
      IndexedIsItem(s, worker, entries, ids, locked, now, next, i);
    }
    forall c | c in next.outbox ensures next.outbox[c].item in next.index && next.index[next.outbox[c].item] == c {
      RowIsIndexed(s, entries, ids, now, next, c);
    }
  }

  lemma ItemsOfCompleted(s: Store, entries: seq<Entry>)
    ensures CompleteAll(s.items, entries).Keys == s.items.Keys
  {
    CompleteAllAt(s.items, entries, 0);
  }

  /** Old rows stay, new ones are queued, unlocked and not charged. */
  ghost predicate Extends(s: Store, outbox: map<nat, Completion>) {
    && (forall c | c in s.outbox :: c in outbox && outbox[c] == s.outbox[c])
    && (forall c | c in outbox :: c !in s.outbox ==>
          outbox[c].delivery == Queued && outbox[c].lockedBy == None && c !in s.billing.ledger.events)
  }

  lemma {:induction false} CompletingExtends(s: Store, worker: Option<nat>, entries: seq<Entry>, ids: seq<nat>,
                                             locked: set<nat>, now: int)
    requires ItemsMatchOutbox(s) && |ids| == |entries| && Distinct(entries) && Fresh(s, ids)
    requires AllOwned(s.items, worker, entries, locked)
    ensures Extends(s, Enqueue(s.outbox, s.index, entries, ids, now).0)
  {
    OwnedAreInserted(s, worker, entries, ids, locked, now);
    var outbox := Enqueue(s.outbox, s.index, entries, ids, now).0;
    forall c | c in outbox && c !in s.outbox
      ensures outbox[c].delivery == Queued && outbox[c].lockedBy == None && c !in s.billing.ledger.events
    {
      var k :| 0 <= k < |ids| && ids[k] == c;
      assert outbox[ids[k]].item == entries[k].item;
    }
  }

  lemma {:induction false} CompletingKeepsLocks(s: Store, entries: seq<Entry>, outbox: map<nat, Completion>)
    requires LocksMatch(s) && Extends(s, outbox)
    ensures LocksMatch(s.(items := CompleteAll(s.items, entries), outbox := outbox))
  {
    var items := CompleteAll(s.items, entries);
    forall i | i in items
      ensures ItemLock(items[i])
    {
      CompleteAllAt(s.items, entries, i);
    }
  }

  lemma {:induction false} ExtendingKeeps(first: Store, s: Store, next: Store)
    requires Inv(first, s) && Extends(s, next.outbox) && ItemsMatchOutbox(next) && LocksMatch(next)
    requires next.claims == s.claims && next.billing == s.billing
    ensures Inv(first, next)
  {
    forall claim | claim in next.claims
      ensures claim.id in next.outbox && Describes(claim.record, next.outbox[claim.id])
    {
      assert Describes(claim.record, s.outbox[claim.id]);
    }
  }

  lemma {:induction false} CompletingKeeps(first: Store, s: Store, worker: Option<nat>, entries: seq<Entry>,
                                           ids: seq<nat>, locked: set<nat>, now: int)
    requires Inv(first, s) && |ids| == |entries| && Distinct(entries) && Fresh(s, ids)
    requires AllOwned(s.items, worker, entries, locked)
    ensures Inv(first, CompleteInTransaction(s, worker, entries, ids, locked, now).1)
  {
    CompletingKeepsIndex(s, worker, entries, ids, locked, now);
    CompletingExtends(s, worker, entries, ids, locked, now);
    var (outbox, index, n) := Enqueue(s.outbox, s.index, entries, ids, now);
    CompletingKeepsLocks(s, entries, outbox);
    ExtendingKeeps(first, s, CompleteInTransaction(s, worker, entries, ids, locked, now).1);
  }

  lemma {:induction false} CompleteKeeps(first: Store, s: Store, worker: Option<nat>, entries: seq<Entry>,
                                         ids: seq<nat>, locked: set<nat>, now: int, db: DbOutcome)
    requires Inv(first, s) && |ids| == |entries| && Distinct(entries) && Fresh(s, ids)
    ensures Inv(first, Complete(s, worker, entries, ids, locked, now, db).1)
  {
    if AllOwned(s.items, worker, entries, locked) {
      CompletingKeeps(first, s, worker, entries, ids, locked, now);
    }
  }

  // ----- delivery

  /** The same rows of the same items, with the same payloads, and no attempt taken back. */
  ghost predicate SameRows(s: Store, outbox: map<nat, Completion>) {
    && outbox.Keys == s.outbox.Keys
    && forall c | c in s.outbox :: Describes(s.outbox[c], outbox[c])
  }

  lemma SameRowsKeepIndex(s: Store, next: Store)
    requires ItemsMatchOutbox(s) && SameRows(s, next.outbox) && next.items == s.items && next.index == s.index
    ensures ItemsMatchOutbox(next)
  {
  }

  lemma SameRowsKeepClaims(s: Store, outbox: map<nat, Completion>, claim: Claim)
    requires ClaimsMatch(s) && SameRows(s, outbox) && claim in s.claims
    ensures claim.id in outbox && Describes(claim.record, outbox[claim.id])
  {
    assert Describes(claim.record, s.outbox[claim.id]);
  }

  lemma {:induction false} ClaimKeeps(first: Store, s: Store, worker: nat, chosen: set<nat>, now: int, lease: int)
    requires Inv(first, s)
    ensures Inv(first, ClaimOutbox(s, worker, chosen, now, lease))
  {
    var next := ClaimOutbox(s, worker, chosen, now, lease);
    SameRowsKeepIndex(s, next);
    forall claim | claim in next.claims
      ensures claim.id in next.outbox && Describes(claim.record, next.outbox[claim.id])
    {
      if claim in s.claims {
        SameRowsKeepClaims(s, next.outbox, claim);
      }
    }
  }

  /** Due: waiting with its delay over, or held under a lease that has run out. */
  predicate RowDue(c: Completion, now: int) {
    match c.delivery
    case Queued => c.nextAttempt <= now
    case Retrying => c.nextAttempt <= now
    case Processing => c.leaseEnds.Some? && c.leaseEnds.value < now
    case _ => false
  }

  /**
   A completion handed out was due: queued or retrying with its delay over, or held under a lease that has run out.
   It is then held by the worker under a lease, with one attempt more, as the record says; a completion not handed out
   is as before.
   */
  lemma {:induction false} ClaimingTakesTheDue(s: Store, worker: nat, chosen: set<nat>, now: int, lease: int, id: nat)
    requires id in s.outbox
    ensures var (next, before) := (ClaimOutbox(s, worker, chosen, now, lease), s.outbox[id]);
            && next.outbox.Keys == s.outbox.Keys
            && var after := next.outbox[id];
               if id in chosen && RowDue(before, now) then
                 && Holds(next.outbox, id, worker) && Claim(worker, id, after) in next.claims
                 && after == before.(delivery := Processing, lockedBy := Some(worker), attempts := before.attempts + 1,
                                     leaseEnds := Some(now + lease))
               else
                 after == before && forall c | c in next.claims && c !in s.claims :: c.id != id
  {
    var due := set i | i in s.outbox && i in chosen && Due(s.outbox[i], now);
    var next := ClaimOutbox(s, worker, chosen, now, lease);
    if id in due {
      assert Claim(worker, id, ClaimedCompletion(s.outbox[id], worker, now, lease)) in next.claims;
    }
  }

  lemma {:induction false} MarkKeeps(first: Store, s: Store, outbox: map<nat, Completion>, id: nat)
    requires Inv(first, s)
    requires outbox.Keys == s.outbox.Keys
    requires forall c | c in s.outbox :: c != id ==> outbox[c] == s.outbox[c]
    requires id in s.outbox ==>
               && var old', row := s.outbox[id], outbox[id];
               && row.item == old'.item && row.payload == old'.payload && row.maxAttempts == old'.maxAttempts
               && row.attempts == old'.attempts && RowLock(row)
               && (row.delivery == Abandoned ==> row.attempts >= row.maxAttempts)
               && EventIsOf(s.billing.ledger.events, id, row)
    ensures Inv(first, s.(outbox := outbox))
  {
    var next := s.(outbox := outbox);
    SameRowsKeepIndex(s, next);
    forall claim | claim in next.claims
      ensures claim.id in next.outbox && Describes(claim.record, next.outbox[claim.id])
    {
      SameRowsKeepClaims(s, outbox, claim);
    }
  }

  lemma {:induction false} ChargeKeeps(first: Store, s: Store, charge: Charge)
    requires Inv(first, s)
    requires charge.event in s.outbox ==>
               charge.key.Some? && charge == ChargeOf(charge.event, s.outbox[charge.event].payload)
    ensures var next := s.(billing := BillingRuns.AfterLogSpend(s.billing, charge));
            Inv(first, next) && charge.event in next.billing.ledger.events
  {
  }

  lemma {:induction false} DeliverKeeps(first: Store, s: Store, claim: Claim, db: DbOutcome)
    requires Inv(first, s) && claim in s.claims
    ensures Inv(first, Deliver(s, claim, db))
  {
    var record := claim.record;
    assert Describes(record, s.outbox[claim.id]);
    var charged := s;
    if record.payload.key.Some? {
      var charge := ChargeOf(claim.id, record.payload);
      ChargeKeeps(first, s, charge);
      charged := s.(billing := BillingRuns.AfterLogSpend(s.billing, charge));
    }
    MarkKeeps(first, charged, Mark(s.outbox, claim.id, claim.worker, Sent), claim.id);
  }

  lemma ClaimIsTrue(s: Store, claim: Claim)
    requires ClaimsMatch(s) && claim in s.claims
    ensures claim.id in s.outbox && Describes(claim.record, s.outbox[claim.id])
  {
  }

  lemma {:induction false} AbandonedKeeps(first: Store, s: Store, id: nat, worker: nat)
    requires Inv(first, s) && id in s.outbox && s.outbox[id].attempts >= s.outbox[id].maxAttempts
    ensures Inv(first, s.(outbox := Mark(s.outbox, id, worker, Abandoned)))
  {
    MarkKeeps(first, s, Mark(s.outbox, id, worker, Abandoned), id);
  }

  lemma {:induction false} RetriedKeeps(first: Store, s: Store, id: nat, worker: nat, next: int)
    requires Inv(first, s) && id in s.outbox
    ensures Inv(first, s.(outbox := MarkRetry(s.outbox, id, worker, next)))
  {
    MarkKeeps(first, s, MarkRetry(s.outbox, id, worker, next), id);
  }

  lemma {:induction false} FailureKeeps(first: Store, s: Store, claim: Claim, now: int, initial: int, most: int,
                                        db: DbOutcome)
    requires Inv(first, s) && claim in s.claims
    ensures Inv(first, AfterFailure(s, claim, now, initial, most, db))
  {
    ClaimIsTrue(s, claim);
    if db == RaisesBeforeCommit {
      assert AfterFailure(s, claim, now, initial, most, db) == s;
    } else if claim.record.attempts >= claim.record.maxAttempts {
      AbandonedKeeps(first, s, claim.id, claim.worker);
      assert AfterFailure(s, claim, now, initial, most, db)
             == s.(outbox := Mark(s.outbox, claim.id, claim.worker, Abandoned));
    } else {
      var next := now + RetryDelay(initial, most, claim.record.attempts);
      RetriedKeeps(first, s, claim.id, claim.worker, next);
      assert AfterFailure(s, claim, now, initial, most, db)
             == s.(outbox := MarkRetry(s.outbox, claim.id, claim.worker, next));
    }
  }

  /** A renewal moves the end of the lease of a row that the worker holds, and does nothing to any other. */
  lemma RenewalsMoveTheLease(outbox: map<nat, Completion>, id: nat, worker: nat, until: int, c: nat)
    requires c in outbox
    ensures var after := RenewOutbox(outbox, id, worker, until);
            && after.Keys == outbox.Keys
            && after[c] == if c == id && outbox[c].delivery == Processing && outbox[c].lockedBy == Some(worker) then
                             outbox[c].(leaseEnds := Some(until))
                           else outbox[c]
  {
  }

  lemma {:induction false} RenewKeeps(first: Store, s: Store, id: nat, worker: nat, until: int)
    requires Inv(first, s)
    ensures Inv(first, s.(outbox := RenewOutbox(s.outbox, id, worker, until)))
  {
    MarkKeeps(first, s, RenewOutbox(s.outbox, id, worker, until), id);
  }

  lemma {:induction false} DeliveryStepKeeps(first: Store, s: Store, step: Step)
    requires Inv(first, s) && Enabled(s, step) && (step.DeliverStep? || step.FailureStep? || step.RenewStep?)
    ensures Inv(first, Next(s, step))
  {
    match step
    case DeliverStep(claim, db) => DeliverKeeps(first, s, claim, db);
    case FailureStep(claim, now, initial, most, db) => FailureKeeps(first, s, claim, now, initial, most, db);
    case RenewStep(id, worker, until) => RenewKeeps(first, s, id, worker, until);
  }

  lemma {:induction false} BillingStepKeeps(first: Store, s: Store, step: Step)
    requires Inv(first, s) && Enabled(s, step) && (step.ForeignCharge? || step.ForeignReset?)
    ensures Inv(first, Next(s, step))
  {
    if step.ForeignCharge? {
      ChargeKeeps(first, s, step.charge);
    }
  }

  lemma {:induction false} StepKeeps(first: Store, s: Store, step: Step)
    requires Inv(first, s) && Enabled(s, step)
    ensures Inv(first, Next(s, step))
  {
    match step
    case OnItems(op) => ItemStepKeeps(first, s, op);
    case CompleteStep(worker, entries, ids, locked, now, db) =>
      CompleteKeeps(first, s, worker, entries, ids, locked, now, db);
    case ClaimStep(worker, chosen, now, lease) => ClaimKeeps(first, s, worker, chosen, now, lease);
    case ForeignCharge(_) => BillingStepKeeps(first, s, step);
    case ForeignReset(_, _, _) => BillingStepKeeps(first, s, step);
    case _ => DeliveryStepKeeps(first, s, step);
  }

  lemma {:induction false} EveryRunKeeps(first: Store, s: Store, steps: seq<Step>)
    requires Inv(first, s) && Feasible(s, steps)
    ensures Inv(first, Run(s, steps))
    decreases |steps|
  {
    if steps != [] {
      StepKeeps(first, s, steps[0]);
      EveryRunKeeps(first, Next(s, steps[0]), steps[1..]);
    }
  }

  /** Safety of every run: completed items and outbox rows correspond one to one, and events carry their payloads. */
  lemma {:induction false} EveryRunIsSafe(s: Store, steps: seq<Step>)
    requires Start(s) && Feasible(s, steps)
    ensures Inv(s, Run(s, steps))
  {
    EveryRunKeeps(s, s, steps);
  }

  // ----- what never changes again

  /** Epochs and attempts never fall, completed items and their rows stay, and final deliveries are final. */
  predicate ItemLater(s: Store, s': Store, i: nat) {
    i in s.items ==>
      && i in s'.items && s.items[i].epoch <= s'.items[i].epoch
      && (s.items[i].status == Completed ==> s'.items[i] == s.items[i])
      && (i in s.index ==> i in s'.index && s'.index[i] == s.index[i])
  }

  predicate RowLater(s: Store, s': Store, c: nat) {
    c in s.outbox ==>
      && c in s'.outbox && Describes(s.outbox[c], s'.outbox[c])
      && (s.outbox[c].delivery == Sent || s.outbox[c].delivery == Abandoned ==> s'.outbox[c] == s.outbox[c])
  }

  lemma {:induction false} CompletedItemIsLater(s: Store, worker: Option<nat>, entries: seq<Entry>, ids: seq<nat>,
                                                locked: set<nat>, now: int, next: Store, i: nat)
    requires |ids| == |entries| && AllOwned(s.items, worker, entries, locked)
    requires Inserted(s.outbox, s.index, entries, ids, now, next.outbox, next.index)
    requires next.items == CompleteAll(s.items, entries)
    ensures ItemLater(s, next, i)
  {
    CompleteAllAt(s.items, entries, i);
  }

  lemma {:induction false} CompleteIsLater(s: Store, worker: Option<nat>, entries: seq<Entry>, ids: seq<nat>,
                                           locked: set<nat>, now: int, db: DbOutcome, i: nat, c: nat)
    requires ItemsMatchOutbox(s) && |ids| == |entries| && Distinct(entries) && Fresh(s, ids)
    ensures var next := Complete(s, worker, entries, ids, locked, now, db).1;
            ItemLater(s, next, i) && RowLater(s, next, c)
  {
    if AllOwned(s.items, worker, entries, locked) {
      OwnedAreInserted(s, worker, entries, ids, locked, now);
      var next := CompleteInTransaction(s, worker, entries, ids, locked, now).1;
      CompletedItemIsLater(s, worker, entries, ids, locked, now, next, i);
    }
  }

  lemma ItemStepIsLater(s: Store, op: ItemOp, i: nat)
    ensures ItemLater(s, s.(items := UpdateItems(s.items, op)), i)
  {
    if i in s.items {
      ItemEvolves(op, i, s.items[i]);
    }
  }

  /** Claims, marks, retries and renewals change rows only. */
  lemma RowStepIsLater(s: Store, step: Step, c: nat)
    requires Enabled(s, step) && (step.ClaimStep? || step.DeliverStep? || step.FailureStep? || step.RenewStep?)
    ensures RowLater(s, Next(s, step), c) && Next(s, step).items == s.items && Next(s, step).index == s.index
  {
  }

  lemma {:induction false} StepIsLater(s: Store, step: Step, i: nat, c: nat)
    requires ItemsMatchOutbox(s) && Enabled(s, step)
    ensures ItemLater(s, Next(s, step), i) && RowLater(s, Next(s, step), c)
  {
    match step
    case OnItems(op) => ItemStepIsLater(s, op, i);
    case CompleteStep(worker, entries, ids, locked, now, db) =>
      CompleteIsLater(s, worker, entries, ids, locked, now, db, i, c);
    case ForeignCharge(_) =>
    case ForeignReset(_, _, _) =>
    case _ => RowStepIsLater(s, step, c);
  }

  /** Over any run: no epoch falls, no completed item or outbox payload changes, sent and abandoned rows stay so. */
  lemma {:induction false} RunIsLater(first: Store, s: Store, steps: seq<Step>, i: nat, c: nat)
    requires Inv(first, s) && Feasible(s, steps)
    ensures ItemLater(s, Run(s, steps), i) && RowLater(s, Run(s, steps), c)
    decreases |steps|
  {
    if steps != [] {
      StepIsLater(s, steps[0], i, c);
      StepKeeps(first, s, steps[0]);
      RunIsLater(first, Next(s, steps[0]), steps[1..], i, c);
    }
  }

  // ----- nothing is stuck

  /** From when on an unfinished item can be claimed, if nobody renews or ends it. */
  function ClaimableFrom(i: Item): int {
    var lease := if i.leaseEnds.Some? then i.leaseEnds.value + 1 else 0;
    if i.status == Pending && i.notBefore.Some? && (i.leaseEnds == None || i.notBefore.value > lease) then
      i.notBefore.value
    else lease
  }

  /** From when on an undelivered row is due. */
  function DueFrom(c: Completion): int {
    if c.delivery == Processing then (if c.leaseEnds.Some? then c.leaseEnds.value + 1 else 0) else c.nextAttempt
  }

  lemma ItemIsClaimable(i: Item, now: int)
    requires ItemLock(i)
    ensures (i.status == Pending || i.status == InProgress) && now >= ClaimableFrom(i) ==> Claimable(i, now)
  {
  }

  lemma RowIsDue(c: Completion, now: int)
    requires RowLock(c)
    ensures c.delivery != Sent && c.delivery != Abandoned && now >= DueFrom(c) ==> Due(c, now)
  {
  }

  /**
   Whatever a crash left behind can be taken up again: in every reachable state an item that is pending or in
   progress can be claimed by anybody from some time on, and so can a row neither sent nor abandoned.
   */
  lemma {:induction false} NothingIsStuck(s: Store, steps: seq<Step>, worker: nat, id: nat, now: int, lease: int)
    requires Start(s) && Feasible(s, steps)
    ensures var t := Run(s, steps);
            && (id in t.items && t.items[id].status in {Pending, InProgress} && now >= ClaimableFrom(t.items[id]) ==>
                  var claimed := ItemAfter(ClaimItems(worker, {id}, now, lease), id, t.items[id]);
                  OwnedBy(claimed, worker, t.items[id].epoch + 1))
            && (id in t.outbox && t.outbox[id].delivery !in {Sent, Abandoned} && now >= DueFrom(t.outbox[id]) ==>
                  Holds(ClaimOutbox(t, worker, {id}, now, lease).outbox, id, worker))
  {
    EveryRunIsSafe(s, steps);
    var t := Run(s, steps);
    if id in t.outbox {
      RowIsDue(t.outbox[id], now);
      ClaimingTakesTheDue(t, worker, {id}, now, lease, id);
    }
    if id in t.items {
      ItemIsClaimable(t.items[id], now);
    }
  }

  // ----- fencing

  /** Once an item was claimed again, a completion under the old epoch changes nothing, whenever it arrives. */
  lemma {:induction false} StaleEpochCompletesNothing(first: Store, s: Store, steps: seq<Step>, stale: Entry,
                                                      worker: Option<nat>, entries: seq<Entry>, ids: seq<nat>,
                                                      locked: set<nat>, now: int, db: DbOutcome)
    requires Inv(first, s) && Feasible(s, steps) && |ids| == |entries|
    requires stale in entries && stale.item in s.items
    requires stale.epoch == None || stale.epoch.value < s.items[stale.item].epoch
    ensures var t := Run(s, steps);
            var (answer, next) := Complete(t, worker, entries, ids, locked, now, db);
            next == t && answer != Done
  {
    RunIsLater(first, s, steps, stale.item, 0);
    var t := Run(s, steps);
    var k :| 0 <= k < |entries| && entries[k] == stale;
    assert !AllOwned(t.items, worker, entries, locked);
  }

  /** Nor does any other statement of the worker that lost the item. */
  lemma {:induction false} StaleStatementsChangeNothing(first: Store, s: Store, steps: seq<Step>, i: nat, epoch: nat,
                                                        op: ItemOp)
    requires Inv(first, s) && Feasible(s, steps) && i in s.items && epoch < s.items[i].epoch
    requires || (op.FailItem? && op.item == i && op.epoch == epoch)
             || (op.RenewItemLease? && op.item == i && op.epoch == epoch)
             || (op.ReleaseForRetry? && i in op.epochs && op.epochs[i] == epoch)
    ensures var t := Run(s, steps); i in t.items && UpdateItems(t.items, op)[i] == t.items[i]
  {
    RunIsLater(first, s, steps, i, 0);
    HeldStatements(op, i, Run(s, steps).items[i], 0);
  }

  /** One entry that is not held under its claim, or whose row is locked, and nothing is completed. */
  lemma {:induction false} OneMissingCompletesNothing(s: Store, worker: nat, entries: seq<Entry>, ids: seq<nat>,
                                                      locked: set<nat>, now: int, db: DbOutcome, k: nat)
    requires |ids| == |entries| && k < |entries|
    requires var e := entries[k];
             || e.epoch == None || e.item !in s.items || e.item in locked
             || !Holding(s.items[e.item], worker, e.epoch.value)
    ensures var (answer, next) := Complete(s, Some(worker), entries, ids, locked, now, db);
            next == s && answer != Done
  {
    assert !AllOwned(s.items, Some(worker), entries, locked);
  }

  /** Owned, distinct items are completed together with one new row each; a conflict cannot happen. */
  lemma {:induction false} OwnedItemsComplete(first: Store, s: Store, worker: Option<nat>, entries: seq<Entry>,
                                              ids: seq<nat>, locked: set<nat>, now: int)
    requires Inv(first, s) && |ids| == |entries| && Distinct(entries) && Fresh(s, ids)
    requires AllOwned(s.items, worker, entries, locked)
    ensures var (answer, next) := Complete(s, worker, entries, ids, locked, now, Commits);
            && answer == Done
            && forall k | 0 <= k < |entries| ::
                 && entries[k].item in next.index && next.index[entries[k].item] == ids[k]
                 && ids[k] in next.outbox && next.outbox[ids[k]].payload == entries[k].payload
                 && next.outbox[ids[k]].attempts == 0 && next.outbox[ids[k]].maxAttempts == entries[k].maxAttempts
                 && RowDue(next.outbox[ids[k]], now)
                 && entries[k].item in next.items && next.items[entries[k].item].status == Completed
                 && next.items[entries[k].item].billed == Some(entries[k].payload.cost)
  {
    if entries != [] {
      CompletingKeepsIndex(s, worker, entries, ids, locked, now);
    }
  }

  lemma {:induction false} AnswerMeansDone(first: Store, s: Store, worker: Option<nat>, entries: seq<Entry>,
                                           ids: seq<nat>, locked: set<nat>, now: int, db: DbOutcome)
    requires Inv(first, s) && |ids| == |entries| && Distinct(entries) && Fresh(s, ids)
    ensures var (answer, next) := Complete(s, worker, entries, ids, locked, now, db);
            answer == Done || answer == AlreadyDone ==> AllDone(next.items, next.index, entries)
  {
    var (answer, next) := Complete(s, worker, entries, ids, locked, now, db);
    if answer == Done {
      if entries != [] {
        OwnedItemsComplete(first, s, worker, entries, ids, locked, now);
        CompleteKeeps(first, s, worker, entries, ids, locked, now, db);
      }
    }
  }

  /** A positive answer is for ever: each item stays completed, with the same row. */
  lemma {:induction false} AnswerIsForever(first: Store, s: Store, worker: Option<nat>, entries: seq<Entry>,
                                           ids: seq<nat>, locked: set<nat>, now: int, db: DbOutcome, steps: seq<Step>,
                                           k: nat)
    requires Inv(first, s) && |ids| == |entries| && Distinct(entries) && Fresh(s, ids) && k < |entries|
    requires Complete(s, worker, entries, ids, locked, now, db).0 in {Done, AlreadyDone}
    requires Feasible(Complete(s, worker, entries, ids, locked, now, db).1, steps)
    ensures var next := Complete(s, worker, entries, ids, locked, now, db).1;
            var i, t := entries[k].item, Run(next, steps);
            && i in next.items && i in t.items && t.items[i] == next.items[i] && t.items[i].status == Completed
            && i in next.index && i in t.index && t.index[i] == next.index[i]
            && t.index[i] in next.outbox && t.index[i] in t.outbox
            && t.outbox[t.index[i]].payload == next.outbox[t.index[i]].payload
  {
    AnswerMeansDone(first, s, worker, entries, ids, locked, now, db);
    CompleteKeeps(first, s, worker, entries, ids, locked, now, db);
    var next := Complete(s, worker, entries, ids, locked, now, db).1;
    RunIsLater(first, next, steps, entries[k].item, next.index[entries[k].item]);
  }

  // ----- what distinctness is for

  lemma {:induction false} RepeatedItemsLoseTheirRows(s: Store, worker: Option<nat>, entries: seq<Entry>, ids: seq<nat>,
                                                      locked: set<nat>, now: int, db: DbOutcome)
    requires ItemsMatchOutbox(s) && |ids| == |entries| && AllOwned(s.items, worker, entries, locked)
    requires !Distinct(entries) && db != RaisesBeforeCommit
    ensures var (answer, next) := Complete(s, worker, entries, ids, locked, now, db);
            answer in {NotOwned, Raised} && !ItemsMatchOutbox(next)
  {
    var e := entries[0];
    assert e.item == entries[0].item && Mentions(entries, e.item);
    OwnedHaveNoRow(s, worker, entries, locked, 0);
    CompleteAllAt(s.items, entries, e.item);
    var next := Complete(s, worker, entries, ids, locked, now, db).1;
    assert e.item in next.items && next.items[e.item].status == Completed && e.item !in next.index;
  }

  /**
   Completed items and outbox rows stay matched exactly when no item is listed twice,
   or the call updates nothing: a repeated owned item is completed without a row.
   */
  lemma {:induction false} CompletionIsSafeIff(first: Store, s: Store, worker: Option<nat>, entries: seq<Entry>,
                                               ids: seq<nat>, locked: set<nat>, now: int, db: DbOutcome)
    requires Inv(first, s) && |ids| == |entries| && Fresh(s, ids)
    ensures ItemsMatchOutbox(Complete(s, worker, entries, ids, locked, now, db).1)
            <==> Distinct(entries) || !AllOwned(s.items, worker, entries, locked) || db == RaisesBeforeCommit
  {
    if Distinct(entries) {
      CompleteKeeps(first, s, worker, entries, ids, locked, now, db);
    } else if AllOwned(s.items, worker, entries, locked) && db != RaisesBeforeCommit {
      RepeatedItemsLoseTheirRows(s, worker, entries, ids, locked, now, db);
    }
  }

  /** One owned item listed twice: it is completed without a row, and its worker is told that it did not own it. */
  lemma {:induction false} ARepeatedItemLosesItsRow()
    ensures var item := Item(InProgress, Some(7), Some(100), None, 1, None, None);
            var s := Store(map[1 := item], map[], map[], {},
                BillingRuns.Billing(Ledger(map[], map[], map[]), BillingRuns.Start));
            var e := Entry(1, Some(1), Payload(Some(5), None, None, None, None, 2.0), 5);
            var (answer, next) := Complete(s, Some(7), [e, e], [10, 11], {}, 50, Commits);
            && answer == NotOwned && next.items[1].status == Completed && next.outbox == map[]
            && !ItemsMatchOutbox(next)
  {
    var item := Item(InProgress, Some(7), Some(100), None, 1, None, None);
    var s := Store(map[1 := item], map[], map[], {},
        BillingRuns.Billing(Ledger(map[], map[], map[]), BillingRuns.Start));
    var e := Entry(1, Some(1), Payload(Some(5), None, None, None, None, 2.0), 5);
    assert [e, e][0].item == [e, e][1].item;
    RepeatedItemsLoseTheirRows(s, Some(7), [e, e], [10, 11], {}, 50, Commits);
    CompleteAllAt(s.items, [e, e], 1);
    assert [e, e][0].item == 1;
  }

  // ----- charges

  ghost predicate BillingMatches(first: Store, s: Store, a: Account, m: (nat, nat), id: nat) {
    && BillingRuns.SpendMatches(first.billing, s.billing, a)
    && BillingRuns.TeamModelMatches(first.billing, s.billing, m)
    && BillingRuns.EventMatches(first.billing, s.billing, id)
  }

  lemma {:induction false} StepKeepsBilling(first: Store, s: Store, step: Step, a: Account, m: (nat, nat), id: nat)
    requires BillingMatches(first, s, a, m, id) && Enabled(s, step)
    ensures BillingMatches(first, Next(s, step), a, m, id)
  {
    match step
    case DeliverStep(claim, db) =>
      BillingRuns.LogSpendKeeps(first.billing, s.billing, ChargeOf(claim.id, claim.record.payload), a, m, id);
    case ForeignCharge(charge) => BillingRuns.LogSpendKeeps(first.billing, s.billing, charge, a, m, id);
    case ForeignReset(account, plan, db) =>
      BillingRuns.CheckKeeps(first.billing, s.billing, account, plan, db, a, m, id);
    case _ =>
  }

  lemma {:induction false} RunKeepsBilling(first: Store, s: Store, steps: seq<Step>, a: Account, m: (nat, nat), id: nat)
    requires BillingMatches(first, s, a, m, id) && Feasible(s, steps)
    ensures BillingMatches(first, Run(s, steps), a, m, id)
    decreases |steps|
  {
    if steps != [] {
      StepKeepsBilling(first, s, steps[0], a, m, id);
      RunKeepsBilling(first, Next(s, steps[0]), steps[1..], a, m, id);
    }
  }

  /** Under the whole protocol every counter still sums what was logged since its last reset. */
  lemma {:induction false} EveryRunBillsRight(s: Store, steps: seq<Step>, a: Account, m: (nat, nat), id: nat)
    requires Start(s) && Feasible(s, steps)
    ensures BillingMatches(s, Run(s, steps), a, m, id)
  {
    RunKeepsBilling(s, s, steps, a, m, id);
  }

  /** How often the log charges any completion of the item. */
  function ItemCharges(log: BillingRuns.Log, outbox: map<nat, Completion>, i: nat): nat {
    if log == BillingRuns.Start then 0
    else
      ItemCharges(log.before, outbox, i)
      + if log.entry.Charged? && log.entry.charge.event in outbox && outbox[log.entry.charge.event].item == i then 1
          else 0
  }

  lemma {:induction false} ItemChargesAt(log: BillingRuns.Log, s: Store, i: nat)
    requires ItemsMatchOutbox(s)
    ensures ItemCharges(log, s.outbox, i) == if i in s.index then BillingRuns.TimesCharged(log, s.index[i]) else 0
  {
    if log.Then? {
      ItemChargesAt(log.before, s, i);
    }
  }

  /**
   In every run an item is charged at most once, and only when it is completed; it is
   charged exactly once when its completion was sent with an API key, and then the
   event's cost is the cost stored with the item.
   */
  lemma {:induction false} EveryItemIsChargedOnce(s: Store, steps: seq<Step>, i: nat)
    requires Start(s) && Feasible(s, steps) && i in s.items
    ensures var t := Run(s, steps);
            && i in t.items && (t.items[i].status == Completed <==> i in t.index)
            && var charges := ItemCharges(t.billing.log, t.outbox, i);
               && charges <= 1
               && (t.items[i].status != Completed ==> charges == 0)
               && (i in t.index ==>
                     && t.index[i] in t.outbox
                     && var row := t.outbox[t.index[i]];
                        && (row.delivery == Sent && row.payload.key.Some? ==> charges == 1)
                        && (row.payload.key == None ==> charges == 0)
                        && (charges == 1 ==>
                              && t.index[i] in t.billing.ledger.events
                              && t.items[i].billed == Some(t.billing.ledger.events[t.index[i]].cost)))
  {
    var t := Run(s, steps);
    EveryRunIsSafe(s, steps);
    RunIsLater(s, s, steps, i, 0);
    ItemChargesAt(t.billing.log, t, i);
    if i in t.index {
      var c := t.index[i];
      EveryRunBillsRight(s, steps, Key(0), (0, 0), c);
      assert EventIsOf(t.billing.ledger.events, c, t.outbox[c]);
    }
  }
}
