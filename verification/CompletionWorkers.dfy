/** The store updated in place, and the two workers that run over it while others interfere. */
module CompletionWorkers {
  import opened Options
  import opened CompletionProtocol
  import opened CompletionRuns

  // ----- runs

  lemma {:induction false} RunConcat(s: Store, steps: seq<Step>, more: seq<Step>)
    requires Feasible(s, steps) && Feasible(Run(s, steps), more)
    ensures Feasible(s, steps + more) && Run(s, steps + more) == Run(Run(s, steps), more)
    decreases |steps|
  {
    if steps == [] {
      assert steps + more == more;
    } else {
      RunConcat(Next(s, steps[0]), steps[1..], more);
      assert (steps + more)[1..] == steps[1..] + more;
    }
  }

  // ----- persisting completions

  /** One attempt to persist: what others did before it, and how its transaction goes. */
  datatype Attempt = Attempt(others: seq<Step>, ids: seq<nat>, locked: set<nat>, now: int, db: DbOutcome)

  /** The release after the last failed attempt. */
  datatype Release = Release(others: seq<Step>, now: int, db: DbOutcome)

  /** The epochs known for the items; a later entry overrides an earlier one. */
  function EpochsOf(entries: seq<Entry>): map<nat, nat> {
    if entries == [] then map[]
    else
      var epochs, e := EpochsOf(entries[..|entries| - 1]), entries[|entries| - 1];
      if e.epoch.Some? then epochs[e.item := e.epoch.value] else epochs
  }

  /** Releasing is refused if an epoch is missing; the statement may also fail. */
  predicate ReleaseRefused(entries: seq<Entry>, release: Release) {
    release.db == RaisesBeforeCommit || exists k :: 0 <= k < |entries| && entries[k].item !in EpochsOf(entries)
  }

  function ReleaseOp(worker: nat, entries: seq<Entry>, release: Release): ItemOp {
    ReleaseForRetry(worker, EpochsOf(entries), 0, release.now)
  }

  function Released(s: Store, worker: nat, entries: seq<Entry>, release: Release): Store {
    if ReleaseRefused(entries, release) then s
    else s.(items := UpdateItems(s.items, ReleaseOp(worker, entries, release)))
  }

  function AttemptStep(worker: nat, entries: seq<Entry>, a: Attempt): Step {
    CompleteStep(Some(worker), entries, a.ids, a.locked, a.now, a.db)
  }

  /** The steps of the others, and the fresh identifiers, fit the state they meet. */
  predicate FitsAttempts(s: Store, worker: nat, entries: seq<Entry>, attempts: seq<Attempt>, release: Release)
    decreases |attempts|
  {
    if attempts == [] then Feasible(s, release.others)
    else
      var a := attempts[0];
      && Feasible(s, a.others)
      && Enabled(Run(s, a.others), AttemptStep(worker, entries, a))
      && FitsAttempts(Next(Run(s, a.others), AttemptStep(worker, entries, a)), worker, entries, attempts[1..], release)
  }

  /** Tries until an attempt answers; when all have raised, the items are released. */
  function Persist(s: Store, worker: nat, entries: seq<Entry>, attempts: seq<Attempt>, release: Release): (bool, Store)
    requires FitsAttempts(s, worker, entries, attempts, release)
    decreases |attempts|
  {
    if attempts == [] then
      (false, Released(Run(s, release.others), worker, entries, release))
    else
      var a := attempts[0];
      var (answer, next) := Complete(Run(s, a.others), Some(worker), entries, a.ids, a.locked, a.now, a.db);
      if answer == Raised then Persist(next, worker, entries, attempts[1..], release)
      else (answer == Done || answer == AlreadyDone, next)
  }

  /** The steps of everybody while it persists. */
  function PersistSteps(s: Store, worker: nat, entries: seq<Entry>, attempts: seq<Attempt>, release: Release): seq<Step>
    requires FitsAttempts(s, worker, entries, attempts, release)
    decreases |attempts|
  {
    if attempts == [] then
      release.others + if ReleaseRefused(entries, release) then [] else [OnItems(ReleaseOp(worker, entries, release))]
    else
      var a := attempts[0];
      var (answer, next) := Complete(Run(s, a.others), Some(worker), entries, a.ids, a.locked, a.now, a.db);
      a.others + [AttemptStep(worker, entries, a)]
      + if answer == Raised then PersistSteps(next, worker, entries, attempts[1..], release) else []
  }

  /** What persisting does is a run of the protocol; if it reports success, every item is completed and has a row. */
  lemma {:induction false} PersistIsSound(first: Store, s: Store, worker: nat, entries: seq<Entry>,
                                          attempts: seq<Attempt>, release: Release)
    requires Inv(first, s) && FitsAttempts(s, worker, entries, attempts, release)
    ensures var (ok, next) := Persist(s, worker, entries, attempts, release);
            var steps := PersistSteps(s, worker, entries, attempts, release);
            && Feasible(s, steps) && next == Run(s, steps) && Inv(first, next)
            && (ok ==> AllDone(next.items, next.index, entries))
    decreases |attempts|
  {
    var steps := PersistSteps(s, worker, entries, attempts, release);
    if attempts == [] {
      var t := Run(s, release.others);
      if ReleaseRefused(entries, release) {
        assert steps == release.others;
      } else {
        RunOne(t, OnItems(ReleaseOp(worker, entries, release)));
        RunConcat(s, release.others, [OnItems(ReleaseOp(worker, entries, release))]);
      }
    } else {
      var a := attempts[0];
      var before := Run(s, a.others);
      var step := AttemptStep(worker, entries, a);
      EveryRunKeeps(first, s, a.others);
      StepKeeps(first, before, step);
      AnswerMeansDone(first, before, Some(worker), entries, a.ids, a.locked, a.now, a.db);
      RunOne(before, step);
      RunConcat(s, a.others, [step]);
      var next := Next(before, step);
      if Complete(before, Some(worker), entries, a.ids, a.locked, a.now, a.db).0 == Raised {
        PersistIsSound(first, next, worker, entries, attempts[1..], release);
        RunConcat(s, a.others + [step], PersistSteps(next, worker, entries, attempts[1..], release));
      } else {
        assert steps == a.others + [step];
      }
    }
    EveryRunKeeps(first, s, steps);
  }

  lemma RunOne(s: Store, step: Step)
    requires Enabled(s, step)
    ensures Feasible(s, [step]) && Run(s, [step]) == Next(s, step)
  {
    assert [step][1..] == [];
    assert Feasible(Next(s, step), []);
  }

  /** What was done stays done, so a later attempt cannot own it and finds it completed. */
  lemma {:induction false} DoneIsRecognised(first: Store, s: Store, others: seq<Step>, worker: nat, entries: seq<Entry>,
                                            b: Attempt)
    requires Inv(first, s) && Feasible(s, others) && entries != [] && |b.ids| == |entries| && b.db == Commits
    requires AllDone(s.items, s.index, entries)
    ensures Complete(Run(s, others), Some(worker), entries, b.ids, b.locked, b.now, b.db).0 == AlreadyDone
  {
    var later := Run(s, others);
    forall k | 0 <= k < |entries|
      ensures entries[k].item in later.items && later.items[entries[k].item].status == Completed
      ensures entries[k].item in later.index
    {
      RunIsLater(first, s, others, entries[k].item, 0);
    }
    assert later.items[entries[0].item].status == Completed;
  }

  lemma {:induction false} CommittedIsDone(first: Store, s: Store, worker: nat, entries: seq<Entry>, a: Attempt)
    requires Inv(first, s) && Enabled(s, AttemptStep(worker, entries, a)) && a.db != RaisesBeforeCommit
    requires AllOwned(s.items, Some(worker), entries, a.locked)
    ensures var next := Next(s, AttemptStep(worker, entries, a));
            Inv(first, next) && AllDone(next.items, next.index, entries)
  {
    StepKeeps(first, s, AttemptStep(worker, entries, a));
    AnswerMeansDone(first, s, Some(worker), entries, a.ids, a.locked, a.now, Commits);
    OwnedItemsComplete(first, s, Some(worker), entries, a.ids, a.locked, a.now);
  }

  /** A commit whose reply was lost is recognised by the next attempt, whatever happened in between. */
  lemma {:induction false} LostReplyIsRecognised(first: Store, s: Store, worker: nat, entries: seq<Entry>,
                                                 attempts: seq<Attempt>, release: Release)
    requires Inv(first, s) && FitsAttempts(s, worker, entries, attempts, release) && entries != []
    requires |attempts| == 2 && attempts[0].db == RaisesAfterCommit && attempts[1].db == Commits
    requires AllOwned(Run(s, attempts[0].others).items, Some(worker), entries, attempts[0].locked)
    ensures Persist(s, worker, entries, attempts, release).0
  {
    var a, b := attempts[0], attempts[1];
    EveryRunKeeps(first, s, a.others);
    var before := Run(s, a.others);
    CommittedIsDone(first, before, worker, entries, a);
    var next := Next(before, AttemptStep(worker, entries, a));
    assert attempts[1..][0] == b;
    DoneIsRecognised(first, next, b.others, worker, entries, b);
  }

  /** In progress under this worker and the claim of this entry. */
  predicate Mine(items: map<nat, Item>, worker: nat, e: Entry) {
    && e.item in items && items[e.item].status == InProgress && items[e.item].lockedBy == Some(worker)
    && e.epoch == Some(items[e.item].epoch)
  }

  /** The state met by the n-th attempt, or by the release, when every attempt before it has raised. */
  function Met(s: Store, worker: nat, entries: seq<Entry>, attempts: seq<Attempt>, release: Release, n: nat): Store
    requires FitsAttempts(s, worker, entries, attempts, release) && n <= |attempts|
    decreases n
  {
    if n == 0 then Run(s, if attempts == [] then release.others else attempts[0].others)
    else
      Met(Next(Run(s, attempts[0].others), AttemptStep(worker, entries, attempts[0])), worker, entries, attempts[1..],
          release, n - 1)
  }

  /** The database replies; without entries it is not asked. */
  predicate Answers(entries: seq<Entry>, a: Attempt) {
    entries == [] || a.db == Commits
  }

  lemma {:induction false} AnswersIff(first: Store, s: Store, worker: nat, entries: seq<Entry>, a: Attempt)
    requires Inv(first, s) && Enabled(s, AttemptStep(worker, entries, a))
    ensures Complete(s, Some(worker), entries, a.ids, a.locked, a.now, a.db).0 != Raised <==> Answers(entries, a)
  {
    if AllOwned(s.items, Some(worker), entries, a.locked) {
      OwnedAreInserted(s, Some(worker), entries, a.ids, a.locked, a.now);
    }
  }

  lemma {:induction false} AttemptAnswers(first: Store, s: Store, worker: nat, entries: seq<Entry>, a: Attempt)
    requires Inv(first, s) && Enabled(s, AttemptStep(worker, entries, a)) && Answers(entries, a)
    ensures var (answer, next) := Complete(s, Some(worker), entries, a.ids, a.locked, a.now, a.db);
            var done := answer == Done || answer == AlreadyDone;
            && (done <==> AllDone(next.items, next.index, entries))
            && (done <==> || AllDone(s.items, s.index, entries)
                          || forall k | 0 <= k < |entries| ::
                               Mine(s.items, worker, entries[k]) && entries[k].item !in a.locked)
  {
    AnswersIff(first, s, worker, entries, a);
    AnswerMeansDone(first, s, Some(worker), entries, a.ids, a.locked, a.now, a.db);
    if AllOwned(s.items, Some(worker), entries, a.locked) {
      forall k | 0 <= k < |entries| ensures Mine(s.items, worker, entries[k]) && entries[k].item !in a.locked {
      }
    } else if forall k | 0 <= k < |entries| :: Mine(s.items, worker, entries[k]) && entries[k].item !in a.locked {
      assert AllOwned(s.items, Some(worker), entries, a.locked);
    }
  }

  /**
   The first attempt that gets a reply decides: success is reported exactly when all items are then completed with
   their rows, which is exactly when each was owned and unlocked, or all had been completed before.
   */
  lemma {:induction false} ReportsIff(first: Store, s: Store, worker: nat, entries: seq<Entry>, attempts: seq<Attempt>,
                                      release: Release, n: nat)
    requires Inv(first, s) && FitsAttempts(s, worker, entries, attempts, release) && n < |attempts|
    requires Answers(entries, attempts[n]) && forall j | 0 <= j < n :: !Answers(entries, attempts[j])
    ensures var before := Met(s, worker, entries, attempts, release, n);
            var (ok, after) := Persist(s, worker, entries, attempts, release);
            && (ok <==> AllDone(after.items, after.index, entries))
            && (ok <==> || AllDone(before.items, before.index, entries)
                        || forall k | 0 <= k < |entries| ::
                             Mine(before.items, worker, entries[k]) && entries[k].item !in attempts[n].locked)
    decreases n
  {
    var a := attempts[0];
    var before := Run(s, a.others);
    EveryRunKeeps(first, s, a.others);
    AnswersIff(first, before, worker, entries, a);
    if n == 0 {
      AttemptAnswers(first, before, worker, entries, a);
    } else {
      var next := Next(before, AttemptStep(worker, entries, a));
      StepKeeps(first, before, AttemptStep(worker, entries, a));
      assert attempts[1..][n - 1] == attempts[n];
      ReportsIff(first, next, worker, entries, attempts[1..], release, n - 1);
    }
  }

  lemma {:induction false} EpochsOfDistinct(entries: seq<Entry>, k: nat)
    requires Distinct(entries) && k < |entries|
    ensures entries[k].item in EpochsOf(entries) <==> entries[k].epoch.Some?
    ensures entries[k].epoch.Some? ==> EpochsOf(entries)[entries[k].item] == entries[k].epoch.value
  {
    var n := |entries| - 1;
    if k < n {
      assert entries[k].item != entries[n].item;
      EpochsOfDistinct(entries[..n], k);
    } else {
      NoEpochBefore(entries[..n], entries[n].item);
    }
  }

  lemma {:induction false} NoEpochBefore(entries: seq<Entry>, i: nat)
    requires forall k | 0 <= k < |entries| :: entries[k].item != i
    ensures i !in EpochsOf(entries)
  {
    if entries != [] {
      NoEpochBefore(entries[..|entries| - 1], i);
    }
  }

  /** The items of a call are given back; what is not held any more, or would miss its deadline, is left alone. */
  predicate GivenBack(before: map<nat, Item>, after: map<nat, Item>, worker: nat, entries: seq<Entry>, now: int,
                      i: nat) {
    && (i in before <==> i in after)
    && (i in before ==>
          if (exists k | 0 <= k < |entries| :: entries[k].item == i && Mine(before, worker, entries[k]))
             && (before[i].expires == None || now < before[i].expires.value) then
            after[i] == before[i].(status := Pending, lockedBy := None, leaseEnds := None, notBefore := None)
          else after[i] == before[i])
  }

  lemma {:induction false} ReleaseGivesBack(s: Store, worker: nat, entries: seq<Entry>, release: Release, i: nat)
    requires Distinct(entries) && release.db != RaisesBeforeCommit
    requires forall k | 0 <= k < |entries| :: entries[k].epoch.Some?
    ensures var next := Released(s, worker, entries, release);
            next == s.(items := next.items) && GivenBack(s.items, next.items, worker, entries, release.now, i)
  {
    forall k | 0 <= k < |entries| ensures entries[k].item in EpochsOf(entries) {
      EpochsOfDistinct(entries, k);
    }
    if exists k :: 0 <= k < |entries| && entries[k].item == i {
      var k :| 0 <= k < |entries| && entries[k].item == i;
      EpochsOfDistinct(entries, k);
      assert i in s.items ==>
          (Mine(s.items, worker, entries[k]) <==> OwnedBy(s.items[i], worker, EpochsOf(entries)[i]));
    } else {
      NoEpochBefore(entries, i);
    }
  }

  /**
   When every attempt raised, failure is reported, and the items still held under their claims are given back at
   once, unless the release itself raises or a claim's epoch is unknown, and then nothing more changes.
   */
  lemma {:induction false} AllRaisedGivesBack(first: Store, s: Store, worker: nat, entries: seq<Entry>,
                                              attempts: seq<Attempt>, release: Release, i: nat)
    requires Inv(first, s) && FitsAttempts(s, worker, entries, attempts, release) && Distinct(entries)
    requires forall j | 0 <= j < |attempts| :: !Answers(entries, attempts[j])
    ensures var t := Met(s, worker, entries, attempts, release, |attempts|);
            var (ok, after) := Persist(s, worker, entries, attempts, release);
            && !ok
            && if release.db == RaisesBeforeCommit || exists k | 0 <= k < |entries| :: entries[k].epoch == None then
                 after == t
               else
                 after == t.(items := after.items) && GivenBack(t.items, after.items, worker, entries, release.now, i)
    decreases |attempts|
  {
    if attempts == [] {
      if release.db != RaisesBeforeCommit {
        if k: nat :| k < |entries| && entries[k].epoch == None {
          EpochsOfDistinct(entries, k);
        } else {
          ReleaseGivesBack(Run(s, release.others), worker, entries, release, i);
        }
      }
    } else {
      var a := attempts[0];
      var before := Run(s, a.others);
      EveryRunKeeps(first, s, a.others);
      AnswersIff(first, before, worker, entries, a);
      StepKeeps(first, before, AttemptStep(worker, entries, a));
      AllRaisedGivesBack(first, Next(before, AttemptStep(worker, entries, a)), worker, entries, attempts[1..], release,
                         i);
    }
  }

  // ----- delivering one record

  /** How the marking after a failed delivery goes. */
  datatype Marking = Marking(now: int, initial: int, most: int, db: DbOutcome)

  function FailureOf(claim: Claim, m: Marking): Step {
    FailureStep(claim, m.now, m.initial, m.most, m.db)
  }

  function ProcessSteps(claim: Claim, db: DbOutcome, others: seq<Step>, m: Marking): seq<Step> {
    [DeliverStep(claim, db)] + if db == Commits then [] else others + [FailureOf(claim, m)]
  }

  /** With a reply or without one, a held record whose delivery was committed is sent in the end. */
  lemma {:induction false} CommittedIsSent(first: Store, s: Store, claim: Claim, db: DbOutcome, others: seq<Step>,
                                           m: Marking)
    requires Inv(first, s) && claim in s.claims && db != RaisesBeforeCommit
    requires Feasible(s, ProcessSteps(claim, db, others, m))
    requires Holds(s.outbox, claim.id, claim.worker)
    ensures var t := Run(s, ProcessSteps(claim, db, others, m));
            claim.id in t.outbox && t.outbox[claim.id].delivery == Sent
  {
    var steps := ProcessSteps(claim, db, others, m);
    var deliver := DeliverStep(claim, db);
    assert steps[0] == deliver;
    StepKeeps(first, s, deliver);
    RunIsLater(first, Next(s, deliver), steps[1..], 0, claim.id);
  }

  /** What a marking does to a row: nothing, unless it is held and the marking commits. */
  predicate Marked(before: Completion, after: Completion, claim: Claim, m: Marking) {
    if m.db == RaisesBeforeCommit || before.delivery != Processing || before.lockedBy != Some(claim.worker) then
      after == before
    else if claim.record.attempts >= claim.record.maxAttempts then
      after == before.(delivery := Abandoned, lockedBy := None, leaseEnds := None)
    else
      && after == before.(delivery := Retrying, lockedBy := None, leaseEnds := None, nextAttempt := after.nextAttempt)
      && (m.initial >= 0 ==>
            var delay := m.initial * (if claim.record.attempts > 1 then claim.record.attempts else 1);
            after.nextAttempt == m.now + if delay < m.most then delay else m.most)
  }

  lemma MarkingMarks(s: Store, claim: Claim, m: Marking)
    requires claim.id in s.outbox
    ensures var after := AfterFailure(s, claim, m.now, m.initial, m.most, m.db).outbox;
            claim.id in after && Marked(s.outbox[claim.id], after[claim.id], claim, m)
  {
    assert claim.record.attempts > 1 && m.initial >= 0 ==> m.initial * claim.record.attempts >= m.initial;
    assert m.initial * 1 == m.initial;
  }

  /**
   After an exception the worker still holds the record exactly when it held it just before marking it, and the
   marking raised before its commit; the record then waits for its lease to expire.  A marking that commits abandons
   a held record whose attempts are used up, and puts any other held one off by the first delay times the attempts made,
   but never by more than the longest delay.
   */
  lemma {:induction false} StillHeldIff(first: Store, s: Store, claim: Claim, db: DbOutcome, others: seq<Step>,
                                        m: Marking)
    requires Inv(first, s) && claim in s.claims
    requires db != Commits && Feasible(s, ProcessSteps(claim, db, others, m))
    ensures Feasible(s, [DeliverStep(claim, db)] + others)
    ensures var before := Run(s, [DeliverStep(claim, db)] + others).outbox;
            var after := Run(s, ProcessSteps(claim, db, others, m)).outbox;
            && (Holds(after, claim.id, claim.worker)
                <==> m.db == RaisesBeforeCommit && Holds(before, claim.id, claim.worker))
            && claim.id in before && claim.id in after && Marked(before[claim.id], after[claim.id], claim, m)
  {
    var failure := FailureOf(claim, m);
    var steps := [DeliverStep(claim, db)] + others;
    assert ProcessSteps(claim, db, others, m) == steps + [failure];
    FeasibleSplit(s, steps, [failure]);
    RunConcat(s, steps, [failure]);
    RunOne(Run(s, steps), failure);
    ClaimIsTrue(s, claim);
    RunIsLater(first, s, steps, 0, claim.id);
    MarkingMarks(Run(s, steps), claim, m);
  }

  lemma {:induction false} FeasibleSplit(s: Store, steps: seq<Step>, more: seq<Step>)
    requires Feasible(s, steps + more)
    ensures Feasible(s, steps) && Feasible(Run(s, steps), more)
    decreases |steps|
  {
    if steps == [] {
      assert steps + more == more;
    } else {
      assert (steps + more)[1..] == steps[1..] + more;
      FeasibleSplit(Next(s, steps[0]), steps[1..], more);
    }
  }

  // ----- in place

  class CompletionStore {
    var items: map<nat, Item>
    var outbox: map<nat, Completion>
    var index: map<nat, nat>
    var claims: set<Claim>
    var billing: BillingRuns.Billing

    function View(): Store
      reads this
    {
      Store(items, outbox, index, claims, billing)
    }

    constructor (s: Store)
      ensures View() == s
    {
      items, outbox, index, claims, billing := s.items, s.outbox, s.index, s.claims, s.billing;
    }

    method MarkItemsCompletedBulk(worker: Option<nat>, entries: seq<Entry>, locked: set<nat>) returns (updated: bool)
      modifies this`items
      ensures items == if AllOwned(old(items), worker, entries, locked) then CompleteAll(old(items), entries)
            else old(items)
      ensures updated <==> AllOwned(old(items), worker, entries, locked) && Distinct(entries)
    {
      if !AllOwned(items, worker, entries, locked) {
        return false;
      }
      var k := |entries|;
      while k > 0
        invariant 0 <= k <= |entries|
        invariant items == CompleteAll(old(items), entries[k..])
      {
        k := k - 1;
        assert entries[k..][1..] == entries[k + 1..];
        items := CompleteItem(items, entries[k]);
      }
      assert entries[0..] == entries;
      updated := Distinct(entries);
    }

    method EnqueueCompletionOutboxMany(entries: seq<Entry>, ids: seq<nat>, now: int) returns (inserted: nat)
      requires |ids| == |entries|
      modifies this`outbox, this`index
      ensures (outbox, index, inserted) == Enqueue(old(outbox), old(index), entries, ids, now)
    {
      inserted := 0;
      for k := 0 to |entries|
        invariant var (o, x, n) := Enqueue(outbox, index, entries[k..], ids[k..], now);
                  (o, x, n + inserted) == Enqueue(old(outbox), old(index), entries, ids, now)
      {
        assert entries[k..][1..] == entries[k + 1..] && ids[k..][1..] == ids[k + 1..];
        var e := entries[k];
        if e.item !in index {
          outbox := outbox[ids[k] := Completion(e.item, e.payload, Queued, 0, e.maxAttempts, now, None, None)];
          index := index[e.item := ids[k]];
          inserted := inserted + 1;
        }
      }
    }

    /** One transaction: when it raises before the commit, what it wrote is undone. */
    method CompleteItemsWithOutboxBulk(worker: Option<nat>, entries: seq<Entry>, ids: seq<nat>, locked: set<nat>,
                                       now: int, db: DbOutcome)
      returns (answer: Answer)
      requires |ids| == |entries|
      modifies this
      ensures (answer, View()) == Complete(old(View()), worker, entries, ids, locked, now, db)
    {
      if entries == [] {
        return Done;
      }
      var before := View();
      var updated := MarkItemsCompletedBulk(worker, entries, locked);
      if updated {
        var inserted := EnqueueCompletionOutboxMany(entries, ids, now);
        answer := if inserted == |entries| then Done else Raised;
      } else {
        answer := if AllDone(items, index, entries) then AlreadyDone else NotOwned;
      }
      if db == RaisesBeforeCommit || answer == Raised {
        items, outbox, index := before.items, before.outbox, before.index;
        answer := Raised;
      } else if db == RaisesAfterCommit {
        answer := Raised;
      }
    }

    /** What other workers and services do meanwhile. */
    method Interfere(steps: seq<Step>)
      requires Feasible(View(), steps)
      modifies this
      ensures View() == Run(old(View()), steps)
    {
      var s := Run(View(), steps);
      items, outbox, index, claims, billing := s.items, s.outbox, s.index, s.claims, s.billing;
    }

    method ReleaseItemsForRetry(worker: nat, entries: seq<Entry>, release: Release)
      modifies this`items
      ensures View() == Released(old(View()), worker, entries, release)
    {
      if !ReleaseRefused(entries, release) {
        items := UpdateItems(items, ReleaseOp(worker, entries, release));
      }
    }

    method PersistCompletionRowsWithOutbox(worker: nat, entries: seq<Entry>, attempts: seq<Attempt>, release: Release)
      returns (ok: bool)
      requires |attempts| == 2 && FitsAttempts(View(), worker, entries, attempts, release)
      modifies this
      ensures (ok, View()) == Persist(old(View()), worker, entries, attempts, release)
    {
      ghost var start := View();
      var n := 0;
      assert attempts[0..] == attempts;
      while n < 2
        invariant 0 <= n <= 2
        invariant FitsAttempts(View(), worker, entries, attempts[n..], release)
        invariant Persist(View(), worker, entries, attempts[n..], release)
                  == Persist(start, worker, entries, attempts, release)
      {
        var a := attempts[n];
        assert attempts[n..][0] == a && attempts[n..][1..] == attempts[n + 1..];
        Interfere(a.others);
        var answer := CompleteItemsWithOutboxBulk(Some(worker), entries, a.ids, a.locked, a.now, a.db);
        if answer != Raised {
          return answer == Done || answer == AlreadyDone;
        }
        n := n + 1;
      }
      Interfere(release.others);
      ReleaseItemsForRetry(worker, entries, release);
      return false;
    }

    /** Due rows are taken over and their records handed out; every other row is left alone. */
    method ClaimCompletionOutboxDue(worker: nat, chosen: set<nat>, now: int, lease: int)
      modifies this`outbox, this`claims
      ensures outbox.Keys == old(outbox).Keys
      ensures forall id | id in old(outbox) && id in chosen && Due(old(outbox)[id], now) ::
                && Holds(outbox, id, worker) && outbox[id].leaseEnds == Some(now + lease)
                && outbox[id].attempts == old(outbox)[id].attempts + 1
                && outbox[id].item == old(outbox)[id].item && outbox[id].payload == old(outbox)[id].payload
                && Claim(worker, id, outbox[id]) in claims
      ensures forall id | id in old(outbox) && !(id in chosen && Due(old(outbox)[id], now)) ::
            outbox[id] == old(outbox)[id]
      ensures old(claims) <= claims
      ensures forall c | c in claims && c !in old(claims) ::
                && c.worker == worker && c.id in chosen && c.id in old(outbox) && Due(old(outbox)[c.id], now)
                && c.record == outbox[c.id]
      ensures View() == ClaimOutbox(old(View()), worker, chosen, now, lease)
    {
      var due := set id | id in outbox && id in chosen && Due(outbox[id], now);
      var before := outbox;
      outbox := map id | id in before ::
        if id in due then ClaimedCompletion(before[id], worker, now, lease) else before[id];
      claims := claims + set id | id in due :: Claim(worker, id, ClaimedCompletion(before[id], worker, now, lease));
      forall id | id in due ensures Claim(worker, id, outbox[id]) in claims {
        assert Claim(worker, id, ClaimedCompletion(before[id], worker, now, lease)) == Claim(worker, id, outbox[id]);
      }
    }

    /** One transaction of the outbox worker: the event of a keyed payload, and the mark of a row still held. */
    method RecordDurableSuccess(claim: Claim, db: DbOutcome) returns (delivered: bool)
      modifies this
      ensures View() == Deliver(old(View()), claim, db)
      ensures delivered <==> Holds(old(outbox), claim.id, claim.worker)
      ensures db == RaisesBeforeCommit ==> View() == old(View())
      ensures db != RaisesBeforeCommit && claim.record.payload.key.Some? ==> claim.id in billing.ledger.events
      ensures old(billing.ledger.events.Keys) <= billing.ledger.events.Keys
      ensures db != RaisesBeforeCommit && delivered ==> outbox[claim.id].delivery == Sent
      ensures !delivered ==> outbox == old(outbox)
    {
      delivered := Holds(outbox, claim.id, claim.worker);
      if db == RaisesBeforeCommit {
        return;
      }
      if claim.record.payload.key.Some? {
        billing := BillingRuns.AfterLogSpend(billing, ChargeOf(claim.id, claim.record.payload));
      }
      outbox := Mark(outbox, claim.id, claim.worker, Sent);
    }

    /** Delivers a record, and marks it after an exception, unless that raises as well. */
    method ProcessRecord(claim: Claim, db: DbOutcome, others: seq<Step>, m: Marking) returns (delivered: bool)
      requires claim in claims && Feasible(View(), ProcessSteps(claim, db, others, m))
      modifies this
      ensures View() == Run(old(View()), ProcessSteps(claim, db, others, m))
      ensures delivered <==> db == Commits && Holds(old(outbox), claim.id, claim.worker)
    {
      ghost var steps := ProcessSteps(claim, db, others, m);
      ghost var failure := FailureOf(claim, m);
      assert steps[0] == DeliverStep(claim, db);
      delivered := RecordDurableSuccess(claim, db);
      if db == Commits {
        assert steps[1..] == [];
        return;
      }
      assert steps[1..] == others + [failure];
      FeasibleSplit(View(), others, [failure]);
      RunConcat(View(), others, [failure]);
      Interfere(others);
      RunOne(View(), failure);
      if m.db != RaisesBeforeCommit {
        if claim.record.attempts >= claim.record.maxAttempts {
          outbox := Mark(outbox, claim.id, claim.worker, Abandoned);
        } else {
          outbox := MarkRetry(outbox, claim.id, claim.worker, m.now
              + RetryDelay(m.initial, m.most, claim.record.attempts));
        }
      }
      delivered := false;
    }
  }
}
