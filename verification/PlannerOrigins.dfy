/**
 Where the planner's answers come from: what a unit says of its items was answered by their preparations, a
 failure was met, nothing is prepared needlessly, and a chunk takes every item that fits it.
 */
module PlannerOrigins {
  import opened Options
  import opened EmbeddingPlanner
  import opened PlannerLaws
  import opened PlannerRuns

  // ----- answers

  /** A preparation of the item between two ticks answered so. */
  ghost predicate Answered(w: World, from: nat, to: nat, item: Item, answer: Option<Traits>) {
    exists n: nat :: from <= n < to && w.prepare(n, item) == answer
  }

  ghost predicate Origin(w: World, tick: nat, p: Prepared) {
    Answered(w, 0, tick, p.item, Some(p.traits))
  }

  /** Looking at the item raised an exception, or preparing it did. */
  ghost predicate Refused(w: World, tick: nat, item: Item) {
    w.looksGroupable(item) == None || Answered(w, 0, tick, item, None)
  }

  ghost predicate AllOrigin(w: World, tick: nat, ps: seq<Prepared>) {
    forall k | 0 <= k < |ps| :: Origin(w, tick, ps[k])
  }

  ghost predicate AllRefused(w: World, tick: nat, items: seq<Item>) {
    forall k | 0 <= k < |items| :: Refused(w, tick, items[k])
  }

  /** What the queues hold prepared was answered, and every failure was met. */
  ghost predicate Truthful(w: World, q: Queues) {
    AllOrigin(w, q.tick, q.backlog) && AllRefused(w, q.tick, q.failures)
  }

  ghost predicate UnitTruthful(w: World, tick: nat, u: WorkUnit) {
    match u
    case Failure(item) => Refused(w, tick, item)
    case Single(p) => Origin(w, tick, p)
    case Chunk(members) => AllOrigin(w, tick, members)
    case WaitForSlot => true
  }

  lemma OriginStays(w: World, tick: nat, later: nat, ps: seq<Prepared>, items: seq<Item>)
    requires tick <= later && AllOrigin(w, tick, ps) && AllRefused(w, tick, items)
    ensures AllOrigin(w, later, ps) && AllRefused(w, later, items)
  {
    forall k | 0 <= k < |ps| ensures Origin(w, later, ps[k]) {
      assert Origin(w, tick, ps[k]);
    }
    forall k | 0 <= k < |items| ensures Refused(w, later, items[k]) {
      assert Refused(w, tick, items[k]);
    }
  }

  lemma {:induction false} LookTells(w: World, q: Queues, allow: bool)
    requires Truthful(w, q)
    ensures var r := Look(w, q, allow);
            && q.tick <= r.queues.tick && Truthful(w, r.queues)
            && (r.Stop? && r.popped.Candidate? ==> Origin(w, r.queues.tick, r.popped.prepared))
  {
    var r := Look(w, q, allow);
    OriginStays(w, q.tick, r.queues.tick, q.backlog, q.failures);
    if allow && q.deferred != [] {
      assert q.tick < r.queues.tick && w.prepare(q.tick, q.deferred[0]) == w.prepare(q.tick, q.deferred[0]);
    } else if q.backlog != [] {
      assert Origin(w, q.tick, q.backlog[0]);
    } else if q.raw != [] && q.tick < r.queues.tick {
      assert w.prepare(q.tick, q.raw[0]) == w.prepare(q.tick, q.raw[0]);
    }
  }

  lemma {:induction false} PopTells(w: World, q: Queues, allow: bool)
    requires Truthful(w, q)
    ensures var (popped, q') := PopNext(w, q, allow);
            && q.tick <= q'.tick && Truthful(w, q')
            && (popped.Candidate? ==> Origin(w, q'.tick, popped.prepared))
    decreases |q.raw|, |q.deferred|
  {
    LookTells(w, q, allow);
    var r := Look(w, q, allow);
    if r.Again? {
      PopTells(w, r.queues, allow);
    }
  }

  lemma {:induction false} FillTells(w: World, q: Queues, chunk: seq<Prepared>, held: seq<Prepared>)
    requires chunk != [] && Truthful(w, q) && AllOrigin(w, q.tick, chunk) && AllOrigin(w, q.tick, held)
    ensures var (chunk', held', q') := FillChunk(w, q, chunk, held);
            && q.tick <= q'.tick && Truthful(w, q')
            && AllOrigin(w, q'.tick, chunk') && AllOrigin(w, q'.tick, held')
    decreases q.Size()
  {
    if |chunk| < chunk[0].traits.cap {
      var (popped, q') := PopNext(w, q, true);
      PopTells(w, q, true);
      OriginStays(w, q.tick, q'.tick, chunk, []);
      OriginStays(w, q.tick, q'.tick, held, []);
      if popped.Candidate? {
        if Matches(chunk[0], popped.prepared) {
          FillTells(w, q', chunk + [popped.prepared], held);
        } else {
          FillTells(w, q', chunk, held + [popped.prepared]);
        }
      }
    }
  }

  lemma {:induction false} FilterTells(w: World, tick: nat, held: seq<Prepared>, groupable: bool)
    requires AllOrigin(w, tick, held)
    ensures AllOrigin(w, tick, Filter(held, groupable))
  {
    if held != [] {
      assert Origin(w, tick, held[0]);
      assert forall k | 0 <= k < |held[1..]| :: held[1..][k] == held[k + 1];
      FilterTells(w, tick, held[1..], groupable);
    }
  }

  /** One planning call: what the unit says was answered or met, and so is what the queues then hold. */
  lemma {:induction false} PlanTells(w: World, p: Plan)
    requires Truthful(w, p.queues)
    ensures var (u, p') := PlanNext(w, p);
            && p.queues.tick <= p'.queues.tick && Truthful(w, p'.queues)
            && (u.Some? ==> UnitTruthful(w, p'.queues.tick, u.value))
  {
    if p.queues.failures != [] {
      assert Refused(w, p.queues.tick, p.queues.failures[0]);
    } else {
      var (popped, q) := PopNext(w, p.queues, !p.inFlight);
      PopTells(w, p.queues, !p.inFlight);
      if popped.Exhausted? && q.failures != [] {
        assert Refused(w, q.tick, q.failures[0]);
      } else if popped.Candidate? && popped.prepared.Groupable() {
        var (chunk, held, q') := FillChunk(w, q, [popped.prepared], []);
        FillTells(w, q, [popped.prepared], []);
        FilterTells(w, q'.tick, held, false);
      }
    }
  }

  // ----- every run

  ghost predicate AllTruthful(w: World, s: System) {
    && Truthful(w, s.plan.queues)
    && forall i | 0 <= i < |s.runners| && s.runners[i].Running? ::
         UnitTruthful(w, s.plan.queues.tick, s.runners[i].unit)
  }

  lemma UnitStaysTruthful(w: World, tick: nat, later: nat, u: WorkUnit)
    requires tick <= later && UnitTruthful(w, tick, u)
    ensures UnitTruthful(w, later, u)
  {
    match u
    case Failure(item) => OriginStays(w, tick, later, [], [item]);
    case Single(p) => OriginStays(w, tick, later, [p], []);
    case Chunk(members) => OriginStays(w, tick, later, members, []);
    case WaitForSlot =>
  }

  lemma {:induction false} StepTells(w: World, s: System, r: nat)
    requires AllTruthful(w, s) && Enabled(s, r)
    ensures AllTruthful(w, Step(w, s, r))
  {
    var s' := Step(w, s, r);
    PlanTells(w, s.plan);
    forall i | 0 <= i < |s'.runners| && s'.runners[i].Running?
      ensures UnitTruthful(w, s'.plan.queues.tick, s'.runners[i].unit)
    {
      if i != r {
        assert s'.runners[i] == s.runners[i];
        UnitStaysTruthful(w, s.plan.queues.tick, s'.plan.queues.tick, s.runners[i].unit);
      }
    }
  }

  lemma {:induction false} RunTells(w: World, s: System, schedule: seq<nat>)
    requires AllTruthful(w, s) && Feasible(w, s, schedule)
    ensures AllTruthful(w, Run(w, s, schedule))
    decreases |schedule|
  {
    if schedule != [] {
      StepTells(w, s, schedule[0]);
      RunTells(w, Step(w, s, schedule[0]), schedule[1..]);
    }
  }

  /**
   In every interleaving, whatever is held or executed as prepared carries traits that a preparation of that very
   item answered, and a failure is only reported for an item whose preparation, or whose look, raised.
   */
  lemma {:induction false} EveryRunIsTruthful(w: World, items: seq<Item>, count: nat, schedule: seq<nat>)
    requires Feasible(w, Start(items, count), schedule)
    ensures AllTruthful(w, Run(w, Start(items, count), schedule))
  {
    RunTells(w, Start(items, count), schedule);
  }

  /** The items of one upstream request were all answered to be groupable, with one key and one cap that holds. */
  lemma {:induction false} ChunksShareAnswers(w: World, items: seq<Item>, count: nat, schedule: seq<nat>, r: nat)
    requires Feasible(w, Start(items, count), schedule)
    requires RunsChunk(Run(w, Start(items, count), schedule), r)
    ensures var s := Run(w, Start(items, count), schedule);
            var members := s.runners[r].unit.members;
            exists cap, key :: cap > 1 && 1 <= |members| <= cap && forall m | 0 <= m < |members| ::
              Answered(w, 0, s.plan.queues.tick, members[m].item, Some(Traits(true, cap, key)))
  {
    EveryRunIsTruthful(w, items, count, schedule);
    EveryRunIsSafe(w, items, count, schedule, Everything());
    var s := Run(w, Start(items, count), schedule);
    var members := s.runners[r].unit.members;
    assert s.runners[r] in s.runners;
    var t := members[0].traits;
    assert members[0] in members;
    forall m | 0 <= m < |members|
      ensures Answered(w, 0, s.plan.queues.tick, members[m].item, Some(Traits(true, t.cap, t.key)))
    {
      assert members[m] in members;
      assert Origin(w, s.plan.queues.tick, members[m]);
    }
  }

  /** An item is only sent by itself if its preparation answered that it cannot be grouped. */
  lemma {:induction false} SinglesCannotBeGrouped(w: World, p: Plan, claimed: seq<Item>)
    requires PlanInv(p, claimed) && Truthful(w, p.queues)
    ensures var (u, p') := PlanNext(w, p);
            u.Some? && u.value.Single? ==>
              && !(u.value.prepared.traits.eligible && u.value.prepared.traits.cap > 1)
              && Answered(w, 0, p'.queues.tick, u.value.prepared.item, Some(u.value.prepared.traits))
  {
    PlanKeepsInv(w, p, claimed);
    PlanTells(w, p);
    var (u, p') := PlanNext(w, p);
    assert u.Some? && u.value.Single? ==> UnitTruthful(w, p'.queues.tick, u.value);
  }

  // ----- a chunk takes what fits

  /** Set aside: either not groupable, or answered since `from` to be groupable, but not with the seed. */
  ghost predicate SetAside(w: World, from: nat, tick: nat, seed: Prepared, p: Prepared) {
    && !Matches(seed, p)
    && (p.Groupable() ==> Answered(w, from, tick, p.item, Some(p.traits)))
  }

  ghost predicate AllSetAside(w: World, from: nat, tick: nat, seed: Prepared, held: seq<Prepared>) {
    forall k | 0 <= k < |held| :: SetAside(w, from, tick, seed, held[k])
  }

  /** A groupable candidate was prepared by this very call. */
  lemma {:induction false} PopIsRecent(w: World, q: Queues, allow: bool, from: nat)
    requires q.BacklogUngroupable() && from <= q.tick
    ensures var (popped, q') := PopNext(w, q, allow);
            popped.Candidate? && popped.prepared.Groupable() ==>
              Answered(w, from, q'.tick, popped.prepared.item, Some(popped.prepared.traits))
    decreases |q.raw|, |q.deferred|
  {
    var r := Look(w, q, allow);
    if r.Again? {
      PopIsRecent(w, r.queues, allow, from);
    } else if allow && q.deferred != [] {
      assert from <= q.tick < r.queues.tick && w.prepare(q.tick, q.deferred[0]) == w.prepare(q.tick, q.deferred[0]);
    } else if q.backlog == [] && q.raw != [] {
      assert from <= q.tick < r.queues.tick && w.prepare(q.tick, q.raw[0]) == w.prepare(q.tick, q.raw[0]);
    }
  }

  lemma {:induction false} FillSetsAside(w: World, q: Queues, chunk: seq<Prepared>, held: seq<Prepared>, from: nat)
    requires chunk != [] && q.BacklogUngroupable() && from <= q.tick
    requires AllSetAside(w, from, q.tick, chunk[0], held)
    ensures var (chunk', held', q') := FillChunk(w, q, chunk, held);
            && AllSetAside(w, from, q'.tick, chunk[0], held')
            && (|chunk'| < chunk[0].traits.cap ==> q'.raw == [] && q'.deferred == [])
    decreases q.Size()
  {
    if |chunk| < chunk[0].traits.cap {
      var (popped, q') := PopNext(w, q, true);
      PopIsRecent(w, q, true, from);
      PopOrder(w, q, true);
      PopTicks(w, q, true);
      forall k | 0 <= k < |held| ensures SetAside(w, from, q'.tick, chunk[0], held[k]) {
        assert SetAside(w, from, q.tick, chunk[0], held[k]);
      }
      if popped.Candidate? {
        if Matches(chunk[0], popped.prepared) {
          FillSetsAside(w, q', chunk + [popped.prepared], held, from);
        } else {
          FillSetsAside(w, q', chunk, held + [popped.prepared], from);
        }
      }
    }
  }

  lemma {:induction false} FilterMember(held: seq<Prepared>, groupable: bool, k: nat)
    requires k < |Filter(held, groupable)|
    ensures exists j | 0 <= j < |held| :: held[j] == Filter(held, groupable)[k] && held[j].Groupable() == groupable
  {
    if held[0].Groupable() == groupable && k == 0 {
      assert held[0] == Filter(held, groupable)[0];
    } else {
      FilterMember(held[1..], groupable, if held[0].Groupable() == groupable then k - 1 else k);
      var i := if held[0].Groupable() == groupable then k - 1 else k;
      var j :| 0 <= j < |held[1..]| && held[1..][j] == Filter(held[1..], groupable)[i]
            && held[1..][j].Groupable() == groupable;
      assert held[j + 1] == Filter(held, groupable)[k];
    }
  }

  /**
   A chunk that is shorter than its cap took every item that fits: each item left waiting was prepared by this call
   and answered to be groupable with another key or another cap.
   */
  lemma {:induction false} ShortChunkTookAll(w: World, p: Plan, k: nat)
    requires p.queues.BacklogUngroupable()
    requires PlanNext(w, p).0.Some? && PlanNext(w, p).0.value.Chunk?
    requires var members := PlanNext(w, p).0.value.members; |members| < members[0].traits.cap
    requires k < |PlanNext(w, p).1.queues.Waiting()|
    ensures var (u, p') := PlanNext(w, p);
            var t := u.value.members[0].traits;
            exists cap, key :: (cap != t.cap || key != t.key) && cap > 1
              && Answered(w, p.queues.tick, p'.queues.tick, p'.queues.Waiting()[k], Some(Traits(true, cap, key)))
  {
    var (popped, q) := PopNext(w, p.queues, !p.inFlight);
    PopOrder(w, p.queues, !p.inFlight);
    PopTicks(w, p.queues, !p.inFlight);
    var seed := popped.prepared;
    var (chunk, held, q') := FillChunk(w, q, [seed], []);
    FillSetsAside(w, q, [seed], [], p.queues.tick);
    FillExtends(w, q, [seed], []);
    assert chunk[0] == [seed][0];
    var waiting := Filter(held, true);
    FilterMember(held, true, k);
    var j :| 0 <= j < |held| && held[j] == waiting[k] && held[j].Groupable();
    assert SetAside(w, p.queues.tick, q'.tick, seed, held[j]);
    assert Requeue(q', held).Waiting()[k] == waiting[k].item;
  }

  // ----- how much is prepared

  /** Every preparation takes an item out of the waiting ones; with the slot taken, only one that looks ungroupable. */
  lemma {:induction false} LookTicks(w: World, q: Queues, allow: bool)
    ensures var r := Look(w, q, allow).queues;
            && q.tick <= r.tick
            && (allow ==> r.tick + |r.Waiting()| == q.tick + |q.Waiting()|)
            && (!allow ==> r.tick + Occurrences(r.raw, Plain(w)) == q.tick + Occurrences(q.raw, Plain(w)))
  {
  }

  /** Items whose request body alone shows that they cannot be grouped. */
  function Plain(w: World): Choice {
    (item: Item) => w.looksGroupable(item) == Some(false)
  }

  lemma {:induction false} PopTicks(w: World, q: Queues, allow: bool)
    ensures var q' := PopNext(w, q, allow).1;
            && q.tick <= q'.tick
            && (allow ==> q'.tick + |q'.Waiting()| == q.tick + |q.Waiting()|)
            && (!allow ==> q'.tick + Occurrences(q'.raw, Plain(w)) == q.tick + Occurrences(q.raw, Plain(w)))
    decreases |q.raw|, |q.deferred|
  {
    LookTicks(w, q, allow);
    var r := Look(w, q, allow);
    if r.Again? {
      PopTicks(w, r.queues, allow);
    }
  }

  lemma {:induction false} FillTicks(w: World, q: Queues, chunk: seq<Prepared>, held: seq<Prepared>)
    requires chunk != []
    ensures var q' := FillChunk(w, q, chunk, held).2;
            q.tick <= q'.tick && q'.tick + |q'.Waiting()| == q.tick + |q.Waiting()|
    decreases q.Size()
  {
    if |chunk| < chunk[0].traits.cap {
      var (popped, q') := PopNext(w, q, true);
      PopTicks(w, q, true);
      if popped.Candidate? {
        if Matches(chunk[0], popped.prepared) {
          FillTicks(w, q', chunk + [popped.prepared], held);
        } else {
          FillTicks(w, q', chunk, held + [popped.prepared]);
        }
      }
    }
  }

  /**
   A call prepares each waiting item at most once; while a chunk is in flight it prepares exactly the raw items it
   passes whose request body shows that they cannot be grouped.
   */
  lemma {:induction false} NothingIsPreparedTwice(w: World, p: Plan)
    requires p.queues.BacklogUngroupable()
    ensures var q, q' := p.queues, PlanNext(w, p).1.queues;
            && q.tick <= q'.tick
            && (!p.inFlight ==> q'.tick <= q.tick + |q.Waiting()|)
            && (p.inFlight ==> q'.tick + Occurrences(q'.raw, Plain(w)) == q.tick + Occurrences(q.raw, Plain(w)))
  {
    if p.queues.failures == [] {
      var (popped, q) := PopNext(w, p.queues, !p.inFlight);
      PopTicks(w, p.queues, !p.inFlight);
      PopOrder(w, p.queues, !p.inFlight);
      if popped.Candidate? && popped.prepared.Groupable() {
        FillTicks(w, q, [popped.prepared], []);
      }
    }
  }

  /** The unit is for this item as it was answered, by itself or at the head of a chunk. */
  predicate UnitIsFor(u: Option<WorkUnit>, p: Prepared) {
    u == Some(Single(p)) || (u.Some? && u.value.Chunk? && u.value.members != [] && u.value.members[0] == p)
  }

  /**
   Who is served first: a failure; then, while the slot is free, the item deferred first; then one prepared before;
   then, while the slot is free, the first raw item; an item that is prepared now only if that succeeds.
   */
  lemma {:induction false} ServedFirst(w: World, p: Plan)
    requires p.queues.BacklogUngroupable()
    ensures var (q, u) := (p.queues, PlanNext(w, p).0);
            if q.failures != [] then u == Some(Failure(q.failures[0]))
            else if !p.inFlight && q.deferred != [] then
              var answer := w.prepare(q.tick, q.deferred[0]);
              answer.Some? ==> UnitIsFor(u, Prepared(q.deferred[0], answer.value))
            else if q.backlog != [] then u == Some(Single(q.backlog[0]))
            else if !p.inFlight && q.raw != [] then
              var answer := w.prepare(q.tick, q.raw[0]);
              answer.Some? ==> UnitIsFor(u, Prepared(q.raw[0], answer.value))
            else true
  {
    if p.queues.failures == [] {
      var (popped, q) := PopNext(w, p.queues, !p.inFlight);
      if popped.Candidate? && popped.prepared.Groupable() {
        FillExtends(w, q, [popped.prepared], []);
        var chunk := FillChunk(w, q, [popped.prepared], []).0;
        assert chunk[0] == [popped.prepared][0];
      }
    }
  }
}
