/**
 Any number of runners sharing one planner.  The planning lock makes a planning
 call, and the release of the chunk slot, single steps; a schedule names the
 runner that moves next, so a schedule is an interleaving.
 */
module PlannerRuns {
  import opened Options
  import opened EmbeddingPlanner
  import opened PlannerLaws
  import opened Sequences

  /** The end of a chunk wakes every waiting runner for good: it goes on even if the slot is taken again. */
  datatype Runner = Idle | Running(unit: WorkUnit) | WaitingForSlot | Woken | Exited

  datatype System = System(plan: Plan, runners: seq<Runner>, done: seq<Item>)

  function Start(items: seq<Item>, count: nat): System {
    System(InitialPlan(items), seq(count, i => Idle), [])
  }

  predicate Enabled(s: System, r: nat) {
    && r < |s.runners|
    && match s.runners[r]
       case Idle => true
       case Running(_) => true
       case WaitingForSlot => s.plan.available
       case Woken => true
       case Exited => false
  }

  function WakeOne(r: Runner): Runner {
    if r.WaitingForSlot? then Woken else r
  }

  function Wake(rs: seq<Runner>): (woken: seq<Runner>)
    ensures |woken| == |rs| && forall i | 0 <= i < |rs| :: woken[i] == WakeOne(rs[i])
  {
    if rs == [] then [] else [WakeOne(rs[0])] + Wake(rs[1..])
  }

  /** The runners when one of them ends its unit. */
  function Ended(rs: seq<Runner>, r: nat, unit: WorkUnit): seq<Runner>
    requires r < |rs|
  {
    (if unit.Chunk? then Wake(rs) else rs)[r := Idle]
  }

  function Step(w: World, s: System, r: nat): System
    requires Enabled(s, r)
  {
    match s.runners[r]
    case Idle =>
      var (unit, plan) := PlanNext(w, s.plan);
      var next := match unit
                  case None => Exited
                  case Some(WaitForSlot) => WaitingForSlot
                  case Some(u) => Running(u);
      System(plan, s.runners[r := next], s.done)
    case Running(unit) =>
      var plan := if unit.Chunk? then Released(s.plan) else s.plan;
      System(plan, Ended(s.runners, r, unit), s.done + UnitItems(Some(unit)))
    case _ => s.(runners := s.runners[r := Idle])
  }

  predicate Feasible(w: World, s: System, schedule: seq<nat>)
    decreases |schedule|
  {
    schedule == [] || (Enabled(s, schedule[0]) && Feasible(w, Step(w, s, schedule[0]), schedule[1..]))
  }

  function Run(w: World, s: System, schedule: seq<nat>): System
    requires Feasible(w, s, schedule)
    decreases |schedule|
  {
    if schedule == [] then s else Run(w, Step(w, s, schedule[0]), schedule[1..])
  }

  // ----- sums over the runners

  function Sum(rs: seq<Runner>, f: Runner -> nat): nat {
    if rs == [] then 0 else f(rs[0]) + Sum(rs[1..], f)
  }

  lemma {:induction false} SumUpdate(rs: seq<Runner>, f: Runner -> nat, r: nat, v: Runner)
    requires r < |rs|
    ensures Sum(rs[r := v], f) + f(rs[r]) == Sum(rs, f) + f(v)
  {
    if r == 0 {
      assert rs[0 := v][1..] == rs[1..];
    } else {
      SumUpdate(rs[1..], f, r - 1, v);
      assert rs[r := v][1..] == rs[1..][r - 1 := v];
    }
  }

  lemma {:induction false} SumBounds(rs: seq<Runner>, f: Runner -> nat, bound: nat)
    requires forall x :: f(x) <= bound
    ensures Sum(rs, f) <= bound * |rs|
  {
    if rs != [] {
      SumBounds(rs[1..], f, bound);
      assert bound * |rs| == bound + bound * |rs[1..]|;
    }
  }

  lemma {:induction false} SumHasTerm(rs: seq<Runner>, f: Runner -> nat, i: nat)
    requires i < |rs|
    ensures f(rs[i]) <= Sum(rs, f)
  {
    if i > 0 {
      SumHasTerm(rs[1..], f, i - 1);
    }
  }

  /** A positive sum has a positive term. */
  lemma {:induction false} SumTerm(rs: seq<Runner>, f: Runner -> nat) returns (i: nat)
    requires Sum(rs, f) > 0
    ensures i < |rs| && f(rs[i]) > 0
  {
    if f(rs[0]) > 0 {
      i := 0;
    } else {
      i := SumTerm(rs[1..], f);
      i := i + 1;
    }
  }

  lemma {:induction false} WakeKeepsSum(rs: seq<Runner>, f: Runner -> nat)
    requires f(WaitingForSlot) == f(Woken)
    ensures Sum(Wake(rs), f) == Sum(rs, f)
  {
    if rs != [] {
      WakeKeepsSum(rs[1..], f);
      assert Wake(rs)[1..] == Wake(rs[1..]);
    }
  }

  lemma {:induction false} EndedSum(rs: seq<Runner>, r: nat, unit: WorkUnit, f: Runner -> nat)
    requires r < |rs| && rs[r] == Running(unit) && f(WaitingForSlot) == f(Woken)
    ensures Sum(Ended(rs, r, unit), f) + f(Running(unit)) == Sum(rs, f) + f(Idle)
  {
    WakeKeepsSum(rs, f);
    SumUpdate(if unit.Chunk? then Wake(rs) else rs, f, r, Idle);
  }

  function RunnerItems(r: Runner): seq<Item> {
    if r.Running? then UnitItems(Some(r.unit)) else []
  }

  function Held(x: Choice): Runner -> nat {
    (r: Runner) => Occurrences(RunnerItems(r), x)
  }

  function HasChunk(): Runner -> nat {
    (r: Runner) => if r.Running? && r.unit.Chunk? then 1 else 0
  }

  function Busy(): Runner -> nat {
    (r: Runner) => if r.Running? then 1 else 0
  }

  function Phase(inFlight: bool): Runner -> nat {
    (r: Runner) => match r
         case Idle => 1
         case WaitingForSlot => if inFlight then 0 else 2
         case Woken => 2
         case _ => 0
  }

  // ----- conservation

  /** Chosen items queued, being executed, and done. */
  function Balance(s: System, x: Choice): nat {
    s.plan.queues.Count(x) + Sum(s.runners, Held(x)) + Occurrences(s.done, x)
  }

  /** No step loses or duplicates an item. */
  lemma {:induction false} StepConserves(w: World, s: System, r: nat, x: Choice)
    requires Enabled(s, r)
    ensures Balance(Step(w, s, r), x) == Balance(s, x)
  {
    var s' := Step(w, s, r);
    match s.runners[r]
    case Idle =>
      SumUpdate(s.runners, Held(x), r, s'.runners[r]);
      PlanConserves(w, s.plan, x);
    case Running(unit) =>
      EndedSum(s.runners, r, unit, Held(x));
      OccurrencesConcat(s.done, UnitItems(Some(unit)), x);
    case _ =>
      SumUpdate(s.runners, Held(x), r, Idle);
  }

  // ----- safety

  ghost predicate Safe(s: System, claimed: seq<Item>) {
    && PlanInv(s.plan, claimed)
    && Sum(s.runners, HasChunk()) == (if s.plan.inFlight then 1 else 0)
    && (forall r <- s.runners | r.Exited? :: s.plan.queues.Empty())
    && (forall r <- s.runners | r.Running? && r.unit.Chunk? :: Homogeneous(r.unit.members))
    && (forall r <- s.runners | r.Running? :: !r.unit.WaitForSlot?)
  }

  lemma EmptyStaysEmpty(w: World, p: Plan)
    requires p.queues.Empty()
    ensures PlanNext(w, p) == (None, p)
  {
  }

  lemma {:induction false} PlanSafe(w: World, s: System, r: nat, claimed: seq<Item>)
    requires Safe(s, claimed) && Enabled(s, r) && s.runners[r].Idle?
    ensures Safe(Step(w, s, r), claimed)
  {
    SumUpdate(s.runners, HasChunk(), r, Step(w, s, r).runners[r]);
    PlanKeepsInv(w, s.plan, claimed);
    if s.plan.queues.Empty() {
      EmptyStaysEmpty(w, s.plan);
    }
  }

  lemma {:induction false} EndSafe(w: World, s: System, r: nat, claimed: seq<Item>)
    requires Safe(s, claimed) && Enabled(s, r) && s.runners[r].Running?
    ensures Safe(Step(w, s, r), claimed)
  {
    var s' := Step(w, s, r);
    EndedSum(s.runners, r, s.runners[r].unit, HasChunk());
    SumHasTerm(s.runners, HasChunk(), r);
    forall x | x in s'.runners && (x.Running? || x.Exited?) ensures x in s.runners {
      EndedRunner(s.runners, r, s.runners[r].unit, x);
    }
  }

  lemma EndedRunner(rs: seq<Runner>, r: nat, unit: WorkUnit, x: Runner)
    requires r < |rs| && x in Ended(rs, r, unit) && (x.Running? || x.Exited?)
    ensures x in rs
  {
    var i :| 0 <= i < |rs| && Ended(rs, r, unit)[i] == x;
    assert rs[i] == x;
  }

  lemma {:induction false} StepSafe(w: World, s: System, r: nat, claimed: seq<Item>)
    requires Safe(s, claimed) && Enabled(s, r)
    ensures Safe(Step(w, s, r), claimed)
  {
    match s.runners[r]
    case Idle => PlanSafe(w, s, r, claimed);
    case Running(_) => EndSafe(w, s, r, claimed);
    case _ => SumUpdate(s.runners, HasChunk(), r, Idle);
  }

  lemma {:induction false} StartSafe(items: seq<Item>, count: nat)
    ensures Safe(Start(items, count), items)
    ensures forall x: Choice :: Balance(Start(items, count), x) == Occurrences(items, x)
  {
    var s := Start(items, count);
    SubsequenceRefl(items);
    assert s.plan.queues.Waiting() == items;
    NoChunkAtStart(s.runners);
    forall x: Choice
      ensures Balance(s, x) == Occurrences(items, x)
    {
      AllIdleHold(s.runners, x);
    }
  }

  lemma NoChunkAtStart(rs: seq<Runner>)
    requires forall r <- rs :: r.Idle?
    ensures Sum(rs, HasChunk()) == 0
  {
    if rs != [] {
      assert rs[0] in rs;
      NoChunkAtStart(rs[1..]);
    }
  }

  lemma AllIdleHold(rs: seq<Runner>, x: Choice)
    requires forall r <- rs :: r.Idle?
    ensures Sum(rs, Held(x)) == 0
  {
    if rs != [] {
      assert rs[0] in rs;
      AllIdleHold(rs[1..], x);
    }
  }

  /**
   In every interleaving, whatever the preparations answer: at most one grouped
   chunk is in flight, exactly when the slot event is clear; every chunk is
   homogeneous; waiting items keep the claimed order; an exited runner left empty
   queues; and each chosen item is queued, held by one runner, or done.
   */
  lemma {:induction false} EveryRunIsSafe(w: World, items: seq<Item>, count: nat, schedule: seq<nat>, x: Choice)
    requires Feasible(w, Start(items, count), schedule)
    ensures var s := Run(w, Start(items, count), schedule);
            Safe(s, items) && |s.runners| == count && Balance(s, x) == Occurrences(items, x)
  {
    StartSafe(items, count);
    RunSafe(w, Start(items, count), schedule, items, x);
  }

  lemma {:induction false} RunSafe(w: World, s: System, schedule: seq<nat>, claimed: seq<Item>, x: Choice)
    requires Safe(s, claimed) && Feasible(w, s, schedule)
    ensures var s' := Run(w, s, schedule);
            Safe(s', claimed) && |s'.runners| == |s.runners| && Balance(s', x) == Balance(s, x)
    decreases |schedule|
  {
    if schedule != [] {
      StepSafe(w, s, schedule[0], claimed);
      StepConserves(w, s, schedule[0], x);
      RunSafe(w, Step(w, s, schedule[0]), schedule[1..], claimed, x);
    }
  }

  // ----- progress

  /** A runner executing the grouped chunk. */
  predicate RunsChunk(s: System, r: nat) {
    r < |s.runners| && s.runners[r].Running? && s.runners[r].unit.Chunk?
  }

  /** While the slot is taken some runner executes a chunk. */
  lemma {:induction false} ChunkRunner(s: System, claimed: seq<Item>) returns (r: nat)
    requires Safe(s, claimed) && !s.plan.available
    ensures RunsChunk(s, r) && Enabled(s, r)
  {
    r := SumTerm(s.runners, HasChunk());
  }

  /** While the slot is taken some runner executes a chunk, and its end makes every waiting runner go on, for good. */
  lemma {:induction false} WaitersAreWoken(w: World, s: System, claimed: seq<Item>)
    requires Safe(s, claimed) && !s.plan.available
    ensures exists r: nat :: RunsChunk(s, r) && Enabled(s, r)
                             && forall i | 0 <= i < |s.runners| && s.runners[i].WaitingForSlot? ::
                                  Step(w, s, r).runners[i] == Woken
  {
    var r := ChunkRunner(s, claimed);
    forall i | 0 <= i < |s.runners| && s.runners[i].WaitingForSlot? ensures Step(w, s, r).runners[i] == Woken {
      assert i != r;
    }
    assert RunsChunk(s, r) && Enabled(s, r);
  }

  /**
   No deadlock: while some runner has not exited, some runner can move; and a runner that waits and cannot
   move has a chunk in flight whose runner can.
   */
  lemma {:induction false} NoDeadlock(s: System, claimed: seq<Item>)
    requires Safe(s, claimed)
    ensures (exists i | 0 <= i < |s.runners| :: !s.runners[i].Exited?) ==> exists r: nat :: Enabled(s, r)
    ensures forall i: nat | i < |s.runners| && s.runners[i].WaitingForSlot? && !Enabled(s, i) ::
              s.plan.inFlight && exists r: nat :: RunsChunk(s, r) && Enabled(s, r)
  {
    if !s.plan.available {
      var r := ChunkRunner(s, claimed);
      assert RunsChunk(s, r) && Enabled(s, r);
    } else if exists i | 0 <= i < |s.runners| :: !s.runners[i].Exited? {
      var i: nat :| i < |s.runners| && !s.runners[i].Exited?;
      assert Enabled(s, i);
    }
  }

  /**
   A run that cannot go on has done everything: all runners have exited, and every claimed item was executed once for
   each claim.
   */
  lemma {:induction false} RunsEndDone(w: World, items: seq<Item>, count: nat, schedule: seq<nat>, x: Item)
    requires count > 0 && Feasible(w, Start(items, count), schedule)
    requires forall r: nat :: !Enabled(Run(w, Start(items, count), schedule), r)
    ensures var s := Run(w, Start(items, count), schedule);
            && (forall r <- s.runners :: r.Exited?)
            && s.plan.queues.Empty() && Occurrences(s.done, Just(x)) == Occurrences(items, Just(x))
  {
    var s := Run(w, Start(items, count), schedule);
    EveryRunIsSafe(w, items, count, schedule, Just(x));
    NoDeadlock(s, items);
    AllExitedMeansAllDone(w, items, count, schedule, x);
  }

  /** Once every runner has exited, every claimed item was executed exactly as often as it was claimed. */
  lemma {:induction false} AllExitedMeansAllDone(w: World, items: seq<Item>, count: nat, schedule: seq<nat>, x: Item)
    requires count > 0 && Feasible(w, Start(items, count), schedule)
    requires forall r <- Run(w, Start(items, count), schedule).runners :: r.Exited?
    ensures var s := Run(w, Start(items, count), schedule);
            s.plan.queues.Empty() && Occurrences(s.done, Just(x)) == Occurrences(items, Just(x))
  {
    var s := Run(w, Start(items, count), schedule);
    EveryRunIsSafe(w, items, count, schedule, Just(x));
    assert s.runners[0] in s.runners;
    ExitedHoldNothing(s.runners, Just(x));
  }

  lemma ExitedHoldNothing(rs: seq<Runner>, x: Choice)
    requires forall r <- rs :: r.Exited?
    ensures Sum(rs, Held(x)) == 0
  {
    if rs != [] {
      assert rs[0] in rs;
      ExitedHoldNothing(rs[1..], x);
    }
  }

  // ----- termination of every interleaving

  function Rank(s: System): nat {
    Weigh(|s.runners|, s.plan.queues.Count(Everything()), Sum(s.runners, Busy()),
        Sum(s.runners, Phase(s.plan.inFlight)))
  }

  function Times(k: nat, m: nat): nat {
    if m == 0 then 0 else k + Times(k, m - 1)
  }

  lemma {:induction false} TimesGrows(k: nat, a: nat, b: nat)
    requires a >= b
    ensures Times(k, a) >= Times(k, b)
  {
    if a > b {
      TimesGrows(k, a - 1, b);
    }
  }

  lemma {:induction false} TimesIsProduct(k: nat, m: nat)
    ensures Times(k, m) == k * m
  {
    if m > 0 {
      TimesIsProduct(k, m - 1);
      assert k * m == k * (m - 1) + k;
    }
  }

  /** Issuing an item outweighs any change of the runners, and finishing one outweighs any change of phase. */
  function Weigh(n: nat, queued: nat, busy: nat, phase: nat): nat {
    Times(4 * n + 2, queued) + Times(2 * n + 1, busy) + phase
  }

  lemma {:induction false} WeighFalls(n: nat, queued: nat, busy: nat, phase: nat, queued': nat, busy': nat, phase': nat)
    requires phase' <= 2 * n
    requires || (queued' < queued && busy' <= busy + 1)
             || (queued' == queued && busy' < busy)
             || (queued' == queued && busy' == busy && phase' < phase)
    ensures Weigh(n, queued', busy', phase') < Weigh(n, queued, busy, phase)
  {
    if queued' < queued {
      TimesGrows(4 * n + 2, queued, queued' + 1);
      TimesGrows(2 * n + 1, busy + 1, busy');
    } else if busy' < busy {
      TimesGrows(2 * n + 1, busy, busy' + 1);
    }
  }

  lemma {:induction false} CountEverything(s: seq<Item>)
    ensures Occurrences(s, Everything()) == |s|
  {
    if s != [] {
      CountEverything(s[1..]);
    }
  }

  /** A planning call takes an item out of the queues, or its runner waits or exits while nothing else changes. */
  lemma {:induction false} PlannedOnce(w: World, s: System, r: nat, claimed: seq<Item>)
    requires Safe(s, claimed) && Enabled(s, r) && s.runners[r].Idle?
    ensures var s' := Step(w, s, r);
            var queued, queued' := s.plan.queues.Count(Everything()), s'.plan.queues.Count(Everything());
            && s'.runners == s.runners[r := s'.runners[r]]
            && (queued' < queued
                || (queued' == queued && s'.plan.inFlight == s.plan.inFlight && Busy()(s'.runners[r]) == 0
                    && Phase(s.plan.inFlight)(s'.runners[r]) == 0))
  {
    PlanKeepsInv(w, s.plan, claimed);
    PlanConserves(w, s.plan, Everything());
    CountEverything(UnitItems(PlanNext(w, s.plan).0));
  }

  lemma {:induction false} PlanLowersRank(w: World, s: System, r: nat, claimed: seq<Item>)
    requires Safe(s, claimed) && Enabled(s, r) && s.runners[r].Idle?
    ensures Rank(Step(w, s, r)) < Rank(s)
  {
    var s' := Step(w, s, r);
    PlannedOnce(w, s, r, claimed);
    SumUpdate(s.runners, Busy(), r, s'.runners[r]);
    SumUpdate(s.runners, Phase(s.plan.inFlight), r, s'.runners[r]);
    SumBounds(s'.runners, Phase(s'.plan.inFlight), 2);
    WeighFalls(|s.runners|,
               s.plan.queues.Count(Everything()), Sum(s.runners, Busy()), Sum(s.runners, Phase(s.plan.inFlight)),
               s'.plan.queues.Count(Everything()), Sum(s'.runners, Busy()), Sum(s'.runners, Phase(s'.plan.inFlight)));
  }

  lemma {:induction false} EndLowersRank(w: World, s: System, r: nat)
    requires Enabled(s, r) && s.runners[r].Running?
    ensures Rank(Step(w, s, r)) < Rank(s)
  {
    var s' := Step(w, s, r);
    var queued := s.plan.queues.Count(Everything());
    EndedSum(s.runners, r, s.runners[r].unit, Busy());
    SumBounds(s'.runners, Phase(s'.plan.inFlight), 2);
    WeighFalls(|s.runners|, queued, Sum(s.runners, Busy()), Sum(s.runners, Phase(s.plan.inFlight)),
               queued, Sum(s'.runners, Busy()), Sum(s'.runners, Phase(s'.plan.inFlight)));
  }

  lemma {:induction false} ResumeLowersRank(w: World, s: System, r: nat, claimed: seq<Item>)
    requires Safe(s, claimed) && Enabled(s, r) && (s.runners[r].WaitingForSlot? || s.runners[r].Woken?)
    ensures Rank(Step(w, s, r)) < Rank(s)
  {
    var s' := Step(w, s, r);
    var queued := s.plan.queues.Count(Everything());
    SumUpdate(s.runners, Busy(), r, Idle);
    SumUpdate(s.runners, Phase(s.plan.inFlight), r, Idle);
    SumBounds(s'.runners, Phase(s'.plan.inFlight), 2);
    WeighFalls(|s.runners|, queued, Sum(s.runners, Busy()), Sum(s.runners, Phase(s.plan.inFlight)),
               queued, Sum(s'.runners, Busy()), Sum(s'.runners, Phase(s'.plan.inFlight)));
  }

  lemma {:induction false} StepLowersRank(w: World, s: System, r: nat, claimed: seq<Item>)
    requires Safe(s, claimed) && Enabled(s, r)
    ensures Rank(Step(w, s, r)) < Rank(s)
  {
    match s.runners[r]
    case Idle => PlanLowersRank(w, s, r, claimed);
    case Running(_) => EndLowersRank(w, s, r);
    case _ => ResumeLowersRank(w, s, r, claimed);
  }

  /** Every interleaving is finite: no run of `count` runners over `items` is longer than this. */
  lemma {:induction false} EveryRunIsShort(w: World, items: seq<Item>, count: nat, schedule: seq<nat>)
    requires Feasible(w, Start(items, count), schedule)
    ensures |schedule| <= (4 * count + 2) * |items| + count
  {
    StartSafe(items, count);
    RunWithinRank(w, Start(items, count), schedule, items);
    RankAtStart(items, count);
    TimesIsProduct(4 * count + 2, |items|);
  }

  lemma {:induction false} RankAtStart(items: seq<Item>, count: nat)
    ensures Rank(Start(items, count)) == Times(4 * count + 2, |items|) + count
  {
    CountEverything(items);
    AllIdlePhase(Start(items, count).runners);
  }

  lemma AllIdlePhase(rs: seq<Runner>)
    requires forall r <- rs :: r.Idle?
    ensures Sum(rs, Phase(false)) == |rs| && Sum(rs, Busy()) == 0
  {
    if rs != [] {
      assert rs[0] in rs;
      AllIdlePhase(rs[1..]);
    }
  }

  lemma {:induction false} RunWithinRank(w: World, s: System, schedule: seq<nat>, claimed: seq<Item>)
    requires Safe(s, claimed) && Feasible(w, s, schedule)
    ensures |schedule| <= Rank(s)
    decreases |schedule|
  {
    if schedule != [] {
      StepLowersRank(w, s, schedule[0], claimed);
      StepSafe(w, s, schedule[0], claimed);
      RunWithinRank(w, Step(w, s, schedule[0]), schedule[1..], claimed);
    }
  }
}
