/** What one planning call keeps: every item is kept exactly once, in order, and chunks are homogeneous. */
module PlannerLaws {
  import opened Options
  import opened EmbeddingPlanner
  import opened Sequences

  // ----- popping one candidate

  function CandidateItem(p: Popped): seq<Item> {
    if p.Candidate? then [p.prepared.item] else []
  }

  lemma ItemsOfConcat(a: seq<Prepared>, b: seq<Prepared>)
    ensures ItemsOf(a + b) == ItemsOf(a) + ItemsOf(b)
  {
  }

  lemma ItemsOfHead(a: seq<Prepared>)
    requires a != []
    ensures ItemsOf(a) == [a[0].item] + ItemsOf(a[1..])
  {
  }

  function Everything(): Choice {
    item => true
  }

  function Just(x: Item): Choice {
    item => item == x
  }

  lemma {:induction false} OccurrencesConcat(a: seq<Item>, b: seq<Item>, x: Choice)
    ensures Occurrences(a + b, x) == Occurrences(a, x) + Occurrences(b, x)
  {
    if a == [] {
      assert a + b == b;
    } else {
      assert (a + b)[1..] == a[1..] + b;
      OccurrencesConcat(a[1..], b, x);
    }
  }

  function LookedItems(r: Looked): seq<Item> {
    if r.Stop? then CandidateItem(r.popped) else []
  }

  lemma FirstOccurrence(s: seq<Item>, x: Choice)
    requires s != []
    ensures Occurrences(s, x) == Occurrences([s[0]], x) + Occurrences(s[1..], x)
  {
    assert [s[0]][1..] == [];
  }

  lemma {:induction false} LookConserves(w: World, q: Queues, allow: bool, x: Choice)
    ensures var r := Look(w, q, allow);
            q.Count(x) == r.queues.Count(x) + Occurrences(LookedItems(r), x)
  {
    if allow && q.deferred != [] {
      FirstOccurrence(q.deferred, x);
      OccurrencesConcat(q.failures, [q.deferred[0]], x);
    } else if q.backlog != [] {
      ItemsOfHead(q.backlog);
      FirstOccurrence(ItemsOf(q.backlog), x);
    } else if q.raw != [] {
      RawConserves(q, x);
    }
  }

  /** The first raw item may join the failures or the deferred items. */
  lemma RawConserves(q: Queues, x: Choice)
    requires q.raw != []
    ensures var left, first := q.(raw := q.raw[1..]), Occurrences([q.raw[0]], x);
            && q.Count(x) == left.Count(x) + first
            && q.Count(x) == left.(failures := q.failures + [q.raw[0]]).Count(x)
            && q.Count(x) == left.(deferred := q.deferred + [q.raw[0]]).Count(x)
  {
    FirstOccurrence(q.raw, x);
    OccurrencesConcat(q.failures, [q.raw[0]], x);
    OccurrencesConcat(q.deferred, [q.raw[0]], x);
  }

  lemma {:induction false} PopConserves(w: World, q: Queues, allow: bool, x: Choice)
    ensures var (popped, q') := PopNext(w, q, allow);
            q.Count(x) == q'.Count(x) + Occurrences(CandidateItem(popped), x)
    decreases |q.raw|, |q.deferred|
  {
    LookConserves(w, q, allow, x);
    var r := Look(w, q, allow);
    if r.Again? {
      PopConserves(w, r.queues, allow, x);
    }
  }

  /** What is left after a look, the candidate first if it is groupable, keeps the order of the waiting items. */
  ghost predicate KeepsOrder(popped: Popped, q': Queues, allow: bool, wide: seq<Item>) {
    && q'.BacklogUngroupable()
    && Subsequence(q'.Waiting(), wide)
    && (popped.Candidate? && popped.prepared.Groupable() ==>
          allow && Subsequence([popped.prepared.item] + q'.Waiting(), wide))
  }

  /** The first raw item dropped, deferred last, or in front when nothing is deferred. */
  lemma {:induction false} RawOrder(q: Queues)
    requires q.raw != []
    ensures var item, rest := q.raw[0], q.raw[1..];
            && Subsequence(q.deferred + rest, q.Waiting()) && (q.deferred + [item]) + rest == q.Waiting()
            && (q.deferred == [] ==> [item] + (q.deferred + rest) == q.Waiting())
  {
    var item, rest := q.raw[0], q.raw[1..];
    assert q.raw == [item] + rest;
    SubsequenceTail(q.raw);
    SubsequencePrefix(q.deferred, rest, q.raw);
  }

  lemma {:induction false} LookOrder(w: World, q: Queues, allow: bool)
    requires q.BacklogUngroupable()
    ensures var r := Look(w, q, allow);
            KeepsOrder(if r.Stop? then r.popped else Exhausted, r.queues, allow, q.Waiting())
  {
    SubsequenceRefl(q.Waiting());
    if allow && q.deferred != [] {
      assert q.Waiting() == [q.deferred[0]] + (q.deferred[1..] + q.raw);
      assert q.Waiting()[1..] == q.deferred[1..] + q.raw;
      SubsequenceTail(q.Waiting());
    } else if q.backlog != [] {
    } else if q.raw != [] {
      RawOrder(q);
    }
  }

  /** A groupable candidate comes from the front of the waiting items, and only while grouping is allowed. */
  lemma {:induction false} PopOrder(w: World, q: Queues, allow: bool)
    requires q.BacklogUngroupable()
    ensures var (popped, q') := PopNext(w, q, allow);
            KeepsOrder(popped, q', allow, q.Waiting())
    decreases |q.raw|, |q.deferred|
  {
    LookOrder(w, q, allow);
    var r := Look(w, q, allow);
    if r.Again? {
      PopOrder(w, r.queues, allow);
      var (popped, q') := PopNext(w, r.queues, allow);
      KeepsWiderOrder(popped, q', allow, r.queues.Waiting(), q.Waiting());
    }
  }

  lemma {:induction false} KeepsWiderOrder(popped: Popped, q': Queues, allow: bool, wide: seq<Item>, wider: seq<Item>)
    requires KeepsOrder(popped, q', allow, wide) && Subsequence(wide, wider)
    ensures KeepsOrder(popped, q', allow, wider)
  {
    SubsequenceTrans(q'.Waiting(), wide, wider);
    if popped.Candidate? && popped.prepared.Groupable() {
      SubsequenceTrans([popped.prepared.item] + q'.Waiting(), wide, wider);
    }
  }

  lemma {:induction false} PopThenWiden(w: World, q: Queues, allow: bool, wide: seq<Item>)
    requires q.BacklogUngroupable() && Subsequence(q.Waiting(), wide)
    ensures var (popped, q') := PopNext(w, q, allow);
            KeepsOrder(popped, q', allow, wide)
  {
    PopOrder(w, q, allow);
    var (popped, q') := PopNext(w, q, allow);
    KeepsWiderOrder(popped, q', allow, q.Waiting(), wide);
  }

  // ----- filling a chunk

  ghost predicate Homogeneous(chunk: seq<Prepared>) {
    && chunk != []
    && |chunk| <= chunk[0].traits.cap
    && forall p <- chunk ::
         p.Groupable() && p.traits.cap == chunk[0].traits.cap && p.traits.key == chunk[0].traits.key
  }

  function HeldWaiting(held: seq<Prepared>, q: Queues): seq<Item> {
    ItemsOf(Filter(held, true)) + q.Waiting()
  }

  lemma {:induction false} FilterAppend(held: seq<Prepared>, c: Prepared, groupable: bool)
    ensures Filter(held + [c], groupable) == Filter(held, groupable) + (if c.Groupable() == groupable then [c] else [])
  {
    if held == [] {
      assert held + [c] == [c];
    } else {
      FilterAppend(held[1..], c, groupable);
      assert (held + [c])[1..] == held[1..] + [c];
    }
  }

  lemma {:induction false} FilterSplits(held: seq<Prepared>, x: Choice)
    ensures Occurrences(ItemsOf(held), x)
            == Occurrences(ItemsOf(Filter(held, true)), x) + Occurrences(ItemsOf(Filter(held, false)), x)
  {
    if held != [] {
      FilterSplits(held[1..], x);
      ItemsOfHead(held);
      ItemsOfHead([held[0]] + Filter(held[1..], held[0].Groupable()));
    }
  }

  lemma {:induction false} FilterKeeps(held: seq<Prepared>, groupable: bool)
    ensures forall p <- Filter(held, groupable) :: p.Groupable() == groupable
  {
    if held != [] {
      FilterKeeps(held[1..], groupable);
    }
  }

  lemma {:induction false} FillConserves(w: World, q: Queues, chunk: seq<Prepared>, held: seq<Prepared>, x: Choice)
    requires chunk != []
    ensures var (chunk', held', q') := FillChunk(w, q, chunk, held);
            && chunk <= chunk'
            && Occurrences(ItemsOf(chunk), x) + Occurrences(ItemsOf(held), x) + q.Count(x)
               == Occurrences(ItemsOf(chunk'), x) + Occurrences(ItemsOf(held'), x) + q'.Count(x)
    decreases q.Size()
  {
    if |chunk| < chunk[0].traits.cap {
      var (popped, q') := PopNext(w, q, true);
      PopConserves(w, q, true, x);
      if popped.Candidate? {
        var c := popped.prepared;
        assert ItemsOf([c]) == [c.item];
        if Matches(chunk[0], c) {
          ItemsOfConcat(chunk, [c]);
          OccurrencesConcat(ItemsOf(chunk), [c.item], x);
          FillConserves(w, q', chunk + [c], held, x);
        } else {
          ItemsOfConcat(held, [c]);
          OccurrencesConcat(ItemsOf(held), [c.item], x);
          FillConserves(w, q', chunk, held + [c], x);
        }
      }
    }
  }

  /** A candidate set aside keeps its place before the items still waiting. */
  lemma {:induction false} HoldOrder(q: Queues, q': Queues, held: seq<Prepared>, c: Prepared, wide: seq<Item>)
    requires Subsequence(HeldWaiting(held, q), wide) && KeepsOrder(Candidate(c), q', true, q.Waiting())
    ensures Subsequence(HeldWaiting(held + [c], q'), wide)
  {
    var front := ItemsOf(Filter(held, true));
    FilterAppend(held, c, true);
    if c.Groupable() {
      ItemsOfConcat(Filter(held, true), [c]);
      assert ItemsOf([c]) == [c.item];
      assert HeldWaiting(held + [c], q') == front + ([c.item] + q'.Waiting());
      SubsequencePrefix(front, [c.item] + q'.Waiting(), q.Waiting());
    } else {
      assert HeldWaiting(held + [c], q') == front + q'.Waiting();
      SubsequencePrefix(front, q'.Waiting(), q.Waiting());
    }
    SubsequenceTrans(HeldWaiting(held + [c], q'), front + q.Waiting(), wide);
  }

  lemma {:induction false} DropOrder(q: Queues, q': Queues, held: seq<Prepared>, wide: seq<Item>)
    requires Subsequence(HeldWaiting(held, q), wide) && Subsequence(q'.Waiting(), q.Waiting())
    ensures Subsequence(HeldWaiting(held, q'), wide)
  {
    var front := ItemsOf(Filter(held, true));
    SubsequencePrefix(front, q'.Waiting(), q.Waiting());
    SubsequenceTrans(front + q'.Waiting(), front + q.Waiting(), wide);
  }

  lemma {:induction false} FillOrder(w: World, q: Queues, chunk: seq<Prepared>, held: seq<Prepared>, wide: seq<Item>)
    requires Homogeneous(chunk) && q.BacklogUngroupable()
    requires Subsequence(HeldWaiting(held, q), wide)
    ensures var (chunk', held', q') := FillChunk(w, q, chunk, held);
            && Homogeneous(chunk') && q'.BacklogUngroupable()
            && Subsequence(HeldWaiting(held', q'), wide)
            && (|chunk'| < chunk[0].traits.cap ==> q'.Size() == 0)
    decreases q.Size()
  {
    if |chunk| < chunk[0].traits.cap {
      var (popped, q') := PopNext(w, q, true);
      PopOrder(w, q, true);
      DropOrder(q, q', held, wide);
      if popped.Candidate? {
        var c := popped.prepared;
        if Matches(chunk[0], c) {
          FillOrder(w, q', chunk + [c], held, wide);
        } else {
          HoldOrder(q, q', held, c, wide);
          FillOrder(w, q', chunk, held + [c], wide);
        }
      }
    }
  }

  // ----- one planning call

  function UnitItems(u: Option<WorkUnit>): seq<Item> {
    match u
    case Some(Failure(item)) => [item]
    case Some(Single(p)) => [p.item]
    case Some(Chunk(members)) => ItemsOf(members)
    case _ => []
  }

  lemma {:induction false} FilterIsSubsequence(held: seq<Prepared>, groupable: bool)
    ensures Subsequence(Filter(held, groupable), held)
  {
    if held != [] {
      FilterIsSubsequence(held[1..], groupable);
    }
  }

  lemma {:induction false} FilterLengths(held: seq<Prepared>)
    ensures |Filter(held, true)| + |Filter(held, false)| == |held|
  {
    if held != [] {
      FilterLengths(held[1..]);
    }
  }

  lemma {:induction false} ItemsKeepOrder(some: seq<Prepared>, all: seq<Prepared>)
    requires Subsequence(some, all)
    ensures Subsequence(ItemsOf(some), ItemsOf(all))
    decreases |all|
  {
    if some != [] {
      ItemsOfHead(all);
      if some[0] == all[0] && Subsequence(some[1..], all[1..]) {
        ItemsOfHead(some);
        ItemsKeepOrder(some[1..], all[1..]);
      } else {
        ItemsKeepOrder(some, all[1..]);
      }
    }
  }

  /** Candidates held back go in front of what was queued before, in their order, each into one of the two queues. */
  lemma {:induction false} HeldGoFirst(q: Queues, held: seq<Prepared>)
    ensures var after := Requeue(q, held);
            var b, d := |after.backlog| - |q.backlog|, |after.deferred| - |q.deferred|;
            && b >= 0 && d >= 0 && b + d == |held|
            && after.backlog[b..] == q.backlog && after.deferred[d..] == q.deferred
            && Subsequence(after.backlog[..b], held) && Subsequence(after.deferred[..d], ItemsOf(held))
            && (forall k | 0 <= k < b :: !(after.backlog[k].traits.eligible && after.backlog[k].traits.cap > 1))
            && after == q.(backlog := after.backlog, deferred := after.deferred)
  {
    FilterLengths(held);
    FilterIsSubsequence(held, true);
    FilterIsSubsequence(held, false);
    ItemsKeepOrder(Filter(held, true), held);
    FilterKeeps(held, false);
    var after := Requeue(q, held);
    var b, d := |Filter(held, false)|, |Filter(held, true)|;
    assert after.backlog[..b] == Filter(held, false) && after.backlog[b..] == q.backlog;
    assert after.deferred[..d] == ItemsOf(Filter(held, true)) && after.deferred[d..] == q.deferred;
    forall k: nat | k < b ensures !(after.backlog[k].traits.eligible && after.backlog[k].traits.cap > 1) {
      assert after.backlog[k] in Filter(held, false);
    }
  }

  lemma {:induction false} RequeueConserves(q: Queues, held: seq<Prepared>, x: Choice)
    ensures Requeue(q, held).Count(x) == q.Count(x) + Occurrences(ItemsOf(held), x)
  {
    FilterSplits(held, x);
    ItemsOfConcat(Filter(held, false), q.backlog);
    OccurrencesConcat(ItemsOf(Filter(held, false)), ItemsOf(q.backlog), x);
    OccurrencesConcat(ItemsOf(Filter(held, true)), q.deferred, x);
  }

  lemma {:induction false} ChunkConserves(w: World, q: Queues, seed: Prepared, x: Choice)
    ensures var (chunk, held, q') := FillChunk(w, q, [seed], []);
            q.Count(x) + Occurrences([seed.item], x) == Requeue(q', held).Count(x) + Occurrences(ItemsOf(chunk), x)
  {
    var (chunk, held, q') := FillChunk(w, q, [seed], []);
    assert ItemsOf([seed]) == [seed.item];
    FillConserves(w, q, [seed], [], x);
    RequeueConserves(q', held, x);
  }

  lemma FailureConserves(q: Queues, x: Choice)
    requires q.failures != []
    ensures q.Count(x) == q.(failures := q.failures[1..]).Count(x) + Occurrences([q.failures[0]], x)
  {
    FirstOccurrence(q.failures, x);
  }

  /** Every queued item is either issued by this call or still queued, exactly as many times as before. */
  lemma {:induction false} PlanConserves(w: World, p: Plan, x: Choice)
    ensures var (u, p') := PlanNext(w, p);
            p.queues.Count(x) == p'.queues.Count(x) + Occurrences(UnitItems(u), x)
  {
    if p.queues.failures != [] {
      FailureConserves(p.queues, x);
    } else {
      var (popped, q) := PopNext(w, p.queues, !p.inFlight);
      PopConserves(w, p.queues, !p.inFlight, x);
      match popped
      case Exhausted =>
        if q.failures != [] {
          FailureConserves(q, x);
        }
      case Blocked =>
      case Candidate(seed) =>
        if seed.Groupable() {
          ChunkConserves(w, q, seed, x);
        }
    }
  }

  ghost predicate PlanInv(p: Plan, claimed: seq<Item>) {
    && p.available == !p.inFlight
    && p.queues.BacklogUngroupable()
    && Subsequence(p.queues.Waiting(), claimed)
  }

  /** The plan of a grouped chunk. */
  lemma {:induction false} ChunkPlan(w: World, q: Queues, seed: Prepared, claimed: seq<Item>)
    requires seed.Groupable() && q.BacklogUngroupable() && Subsequence(q.Waiting(), claimed)
    ensures var (chunk, held, q') := FillChunk(w, q, [seed], []);
            && Homogeneous(chunk) && (|chunk| < chunk[0].traits.cap ==> q'.raw == [])
            && Requeue(q', held).BacklogUngroupable() && Subsequence(Requeue(q', held).Waiting(), claimed)
  {
    assert HeldWaiting([], q) == q.Waiting();
    FillOrder(w, q, [seed], [], claimed);
    var (chunk, held, q') := FillChunk(w, q, [seed], []);
    FillExtends(w, q, [seed], []);
    RequeueOrder(q', held);
  }

  lemma {:induction false} FillExtends(w: World, q: Queues, chunk: seq<Prepared>, held: seq<Prepared>)
    requires chunk != []
    ensures chunk <= FillChunk(w, q, chunk, held).0
    decreases q.Size()
  {
    if |chunk| < chunk[0].traits.cap {
      var (popped, q') := PopNext(w, q, true);
      if popped.Candidate? {
        if Matches(chunk[0], popped.prepared) {
          FillExtends(w, q', chunk + [popped.prepared], held);
        } else {
          FillExtends(w, q', chunk, held + [popped.prepared]);
        }
      }
    }
  }

  lemma {:induction false} RequeueOrder(q: Queues, held: seq<Prepared>)
    requires q.BacklogUngroupable()
    ensures Requeue(q, held).BacklogUngroupable() && Requeue(q, held).Waiting() == HeldWaiting(held, q)
  {
    FilterKeeps(held, false);
  }

  /**
   The answer of one call: a chunk is homogeneous, is planned only when no other
   chunk is in flight, and is short of its cap only when every queued item was
   looked at; waiting is asked for only while a chunk is in flight; exit means
   that nothing is left.  Order, the event and the backlog's shape are kept.
   */
  lemma {:induction false} PlanKeepsInv(w: World, p: Plan, claimed: seq<Item>)
    requires PlanInv(p, claimed)
    ensures var (u, p') := PlanNext(w, p);
            && PlanInv(p', claimed)
            && match u
               case None => p'.queues.Empty() && p'.inFlight == p.inFlight
               case Some(Chunk(members)) =>
                 && !p.inFlight && p'.inFlight && Homogeneous(members)
                 && (|members| < members[0].traits.cap ==> p'.queues.raw == [])
               case Some(WaitForSlot) => p.inFlight && p'.inFlight
               case Some(Single(prepared)) => !prepared.Groupable() && p'.inFlight == p.inFlight
               case Some(Failure(_)) => p'.inFlight == p.inFlight
  {
    if p.queues.failures == [] {
      var (popped, q) := PopNext(w, p.queues, !p.inFlight);
      PopThenWiden(w, p.queues, !p.inFlight, claimed);
      if popped.Candidate? && popped.prepared.Groupable() {
        ChunkPlan(w, q, popped.prepared, claimed);
      }
    }
  }
}
