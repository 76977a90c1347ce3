/**
 The work planner of the embedding batch worker: three item queues, a queue of
 preparation failures, and one slot for a grouped chunk.  `PlanNext` is the
 value-level specification; class `Planner` is the in-place form that updates
 the queues, and is proved equal to it.
 */
module EmbeddingPlanner {
  import opened Options

  type Item = nat

  /** Which items to count: one item, or all of them. */
  type Choice = Item -> bool

  /** What a preparation finds out about an item. */
  datatype Traits = Traits(eligible: bool, cap: int, key: int)

  datatype Prepared = Prepared(item: Item, traits: Traits) {
    predicate Groupable() {
      traits.eligible && traits.cap > 1
    }
  }

  /**
   The outside world.  `prepare` is indexed by the number of preparations made
   so far, so an item prepared twice may get two different answers; `None` is a
   raised exception.  `looksGroupable` reads the request body alone.
   */
  datatype World = World(prepare: (nat, Item) -> Option<Traits>, looksGroupable: Item -> Option<bool>)

  datatype WorkUnit =
    | Failure(item: Item)
    | Single(prepared: Prepared)
    | Chunk(members: seq<Prepared>)
    | WaitForSlot

  datatype Queues = Queues(
    raw: seq<Item>,
    deferred: seq<Item>,
    backlog: seq<Prepared>,
    failures: seq<Item>,
    tick: nat)
  {
    function Size(): nat {
      |raw| + |deferred| + |backlog|
    }

    /** The items not yet prepared for good, in the order they will be looked at. */
    function Waiting(): seq<Item> {
      deferred + raw
    }

    /** How many of the chosen items are queued. */
    function Count(x: Choice): nat {
      Occurrences(raw, x) + Occurrences(deferred, x) + Occurrences(ItemsOf(backlog), x) + Occurrences(failures, x)
    }

    predicate BacklogUngroupable() {
      forall p <- backlog :: !p.Groupable()
    }

    predicate Empty() {
      raw == [] && deferred == [] && backlog == [] && failures == []
    }
  }

  datatype Popped = Candidate(prepared: Prepared) | Blocked | Exhausted

  datatype Plan = Plan(queues: Queues, inFlight: bool, available: bool)

  function Occurrences(s: seq<Item>, x: Choice): nat {
    if s == [] then 0 else (if x(s[0]) then 1 else 0) + Occurrences(s[1..], x)
  }

  function ItemsOf(ps: seq<Prepared>): seq<Item> {
    seq(|ps|, i requires 0 <= i < |ps| => ps[i].item)
  }

  function Filter(ps: seq<Prepared>, groupable: bool): seq<Prepared> {
    if ps == [] then []
    else if ps[0].Groupable() == groupable then [ps[0]] + Filter(ps[1..], groupable)
    else Filter(ps[1..], groupable)
  }

  function InitialPlan(items: seq<Item>): Plan {
    Plan(Queues(items, [], [], [], 0), false, true)
  }

  // ----- specification of the planner

  /** One look at the queues: go on with changed queues, or stop with an answer. */
  datatype Looked = Again(queues: Queues) | Stop(popped: Popped, queues: Queues)

  function Look(w: World, q: Queues, allow: bool): (r: Looked)
    ensures r.Again? ==> |r.queues.raw| < |q.raw| || (r.queues.raw == q.raw && |r.queues.deferred| < |q.deferred|)
    ensures r.Again? ==> r.queues.Size() <= q.Size()
    ensures r.Stop? && r.popped.Candidate? ==> r.queues.Size() < q.Size()
    ensures r.Stop? && !r.popped.Candidate? ==> r.queues == q && q.raw == [] && q.backlog == []
    ensures r.Stop? && r.popped == Blocked ==> !allow && q.deferred != []
    ensures r.Stop? && r.popped == Exhausted ==> q.deferred == []
  {
    if allow && q.deferred != [] then
      var item := q.deferred[0];
      var q' := q.(deferred := q.deferred[1..], tick := q.tick + 1);
      match w.prepare(q.tick, item)
      case None => Again(q'.(failures := q.failures + [item]))
      case Some(t) => Stop(Candidate(Prepared(item, t)), q')
    else if q.backlog != [] then
      Stop(Candidate(q.backlog[0]), q.(backlog := q.backlog[1..]))
    else if q.raw == [] then
      Stop(if q.deferred != [] && !allow then Blocked else Exhausted, q)
    else
      var item := q.raw[0];
      var q' := q.(raw := q.raw[1..]);
      var look := if allow then Some(false) else w.looksGroupable(item);
      if look == None then
        Again(q'.(failures := q.failures + [item]))
      else if look.value then
        Again(q'.(deferred := q.deferred + [item]))
      else
        var q'' := q'.(tick := q.tick + 1);
        match w.prepare(q.tick, item)
        case None => Again(q''.(failures := q.failures + [item]))
        case Some(t) =>
          if Prepared(item, t).Groupable() && !allow
          then Again(q''.(deferred := q.deferred + [item]))
          else Stop(Candidate(Prepared(item, t)), q'')
  }

  function PopNext(w: World, q: Queues, allow: bool): (r: (Popped, Queues))
    ensures r.0.Candidate? ==> r.1.Size() < q.Size()
    ensures !r.0.Candidate? ==> r.1.raw == [] && r.1.backlog == []
    ensures r.0 == Blocked ==> !allow && r.1.deferred != []
    ensures r.0 == Exhausted ==> r.1.deferred == []
    decreases |q.raw|, |q.deferred|
  {
    match Look(w, q, allow)
    case Again(q') => PopNext(w, q', allow)
    case Stop(popped, q') => (popped, q')
  }

  predicate Matches(seed: Prepared, candidate: Prepared) {
    && candidate.Groupable()
    && candidate.traits.cap == seed.traits.cap
    && candidate.traits.key == seed.traits.key
  }

  /** Grows `chunk` from the queues; candidates that do not match are set aside in `held`. */
  function FillChunk(w: World, q: Queues, chunk: seq<Prepared>, held: seq<Prepared>)
    : (r: (seq<Prepared>, seq<Prepared>, Queues))
    requires chunk != []
    ensures r.0 != []
    decreases q.Size()
  {
    if |chunk| >= chunk[0].traits.cap then (chunk, held, q)
    else
      var (popped, q') := PopNext(w, q, true);
      match popped
      case Candidate(c) =>
        if Matches(chunk[0], c) then FillChunk(w, q', chunk + [c], held)
        else FillChunk(w, q', chunk, held + [c])
      case _ => (chunk, held, q')
  }

  function Requeue(q: Queues, held: seq<Prepared>): Queues {
    q.(backlog := Filter(held, false) + q.backlog,
       deferred := ItemsOf(Filter(held, true)) + q.deferred)
  }

  function PlanNext(w: World, p: Plan): (r: (Option<WorkUnit>, Plan))
    ensures r.0.Some? && r.0.value.Chunk? ==> r.0.value.members != []
  {
    if p.queues.failures != [] then
      (Some(Failure(p.queues.failures[0])), p.(queues := p.queues.(failures := p.queues.failures[1..])))
    else
      var (popped, q) := PopNext(w, p.queues, !p.inFlight);
      match popped
      case Exhausted =>
        if q.failures != [] then (Some(Failure(q.failures[0])), p.(queues := q.(failures := q.failures[1..])))
        else (None, p.(queues := q))
      case Blocked => (Some(WaitForSlot), p.(queues := q))
      case Candidate(seed) =>
        if !seed.Groupable() then (Some(Single(seed)), p.(queues := q))
        else
          var (chunk, held, q') := FillChunk(w, q, [seed], []);
          (Some(Chunk(chunk)), Plan(Requeue(q', held), true, false))
  }

  /** The plan after a grouped chunk has ended. */
  function Released(p: Plan): Plan {
    p.(inFlight := false, available := true)
  }

  // ----- the in-place planner

  class Planner {
    var raw: seq<Item>
    var deferred: seq<Item>
    var backlog: seq<Prepared>
    var failures: seq<Item>
    var tick: nat
    var inFlight: bool
    var available: bool

    ghost function View(): Plan
      reads this
    {
      Plan(Queues(raw, deferred, backlog, failures, tick), inFlight, available)
    }

    constructor (items: seq<Item>)
      ensures View() == InitialPlan(items)
    {
      raw, deferred, backlog, failures, tick := items, [], [], [], 0;
      inFlight, available := false, true;
    }

    method PrepareCandidate(w: World, item: Item) returns (r: Option<Prepared>)
      modifies this`tick, this`failures
      ensures tick == old(tick) + 1
      ensures match w.prepare(old(tick), item)
              case None => r == None && failures == old(failures) + [item]
              case Some(t) => r == Some(Prepared(item, t)) && failures == old(failures)
    {
      var answer := w.prepare(tick, item);
      tick := tick + 1;
      match answer
      case None =>
        failures := failures + [item];
        r := None;
      case Some(t) =>
        r := Some(Prepared(item, t));
    }

    /** One pass of the popping loop; `None` is its `continue`. */
    method LookOnce(w: World, allow: bool) returns (r: Option<Popped>)
      modifies this
      ensures match Look(w, old(View().queues), allow)
              case Again(q) => r == None && View().queues == q
              case Stop(popped, q) => r == Some(popped) && View().queues == q
      ensures inFlight == old(inFlight) && available == old(available)
    {
      if allow && deferred != [] {
        var item := deferred[0];
        deferred := deferred[1..];
        var prepared := PrepareCandidate(w, item);
        return if prepared == None then None else Some(Candidate(prepared.value));
      }
      if backlog != [] {
        r := Some(Candidate(backlog[0]));
        backlog := backlog[1..];
        return;
      }
      if raw == [] {
        return Some(if deferred != [] && !allow then Blocked else Exhausted);
      }
      var item := raw[0];
      raw := raw[1..];
      if !allow {
        var look := w.looksGroupable(item);
        if look == None {
          failures := failures + [item];
          return None;
        }
        if look.value {
          deferred := deferred + [item];
          return None;
        }
      }
      var prepared := PrepareCandidate(w, item);
      if prepared == None {
        return None;
      }
      if prepared.value.Groupable() && !allow {
        deferred := deferred + [item];
        return None;
      }
      return Some(Candidate(prepared.value));
    }

    method PopNextCandidate(w: World, allow: bool) returns (r: Popped)
      modifies this
      ensures (r, View().queues) == PopNext(w, old(View().queues), allow)
      ensures inFlight == old(inFlight) && available == old(available)
    {
      while true
        invariant PopNext(w, View().queues, allow) == PopNext(w, old(View().queues), allow)
        invariant inFlight == old(inFlight) && available == old(available)
        decreases |raw|, |deferred|
      {
        var looked := LookOnce(w, allow);
        if looked.Some? {
          return looked.value;
        }
      }
    }

    method RequeueDeferredCandidates(held: seq<Prepared>)
      modifies this`backlog, this`deferred
      ensures View().queues == Requeue(old(View().queues), held)
    {
      var grouped: seq<Prepared>, prepared: seq<Prepared> := [], [];
      for i := 0 to |held|
        invariant Filter(held, true) == grouped + Filter(held[i..], true)
        invariant Filter(held, false) == prepared + Filter(held[i..], false)
      {
        if held[i].Groupable() {
          grouped := grouped + [held[i]];
        } else {
          prepared := prepared + [held[i]];
        }
      }
      backlog := prepared + backlog;
      deferred := ItemsOf(grouped) + deferred;
    }

    /** Plans the next unit of work; `None` tells the runner to exit. */
    method PlanNextWorkUnit(w: World) returns (r: Option<WorkUnit>)
      modifies this
      ensures (r, View()) == PlanNext(w, old(View()))
    {
      if failures != [] {
        r := Some(Failure(failures[0]));
        failures := failures[1..];
        return;
      }
      var seed := PopNextCandidate(w, !inFlight);
      if seed == Exhausted {
        if failures != [] {
          r := Some(Failure(failures[0]));
          failures := failures[1..];
          return;
        }
        return None;
      }
      if seed == Blocked {
        return Some(WaitForSlot);
      }
      if !seed.prepared.Groupable() {
        return Some(Single(seed.prepared));
      }
      var chunk, held := [seed.prepared], [];
      ghost var afterSeed := View().queues;
      while |chunk| < seed.prepared.traits.cap
        invariant chunk != [] && chunk[0] == seed.prepared
        invariant FillChunk(w, View().queues, chunk, held) == FillChunk(w, afterSeed, [seed.prepared], [])
        invariant inFlight == old(inFlight) && available == old(available)
        decreases View().queues.Size()
      {
        var candidate := PopNextCandidate(w, true);
        if !candidate.Candidate? { break; }
        if Matches(seed.prepared, candidate.prepared) {
          chunk := chunk + [candidate.prepared];
        } else {
          held := held + [candidate.prepared];
        }
      }
      assert (chunk, held, View().queues) == FillChunk(w, afterSeed, [seed.prepared], []);
      RequeueDeferredCandidates(held);
      inFlight, available := true, false;
      return Some(Chunk(chunk));
    }

    /** Runs when a grouped chunk ends, however it ends. */
    method ReleaseGroupedChunkSlot()
      modifies this`inFlight, this`available
      ensures View() == Released(old(View()))
    {
      inFlight, available := false, true;
    }
  }
}
