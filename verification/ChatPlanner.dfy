/** Turning prepared chat items into work units: grouping by deployment and group key, then splitting. */
module ChatPlanner {
  import opened Options
  import opened Sequences
  import opened ChatSplitter

  datatype WorkMode = AsConfigured(mode: Mode) | MicrobatchFallback

  datatype WorkUnit = Single(item: Candidate, workMode: WorkMode) | Chunk(items: seq<Candidate>)

  /** What is known of the deployments. */
  datatype Fleet = Fleet(configs: map<nat, Config>, executors: set<nat>) {
    function SettingsOf(deployment: nat): Settings {
      ResolveSettings(if deployment in configs then Some(configs[deployment]) else None)
    }
  }

  datatype Group = Group(key: nat, members: seq<Candidate>)

  datatype KeyKind = ByDeployment | ByGroup

  function KeyOf(c: Candidate, kind: KeyKind): nat {
    if kind == ByDeployment then c.deployment else if c.group.Some? then c.group.value else 0
  }

  // ----- grouping in the order of first appearance

  function Add(groups: seq<Group>, key: nat, c: Candidate): seq<Group> {
    if groups == [] then [Group(key, [c])]
    else if groups[0].key == key then [Group(key, groups[0].members + [c])] + groups[1..]
    else [groups[0]] + Add(groups[1..], key, c)
  }

  function GroupBy(items: seq<Candidate>, kind: KeyKind): seq<Group> {
    if items == [] then []
    else
      var c := items[|items| - 1];
      Add(GroupBy(items[..|items| - 1], kind), KeyOf(c, kind), c)
  }

  function MembersOf(groups: seq<Group>, key: nat): seq<Candidate> {
    if groups == [] then [] else if groups[0].key == key then groups[0].members else MembersOf(groups[1..], key)
  }

  function WithKey(items: seq<Candidate>, kind: KeyKind, key: nat): seq<Candidate> {
    if items == [] then []
    else
      WithKey(items[..|items| - 1], kind, key)
      + if KeyOf(items[|items| - 1], kind) == key then [items[|items| - 1]] else []
  }

  lemma {:induction false} AddMembers(groups: seq<Group>, key: nat, c: Candidate, k: nat)
    ensures MembersOf(Add(groups, key, c), k) == MembersOf(groups, k) + if k == key then [c] else []
  {
    if groups != [] && groups[0].key != key {
      AddMembers(groups[1..], key, c, k);
      assert Add(groups, key, c)[1..] == Add(groups[1..], key, c);
    }
  }

  /** A group holds exactly the items with its key, in their order. */
  lemma {:induction false} GroupsAreFilters(items: seq<Candidate>, kind: KeyKind, key: nat)
    ensures MembersOf(GroupBy(items, kind), key) == WithKey(items, kind, key)
  {
    if items != [] {
      var n := |items| - 1;
      GroupsAreFilters(items[..n], kind, key);
      AddMembers(GroupBy(items[..n], kind), KeyOf(items[n], kind), items[n], key);
    }
  }

  ghost predicate Homogeneous(groups: seq<Group>, kind: KeyKind, from: seq<Candidate>) {
    forall g, m | 0 <= g < |groups| && 0 <= m < |groups[g].members| ::
      KeyOf(groups[g].members[m], kind) == groups[g].key && groups[g].members[m] in from
  }

  lemma {:induction false} AddIsHomogeneous(groups: seq<Group>, kind: KeyKind, from: seq<Candidate>, c: Candidate)
    requires Homogeneous(groups, kind, from) && c in from
    ensures Homogeneous(Add(groups, KeyOf(c, kind), c), kind, from)
  {
    if groups != [] && groups[0].key != KeyOf(c, kind) {
      forall g, m | 0 <= g < |groups[1..]| && 0 <= m < |groups[1..][g].members|
        ensures KeyOf(groups[1..][g].members[m], kind) == groups[1..][g].key && groups[1..][g].members[m] in from
      {
        assert groups[1..][g] == groups[g + 1];
      }
      AddIsHomogeneous(groups[1..], kind, from, c);
      var more := Add(groups[1..], KeyOf(c, kind), c);
      var all := Add(groups, KeyOf(c, kind), c);
      forall g, m | 0 <= g < |all| && 0 <= m < |all[g].members|
        ensures KeyOf(all[g].members[m], kind) == all[g].key && all[g].members[m] in from
      {
        assert g > 0 ==> all[g] == more[g - 1];
      }
    }
  }

  lemma {:induction false} GroupByIsHomogeneous(items: seq<Candidate>, kind: KeyKind, from: seq<Candidate>)
    requires forall k | 0 <= k < |items| :: items[k] in from
    ensures Homogeneous(GroupBy(items, kind), kind, from)
  {
    if items != [] {
      var n := |items| - 1;
      GroupByIsHomogeneous(items[..n], kind, from);
      AddIsHomogeneous(GroupBy(items[..n], kind), kind, from, items[n]);
    }
  }

  function CountGroups(groups: seq<Group>, c: Candidate): nat {
    if groups == [] then 0 else Count(groups[0].members, c) + CountGroups(groups[1..], c)
  }

  lemma {:induction false} AddCounts(groups: seq<Group>, key: nat, c: Candidate, x: Candidate)
    ensures CountGroups(Add(groups, key, c), x) == CountGroups(groups, x) + if x == c then 1 else 0
  {
    if groups != [] {
      if groups[0].key == key {
        CountConcat(groups[0].members, [c], x);
        assert Add(groups, key, c)[1..] == groups[1..];
      } else {
        AddCounts(groups[1..], key, c, x);
        assert Add(groups, key, c)[1..] == Add(groups[1..], key, c);
      }
    } else {
      assert Add(groups, key, c)[1..] == [];
      assert Count([c], x) == if x == c then 1 else 0;
    }
  }

  lemma {:induction false} GroupByCounts(items: seq<Candidate>, kind: KeyKind, x: Candidate)
    ensures CountGroups(GroupBy(items, kind), x) == Count(items, x)
  {
    if items != [] {
      var n := |items| - 1;
      GroupByCounts(items[..n], kind, x);
      AddCounts(GroupBy(items[..n], kind), KeyOf(items[n], kind), items[n], x);
      CountConcat(items[..n], [items[n]], x);
      assert items == items[..n] + [items[n]];
    }
  }

  // ----- units

  function Singles(items: seq<Candidate>, mode: WorkMode): seq<WorkUnit> {
    if items == [] then [] else [Single(items[0], mode)] + Singles(items[1..], mode)
  }

  function Chunks(chunks: seq<seq<Candidate>>): seq<WorkUnit> {
    if chunks == [] then [] else [Chunk(chunks[0])] + Chunks(chunks[1..])
  }

  function SplitUnits(members: seq<Candidate>, s: Settings): seq<WorkUnit> {
    var blocks := Blocks([], members, s);
    Singles(FallbackCandidates(FallbacksOf(blocks, s)), MicrobatchFallback) + Chunks(ChunksOf(blocks))
  }

  function SplitAll(groups: seq<Group>, s: Settings): seq<WorkUnit> {
    if groups == [] then [] else SplitUnits(groups[0].members, s) + SplitAll(groups[1..], s)
  }

  function Eligible(items: seq<Candidate>, yes: bool): seq<Candidate> {
    if items == [] then []
    else Eligible(items[..|items| - 1], yes) + if items[|items| - 1].group.Some? == yes then [items[|items| - 1]]
        else []
  }

  function DeploymentUnits(deployment: nat, items: seq<Candidate>, fleet: Fleet): seq<WorkUnit> {
    var s := fleet.SettingsOf(deployment);
    if s.mode != SyncMicrobatch then Singles(items, AsConfigured(s.mode))
    else if deployment !in fleet.executors then Singles(items, MicrobatchFallback)
    else Singles(Eligible(items, false), MicrobatchFallback) + SplitAll(GroupBy(Eligible(items, true), ByGroup), s)
  }

  function UnitsOf(groups: seq<Group>, fleet: Fleet): seq<WorkUnit> {
    if groups == [] then [] else DeploymentUnits(groups[0].key, groups[0].members, fleet) + UnitsOf(groups[1..], fleet)
  }

  function PlanUnits(items: seq<Candidate>, fleet: Fleet): seq<WorkUnit> {
    UnitsOf(GroupBy(items, ByDeployment), fleet)
  }

  // ----- every item is in one unit

  function ItemsOf(u: WorkUnit): seq<Candidate> {
    if u.Single? then [u.item] else u.items
  }

  function CountUnits(units: seq<WorkUnit>, x: Candidate): nat {
    if units == [] then 0 else Count(ItemsOf(units[0]), x) + CountUnits(units[1..], x)
  }

  lemma {:induction false} CountUnitsConcat(a: seq<WorkUnit>, b: seq<WorkUnit>, x: Candidate)
    ensures CountUnits(a + b, x) == CountUnits(a, x) + CountUnits(b, x)
  {
    if a == [] {
      assert a + b == b;
    } else {
      CountUnitsConcat(a[1..], b, x);
      assert (a + b)[1..] == a[1..] + b;
    }
  }

  lemma {:induction false} SinglesCount(items: seq<Candidate>, mode: WorkMode, x: Candidate)
    ensures CountUnits(Singles(items, mode), x) == Count(items, x)
  {
    if items != [] {
      SinglesCount(items[1..], mode, x);
      assert Singles(items, mode)[1..] == Singles(items[1..], mode);
      assert Count([items[0]], x) == if items[0] == x then 1 else 0;
    }
  }

  lemma {:induction false} ChunksCount(chunks: seq<seq<Candidate>>, x: Candidate)
    ensures CountUnits(Chunks(chunks), x) == Count(Flatten(chunks), x)
  {
    if chunks != [] {
      ChunksCount(chunks[1..], x);
      CountConcat(chunks[0], Flatten(chunks[1..]), x);
      assert Chunks(chunks)[1..] == Chunks(chunks[1..]);
    }
  }

  lemma {:induction false} SplitUnitsCount(members: seq<Candidate>, s: Settings, x: Candidate)
    ensures CountUnits(SplitUnits(members, s), x) == Count(members, x)
  {
    var blocks := Blocks([], members, s);
    var singles := FallbackCandidates(FallbacksOf(blocks, s));
    SplitPlacesOnce(members, s, x);
    SinglesCount(singles, MicrobatchFallback, x);
    ChunksCount(ChunksOf(blocks), x);
    CountUnitsConcat(Singles(singles, MicrobatchFallback), Chunks(ChunksOf(blocks)), x);
  }

  lemma {:induction false} SplitAllCount(groups: seq<Group>, s: Settings, x: Candidate)
    ensures CountUnits(SplitAll(groups, s), x) == CountGroups(groups, x)
  {
    if groups != [] {
      SplitUnitsCount(groups[0].members, s, x);
      SplitAllCount(groups[1..], s, x);
      CountUnitsConcat(SplitUnits(groups[0].members, s), SplitAll(groups[1..], s), x);
    }
  }

  lemma {:induction false} EligibleCount(items: seq<Candidate>, x: Candidate)
    ensures Count(Eligible(items, true), x) + Count(Eligible(items, false), x) == Count(items, x)
  {
    if items != [] {
      var n := |items| - 1;
      EligibleCount(items[..n], x);
      CountConcat(items[..n], [items[n]], x);
      CountConcat(Eligible(items[..n], true), [items[n]], x);
      CountConcat(Eligible(items[..n], false), [items[n]], x);
      assert items == items[..n] + [items[n]];
      assert forall c: seq<Candidate> :: c + [] == c;
    }
  }

  lemma {:induction false} DeploymentCount(deployment: nat, items: seq<Candidate>, fleet: Fleet, x: Candidate)
    ensures CountUnits(DeploymentUnits(deployment, items, fleet), x) == Count(items, x)
  {
    var s := fleet.SettingsOf(deployment);
    if s.mode == SyncMicrobatch && deployment in fleet.executors {
      var groups := GroupBy(Eligible(items, true), ByGroup);
      EligibleCount(items, x);
      GroupByCounts(Eligible(items, true), ByGroup, x);
      SplitAllCount(groups, s, x);
      SinglesCount(Eligible(items, false), MicrobatchFallback, x);
      CountUnitsConcat(Singles(Eligible(items, false), MicrobatchFallback), SplitAll(groups, s), x);
    } else {
      SinglesCount(items, AsConfigured(s.mode), x);
      SinglesCount(items, MicrobatchFallback, x);
    }
  }

  lemma {:induction false} UnitsCount(groups: seq<Group>, fleet: Fleet, x: Candidate)
    ensures CountUnits(UnitsOf(groups, fleet), x) == CountGroups(groups, x)
  {
    if groups != [] {
      DeploymentCount(groups[0].key, groups[0].members, fleet, x);
      UnitsCount(groups[1..], fleet, x);
      CountUnitsConcat(DeploymentUnits(groups[0].key, groups[0].members, fleet), UnitsOf(groups[1..], fleet), x);
    }
  }

  /** Conservation: every prepared item is in exactly one work unit, as often as it was prepared. */
  lemma {:induction false} PlanConservesItems(items: seq<Candidate>, fleet: Fleet, x: Candidate)
    ensures CountUnits(PlanUnits(items, fleet), x) == Count(items, x)
  {
    GroupByCounts(items, ByDeployment, x);
    UnitsCount(GroupBy(items, ByDeployment), fleet, x);
  }

  // ----- chunks are homogeneous and acceptable

  /** A chunk goes to one deployment that accepts it, and all its items have one group key. */
  ghost predicate Sound(u: WorkUnit, fleet: Fleet) {
    u.Chunk? ==>
      && |u.items| >= 2
      && var d := u.items[0].deployment;
         && CapableExecutor(fleet.SettingsOf(d), |u.items|, Tokens(u.items), d in fleet.executors) == None
         && u.items[0].group.Some?
         && forall k | 0 <= k < |u.items| :: u.items[k].deployment == d && u.items[k].group == u.items[0].group
  }

  ghost predicate AllSound(units: seq<WorkUnit>, fleet: Fleet) {
    forall k | 0 <= k < |units| :: Sound(units[k], fleet)
  }

  lemma {:induction false} SinglesAreSound(items: seq<Candidate>, mode: WorkMode, fleet: Fleet)
    ensures AllSound(Singles(items, mode), fleet)
  {
    if items != [] {
      SinglesAreSound(items[1..], mode, fleet);
      var all, rest := Singles(items, mode), Singles(items[1..], mode);
      assert all == [Single(items[0], mode)] + rest;
      forall k | 0 <= k < |all| ensures Sound(all[k], fleet) {
        if k > 0 {
          assert all[k] == rest[k - 1];
        }
      }
    }
  }

  lemma {:induction false} ChunksAt(chunks: seq<seq<Candidate>>, k: nat)
    requires k < |chunks|
    ensures |Chunks(chunks)| == |chunks| && Chunks(chunks)[k] == Chunk(chunks[k])
  {
    ChunksLength(chunks);
    if k > 0 {
      ChunksAt(chunks[1..], k - 1);
    }
  }

  lemma {:induction false} ChunksLength(chunks: seq<seq<Candidate>>)
    ensures |Chunks(chunks)| == |chunks|
  {
    if chunks != [] {
      ChunksLength(chunks[1..]);
    }
  }

  lemma {:induction false} InFlatten(blocks: seq<seq<Candidate>>, j: nat, m: nat)
    requires j < |blocks| && m < |blocks[j]|
    ensures blocks[j][m] in Flatten(blocks)
  {
    if j > 0 {
      InFlatten(blocks[1..], j - 1, m);
    }
  }

  lemma {:induction false} SplitUnitsAreSound(members: seq<Candidate>, deployment: nat, group: nat, fleet: Fleet)
    requires fleet.SettingsOf(deployment).mode == SyncMicrobatch && deployment in fleet.executors
    requires forall m | 0 <= m < |members| :: members[m].deployment == deployment && members[m].group == Some(group)
    ensures AllSound(SplitUnits(members, fleet.SettingsOf(deployment)), fleet)
  {
    var s := fleet.SettingsOf(deployment);
    var blocks := Blocks([], members, s);
    var chunks := ChunksOf(blocks);
    var singles := Singles(FallbackCandidates(FallbacksOf(blocks, s)), MicrobatchFallback);
    SinglesAreSound(FallbackCandidates(FallbacksOf(blocks, s)), MicrobatchFallback, fleet);
    ChunksLength(chunks);
    forall k | 0 <= k < |chunks|
      ensures Sound(Chunks(chunks)[k], fleet)
    {
      ChunksAt(chunks, k);
      ChunkIsSound(members, deployment, group, fleet, k);
    }
    var units := SplitUnits(members, s);
    forall k | 0 <= k < |units| ensures Sound(units[k], fleet) {
      if k >= |singles| {
        assert units[k] == Chunks(chunks)[k - |singles|];
      }
    }
  }

  lemma {:induction false} ChunkIsSound(members: seq<Candidate>, deployment: nat, group: nat, fleet: Fleet, k: nat)
    requires fleet.SettingsOf(deployment).mode == SyncMicrobatch && deployment in fleet.executors
    requires forall m | 0 <= m < |members| :: members[m].deployment == deployment && members[m].group == Some(group)
    requires k < |ChunksOf(Blocks([], members, fleet.SettingsOf(deployment)))|
    ensures Sound(Chunk(ChunksOf(Blocks([], members, fleet.SettingsOf(deployment)))[k]), fleet)
  {
    var s := fleet.SettingsOf(deployment);
    var blocks := Blocks([], members, s);
    var chunk := ChunksOf(blocks)[k];
    BlocksCut([], members, s);
    assert [] + members == members;
    var j := ChunkIsABlock(blocks, k);
    forall m | 0 <= m < |chunk| ensures chunk[m].deployment == deployment && chunk[m].group == Some(group) {
      InFlatten(blocks, j, m);
    }
    SubsequenceRefl(chunk);
    var config := if deployment in fleet.configs then Some(fleet.configs[deployment]) else None;
    PlannedChunkIsAccepted(config, members, k, chunk, true);
  }

  ghost predicate AllOf(groups: seq<Group>, deployment: nat) {
    forall g, m | 0 <= g < |groups| && 0 <= m < |groups[g].members| ::
      groups[g].members[m].deployment == deployment && groups[g].members[m].group == Some(groups[g].key)
  }

  lemma {:induction false} SplitAllIsSound(groups: seq<Group>, deployment: nat, fleet: Fleet)
    requires fleet.SettingsOf(deployment).mode == SyncMicrobatch && deployment in fleet.executors
    requires AllOf(groups, deployment)
    ensures AllSound(SplitAll(groups, fleet.SettingsOf(deployment)), fleet)
  {
    if groups != [] {
      SplitUnitsAreSound(groups[0].members, deployment, groups[0].key, fleet);
      forall g, m | 0 <= g < |groups[1..]| && 0 <= m < |groups[1..][g].members|
        ensures groups[1..][g].members[m].deployment == deployment
        ensures groups[1..][g].members[m].group == Some(groups[1..][g].key)
      {
        assert groups[1..][g] == groups[g + 1];
      }
      SplitAllIsSound(groups[1..], deployment, fleet);
    }
  }

  lemma {:induction false} EligibleMembers(items: seq<Candidate>, k: nat)
    requires k < |Eligible(items, true)|
    ensures Eligible(items, true)[k] in items && Eligible(items, true)[k].group.Some?
  {
    var n := |items| - 1;
    if k < |Eligible(items[..n], true)| {
      EligibleMembers(items[..n], k);
    }
  }

  lemma {:induction false} DeploymentIsSound(deployment: nat, items: seq<Candidate>, fleet: Fleet)
    requires forall k | 0 <= k < |items| :: items[k].deployment == deployment
    ensures AllSound(DeploymentUnits(deployment, items, fleet), fleet)
  {
    var s := fleet.SettingsOf(deployment);
    SinglesAreSound(items, AsConfigured(s.mode), fleet);
    SinglesAreSound(items, MicrobatchFallback, fleet);
    if s.mode == SyncMicrobatch && deployment in fleet.executors {
      var eligible := Eligible(items, true);
      var groups := GroupBy(eligible, ByGroup);
      SinglesAreSound(Eligible(items, false), MicrobatchFallback, fleet);
      GroupByIsHomogeneous(eligible, ByGroup, eligible);
      forall g, m | 0 <= g < |groups| && 0 <= m < |groups[g].members|
        ensures groups[g].members[m].deployment == deployment && groups[g].members[m].group == Some(groups[g].key)
      {
        var k :| 0 <= k < |eligible| && eligible[k] == groups[g].members[m];
        EligibleMembers(items, k);
      }
      SplitAllIsSound(groups, deployment, fleet);
    }
  }

  lemma {:induction false} UnitsAreSound(groups: seq<Group>, fleet: Fleet, from: seq<Candidate>)
    requires Homogeneous(groups, ByDeployment, from)
    ensures AllSound(UnitsOf(groups, fleet), fleet)
  {
    if groups != [] {
      forall k | 0 <= k < |groups[0].members| ensures groups[0].members[k].deployment == groups[0].key {
        assert KeyOf(groups[0].members[k], ByDeployment) == groups[0].key;
      }
      DeploymentIsSound(groups[0].key, groups[0].members, fleet);
      forall g, m | 0 <= g < |groups[1..]| && 0 <= m < |groups[1..][g].members|
        ensures KeyOf(groups[1..][g].members[m], ByDeployment) == groups[1..][g].key
        ensures groups[1..][g].members[m] in from
      {
        assert groups[1..][g] == groups[g + 1];
      }
      UnitsAreSound(groups[1..], fleet, from);
    }
  }

  /** Every chunk is for one deployment and one group key, and its deployment accepts it. */
  lemma {:induction false} PlannedChunksAreSound(items: seq<Candidate>, fleet: Fleet)
    ensures AllSound(PlanUnits(items, fleet), fleet)
  {
    GroupByIsHomogeneous(items, ByDeployment, items);
    UnitsAreSound(GroupBy(items, ByDeployment), fleet, items);
  }

  // ----- the loops

  method GroupItems(items: seq<Candidate>, kind: KeyKind) returns (groups: seq<Group>)
    ensures groups == GroupBy(items, kind)
  {
    groups := [];
    for k := 0 to |items|
      invariant groups == GroupBy(items[..k], kind)
    {
      assert items[..k + 1][..k] == items[..k];
      groups := Add(groups, KeyOf(items[k], kind), items[k]);
    }
    assert items[..|items|] == items;
  }

  method SplitByEligibility(items: seq<Candidate>) returns (eligible: seq<Candidate>, ineligible: seq<Candidate>)
    ensures eligible == Eligible(items, true) && ineligible == Eligible(items, false)
  {
    ineligible, eligible := [], [];
    for k := 0 to |items|
      invariant eligible == Eligible(items[..k], true) && ineligible == Eligible(items[..k], false)
    {
      assert items[..k + 1][..k] == items[..k];
      if items[k].group.Some? {
        eligible := eligible + [items[k]];
      } else {
        ineligible := ineligible + [items[k]];
      }
    }
    assert items[..|items|] == items;
  }

  lemma UnitsAssoc(x: seq<WorkUnit>, y: seq<WorkUnit>, z: seq<WorkUnit>)
    ensures (x + y) + z == x + (y + z)
  {
  }

  method SplitGroup(members: seq<Candidate>, s: Settings) returns (units: seq<WorkUnit>)
    ensures units == SplitUnits(members, s)
  {
    var chunks, fallbacks := SplitCandidates(members, s);
    units := Singles(FallbackCandidates(fallbacks), MicrobatchFallback) + Chunks(chunks);
  }

  method SplitGroups(groups: seq<Group>, s: Settings) returns (units: seq<WorkUnit>)
    ensures units == SplitAll(groups, s)
  {
    units := [];
    for g := 0 to |groups|
      invariant units + SplitAll(groups[g..], s) == SplitAll(groups, s)
    {
      assert groups[g..][1..] == groups[g + 1..];
      var more := SplitGroup(groups[g].members, s);
      UnitsAssoc(units, more, SplitAll(groups[g + 1..], s));
      units := units + more;
    }
  }

  method PlanDeployment(deployment: nat, items: seq<Candidate>, fleet: Fleet) returns (units: seq<WorkUnit>)
    ensures units == DeploymentUnits(deployment, items, fleet)
  {
    var s := fleet.SettingsOf(deployment);
    if s.mode != SyncMicrobatch {
      return Singles(items, AsConfigured(s.mode));
    }
    if deployment !in fleet.executors {
      return Singles(items, MicrobatchFallback);
    }
    var eligible, ineligible := SplitByEligibility(items);
    var groups := GroupItems(eligible, ByGroup);
    var grouped := SplitGroups(groups, s);
    units := Singles(ineligible, MicrobatchFallback) + grouped;
  }

  method PlanChatUnits(items: seq<Candidate>, fleet: Fleet) returns (units: seq<WorkUnit>)
    ensures units == PlanUnits(items, fleet)
  {
    var groups := GroupItems(items, ByDeployment);
    units := [];
    for g := 0 to |groups|
      invariant units + UnitsOf(groups[g..], fleet) == UnitsOf(groups, fleet)
    {
      assert groups[g..][1..] == groups[g + 1..];
      var more := PlanDeployment(groups[g].key, groups[g].members, fleet);
      units := units + more;
    }
  }
}
