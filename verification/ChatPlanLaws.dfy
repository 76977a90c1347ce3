/** What the chat plan promises beyond conservation: as few units as can be, the right modes, the configured limits. */
module ChatPlanLaws {
  import opened Options
  import opened ChatSplitter
  import opened ChatPlanner

  // ----- units of one deployment and group key

  predicate For(c: Candidate, deployment: nat, group: nat) {
    c.deployment == deployment && c.group == Some(group)
  }

  predicate UnitFor(u: WorkUnit, deployment: nat, group: nat) {
    match u
    case Single(item, _) => For(item, deployment, group)
    case Chunk(items) => items != [] && For(items[0], deployment, group)
  }

  function CountFor(units: seq<WorkUnit>, deployment: nat, group: nat): nat {
    if units == [] then 0
    else (if UnitFor(units[0], deployment, group) then 1 else 0) + CountFor(units[1..], deployment, group)
  }

  /** The items of one deployment and group key, in their order. */
  function Of(items: seq<Candidate>, deployment: nat, group: nat): seq<Candidate> {
    if items == [] then []
    else
      var c := items[|items| - 1];
      Of(items[..|items| - 1], deployment, group) + if For(c, deployment, group) then [c] else []
  }

  lemma {:induction false} CountForConcat(a: seq<WorkUnit>, b: seq<WorkUnit>, deployment: nat, group: nat)
    ensures CountFor(a + b, deployment, group) == CountFor(a, deployment, group) + CountFor(b, deployment, group)
  {
    if a == [] {
      assert a + b == b;
    } else {
      CountForConcat(a[1..], b, deployment, group);
      assert (a + b)[1..] == a[1..] + b;
    }
  }

  lemma {:induction false} CountForAtMost(units: seq<WorkUnit>, deployment: nat, group: nat)
    ensures CountFor(units, deployment, group) <= |units|
  {
    if units != [] {
      CountForAtMost(units[1..], deployment, group);
    }
  }

  lemma {:induction false} Counted(items: seq<Candidate>, x: Candidate)
    ensures Count(items, x) > 0 <==> x in items
  {
    if items != [] {
      Counted(items[1..], x);
    }
  }

  /** A unit of this deployment and key holds an item of them. */
  lemma {:induction false} UnitHasItem(units: seq<WorkUnit>, deployment: nat, group: nat) returns (x: Candidate)
    requires CountFor(units, deployment, group) > 0
    ensures For(x, deployment, group) && CountUnits(units, x) > 0
  {
    if UnitFor(units[0], deployment, group) {
      x := ItemsOf(units[0])[0];
      Counted(ItemsOf(units[0]), x);
    } else {
      x := UnitHasItem(units[1..], deployment, group);
    }
  }

  /** Units made of other items are not of this deployment and key. */
  lemma {:induction false} NoneFor(units: seq<WorkUnit>, members: seq<Candidate>, deployment: nat, group: nat)
    requires forall x :: CountUnits(units, x) == Count(members, x)
    requires forall k | 0 <= k < |members| :: !For(members[k], deployment, group)
    ensures CountFor(units, deployment, group) == 0
  {
    if CountFor(units, deployment, group) > 0 {
      var x := UnitHasItem(units, deployment, group);
      Counted(members, x);
    }
  }

  // ----- groups have different keys

  predicate HasKey(groups: seq<Group>, key: nat) {
    groups != [] && (groups[0].key == key || HasKey(groups[1..], key))
  }

  predicate KeysDiffer(groups: seq<Group>) {
    groups == [] || (!HasKey(groups[1..], groups[0].key) && KeysDiffer(groups[1..]))
  }

  lemma {:induction false} AddKeys(groups: seq<Group>, key: nat, c: Candidate, other: nat)
    ensures HasKey(Add(groups, key, c), other) <==> HasKey(groups, other) || other == key
    ensures KeysDiffer(groups) ==> KeysDiffer(Add(groups, key, c))
  {
    if groups != [] {
      var all := Add(groups, key, c);
      if groups[0].key == key {
        assert all[1..] == groups[1..];
      } else {
        AddKeys(groups[1..], key, c, other);
        AddKeys(groups[1..], key, c, groups[0].key);
        assert all[1..] == Add(groups[1..], key, c);
      }
    } else {
      assert Add(groups, key, c)[1..] == [];
    }
  }

  lemma {:induction false} GroupKeysDiffer(items: seq<Candidate>, kind: KeyKind)
    ensures KeysDiffer(GroupBy(items, kind))
  {
    if items != [] {
      var n := |items| - 1;
      GroupKeysDiffer(items[..n], kind);
      AddKeys(GroupBy(items[..n], kind), KeyOf(items[n], kind), items[n], 0);
    }
  }

  lemma {:induction false} WithoutKey(groups: seq<Group>, key: nat)
    requires !HasKey(groups, key)
    ensures MembersOf(groups, key) == []
  {
    if groups != [] {
      WithoutKey(groups[1..], key);
    }
  }

  /** Every member has its group's key. */
  ghost predicate Keyed(groups: seq<Group>, kind: KeyKind) {
    forall g, m | 0 <= g < |groups| && 0 <= m < |groups[g].members| ::
      KeyOf(groups[g].members[m], kind) == groups[g].key
  }

  lemma {:induction false} KeyedTail(groups: seq<Group>, kind: KeyKind)
    requires groups != [] && Keyed(groups, kind)
    ensures Keyed(groups[1..], kind)
  {
    forall g, m | 0 <= g < |groups[1..]| && 0 <= m < |groups[1..][g].members|
      ensures KeyOf(groups[1..][g].members[m], kind) == groups[1..][g].key
    {
      assert groups[1..][g] == groups[g + 1];
    }
  }

  lemma {:induction false} GroupByIsKeyed(items: seq<Candidate>, kind: KeyKind)
    ensures Keyed(GroupBy(items, kind), kind)
  {
    GroupByIsHomogeneous(items, kind, items);
  }

  // ----- only one group counts

  lemma {:induction false} SplitAllFor(groups: seq<Group>, s: Settings, deployment: nat, group: nat)
    requires KeysDiffer(groups) && Keyed(groups, ByGroup)
    ensures CountFor(SplitAll(groups, s), deployment, group)
            <= CountFor(SplitUnits(MembersOf(groups, group), s), deployment, group)
  {
    if groups != [] {
      var first, rest := groups[0], groups[1..];
      KeyedTail(groups, ByGroup);
      SplitAllFor(rest, s, deployment, group);
      CountForConcat(SplitUnits(first.members, s), SplitAll(rest, s), deployment, group);
      if first.key == group {
        WithoutKey(rest, group);
        assert SplitUnits([], s) == [];
      } else {
        forall x ensures CountUnits(SplitUnits(first.members, s), x) == Count(first.members, x) {
          SplitUnitsCount(first.members, s, x);
        }
        forall m | 0 <= m < |first.members| ensures !For(first.members[m], deployment, group) {
          assert KeyOf(first.members[m], ByGroup) == first.key;
        }
        NoneFor(SplitUnits(first.members, s), first.members, deployment, group);
      }
    }
  }

  lemma {:induction false} UnitsOfFor(groups: seq<Group>, fleet: Fleet, deployment: nat, group: nat)
    requires KeysDiffer(groups) && Keyed(groups, ByDeployment)
    ensures CountFor(UnitsOf(groups, fleet), deployment, group)
            <= CountFor(DeploymentUnits(deployment, MembersOf(groups, deployment), fleet), deployment, group)
  {
    if groups != [] {
      var first, rest := groups[0], groups[1..];
      var units := DeploymentUnits(first.key, first.members, fleet);
      KeyedTail(groups, ByDeployment);
      UnitsOfFor(rest, fleet, deployment, group);
      CountForConcat(units, UnitsOf(rest, fleet), deployment, group);
      if first.key == deployment {
        WithoutKey(rest, deployment);
        assert DeploymentUnits(deployment, [], fleet) == [];
      } else {
        forall x ensures CountUnits(units, x) == Count(first.members, x) {
          DeploymentCount(first.key, first.members, fleet, x);
        }
        forall m | 0 <= m < |first.members| ensures !For(first.members[m], deployment, group) {
          assert KeyOf(first.members[m], ByDeployment) == first.key;
        }
        NoneFor(units, first.members, deployment, group);
      }
    }
  }

  lemma {:induction false} IneligibleFor(items: seq<Candidate>, deployment: nat, group: nat)
    ensures CountFor(Singles(Eligible(items, false), MicrobatchFallback), deployment, group) == 0
  {
    var ineligible := Eligible(items, false);
    var units := Singles(ineligible, MicrobatchFallback);
    forall x ensures CountUnits(units, x) == Count(ineligible, x) {
      SinglesCount(ineligible, MicrobatchFallback, x);
    }
    forall m: nat | m < |ineligible| ensures !For(ineligible[m], deployment, group) {
      IneligibleHasNoGroup(items, m);
    }
    NoneFor(units, ineligible, deployment, group);
  }

  lemma {:induction false} IneligibleHasNoGroup(items: seq<Candidate>, k: nat)
    requires k < |Eligible(items, false)|
    ensures Eligible(items, false)[k].group == None
  {
    var n := |items| - 1;
    if k < |Eligible(items[..n], false)| {
      IneligibleHasNoGroup(items[..n], k);
    }
  }

  lemma EligibleSnoc(items: seq<Candidate>, c: Candidate)
    ensures Eligible(items + [c], true) == Eligible(items, true) + if c.group.Some? then [c] else []
  {
    assert (items + [c])[..|items|] == items;
  }

  lemma WithKeySnoc(items: seq<Candidate>, c: Candidate, group: nat)
    ensures WithKey(items + [c], ByGroup, group)
            == WithKey(items, ByGroup, group) + if KeyOf(c, ByGroup) == group then [c] else []
  {
    assert (items + [c])[..|items|] == items;
  }

  /** Selecting by deployment, eligibility and group key is selecting both at once. */
  lemma {:induction false} SelectedTwice(items: seq<Candidate>, deployment: nat, group: nat)
    ensures WithKey(Eligible(WithKey(items, ByDeployment, deployment), true), ByGroup, group)
            == Of(items, deployment, group)
  {
    if items != [] {
      var n := |items| - 1;
      var c, before := items[n], WithKey(items[..n], ByDeployment, deployment);
      var eligible := Eligible(before, true);
      SelectedTwice(items[..n], deployment, group);
      assert before + [] == before && eligible + [] == eligible;
      assert Of(items[..n], deployment, group) + [] == Of(items[..n], deployment, group);
      if c.deployment == deployment {
        EligibleSnoc(before, c);
        if c.group.Some? {
          WithKeySnoc(eligible, c, group);
        }
      }
    }
  }

  lemma {:induction false} SplitUnitsLength(members: seq<Candidate>, s: Settings)
    ensures |SplitUnits(members, s)|
            == |ChunksOf(Blocks([], members, s))| + |FallbacksOf(Blocks([], members, s), s)|
  {
    var blocks := Blocks([], members, s);
    ChunksLength(ChunksOf(blocks));
    FallbackCandidatesLength(FallbacksOf(blocks, s));
    SinglesLength(FallbackCandidates(FallbacksOf(blocks, s)), MicrobatchFallback);
  }

  lemma {:induction false} FallbackCandidatesLength(fallbacks: seq<(Candidate, Reason)>)
    ensures |FallbackCandidates(fallbacks)| == |fallbacks|
  {
    if fallbacks != [] {
      FallbackCandidatesLength(fallbacks[1..]);
    }
  }

  lemma {:induction false} SinglesLength(items: seq<Candidate>, mode: WorkMode)
    ensures |Singles(items, mode)| == |items|
  {
    if items != [] {
      SinglesLength(items[1..], mode);
    }
  }

  /** One item alone, or several within the size and the token limit that the configuration gives. */
  predicate Allowed(block: seq<Candidate>, c: Config) {
    || |block| == 1
    || (2 <= |block| && (c.upstreamMax.Some? ==> |block| <= c.upstreamMax.value)
        && (c.maxTokens.Some? ==> Tokens(block) <= c.maxTokens.value))
  }

  /**
   As few units as can be: the items that share a deployment with an executor and a group key are planned into no more
   units than any cut of them, in their order, into blocks that the configuration allows.
   */
  lemma {:induction false} PlanIsMinimal(items: seq<Candidate>, fleet: Fleet, deployment: nat, group: nat,
                                         cut: seq<seq<Candidate>>)
    requires deployment in fleet.executors && deployment in fleet.configs
    requires ValidConfig(fleet.configs[deployment]) && fleet.configs[deployment].mode == SyncMicrobatch
    requires forall k | 0 <= k < |cut| :: Allowed(cut[k], fleet.configs[deployment])
    requires Flatten(cut) == Of(items, deployment, group)
    ensures CountFor(PlanUnits(items, fleet), deployment, group) <= |cut|
  {
    var s := fleet.SettingsOf(deployment);
    forall k | 0 <= k < |cut| ensures Legal(cut[k], s) {
      assert Allowed(cut[k], fleet.configs[deployment]);
    }
    var byDeployment := GroupBy(items, ByDeployment);
    GroupKeysDiffer(items, ByDeployment);
    GroupByIsKeyed(items, ByDeployment);
    UnitsOfFor(byDeployment, fleet, deployment, group);
    GroupsAreFilters(items, ByDeployment, deployment);
    var mine := WithKey(items, ByDeployment, deployment);
    DeploymentFor(mine, fleet, deployment, group);
    SelectedTwice(items, deployment, group);
    SplitUnitsLength(Of(items, deployment, group), s);
    CountForAtMost(SplitUnits(Of(items, deployment, group), s), deployment, group);
    SplitIsMinimal(Of(items, deployment, group), s, cut);
  }

  lemma {:induction false} DeploymentFor(members: seq<Candidate>, fleet: Fleet, deployment: nat, group: nat)
    requires fleet.SettingsOf(deployment).mode == SyncMicrobatch && deployment in fleet.executors
    ensures CountFor(DeploymentUnits(deployment, members, fleet), deployment, group)
            <= CountFor(SplitUnits(WithKey(Eligible(members, true), ByGroup, group), fleet.SettingsOf(deployment)),
                        deployment, group)
  {
    var s, eligible := fleet.SettingsOf(deployment), Eligible(members, true);
    var groups := GroupBy(eligible, ByGroup);
    GroupKeysDiffer(eligible, ByGroup);
    GroupByIsKeyed(eligible, ByGroup);
    SplitAllFor(groups, s, deployment, group);
    GroupsAreFilters(eligible, ByGroup, group);
    IneligibleFor(members, deployment, group);
    CountForConcat(Singles(Eligible(members, false), MicrobatchFallback), SplitAll(groups, s), deployment, group);
  }

  // ----- modes and limits

  /** The mode a deployment is configured for; without a valid configuration its items run concurrently. */
  function ConfiguredMode(fleet: Fleet, deployment: nat): Mode {
    if deployment in fleet.configs && ValidConfig(fleet.configs[deployment]) then fleet.configs[deployment].mode
    else Concurrent
  }

  /** A single item runs in its deployment's mode, or as the fallback of one that is configured for microbatches. */
  predicate RunsAsConfigured(u: WorkUnit, fleet: Fleet) {
    u.Single? ==>
      var mode := ConfiguredMode(fleet, u.item.deployment);
      u.workMode == if mode == SyncMicrobatch then MicrobatchFallback else AsConfigured(mode)
  }

  ghost predicate AllRun(units: seq<WorkUnit>, fleet: Fleet) {
    forall k | 0 <= k < |units| :: RunsAsConfigured(units[k], fleet)
  }

  lemma {:induction false} SinglesRun(items: seq<Candidate>, mode: WorkMode, fleet: Fleet, deployment: nat)
    requires forall k | 0 <= k < |items| :: items[k].deployment == deployment
    requires mode == if ConfiguredMode(fleet, deployment) == SyncMicrobatch then MicrobatchFallback
                     else AsConfigured(ConfiguredMode(fleet, deployment))
    ensures AllRun(Singles(items, mode), fleet)
  {
    if items != [] {
      SinglesRun(items[1..], mode, fleet, deployment);
      var all, rest := Singles(items, mode), Singles(items[1..], mode);
      assert all == [Single(items[0], mode)] + rest;
      forall k | 0 <= k < |all| ensures RunsAsConfigured(all[k], fleet) {
        assert k > 0 ==> all[k] == rest[k - 1];
      }
    }
  }

  lemma {:induction false} MemberOfUnits(units: seq<WorkUnit>, members: seq<Candidate>, k: nat)
    requires k < |units| && units[k].Single?
    requires forall x :: CountUnits(units, x) == Count(members, x)
    ensures units[k].item in members
  {
    CountedUnit(units, k);
    Counted(members, units[k].item);
  }

  lemma {:induction false} CountedUnit(units: seq<WorkUnit>, k: nat)
    requires k < |units| && units[k].Single?
    ensures CountUnits(units, units[k].item) > 0
  {
    if k == 0 {
      Counted([units[0].item], units[0].item);
    } else {
      CountedUnit(units[1..], k - 1);
    }
  }

  /** In a list of units cut from a group every single one is a fallback. */
  lemma {:induction false} SinglesAt(items: seq<Candidate>, mode: WorkMode, k: nat)
    requires k < |Singles(items, mode)| && Singles(items, mode)[k].Single?
    ensures Singles(items, mode)[k].workMode == mode
  {
    if k > 0 {
      SinglesAt(items[1..], mode, k - 1);
    }
  }

  predicate AllFallbacks(units: seq<WorkUnit>) {
    forall k | 0 <= k < |units| && units[k].Single? :: units[k].workMode == MicrobatchFallback
  }

  lemma {:induction false} SplitUnitsFallBack(members: seq<Candidate>, s: Settings)
    ensures AllFallbacks(SplitUnits(members, s))
  {
    var blocks := Blocks([], members, s);
    var items := FallbackCandidates(FallbacksOf(blocks, s));
    var singles, chunks := Singles(items, MicrobatchFallback), Chunks(ChunksOf(blocks));
    ChunksLength(ChunksOf(blocks));
    var units := SplitUnits(members, s);
    forall k: nat | k < |units| && units[k].Single? ensures units[k].workMode == MicrobatchFallback {
      if k < |singles| {
        SinglesAt(items, MicrobatchFallback, k);
      } else {
        ChunksAt(ChunksOf(blocks), k - |singles|);
      }
    }
  }

  lemma {:induction false} SplitAllFallBack(groups: seq<Group>, s: Settings)
    ensures AllFallbacks(SplitAll(groups, s))
  {
    if groups != [] {
      SplitUnitsFallBack(groups[0].members, s);
      SplitAllFallBack(groups[1..], s);
    }
  }

  lemma {:induction false} DeploymentRuns(deployment: nat, items: seq<Candidate>, fleet: Fleet)
    requires forall k | 0 <= k < |items| :: items[k].deployment == deployment
    ensures AllRun(DeploymentUnits(deployment, items, fleet), fleet)
  {
    var s := fleet.SettingsOf(deployment);
    assert s.mode == ConfiguredMode(fleet, deployment);
    var units := DeploymentUnits(deployment, items, fleet);
    if s.mode != SyncMicrobatch {
      SinglesRun(items, AsConfigured(s.mode), fleet, deployment);
    } else if deployment !in fleet.executors {
      SinglesRun(items, MicrobatchFallback, fleet, deployment);
    } else {
      var ineligible, groups := Eligible(items, false), GroupBy(Eligible(items, true), ByGroup);
      SplitAllFallBack(groups, s);
      forall x ensures CountUnits(units, x) == Count(items, x) {
        DeploymentCount(deployment, items, fleet, x);
      }
      var singles := Singles(ineligible, MicrobatchFallback);
      forall k: nat | k < |units| ensures RunsAsConfigured(units[k], fleet) {
        if units[k].Single? {
          MemberOfUnits(units, items, k);
          if k < |singles| {
            SinglesAt(ineligible, MicrobatchFallback, k);
          } else {
            assert units[k] == SplitAll(groups, s)[k - |singles|];
          }
        }
      }
    }
  }

  lemma {:induction false} UnitsRun(groups: seq<Group>, fleet: Fleet)
    requires Keyed(groups, ByDeployment)
    ensures AllRun(UnitsOf(groups, fleet), fleet)
  {
    if groups != [] {
      KeyedTail(groups, ByDeployment);
      UnitsRun(groups[1..], fleet);
      forall k | 0 <= k < |groups[0].members| ensures groups[0].members[k].deployment == groups[0].key {
        assert KeyOf(groups[0].members[k], ByDeployment) == groups[0].key;
      }
      DeploymentRuns(groups[0].key, groups[0].members, fleet);
    }
  }

  /** Every single item of the plan runs in the mode configured for its deployment, or as its fallback. */
  lemma {:induction false} SinglesRunAsConfigured(items: seq<Candidate>, fleet: Fleet)
    ensures AllRun(PlanUnits(items, fleet), fleet)
  {
    GroupByIsKeyed(items, ByDeployment);
    UnitsRun(GroupBy(items, ByDeployment), fleet);
  }

  /** Every chunk keeps the limits written in its deployment's configuration, and the deployment has an executor. */
  lemma {:induction false} ChunksKeepLimits(items: seq<Candidate>, fleet: Fleet, k: nat)
    requires k < |PlanUnits(items, fleet)| && PlanUnits(items, fleet)[k].Chunk?
    ensures var chunk := PlanUnits(items, fleet)[k].items;
            && |chunk| >= 2
            && var d := chunk[0].deployment;
               && d in fleet.executors && d in fleet.configs
               && (forall m | 0 <= m < |chunk| ::
                     chunk[m].deployment == d && chunk[m].group.Some? && chunk[m].group == chunk[0].group)
               && var c := fleet.configs[d];
                  && c.mode == SyncMicrobatch
                  && c.upstreamMax.Some? && |chunk| <= c.upstreamMax.value
                  && (c.maxTokens.Some? ==> Tokens(chunk) <= c.maxTokens.value)
  {
    PlannedChunksAreSound(items, fleet);
    assert Sound(PlanUnits(items, fleet)[k], fleet);
  }
}
