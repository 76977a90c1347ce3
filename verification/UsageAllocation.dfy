/** Splitting the usage a provider reports for a whole microbatch into one usage record per item. */
module UsageAllocation {
  import opened Options
  import opened Arithmetic
  import opened Apportionment

  /** A field of the reported usage: missing, present but not a number, or a number. */
  datatype Field = Absent | Junk | Number(n: int) {
    function Coerce(): (count: nat)
      ensures Number? && n > 0 ==> count == n
      ensures !Number? || n <= 0 ==> count == 0
    {
      if Number? then Max(0, n) else 0
    }
  }

  datatype AggregateUsage = AggregateUsage(prompt: Field, cached: Field, completion: Field, total: Field)

  /** One item's usage; a key that is left out of the record is `None`. */
  datatype ItemUsage = ItemUsage(prompt: Option<int>, cached: Option<int>, completion: Option<int>, total: Option<int>)

  predicate IncludesPrompt(u: AggregateUsage) {
    u.prompt != Absent || u.prompt.Coerce() > 0
  }

  predicate IncludesCached(u: AggregateUsage) {
    u.cached != Absent || u.cached.Coerce() > 0
  }

  predicate IncludesCompletion(u: AggregateUsage) {
    || u.completion != Absent || u.completion.Coerce() > 0
    || IncludesPrompt(u)
    || u.total != Absent || u.total.Coerce() > 0
  }

  predicate IncludesTotal(u: AggregateUsage) {
    u.total != Absent || u.total.Coerce() > 0 || IncludesPrompt(u) || IncludesCompletion(u)
  }

  // ----- the four columns

  function PromptColumn(u: AggregateUsage, weights: seq<int>): (r: seq<int>)
    ensures |r| == |weights|
  {
    if IncludesPrompt(u) then Allocation(u.prompt.Coerce(), weights) else Repeat(|weights|, 0)
  }

  function CachedColumn(u: AggregateUsage, weights: seq<int>): (r: seq<int>)
    ensures |r| == |weights|
  {
    var prompt := PromptColumn(u, weights);
    if IncludesCached(u)
    then Allocation(u.cached.Coerce(), if Sum(prompt) > 0 then prompt else weights)
    else Repeat(|weights|, 0)
  }

  function CompletionColumn(u: AggregateUsage, weights: seq<int>): (r: seq<int>)
    ensures |r| == |weights|
  {
    if IncludesCompletion(u) then Allocation(u.completion.Coerce(), weights) else Repeat(|weights|, 0)
  }

  function AddColumns(a: seq<int>, b: seq<int>): (r: seq<int>)
    requires |a| == |b|
    ensures |r| == |a| && forall i | 0 <= i < |a| :: r[i] == a[i] + b[i]
  {
    seq(|a|, i requires 0 <= i < |a| => a[i] + b[i])
  }

  predicate AddsUp(u: AggregateUsage) {
    u.total.Coerce() == u.prompt.Coerce() + u.completion.Coerce()
  }

  /** The reported total is shared out only when it was reported and does not add up. */
  function ChooseTotal(u: AggregateUsage, added: seq<int>, share: seq<int>): (r: seq<int>)
    requires |added| == |share|
    ensures |r| == |added|
    ensures IncludesTotal(u) && (AddsUp(u) || u.total == Absent) ==> r == added
    ensures !AddsUp(u) && u.total != Absent ==> r == share
  {
    if !IncludesTotal(u) then Repeat(|added|, 0)
    else if AddsUp(u) then added
    else if u.total != Absent || u.total.Coerce() > 0 then share
    else added
  }

  function TotalColumn(u: AggregateUsage, weights: seq<int>): (r: seq<int>)
    ensures |r| == |weights|
  {
    ChooseTotal(u, AddColumns(PromptColumn(u, weights), CompletionColumn(u, weights)),
        Allocation(u.total.Coerce(), weights))
  }

  function Entry(included: bool, column: seq<int>, i: nat): Option<int>
    requires i < |column|
  {
    if included then Some(column[i]) else None
  }

  function Row(u: AggregateUsage, prompt: seq<int>, cached: seq<int>, completion: seq<int>, total: seq<int>,
               i: nat): ItemUsage
    requires i < |prompt| == |cached| == |completion| == |total|
  {
    ItemUsage(Entry(IncludesPrompt(u), prompt, i), Entry(IncludesCached(u), cached, i),
              Entry(IncludesCompletion(u), completion, i), Entry(IncludesTotal(u), total, i))
  }

  function UsageAt(u: AggregateUsage, weights: seq<int>, i: nat): ItemUsage
    requires i < |weights|
  {
    Row(u, PromptColumn(u, weights), CachedColumn(u, weights), CompletionColumn(u, weights), TotalColumn(u, weights), i)
  }

  method AllocateColumn(included: bool, total: nat, weights: seq<int>) returns (column: seq<int>)
    ensures column == if included then Allocation(total, weights) else Repeat(|weights|, 0)
  {
    if included {
      column := AllocateProportionalInts(total, weights);
    } else {
      column := Repeat(|weights|, 0);
    }
  }

  method AllocateTotalColumn(u: AggregateUsage, weights: seq<int>, prompt: seq<int>, completion: seq<int>)
    returns (total: seq<int>)
    requires |prompt| == |completion| == |weights|
    ensures total == ChooseTotal(u, AddColumns(prompt, completion), Allocation(u.total.Coerce(), weights))
  {
    if !IncludesTotal(u) {
      total := Repeat(|weights|, 0);
    } else if AddsUp(u) {
      total := AddColumns(prompt, completion);
    } else if u.total != Absent || u.total.Coerce() > 0 {
      total := AllocateProportionalInts(u.total.Coerce(), weights);
    } else {
      total := AddColumns(prompt, completion);
    }
  }

  method BuildRows(u: AggregateUsage, prompt: seq<int>, cached: seq<int>, completion: seq<int>, total: seq<int>)
    returns (rows: seq<ItemUsage>)
    requires |prompt| == |cached| == |completion| == |total|
    ensures |rows| == |prompt|
    ensures forall i | 0 <= i < |prompt| :: rows[i] == Row(u, prompt, cached, completion, total, i)
  {
    rows := [];
    for i := 0 to |prompt|
      invariant |rows| == i
      invariant forall j | 0 <= j < i :: rows[j] == Row(u, prompt, cached, completion, total, j)
    {
      rows := rows + [Row(u, prompt, cached, completion, total, i)];
    }
  }

  method AllocateEmbeddingUsage(u: AggregateUsage, weights: seq<int>) returns (allocations: seq<ItemUsage>)
    ensures |allocations| == |weights|
    ensures forall i | 0 <= i < |weights| :: allocations[i] == UsageAt(u, weights, i)
    ensures forall i | 0 <= i < |weights| :: FollowsWeights(u, weights, allocations, i)
  {
    if weights == [] {
      return [];
    }
    var prompt := AllocateColumn(IncludesPrompt(u), u.prompt.Coerce(), weights);
    var cached := AllocateColumn(IncludesCached(u), u.cached.Coerce(), if Sum(prompt) > 0 then prompt else weights);
    var completion := AllocateColumn(IncludesCompletion(u), u.completion.Coerce(), weights);
    var total := AllocateTotalColumn(u, weights, prompt, completion);
    allocations := BuildRows(u, prompt, cached, completion, total);
    forall i: nat | i < |weights| ensures FollowsWeights(u, weights, allocations, i) {
      RowFollowsWeights(u, weights, allocations, i);
    }
  }

  // ----- laws

  /** Within one unit of a share of the total in proportion to the weight, and exact when that share is whole. */
  predicate NearShare(part: int, total: int, ws: seq<int>, i: nat)
    requires i < |ws|
  {
    var W, share := Sum(ws), total * ws[i];
    part >= 0 && -W < part * W - share < W && (W > 0 && share % W == 0 ==> part * W == share)
  }

  /** The weights that count: negative ones as zero, and all the same if none is positive. */
  ghost predicate Effective(weights: seq<int>, ws: seq<int>) {
    && |ws| == |weights|
    && forall i | 0 <= i < |weights| ::
         ws[i] == if exists j :: 0 <= j < |weights| && weights[j] > 0 then Max(0, weights[i]) else 1
  }

  /**
   An item's record has the counts that were reported (the completion count also with any other one but the cached
   one, and the total with any but the cached one), each under its own name and near the item's share by weight; the
   cached count is near its share of the prompt counts, if there are any.
   */
  ghost predicate FollowsWeights(u: AggregateUsage, weights: seq<int>, rows: seq<ItemUsage>, i: nat)
    requires i < |rows| == |weights|
  {
    var row, ws, prompts := rows[i], Normalized(weights), PromptOf(rows);
    var counted := u.prompt != Absent || u.completion != Absent || u.total != Absent;
    && (row.prompt.Some? <==> u.prompt != Absent)
    && (row.cached.Some? <==> u.cached != Absent)
    && (row.completion.Some? <==> counted) && (row.total.Some? <==> counted)
    && (row.prompt.Some? ==> NearShare(row.prompt.value, u.prompt.Coerce(), ws, i))
    && (row.completion.Some? ==> NearShare(row.completion.value, u.completion.Coerce(), ws, i))
    && (row.cached.Some? ==>
          NearShare(row.cached.value, u.cached.Coerce(), if Sum(prompts) > 0 then prompts else ws, i))
    && (row.total.Some? ==>
          if u.total == Absent || u.total.Coerce() == u.prompt.Coerce() + u.completion.Coerce() then
            row.total.value == Tokens(row.prompt) + Tokens(row.completion)
          else NearShare(row.total.value, u.total.Coerce(), ws, i))
  }

  lemma {:induction false} NothingPositive(weights: seq<int>)
    ensures Sum(ClampAll(weights)) > 0 <==> exists j :: 0 <= j < |weights| && weights[j] > 0
    ensures Sum(ClampAll(weights)) >= 0
  {
    if weights != [] {
      NothingPositive(weights[1..]);
      assert ClampAll(weights)[1..] == ClampAll(weights[1..]);
      if exists j :: 0 <= j < |weights| && weights[j] > 0 {
        var j :| 0 <= j < |weights| && weights[j] > 0;
        assert j > 0 ==> weights[1..][j - 1] > 0;
      }
      if exists j :: 0 <= j < |weights[1..]| && weights[1..][j] > 0 {
        var j :| 0 <= j < |weights[1..]| && weights[1..][j] > 0;
        assert weights[j + 1] > 0;
      }
    }
  }

  lemma {:induction false} NormalizedIsEffective(weights: seq<int>)
    requires weights != []
    ensures Effective(weights, Normalized(weights))
  {
    NothingPositive(weights);
  }

  lemma AllocatedNearShare(total: nat, weights: seq<int>, i: nat)
    requires i < |weights|
    ensures NearShare(Allocation(total, weights)[i], total, Normalized(weights), i)
  {
    AllocationIsNearQuota(total, weights, i);
  }

  lemma {:induction false} PromptsOfRows(u: AggregateUsage, weights: seq<int>, rows: seq<ItemUsage>)
    requires |rows| == |weights| && forall i: nat | i < |weights| :: rows[i] == UsageAt(u, weights, i)
    ensures PromptOf(rows) == PromptColumn(u, weights)
  {
    forall i: nat | i < |weights| ensures PromptOf(rows)[i] == PromptColumn(u, weights)[i] {
      RowTokens(u, weights, i);
      TokensOf(rows, i);
    }
  }

  lemma {:induction false} RowFollowsWeights(u: AggregateUsage, weights: seq<int>, rows: seq<ItemUsage>, i: nat)
    requires |rows| == |weights| && i < |weights| && forall k: nat | k < |weights| :: rows[k] == UsageAt(u, weights, k)
    ensures FollowsWeights(u, weights, rows, i)
  {
    PromptsOfRows(u, weights, rows);
    RowTokens(u, weights, i);
    AllocatedNearShare(u.prompt.Coerce(), weights, i);
    AllocatedNearShare(u.completion.Coerce(), weights, i);
    AllocatedNearShare(u.total.Coerce(), weights, i);
    var prompts := PromptColumn(u, weights);
    AllocatedNearShare(u.cached.Coerce(), if Sum(prompts) > 0 then prompts else weights, i);
    PromptIsNonNegative(u, weights);
    ClampIsIdentity(prompts);
  }

  lemma {:induction false} LargerGetsMore(total: nat, weights: seq<int>, i: nat, j: nat)
    requires i < |weights| && j < |weights| && weights[i] > 0 && weights[i] > weights[j]
    ensures Allocation(total, weights)[i] >= Allocation(total, weights)[j]
  {
    NormalizedIsEffective(weights);
    AllocationIsMonotone(total, weights, i, j);
  }

  lemma {:induction false} PositiveSum(s: seq<int>, k: nat)
    requires NonNegatives(s) && k < |s|
    ensures Sum(s) >= s[k]
  {
    if k > 0 {
      PositiveSum(s[1..], k - 1);
    } else {
      SumIsNonNegative(s[1..]);
    }
  }

  lemma {:induction false} SumIsNonNegative(s: seq<int>)
    requires NonNegatives(s)
    ensures Sum(s) >= 0
  {
    if s != [] {
      SumIsNonNegative(s[1..]);
    }
  }

  lemma {:induction false} MorePromptMoreCached(u: AggregateUsage, weights: seq<int>, i: nat, j: nat)
    requires i < |weights| && j < |weights| && PromptColumn(u, weights)[i] > PromptColumn(u, weights)[j]
    ensures CachedColumn(u, weights)[i] >= CachedColumn(u, weights)[j]
  {
    var prompts := PromptColumn(u, weights);
    PromptIsNonNegative(u, weights);
    PositiveSum(prompts, i);
    if IncludesCached(u) {
      LargerGetsMore(u.cached.Coerce(), prompts, i, j);
    }
  }

  lemma {:induction false} MoreInTotal(u: AggregateUsage, weights: seq<int>, i: nat, j: nat)
    requires i < |weights| && j < |weights| && weights[i] > 0 && weights[i] > weights[j]
    ensures PromptColumn(u, weights)[i] >= PromptColumn(u, weights)[j]
    ensures CompletionColumn(u, weights)[i] >= CompletionColumn(u, weights)[j]
    ensures TotalColumn(u, weights)[i] >= TotalColumn(u, weights)[j]
  {
    LargerGetsMore(u.prompt.Coerce(), weights, i, j);
    LargerGetsMore(u.completion.Coerce(), weights, i, j);
    LargerGetsMore(u.total.Coerce(), weights, i, j);
  }

  /** A larger weight never gets less of any count, nor does more prompt get less of the cached count. */
  lemma {:induction false} LargerWeightsGetMore(u: AggregateUsage, weights: seq<int>, i: nat, j: nat)
    requires i < |weights| && j < |weights| && weights[i] > 0 && weights[i] > weights[j]
    ensures var more, less := UsageAt(u, weights, i), UsageAt(u, weights, j);
            && Tokens(more.prompt) >= Tokens(less.prompt)
            && Tokens(more.completion) >= Tokens(less.completion)
            && Tokens(more.total) >= Tokens(less.total)
            && (Tokens(more.prompt) > Tokens(less.prompt) ==> Tokens(more.cached) >= Tokens(less.cached))
  {
    MoreInTotal(u, weights, i, j);
    RowTokens(u, weights, i);
    RowTokens(u, weights, j);
    if PromptColumn(u, weights)[i] > PromptColumn(u, weights)[j] {
      MorePromptMoreCached(u, weights, i, j);
    }
  }

  /** Nothing is lost: each column adds up to what was reported for the whole request. */
  lemma {:induction false} ColumnsAreExact(u: AggregateUsage, weights: seq<int>)
    requires weights != []
    ensures Sum(PromptColumn(u, weights)) == u.prompt.Coerce()
    ensures Sum(CachedColumn(u, weights)) == u.cached.Coerce()
    ensures Sum(CompletionColumn(u, weights)) == u.completion.Coerce()
    ensures Sum(TotalColumn(u, weights))
            == if u.total == Absent then u.prompt.Coerce() + u.completion.Coerce() else u.total.Coerce()
  {
    var prompt, completion := PromptColumn(u, weights), CompletionColumn(u, weights);
    AllocationIsExact(u.prompt.Coerce(), weights);
    AllocationIsExact(u.cached.Coerce(), if Sum(prompt) > 0 then prompt else weights);
    AllocationIsExact(u.completion.Coerce(), weights);
    AllocationIsExact(u.total.Coerce(), weights);
    SumAddColumns(prompt, completion);
  }

  lemma {:induction false} SumAddColumns(a: seq<int>, b: seq<int>)
    requires |a| == |b|
    ensures Sum(AddColumns(a, b)) == Sum(a) + Sum(b)
  {
    if a != [] {
      SumAddColumns(a[1..], b[1..]);
      assert AddColumns(a, b)[1..] == AddColumns(a[1..], b[1..]);
    }
  }

  lemma {:induction false} PartsAreNonNegative(total: int, weights: seq<int>, i: nat)
    requires i < |weights|
    ensures Allocation(total, weights)[i] >= 0
  {
    AllocationIsNearQuota(total, weights, i);
  }

  /** No item is given more cached prompt tokens than prompt tokens, when that holds for the whole request. */
  lemma {:induction false} CachedWithinPrompt(u: AggregateUsage, weights: seq<int>, i: nat)
    requires i < |weights| && u.cached.Coerce() <= u.prompt.Coerce()
    ensures 0 <= CachedColumn(u, weights)[i] <= PromptColumn(u, weights)[i]
  {
    var prompt := PromptColumn(u, weights);
    ColumnsAreExact(u, weights);
    PromptIsNonNegative(u, weights);
    if Sum(prompt) > 0 && IncludesCached(u) {
      ClampIsIdentity(prompt);
      assert Normalized(prompt) == prompt;
      AllocationIsNearQuota(u.cached.Coerce(), prompt, i);
      PartBelowWeight(CachedColumn(u, weights)[i], u.cached.Coerce(), prompt[i], Sum(prompt));
    }
  }

  lemma PromptIsNonNegative(u: AggregateUsage, weights: seq<int>)
    ensures forall i | 0 <= i < |weights| :: PromptColumn(u, weights)[i] >= 0
  {
    forall i: nat | i < |weights|
      ensures PromptColumn(u, weights)[i] >= 0
    {
      PartsAreNonNegative(u.prompt.Coerce(), weights, i);
    }
  }

  lemma ClampIsIdentity(ws: seq<int>)
    requires NonNegatives(ws)
    ensures ClampAll(ws) == ws
  {
  }

  /** A quota of at most `p` units, rounded up, is still at most `p`. */
  lemma PartBelowWeight(part: int, total: int, p: int, W: int)
    requires 0 <= total <= W && p >= 0 && W > 0
    requires part * W - total * p < W
    ensures part <= p
  {
    assert total * p <= W * p by {
      if p > 0 {
        Scale(p, W, total);
      }
    }
    Distribute(W, p, part);
    Above(W, p - part);
  }

  /**
   An item's total is its prompt plus its completion when the request's totals
   add up, and also when the provider reported no total at all.
   */
  lemma {:induction false} TotalsAddUp(u: AggregateUsage, weights: seq<int>, i: nat)
    requires i < |weights| && (AddsUp(u) || u.total == Absent) && IncludesTotal(u)
    ensures TotalColumn(u, weights)[i] == PromptColumn(u, weights)[i] + CompletionColumn(u, weights)[i]
  {
    var prompt, completion := PromptColumn(u, weights), CompletionColumn(u, weights);
    assert TotalColumn(u, weights) == AddColumns(prompt, completion);
  }

  // ----- what a consumer of the rows reads

  /** A missing key is read as zero and a negative count as zero. */
  function Tokens(x: Option<int>): nat {
    if x.Some? then Max(0, x.value) else 0
  }

  function PromptOf(rows: seq<ItemUsage>): (r: seq<int>)
    ensures |r| == |rows|
  {
    if rows == [] then [] else [Tokens(rows[0].prompt)] + PromptOf(rows[1..])
  }

  function CachedOf(rows: seq<ItemUsage>): (r: seq<int>)
    ensures |r| == |rows|
  {
    if rows == [] then [] else [Tokens(rows[0].cached)] + CachedOf(rows[1..])
  }

  function CompletionOf(rows: seq<ItemUsage>): (r: seq<int>)
    ensures |r| == |rows|
  {
    if rows == [] then [] else [Tokens(rows[0].completion)] + CompletionOf(rows[1..])
  }

  /** The rows share out these amounts, and in each row cached tokens are prompt tokens. */
  ghost predicate SharesOut(rows: seq<ItemUsage>, prompt: nat, cached: nat, completion: nat) {
    && Sum(PromptOf(rows)) == prompt && Sum(CachedOf(rows)) == cached && Sum(CompletionOf(rows)) == completion
    && forall i | 0 <= i < |rows| :: Tokens(rows[i].cached) <= Tokens(rows[i].prompt)
  }

  lemma {:induction false} TokensOf(rows: seq<ItemUsage>, i: nat)
    requires i < |rows|
    ensures PromptOf(rows)[i] == Tokens(rows[i].prompt)
    ensures CachedOf(rows)[i] == Tokens(rows[i].cached)
    ensures CompletionOf(rows)[i] == Tokens(rows[i].completion)
  {
    if i > 0 {
      TokensOf(rows[1..], i - 1);
    }
  }

  lemma {:induction false} RowTokens(u: AggregateUsage, weights: seq<int>, i: nat)
    requires i < |weights|
    ensures var row := UsageAt(u, weights, i);
            && Tokens(row.prompt) == PromptColumn(u, weights)[i]
            && Tokens(row.cached) == CachedColumn(u, weights)[i]
            && Tokens(row.completion) == CompletionColumn(u, weights)[i]
  {
    PartsAreNonNegative(u.prompt.Coerce(), weights, i);
    PartsAreNonNegative(u.completion.Coerce(), weights, i);
    var prompt := PromptColumn(u, weights);
    PartsAreNonNegative(u.cached.Coerce(), if Sum(prompt) > 0 then prompt else weights, i);
  }

  /** The allocated rows, as a reader sees them, share out exactly what was reported. */
  lemma {:induction false} AllocationSharesOut(u: AggregateUsage, weights: seq<int>, rows: seq<ItemUsage>)
    requires weights != [] && u.cached.Coerce() <= u.prompt.Coerce()
    requires |rows| == |weights| && forall i: nat | i < |weights| :: rows[i] == UsageAt(u, weights, i)
    ensures SharesOut(rows, u.prompt.Coerce(), u.cached.Coerce(), u.completion.Coerce())
  {
    forall i: nat | i < |weights|
      ensures PromptOf(rows)[i] == PromptColumn(u, weights)[i] && CachedOf(rows)[i] == CachedColumn(u, weights)[i]
      ensures CompletionOf(rows)[i] == CompletionColumn(u, weights)[i]
      ensures Tokens(rows[i].cached) <= Tokens(rows[i].prompt)
    {
      RowTokens(u, weights, i);
      TokensOf(rows, i);
      CachedWithinPrompt(u, weights, i);
    }
    assert PromptOf(rows) == PromptColumn(u, weights);
    assert CachedOf(rows) == CachedColumn(u, weights);
    assert CompletionOf(rows) == CompletionColumn(u, weights);
    ColumnsAreExact(u, weights);
  }
}
