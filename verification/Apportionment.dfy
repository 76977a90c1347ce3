/** Largest-remainder apportionment of an integer total over integer weights. */
module Apportionment {
  import opened Arithmetic

  function Sum(s: seq<int>): int {
    if s == [] then 0 else s[0] + Sum(s[1..])
  }

  function ClampAll(weights: seq<int>): seq<int> {
    seq(|weights|, i requires 0 <= i < |weights| => Max(0, weights[i]))
  }

  predicate NonNegatives(ws: seq<int>) {
    forall i | 0 <= i < |ws| :: ws[i] >= 0
  }

  /** Negative weights count as zero; when nothing is left, all weights are equal. */
  function Normalized(weights: seq<int>): (ws: seq<int>)
    requires weights != []
    ensures |ws| == |weights| && Sum(ws) > 0 && NonNegatives(ws)
  {
    var clamped := ClampAll(weights);
    if Sum(clamped) <= 0 then
      Repeat(|weights|, 1)
    else clamped
  }

  function Repeat(n: nat, x: int): (s: seq<int>)
    ensures |s| == n && Sum(s) == n * x && forall i | 0 <= i < n :: s[i] == x
  {
    if n == 0 then [] else [x] + Repeat(n - 1, x)
  }

  function Quotas(total: int, ws: seq<int>): (qs: seq<int>)
    ensures |qs| == |ws|
  {
    if ws == [] then [] else [total * ws[0]] + Quotas(total, ws[1..])
  }

  function Floors(qs: seq<int>, W: int): (fs: seq<int>)
    requires W > 0
    ensures |fs| == |qs|
  {
    if qs == [] then [] else [qs[0] / W] + Floors(qs[1..], W)
  }

  predicate Below(rs: seq<int>, W: int) {
    forall i | 0 <= i < |rs| :: 0 <= rs[i] < W
  }

  function Remainders(qs: seq<int>, W: int): (rs: seq<int>)
    requires W > 0
    ensures |rs| == |qs| && Below(rs, W)
  {
    if qs == [] then [] else [qs[0] % W] + Remainders(qs[1..], W)
  }

  lemma {:induction false} QuotasAt(total: int, ws: seq<int>, i: nat)
    requires i < |ws|
    ensures Quotas(total, ws)[i] == total * ws[i]
  {
    if i > 0 {
      QuotasAt(total, ws[1..], i - 1);
    }
  }

  lemma {:induction false} SplitAt(qs: seq<int>, W: int, i: nat)
    requires W > 0 && i < |qs|
    ensures Floors(qs, W)[i] == qs[i] / W && Remainders(qs, W)[i] == qs[i] % W
    ensures qs[i] == W * Floors(qs, W)[i] + Remainders(qs, W)[i]
  {
    if i == 0 {
      DivMod(qs[0], W);
    } else {
      SplitAt(qs[1..], W, i - 1);
    }
  }

  // ----- ranking the indices by remainder

  predicate Before(rems: seq<int>, i: nat, j: nat)
    requires i < |rems| && j < |rems|
  {
    rems[i] > rems[j] || (rems[i] == rems[j] && i < j)
  }

  predicate Indexes(rems: seq<int>, order: seq<nat>) {
    forall k | 0 <= k < |order| :: order[k] < |rems|
  }

  ghost predicate Ranks(rems: seq<int>, order: seq<nat>) {
    && Indexes(rems, order)
    && forall p, q | 0 <= p < q < |order| :: Before(rems, order[p], order[q])
  }

  function Insert(rems: seq<int>, order: seq<nat>, i: nat): (r: seq<nat>)
    requires Indexes(rems, order) && i < |rems|
    ensures Indexes(rems, r)
  {
    if order == [] || Before(rems, i, order[0]) then [i] + order
    else [order[0]] + Insert(rems, order[1..], i)
  }

  /** The first `n` indices, largest remainder first, ties by index. */
  function Ranking(rems: seq<int>, n: nat): (r: seq<nat>)
    requires n <= |rems|
    ensures Indexes(rems, r)
  {
    if n == 0 then [] else Insert(rems, Ranking(rems, n - 1), n - 1)
  }

  function SumAt(rems: seq<int>, order: seq<nat>): int
    requires Indexes(rems, order)
  {
    if order == [] then 0 else rems[order[0]] + SumAt(rems, order[1..])
  }

  lemma {:induction false} InsertMembers(rems: seq<int>, order: seq<nat>, i: nat)
    requires Indexes(rems, order) && i < |rems|
    ensures var r := Insert(rems, order, i);
            && |r| == |order| + 1
            && (forall k: nat :: k in r <==> k == i || k in order)
            && SumAt(rems, r) == SumAt(rems, order) + rems[i]
  {
    if order == [] || Before(rems, i, order[0]) {
      assert ([i] + order)[1..] == order;
    } else {
      InsertMembers(rems, order[1..], i);
      var rest := Insert(rems, order[1..], i);
      assert ([order[0]] + rest)[1..] == rest;
      assert order == [order[0]] + order[1..];
    }
  }

  lemma {:induction false} InsertRanks(rems: seq<int>, order: seq<nat>, i: nat)
    requires Ranks(rems, order) && i < |rems| && i !in order
    ensures Ranks(rems, Insert(rems, order, i))
  {
    if order == [] || Before(rems, i, order[0]) {
      ConsRanks(rems, i, order);
    } else {
      InsertRanks(rems, order[1..], i);
      InsertMembers(rems, order[1..], i);
      var rest := Insert(rems, order[1..], i);
      forall k | 0 <= k < |rest|
        ensures Before(rems, order[0], rest[k])
      {
        assert rest[k] in rest;
        if rest[k] != i {
          var p :| 0 <= p < |order[1..]| && order[1..][p] == rest[k];
          assert order[p + 1] == rest[k];
        }
      }
      ConsRanks(rems, order[0], rest);
    }
  }

  lemma ConsRanks(rems: seq<int>, i: nat, rest: seq<nat>)
    requires i < |rems| && Ranks(rems, rest)
    requires forall k | 0 <= k < |rest| :: Before(rems, i, rest[k])
    ensures Ranks(rems, [i] + rest)
  {
  }

  lemma {:induction false} RankingRanks(rems: seq<int>, n: nat)
    requires n <= |rems|
    ensures var r := Ranking(rems, n);
            && Ranks(rems, r) && |r| == n
            && (forall k: nat :: k in r <==> k < n)
            && SumAt(rems, r) == Sum(rems[..n])
  {
    if n > 0 {
      RankingRanks(rems, n - 1);
      InsertRanks(rems, Ranking(rems, n - 1), n - 1);
      InsertMembers(rems, Ranking(rems, n - 1), n - 1);
      assert rems[..n] == rems[..n - 1] + [rems[n - 1]];
      SumConcat(rems[..n - 1], [rems[n - 1]]);
    }
  }

  lemma {:induction false} SumConcat(a: seq<int>, b: seq<int>)
    ensures Sum(a + b) == Sum(a) + Sum(b)
  {
    if a == [] {
      assert a + b == b;
    } else {
      assert (a + b)[1..] == a[1..] + b;
      SumConcat(a[1..], b);
    }
  }

  // ----- the allocation

  function Bump(s: seq<int>, order: seq<nat>): (r: seq<int>)
    requires Indexes(s, order)
    ensures |r| == |s|
    decreases |order|
  {
    if order == [] then s else Bump(s[order[0] := s[order[0]] + 1], order[1..])
  }

  /** The indices in the order in which left-over units are handed out. */
  function Order(qs: seq<int>, W: int): (order: seq<nat>)
    requires W > 0
    ensures Ranks(Remainders(qs, W), order) && |order| == |qs|
    ensures forall i: nat :: i in order <==> i < |qs|
  {
    var rems := Remainders(qs, W);
    RankingRanks(rems, |rems|);
    Ranking(rems, |rems|)
  }

  lemma {:induction false} QuotasSum(total: int, ws: seq<int>)
    ensures Sum(Quotas(total, ws)) == total * Sum(ws)
  {
    if ws != [] {
      QuotasSum(total, ws[1..]);
      Distribute(total, ws[0], Sum(ws[1..]));
    }
  }

  lemma {:induction false} FloorsAndRemainders(qs: seq<int>, W: int)
    requires W > 0
    ensures W * Sum(Floors(qs, W)) + Sum(Remainders(qs, W)) == Sum(qs)
    ensures 0 <= Sum(Remainders(qs, W)) && (qs != [] ==> Sum(Remainders(qs, W)) < W * |qs|)
  {
    if qs != [] {
      FloorsAndRemainders(qs[1..], W);
      DivMod(qs[0], W);
      Distribute(W, qs[0] / W, Sum(Floors(qs[1..], W)));
      Distribute(W, 1, |qs[1..]|);
    }
  }

  lemma LeftUnits(total: int, W: int, floors: int, rems: int)
    requires W * floors + rems == total * W
    ensures (total - floors) * W == rems
  {
  }

  /** What is left over is less than one unit per weight, and is the sum of the remainders in units of W. */
  lemma {:induction false} LeftOver(total: int, ws: seq<int>)
    requires total > 0 && ws != [] && Sum(ws) > 0
    ensures var W, qs := Sum(ws), Quotas(total, ws);
            var left := total - Sum(Floors(qs, W));
            0 <= left < |ws| && left * W == Sum(Remainders(qs, W))
  {
    var W, qs := Sum(ws), Quotas(total, ws);
    QuotasSum(total, ws);
    FloorsAndRemainders(qs, W);
    LeftUnits(total, W, Sum(Floors(qs, W)), Sum(Remainders(qs, W)));
    Quotient(total - Sum(Floors(qs, W)), W, |ws|);
  }

  /** How many units the floors leave over. */
  function Left(total: int, ws: seq<int>): (left: nat)
    requires total > 0 && ws != [] && Sum(ws) > 0
    ensures left < |ws|
  {
    LeftOver(total, ws);
    total - Sum(Floors(Quotas(total, ws), Sum(ws)))
  }

  /** The indices that get one of them. */
  predicate Chosen(total: int, ws: seq<int>, i: nat)
    requires total > 0 && ws != [] && Sum(ws) > 0
  {
    i in Order(Quotas(total, ws), Sum(ws))[..Left(total, ws)]
  }

  function Parts(total: int, ws: seq<int>): (r: seq<int>)
    requires total > 0 && ws != [] && Sum(ws) > 0
    ensures |r| == |ws|
  {
    var qs := Quotas(total, ws);
    Bump(Floors(qs, Sum(ws)), Order(qs, Sum(ws))[..Left(total, ws)])
  }

  function Allocation(total: int, weights: seq<int>): (r: seq<int>)
    ensures |r| == |weights|
  {
    if weights == [] then []
    else if Max(0, total) == 0 then Repeat(|weights|, 0)
    else Parts(total, Normalized(weights))
  }

  /** The allocation in the step-by-step form that bumps the largest remainders one by one. */
  method AllocateProportionalInts(total: int, weights: seq<int>) returns (allocations: seq<int>)
    ensures allocations == Allocation(total, weights)
  {
    if weights == [] {
      return [];
    }
    var normalizedTotal := Max(0, total);
    if normalizedTotal == 0 {
      return Repeat(|weights|, 0);
    }
    var ws := Normalized(weights);
    var weightSum := Sum(ws);
    var qs := Quotas(normalizedTotal, ws);
    allocations := Floors(qs, weightSum);
    var remainder := normalizedTotal - Sum(allocations);
    LeftOver(total, ws);
    var ranked := Order(qs, weightSum);
    if remainder <= 0 {
      assert ranked[..remainder] == [];
      return;
    }
    allocations := BumpEach(allocations, ranked[..remainder]);
  }

  method BumpEach(start: seq<int>, bumped: seq<nat>) returns (allocations: seq<int>)
    requires Indexes(start, bumped)
    ensures allocations == Bump(start, bumped)
  {
    allocations := start;
    for k := 0 to |bumped|
      invariant |allocations| == |start|
      invariant Bump(allocations, bumped[k..]) == Bump(start, bumped)
    {
      var index := bumped[k];
      allocations := allocations[index := allocations[index] + 1];
    }
  }

  // ----- laws

  lemma {:induction false} BumpAt(s: seq<int>, rems: seq<int>, order: seq<nat>)
    requires Indexes(s, order) && |rems| == |s| && Ranks(rems, order)
    ensures var r := Bump(s, order);
            && Sum(r) == Sum(s) + |order|
            && forall i: nat | i < |s| :: r[i] == s[i] + (if i in order then 1 else 0)
    decreases |order|
  {
    if order != [] {
      var i := order[0];
      var s' := s[i := s[i] + 1];
      SumBump(s, i);
      assert forall p | 0 < p < |order| :: order[p] == order[1..][p - 1];
      BumpAt(s', rems, order[1..]);
      assert order == [i] + order[1..];
      assert i !in order[1..];
    }
  }

  lemma {:induction false} SumBump(s: seq<int>, i: nat)
    requires i < |s|
    ensures Sum(s[i := s[i] + 1]) == Sum(s) + 1
  {
    if i == 0 {
      assert s[0 := s[0] + 1][1..] == s[1..];
    } else {
      SumBump(s[1..], i - 1);
      assert s[i := s[i] + 1][1..] == s[1..][i - 1 := s[1..][i - 1] + 1];
    }
  }

  /** The ranks below `p` hold at most W-1 each, so a zero remainder is never among the first `left` ranks. */
  lemma {:induction false} SumAtBound(rems: seq<int>, order: seq<nat>, W: int)
    requires Indexes(rems, order) && Below(rems, W)
    ensures 0 <= SumAt(rems, order) <= |order| * (W - 1)
  {
    if order != [] {
      SumAtBound(rems, order[1..], W);
      assert |order| * (W - 1) == (W - 1) + |order[1..]| * (W - 1);
    }
  }

  lemma {:induction false} SumAtZeros(rems: seq<int>, order: seq<nat>)
    requires Indexes(rems, order) && forall k | 0 <= k < |order| :: rems[order[k]] == 0
    ensures SumAt(rems, order) == 0
  {
    if order != [] {
      SumAtZeros(rems, order[1..]);
    }
  }

  lemma {:induction false} SumAtSplit(rems: seq<int>, order: seq<nat>, p: nat)
    requires Indexes(rems, order) && p <= |order|
    ensures SumAt(rems, order) == SumAt(rems, order[..p]) + SumAt(rems, order[p..])
  {
    if p > 0 {
      SumAtSplit(rems, order[1..], p - 1);
      assert order[..p][1..] == order[1..][..p - 1];
      assert order[p..] == order[1..][p - 1..];
    } else {
      assert order[..0] == [] && order[0..] == order;
    }
  }

  /** Below a zero remainder all remainders are zero, so the ranks above it hold the whole sum. */
  lemma {:induction false} ZeroRankIsLate(rems: seq<int>, order: seq<nat>, left: nat, W: int, p: nat)
    requires Ranks(rems, order) && Below(rems, W)
    requires p < |order| && SumAt(rems, order) == left * W && rems[order[p]] == 0
    ensures left * W <= p * (W - 1)
  {
    forall k | p <= k < |order|
      ensures rems[order[k]] == 0
    {
      assert k == p || Before(rems, order[p], order[k]);
    }
    SumAtZeros(rems, order[p..]);
    SumAtSplit(rems, order, p);
    SumAtBound(rems, order[..p], W);
  }

  lemma Late(left: nat, W: int, p: nat)
    requires W > 0 && left * W <= p * (W - 1)
    ensures left <= p
  {
  }

  /** The smallest remainder that got a left-over unit. */
  function LevelOf(total: int, ws: seq<int>): (rho: int)
    requires total > 0 && ws != [] && Sum(ws) > 0
    ensures 0 <= rho <= Sum(ws)
  {
    var left := Left(total, ws);
    var qs := Quotas(total, ws);
    if left == 0 then Sum(ws) else Remainders(qs, Sum(ws))[Order(qs, Sum(ws))[left - 1]]
  }

  /** The parts: floors, plus one for the indices chosen. */
  lemma {:induction false} PartsShape(total: int, ws: seq<int>)
    requires total > 0 && ws != [] && Sum(ws) > 0
    ensures var floors := Floors(Quotas(total, ws), Sum(ws));
            && Sum(Parts(total, ws)) == total
            && forall i: nat | i < |ws| :: Parts(total, ws)[i] == floors[i] + (if Chosen(total, ws, i) then 1 else 0)
  {
    var W, qs, left := Sum(ws), Quotas(total, ws), Left(total, ws);
    BumpAt(Floors(qs, W), Remainders(qs, W), Order(qs, W)[..left]);
  }

  lemma {:induction false} RanksPrefix(rems: seq<int>, order: seq<nat>, left: nat, i: nat)
    requires Ranks(rems, order) && left <= |order| && i in order
    ensures if i in order[..left]
            then left > 0 && rems[i] >= rems[order[left - 1]]
            else left > 0 ==> rems[i] <= rems[order[left - 1]]
    ensures forall j | j in order[..left] && i < |rems| && Before(rems, i, j) :: i in order[..left]
  {
    var p :| 0 <= p < |order| && order[p] == i;
    assert forall k | 0 <= k < left :: order[..left][k] == order[k] && order[k] in order[..left];
    if i in order[..left] {
      var q :| 0 <= q < left && order[..left][q] == i;
      assert q == left - 1 || Before(rems, order[q], order[left - 1]);
    } else {
      forall j | j in order[..left]
        ensures Before(rems, j, i)
      {
        var q :| 0 <= q < left && order[..left][q] == j;
      }
      if left > 0 {
        assert order[..left][left - 1] in order[..left];
      }
    }
  }

  /** The first `left` ranks hold positive remainders when all remainders add up to `left` times W. */
  lemma {:induction false} PrefixIsPositive(rems: seq<int>, order: seq<nat>, left: nat, W: int, i: nat)
    requires Ranks(rems, order) && left <= |order| && i in order[..left] && i < |rems|
    requires W > 0 && Below(rems, W) && SumAt(rems, order) == left * W
    ensures rems[i] > 0
  {
    var p :| 0 <= p < left && order[..left][p] == i;
    if rems[i] == 0 {
      ZeroRankIsLate(rems, order, left, W, p);
      Late(left, W, p);
    }
  }

  lemma {:induction false} ChosenIsPositive(total: int, ws: seq<int>, i: nat)
    requires total > 0 && i < |ws| && Sum(ws) > 0 && Chosen(total, ws, i)
    ensures Remainders(Quotas(total, ws), Sum(ws))[i] > 0
  {
    var W, qs := Sum(ws), Quotas(total, ws);
    var rems := Remainders(qs, W);
    LeftOver(total, ws);
    RankingRanks(rems, |rems|);
    assert rems[..|rems|] == rems;
    PrefixIsPositive(rems, Order(qs, W), Left(total, ws), W, i);
  }

  /** An index is chosen when its remainder is above the level, not chosen when below. */
  lemma {:induction false} ChosenByLevel(total: int, ws: seq<int>, i: nat)
    requires total > 0 && i < |ws| && Sum(ws) > 0
    ensures var rem := Remainders(Quotas(total, ws), Sum(ws))[i];
            if Chosen(total, ws, i) then rem >= LevelOf(total, ws) else rem <= LevelOf(total, ws)
  {
    var W, qs := Sum(ws), Quotas(total, ws);
    RanksPrefix(Remainders(qs, W), Order(qs, W), Left(total, ws), i);
  }

  /** Exact: the parts add up to the total. */
  lemma {:induction false} AllocationIsExact(total: int, weights: seq<int>)
    requires weights != []
    ensures Sum(Allocation(total, weights)) == Max(0, total)
  {
    if total > 0 {
      PartsShape(total, Normalized(weights));
    }
  }

  /** Fair: each part is its quota rounded down or up, and the quota itself when that is whole. */
  lemma {:induction false} AllocationIsNearQuota(total: int, weights: seq<int>, i: nat)
    requires i < |weights|
    ensures var part, ws := Allocation(total, weights)[i], Normalized(weights);
            var q, W := Max(0, total) * ws[i], Sum(ws);
            part >= 0 && -W < part * W - q < W && (q % W == 0 ==> part * W == q)
  {
    var ws := Normalized(weights);
    if total > 0 {
      PartNearQuota(total, ws, i);
      QuotasAt(total, ws, i);
      SplitAt(Quotas(total, ws), Sum(ws), i);
    }
  }

  lemma {:induction false} PartNearQuota(total: int, ws: seq<int>, i: nat)
    requires total > 0 && i < |ws| && Sum(ws) > 0 && NonNegatives(ws)
    ensures var part, q, W := Parts(total, ws)[i], Quotas(total, ws)[i], Sum(ws);
            var rem, rho := Remainders(Quotas(total, ws), W)[i], LevelOf(total, ws);
            && part >= 0 && -rho <= part * W - q <= W - rho
            && -W < part * W - q < W && (rem == 0 ==> part * W == q)
  {
    var W, qs := Sum(ws), Quotas(total, ws);
    PartsShape(total, ws);
    ChosenByLevel(total, ws, i);
    if Chosen(total, ws, i) {
      ChosenIsPositive(total, ws, i);
    }
    SplitAt(qs, W, i);
    QuotasAt(total, ws, i);
    NonNegative(total, ws[i], W);
    PartRange(Floors(qs, W)[i], Chosen(total, ws, i), qs[i], W, Remainders(qs, W)[i], LevelOf(total, ws));
  }

  lemma PartRange(floor: int, up: bool, q: int, W: int, rem: int, rho: int)
    requires q == W * floor + rem && 0 <= rem < W && 0 <= rho <= W
    requires if up then rem > 0 && rem >= rho else rem <= rho
    ensures var part := floor + (if up then 1 else 0);
            -rho <= part * W - q <= W - rho && -W < part * W - q < W && (rem == 0 ==> part * W == q)
  {
    Distribute(W, floor, 1);
  }

  lemma NonNegative(total: int, w: int, W: int)
    requires total >= 0 && w >= 0 && W > 0
    ensures total * w / W >= 0
  {
    assert total * w >= 0;
  }

  /** A larger weight never gets less; among equal weights an earlier one never gets less. */
  lemma {:induction false} AllocationIsMonotone(total: int, weights: seq<int>, i: nat, j: nat)
    requires i < |weights| && j < |weights|
    requires var ws := Normalized(weights); ws[i] > ws[j] || (ws[i] == ws[j] && i < j)
    ensures Allocation(total, weights)[i] >= Allocation(total, weights)[j]
  {
    if total > 0 {
      PartsAreMonotone(total, Normalized(weights), i, j);
    }
  }

  lemma {:induction false} PartsAreMonotone(total: int, ws: seq<int>, i: nat, j: nat)
    requires total > 0 && i < |ws| && j < |ws| && Sum(ws) > 0
    requires ws[i] > ws[j] || (ws[i] == ws[j] && i < j)
    ensures Parts(total, ws)[i] >= Parts(total, ws)[j]
  {
    var W, qs := Sum(ws), Quotas(total, ws);
    var floors, rems := Floors(qs, W), Remainders(qs, W);
    PartsShape(total, ws);
    QuotasAt(total, ws, i);
    QuotasAt(total, ws, j);
    Scale(total, ws[i], ws[j]);
    SplitAt(qs, W, i);
    SplitAt(qs, W, j);
    QuotientOrder(floors[i], floors[j], rems[i], rems[j], W);
    RanksPrefix(rems, Order(qs, W), Left(total, ws), i);
  }

  // ----- optimality

  /** The squared error of a split, in units of 1/W. */
  function Spread(a: seq<int>, qs: seq<int>, W: int): int
    requires |a| == |qs|
  {
    if a == [] then 0 else (a[0] * W - qs[0]) * (a[0] * W - qs[0]) + Spread(a[1..], qs[1..], W)
  }

  /** With the level shifted to zero the product of a step `d` and its slope is never negative. */
  lemma SlopeSign(z: int, d: int, W: int)
    requires W > 0 && 0 <= z <= W
    ensures d * (2 * z + (d - 1) * W) >= 0
  {
    if d >= 1 {
      assert (d - 1) * W >= 0;
    } else if d <= -1 {
      assert (d - 1) * W <= -2 * W;
    }
  }

  /** One part: moving from `a` to `b` costs at least W*(W - 2*rho) per unit moved. */
  lemma PartCost(a: int, b: int, quota: int, W: int, rho: int)
    requires W > 0 && -rho <= a * W - quota <= W - rho
    ensures (b * W - quota) * (b * W - quota) - (a * W - quota) * (a * W - quota) >= W * (W - 2 * rho) * (b - a)
  {
    var x, d := a * W - quota, b - a;
    SlopeSign(x + rho, d, W);
    assert b * W - quota == x + d * W by {
      assert b * W == a * W + d * W;
    }
    SquareStep(x, d, W, rho);
    assert W * (d * (2 * (x + rho) + (d - 1) * W)) >= 0;
  }

  lemma SquareStep(x: int, d: int, W: int, rho: int)
    ensures (x + d * W) * (x + d * W) - x * x - W * (W - 2 * rho) * d == W * (d * (2 * (x + rho) + (d - 1) * W))
  {
    Reorder(W, W - 2 * rho, d);
    Reorder(W, 2 * (x + rho) + (d - 1) * W, d);
    SquareOfSum(x, d * W, W, rho);
  }

  lemma Reorder(W: int, k: int, d: int)
    ensures W * k * d == (d * W) * k
    ensures W * (d * k) == (d * W) * k
  {
  }

  lemma SquareOfSum(x: int, e: int, W: int, rho: int)
    ensures (x + e) * (x + e) - x * x - e * (W - 2 * rho) == e * (2 * (x + rho) + e - W)
  {
  }

  lemma {:induction false} SpreadGap(a: seq<int>, b: seq<int>, qs: seq<int>, W: int, rho: int)
    requires |a| == |b| == |qs| && W > 0
    requires forall i | 0 <= i < |qs| :: -rho <= a[i] * W - qs[i] <= W - rho
    ensures Spread(b, qs, W) - Spread(a, qs, W) >= W * (W - 2 * rho) * (Sum(b) - Sum(a))
  {
    if a != [] {
      PartCost(a[0], b[0], qs[0], W, rho);
      SpreadGap(a[1..], b[1..], qs[1..], W, rho);
      Distribute(W * (W - 2 * rho), b[0] - a[0], Sum(b[1..]) - Sum(a[1..]));
    }
  }

  lemma {:induction false} PartsAreOptimal(total: int, ws: seq<int>, other: seq<int>)
    requires total > 0 && ws != [] && Sum(ws) > 0 && NonNegatives(ws)
    requires |other| == |ws| && Sum(other) == total
    ensures Spread(Parts(total, ws), Quotas(total, ws), Sum(ws)) <= Spread(other, Quotas(total, ws), Sum(ws))
  {
    PartsShape(total, ws);
    forall i: nat | i < |ws|
      ensures var error := Parts(total, ws)[i] * Sum(ws) - Quotas(total, ws)[i];
              -LevelOf(total, ws) <= error <= Sum(ws) - LevelOf(total, ws)
    {
      PartNearQuota(total, ws, i);
    }
    SpreadGap(Parts(total, ws), other, Quotas(total, ws), Sum(ws), LevelOf(total, ws));
  }

  lemma {:induction false} NothingIsOptimal(ws: seq<int>, W: int)
    ensures Spread(Repeat(|ws|, 0), Quotas(0, ws), W) == 0
  {
    if ws != [] {
      NothingIsOptimal(ws[1..], W);
    }
  }

  lemma {:induction false} SpreadNonNegative(a: seq<int>, qs: seq<int>, W: int)
    requires |a| == |qs|
    ensures Spread(a, qs, W) >= 0
  {
    if a != [] {
      SpreadNonNegative(a[1..], qs[1..], W);
    }
  }

  /** No other split of the total into integers, negative ones included, has a smaller squared error. */
  lemma {:induction false} AllocationIsOptimal(total: int, weights: seq<int>, other: seq<int>)
    requires weights != [] && |other| == |weights| && Sum(other) == Max(0, total)
    ensures var ws := Normalized(weights);
            var qs := Quotas(Max(0, total), ws);
            Spread(Allocation(total, weights), qs, Sum(ws)) <= Spread(other, qs, Sum(ws))
  {
    var ws := Normalized(weights);
    if total > 0 {
      PartsAreOptimal(total, ws, other);
    } else {
      NothingIsOptimal(ws, Sum(ws));
      SpreadNonNegative(other, Quotas(0, ws), Sum(ws));
    }
  }
}
