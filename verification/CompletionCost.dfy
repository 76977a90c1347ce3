/** The price of a completion, and what splitting a microbatch does to the bill. Costs are exact reals. */
module CompletionCost {
  import opened Options
  import opened Arithmetic
  import opened Apportionment
  import opened UsageAllocation

  datatype Pricing = Pricing(
    input: real,
    output: real,
    inputCacheHit: Option<real>,
    outputCacheHit: Option<real>,
    perRequest: real)

  datatype Tier = SyncTier | BatchTier

  datatype BatchInfo = BatchInfo(input: Option<real>, output: Option<real>, multiplier: Option<real>)

  function Or(x: Option<real>, fallback: real): real {
    if x.Some? then x.value else fallback
  }

  function ScaleOption(x: Option<real>, factor: real): Option<real> {
    if x.Some? then Some(x.value * factor) else None
  }

  function ResolveBatchPricing(p: Pricing, info: BatchInfo): Pricing {
    if info.input.Some? || info.output.Some? then
      p.(input := Or(info.input, p.input), output := Or(info.output, p.output))
    else if info.multiplier.Some? then
      var factor := if info.multiplier.value > 0.0 then info.multiplier.value else 0.0;
      Pricing(p.input * factor, p.output * factor,
              ScaleOption(p.inputCacheHit, factor), ScaleOption(p.outputCacheHit, factor), p.perRequest * factor)
    else p
  }

  function TierPricing(p: Pricing, tier: Tier, info: BatchInfo): Pricing {
    if tier == BatchTier then ResolveBatchPricing(p, info) else p
  }

  function PromptCost(p: Pricing, prompt: nat, cached: nat, cacheHit: bool): real {
    if p.inputCacheHit.Some? && (cacheHit || cached > 0)
    then cached as real * p.inputCacheHit.value + Max(0, prompt - cached) as real * p.input
    else prompt as real * p.input
  }

  function OutputCost(p: Pricing, completion: nat, cacheHit: bool): real {
    if cacheHit && p.outputCacheHit.Some?
    then completion as real * p.outputCacheHit.value
    else completion as real * p.output
  }

  function PricedCost(p: Pricing, prompt: nat, cached: nat, completion: nat, cacheHit: bool): real {
    PromptCost(p, prompt, cached, cacheHit) + OutputCost(p, completion, cacheHit) + p.perRequest
  }

  /** The cost before rounding; an unpriced model costs nothing. */
  function Cost(pricing: Option<Pricing>, tier: Tier, info: BatchInfo, prompt: nat, cached: nat, completion: nat,
                cacheHit: bool): real {
    match pricing
    case None => 0.0
    case Some(sync) => PricedCost(TierPricing(sync, tier, info), prompt, cached, completion, cacheHit)
  }

  function ItemCost(pricing: Option<Pricing>, tier: Tier, info: BatchInfo, usage: ItemUsage): real {
    Cost(pricing, tier, info, Tokens(usage.prompt), Tokens(usage.cached), Tokens(usage.completion), false)
  }

  /** The cost of the whole request, had it been billed as one completion. */
  function AggregateCost(pricing: Option<Pricing>, tier: Tier, info: BatchInfo, u: AggregateUsage): real {
    Cost(pricing, tier, info, u.prompt.Coerce(), u.cached.Coerce(), u.completion.Coerce(), false)
  }

  function PerRequest(pricing: Option<Pricing>, tier: Tier, info: BatchInfo): real {
    if pricing.Some? then TierPricing(pricing.value, tier, info).perRequest else 0.0
  }

  /** The sum of what the rows are billed. */
  function Bill(pricing: Option<Pricing>, tier: Tier, info: BatchInfo, rows: seq<ItemUsage>): real {
    if rows == [] then 0.0 else ItemCost(pricing, tier, info, rows[0]) + Bill(pricing, tier, info, rows[1..])
  }

  // ----- what each token costs

  lemma OneMore(n: int, price: real)
    ensures (n + 1) as real * price == n as real * price + price
  {
  }

  /** An empty completion costs the request fee, and an unpriced model nothing. */
  lemma FeeOnly(p: Pricing, info: BatchInfo, tier: Tier, prompt: nat, cached: nat, completion: nat, cacheHit: bool)
    ensures Cost(Some(p), SyncTier, info, 0, 0, 0, cacheHit) == p.perRequest
    ensures Cost(None, tier, info, prompt, cached, completion, cacheHit) == 0.0
  {
  }

  /** One more prompt token costs the input price, unless cached tokens outnumber the prompt. */
  lemma PromptTokenCosts(p: Pricing, info: BatchInfo, prompt: nat, cached: nat, completion: nat, cacheHit: bool)
    ensures Cost(Some(p), SyncTier, info, prompt + 1, cached, completion, cacheHit)
            == Cost(Some(p), SyncTier, info, prompt, cached, completion, cacheHit)
               + if p.inputCacheHit.Some? && prompt < cached then 0.0 else p.input
  {
    OneMore(prompt, p.input);
    OneMore(prompt - cached, p.input);
  }

  /** One token more that is cached costs the price for cached tokens, if there is one, instead of the input price. */
  lemma CachedTokenCosts(p: Pricing, info: BatchInfo, prompt: nat, cached: nat, completion: nat, cacheHit: bool)
    ensures Cost(Some(p), SyncTier, info, prompt, cached + 1, completion, cacheHit)
            == Cost(Some(p), SyncTier, info, prompt, cached, completion, cacheHit)
               + (match p.inputCacheHit
                  case None => 0.0
                  case Some(hit) => if cached < prompt then hit - p.input else hit)
  {
    OneMore(prompt - cached - 1, p.input);
    if p.inputCacheHit.Some? {
      OneMore(cached, p.inputCacheHit.value);
    }
  }

  /** One more completion token costs the output price, or on a cache hit the price for that, if there is one. */
  lemma CompletionTokenCosts(p: Pricing, info: BatchInfo, prompt: nat, cached: nat, completion: nat, cacheHit: bool)
    ensures Cost(Some(p), SyncTier, info, prompt, cached, completion + 1, cacheHit)
            == Cost(Some(p), SyncTier, info, prompt, cached, completion, cacheHit)
               + if cacheHit && p.outputCacheHit.Some? then p.outputCacheHit.value else p.output
  {
    OneMore(completion, if cacheHit && p.outputCacheHit.Some? then p.outputCacheHit.value else p.output);
  }

  // ----- what the batch tier changes

  lemma ScaleProduct(n: int, price: real, factor: real)
    ensures n as real * (price * factor) == n as real * price * factor
  {
  }

  lemma ScaleSum(a: real, b: real, factor: real)
    ensures (a + b) * factor == a * factor + b * factor
  {
  }

  lemma PromptCostScales(p: Pricing, q: Pricing, prompt: nat, cached: nat, cacheHit: bool, factor: real)
    requires q.input == p.input * factor && q.inputCacheHit == ScaleOption(p.inputCacheHit, factor)
    ensures PromptCost(q, prompt, cached, cacheHit) == PromptCost(p, prompt, cached, cacheHit) * factor
  {
    ScaleProduct(prompt, p.input, factor);
    ScaleProduct(Max(0, prompt - cached), p.input, factor);
    if p.inputCacheHit.Some? {
      ScaleProduct(cached, p.inputCacheHit.value, factor);
      ScaleSum(cached as real * p.inputCacheHit.value, Max(0, prompt - cached) as real * p.input, factor);
    }
  }

  lemma OutputCostScales(p: Pricing, q: Pricing, completion: nat, cacheHit: bool, factor: real)
    requires q.output == p.output * factor && q.outputCacheHit == ScaleOption(p.outputCacheHit, factor)
    ensures OutputCost(q, completion, cacheHit) == OutputCost(p, completion, cacheHit) * factor
  {
    ScaleProduct(completion, p.output, factor);
    if p.outputCacheHit.Some? {
      ScaleProduct(completion, p.outputCacheHit.value, factor);
    }
  }

  /** With a multiplier alone, a batched completion costs that multiple of the synchronous price, at least nothing. */
  lemma BatchMultiplies(p: Pricing, info: BatchInfo, prompt: nat, cached: nat, completion: nat, cacheHit: bool)
    requires info.input == None && info.output == None && info.multiplier.Some?
    ensures Cost(Some(p), BatchTier, info, prompt, cached, completion, cacheHit)
            == Cost(Some(p), SyncTier, info, prompt, cached, completion, cacheHit)
               * (if info.multiplier.value > 0.0 then info.multiplier.value else 0.0)
  {
    var factor := if info.multiplier.value > 0.0 then info.multiplier.value else 0.0;
    var q := TierPricing(p, BatchTier, info);
    PromptCostScales(p, q, prompt, cached, cacheHit, factor);
    OutputCostScales(p, q, completion, cacheHit, factor);
    ScaleSum(PromptCost(p, prompt, cached, cacheHit), OutputCost(p, completion, cacheHit), factor);
    ScaleSum(PromptCost(p, prompt, cached, cacheHit) + OutputCost(p, completion, cacheHit), p.perRequest, factor);
  }

  /** Tokens billed at the plain input price, and at the plain output price. */
  function PlainInput(p: Pricing, prompt: nat, cached: nat, cacheHit: bool): nat {
    if p.inputCacheHit == None || (cached == 0 && !cacheHit) then prompt
    else if prompt > cached then prompt - cached
    else 0
  }

  function PlainOutput(p: Pricing, completion: nat, cacheHit: bool): nat {
    if cacheHit && p.outputCacheHit.Some? then 0 else completion
  }

  lemma PriceDifference(n: int, from: real, to: real)
    ensures n as real * to == n as real * from + n as real * (to - from)
  {
  }

  /**
   Batch prices given by name replace the plain prices only, whatever the multiplier says; prices for cached tokens and
   the request fee stay.
   */
  lemma BatchReplaces(p: Pricing, info: BatchInfo, prompt: nat, cached: nat, completion: nat, cacheHit: bool)
    requires info.input.Some? || info.output.Some?
    ensures var input := if info.input.Some? then info.input.value else p.input;
            var output := if info.output.Some? then info.output.value else p.output;
            Cost(Some(p), BatchTier, info, prompt, cached, completion, cacheHit)
            == Cost(Some(p), SyncTier, info, prompt, cached, completion, cacheHit)
               + PlainInput(p, prompt, cached, cacheHit) as real * (input - p.input)
               + PlainOutput(p, completion, cacheHit) as real * (output - p.output)
  {
    PriceDifference(PlainInput(p, prompt, cached, cacheHit), p.input, Or(info.input, p.input));
    PriceDifference(PlainOutput(p, completion, cacheHit), p.output, Or(info.output, p.output));
  }

  /** Without batch prices the tiers agree, and what is known of batches never changes the synchronous price. */
  lemma TiersAgree(p: Pricing, info: BatchInfo, other: BatchInfo, prompt: nat, cached: nat, completion: nat,
                   cacheHit: bool)
    ensures info == BatchInfo(None, None, None) ==>
              Cost(Some(p), BatchTier, info, prompt, cached, completion, cacheHit)
              == Cost(Some(p), SyncTier, info, prompt, cached, completion, cacheHit)
    ensures Cost(Some(p), SyncTier, info, prompt, cached, completion, cacheHit)
            == Cost(Some(p), SyncTier, other, prompt, cached, completion, cacheHit)
  {
  }

  // ----- the bill is linear while cached tokens are prompt tokens

  /** The price of a prompt token, of making it a cached one, of a completion token, and of the request. */
  datatype Rates = Rates(input: real, discount: real, output: real, fee: real)

  function RatesOf(p: Pricing): Rates {
    Rates(p.input, Or(p.inputCacheHit, p.input) - p.input, p.output, p.perRequest)
  }

  /** Repeated addition: the product of a count and a price, in a form that adds up term by term. */
  function Times(n: nat, price: real): real {
    if n == 0 then 0.0 else price + Times(n - 1, price)
  }

  lemma {:induction false} TimesIsProduct(n: nat, price: real)
    ensures Times(n, price) == n as real * price
  {
    if n > 0 {
      TimesIsProduct(n - 1, price);
      assert n as real * price == (n - 1) as real * price + price;
    }
  }

  lemma {:induction false} TimesNothing(n: nat)
    ensures Times(n, 0.0) == 0.0
  {
    if n > 0 {
      TimesNothing(n - 1);
    }
  }

  lemma {:induction false} TimesAdd(a: nat, b: nat, price: real)
    ensures Times(a + b, price) == Times(a, price) + Times(b, price)
  {
    if a > 0 {
      TimesAdd(a - 1, b, price);
    }
  }

  function LinearCost(r: Rates, prompt: nat, cached: nat, completion: nat): real {
    Times(prompt, r.input) + Times(cached, r.discount) + Times(completion, r.output) + r.fee
  }

  lemma CostIsLinear(p: Pricing, prompt: nat, cached: nat, completion: nat)
    requires cached <= prompt
    ensures PricedCost(p, prompt, cached, completion, false) == LinearCost(RatesOf(p), prompt, cached, completion)
  {
    var r := RatesOf(p);
    TimesIsProduct(prompt, r.input);
    TimesIsProduct(cached, r.discount);
    TimesIsProduct(completion, r.output);
    if p.inputCacheHit.Some? && cached > 0 {
      LinearPrompt(prompt, cached, p.input, p.inputCacheHit.value);
    } else if p.inputCacheHit.Some? {
      assert cached as real * (p.inputCacheHit.value - p.input) == 0.0;
    }
  }

  lemma LinearPrompt(prompt: int, cached: int, input: real, hit: real)
    ensures cached as real * hit + (prompt - cached) as real * input
            == prompt as real * input + cached as real * (hit - input)
  {
    assert (prompt - cached) as real * input == prompt as real * input - cached as real * input;
    assert cached as real * (hit - input) == cached as real * hit - cached as real * input;
  }

  // ----- adding up linear costs

  lemma {:induction false} BillIsLinear(sync: Pricing, tier: Tier, info: BatchInfo, rows: seq<ItemUsage>)
    requires rows != [] && forall i | 0 <= i < |rows| :: Tokens(rows[i].cached) <= Tokens(rows[i].prompt)
    ensures var r := RatesOf(TierPricing(sync, tier, info));
            Bill(Some(sync), tier, info, rows)
            == LinearCost(r, Total(PROMPT, rows), Total(CACHED, rows), Total(COMPLETION, rows))
                + Times(|rows| - 1, r.fee)
  {
    var r := RatesOf(TierPricing(sync, tier, info));
    CostIsLinear(TierPricing(sync, tier, info), PROMPT(rows[0]), CACHED(rows[0]), COMPLETION(rows[0]));
    if |rows| > 1 {
      BillIsLinear(sync, tier, info, rows[1..]);
      TimesAdd(PROMPT(rows[0]), Total(PROMPT, rows[1..]), r.input);
      TimesAdd(CACHED(rows[0]), Total(CACHED, rows[1..]), r.discount);
      TimesAdd(COMPLETION(rows[0]), Total(COMPLETION, rows[1..]), r.output);
    }
  }

  const PROMPT: ItemUsage -> nat := (row: ItemUsage) => Tokens(row.prompt)
  const CACHED: ItemUsage -> nat := (row: ItemUsage) => Tokens(row.cached)
  const COMPLETION: ItemUsage -> nat := (row: ItemUsage) => Tokens(row.completion)

  function Total(tokens: ItemUsage -> nat, rows: seq<ItemUsage>): nat {
    if rows == [] then 0 else tokens(rows[0]) + Total(tokens, rows[1..])
  }

  lemma {:induction false} TotalsAreSums(rows: seq<ItemUsage>)
    ensures Total(PROMPT, rows) == Sum(PromptOf(rows))
    ensures Total(CACHED, rows) == Sum(CachedOf(rows))
    ensures Total(COMPLETION, rows) == Sum(CompletionOf(rows))
  {
    if rows != [] {
      TotalsAreSums(rows[1..]);
    }
  }

  lemma {:induction false} FreeBill(tier: Tier, info: BatchInfo, rows: seq<ItemUsage>)
    ensures Bill(None, tier, info, rows) == 0.0
  {
    if rows != [] {
      FreeBill(tier, info, rows[1..]);
    }
  }

  lemma {:induction false} SharedPrice(sync: Pricing, tier: Tier, info: BatchInfo, rows: seq<ItemUsage>, prompt: nat,
                                       cached: nat, completion: nat)
    requires rows != [] && cached <= prompt && SharesOut(rows, prompt, cached, completion)
    ensures var p := TierPricing(sync, tier, info);
            Bill(Some(sync), tier, info, rows)
            == PricedCost(p, prompt, cached, completion, false) + Times(|rows| - 1, p.perRequest)
  {
    BillIsLinear(sync, tier, info, rows);
    TotalsAreSums(rows);
    CostIsLinear(TierPricing(sync, tier, info), prompt, cached, completion);
  }

  lemma {:induction false} SharedBill(pricing: Option<Pricing>, tier: Tier, info: BatchInfo, rows: seq<ItemUsage>,
                                      prompt: nat, cached: nat, completion: nat)
    requires rows != [] && cached <= prompt && SharesOut(rows, prompt, cached, completion)
    ensures Bill(pricing, tier, info, rows)
            == Cost(pricing, tier, info, prompt, cached, completion, false)
               + Times(|rows| - 1, PerRequest(pricing, tier, info))
  {
    match pricing
    case None =>
      FreeBill(tier, info, rows);
      TimesNothing(|rows| - 1);
    case Some(sync) => SharedPrice(sync, tier, info, rows, prompt, cached, completion);
  }

  /**
   Splitting preserves the bill, in both tiers: the rows allocated to n items cost
   what the request would cost as one completion, plus n-1 more request fees.
   */
  lemma {:induction false} SplitPreservesBill(pricing: Option<Pricing>, tier: Tier, info: BatchInfo, u: AggregateUsage,
                                              weights: seq<int>, rows: seq<ItemUsage>)
    requires weights != [] && u.cached.Coerce() <= u.prompt.Coerce()
    requires |rows| == |weights| && forall i: nat | i < |weights| :: rows[i] == UsageAt(u, weights, i)
    ensures Bill(pricing, tier, info, rows)
            == AggregateCost(pricing, tier, info, u) + Times(|rows| - 1, PerRequest(pricing, tier, info))
  {
    AllocationSharesOut(u, weights, rows);
    SharedBill(pricing, tier, info, rows, u.prompt.Coerce(), u.cached.Coerce(), u.completion.Coerce());
  }

  // ----- rounding to ten places

  const ULP: real := 0.0000000001

  /** Any rounding to the nearest multiple of the last place, however it breaks ties. */
  predicate RoundsTo(x: real, r: real) {
    -ULP <= 2.0 * (r - x) <= ULP
  }

  function SumReals(xs: seq<real>): real {
    if xs == [] then 0.0 else xs[0] + SumReals(xs[1..])
  }

  lemma {:induction false} RoundedBill(pricing: Option<Pricing>, tier: Tier, info: BatchInfo, rows: seq<ItemUsage>,
                                       rounded: seq<real>)
    requires |rows| == |rounded|
    requires forall i | 0 <= i < |rows| :: RoundsTo(ItemCost(pricing, tier, info, rows[i]), rounded[i])
    ensures var gap := SumReals(rounded) - Bill(pricing, tier, info, rows);
            -(|rows| as real * ULP) <= 2.0 * gap <= |rows| as real * ULP
  {
    if rows != [] {
      RoundedBill(pricing, tier, info, rows[1..], rounded[1..]);
    }
  }

  /** After rounding each item and the request, the bills differ by at most (n+1)/2 units of the last place. */
  lemma {:induction false} RoundedBillIsClose(pricing: Option<Pricing>, tier: Tier, info: BatchInfo, u: AggregateUsage,
                                              weights: seq<int>, rows: seq<ItemUsage>, rounded: seq<real>,
                                              aggregate: real)
    requires weights != [] && u.cached.Coerce() <= u.prompt.Coerce()
    requires |rows| == |weights| && forall i: nat | i < |weights| :: rows[i] == UsageAt(u, weights, i)
    requires |rounded| == |rows|
    requires forall i | 0 <= i < |rows| :: RoundsTo(ItemCost(pricing, tier, info, rows[i]), rounded[i])
    requires RoundsTo(AggregateCost(pricing, tier, info, u), aggregate)
    ensures var gap := SumReals(rounded) - aggregate - Times(|rows| - 1, PerRequest(pricing, tier, info));
            -((|rows| + 1) as real * ULP) <= 2.0 * gap <= (|rows| + 1) as real * ULP
  {
    SplitPreservesBill(pricing, tier, info, u, weights, rows);
    RoundedBill(pricing, tier, info, rows, rounded);
  }
}
