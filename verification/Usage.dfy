/** Token accounting of one provider response and of a run (`Usage`, `add_usage`,
    `ModelPricing::estimate_cost_usd`). */
module Usage {
  import opened Wrappers

  type u32 = n: int | 0 <= n < 0x1_0000_0000

  datatype Usage = Usage(
    prompt: u32, completion: u32, total: u32, cost: Option<real>, cacheRead: Option<u32>, cacheWrite: Option<u32>)

  const NO_USAGE: Usage := Usage(0, 0, 0, None, None, None)

  function Wrap(n: nat): u32 { n % 0x1_0000_0000 }

  function SumOptional(a: Option<u32>, b: Option<u32>): Option<u32> {
    if a.None? && b.None? then None
    else Some(Wrap((if a.Some? then a.value else 0) + if b.Some? then b.value else 0))
  }

  /** `add_usage`: the counters are 32 bits wide and wrap. */
  function AddUsage(total: Usage, usage: Usage): Usage {
    var hadUsage := total.prompt > 0 || total.completion > 0 || total.total > 0 || total.cost.Some?;
    var cost :=
      if !hadUsage then usage.cost
      else if total.cost.Some? && usage.cost.Some? then Some(total.cost.value + usage.cost.value)
      else None;
    Usage(Wrap(total.prompt + usage.prompt), Wrap(total.completion + usage.completion), Wrap(total.total + usage.total),
          cost, SumOptional(total.cacheRead, usage.cacheRead), SumOptional(total.cacheWrite, usage.cacheWrite))
  }

  /** The running total of a list of responses. */
  function Total(usages: seq<Usage>): Usage {
    if usages == [] then NO_USAGE else AddUsage(Total(usages[..|usages| - 1]), usages[|usages| - 1])
  }

  function PromptTokens(usages: seq<Usage>): nat {
    if usages == [] then 0 else PromptTokens(usages[..|usages| - 1]) + usages[|usages| - 1].prompt
  }

  function CompletionTokens(usages: seq<Usage>): nat {
    if usages == [] then 0 else CompletionTokens(usages[..|usages| - 1]) + usages[|usages| - 1].completion
  }

  function Tokens(usages: seq<Usage>): nat { PromptTokens(usages) + CompletionTokens(usages) }

  lemma {:induction false} UsagesSnoc(usages: seq<Usage>, u: Usage)
    ensures Total(usages + [u]) == AddUsage(Total(usages), u)
    ensures PromptTokens(usages + [u]) == PromptTokens(usages) + u.prompt
    ensures CompletionTokens(usages + [u]) == CompletionTokens(usages) + u.completion
  {
    assert (usages + [u])[..|usages|] == usages;
  }

  lemma WrapAdds(n: nat, m: nat)
    ensures Wrap(Wrap(n) + m) == Wrap(n + m)
  {}

  lemma {:induction false} TotalWraps(usages: seq<Usage>)
    ensures Total(usages).prompt == PromptTokens(usages) % 0x1_0000_0000
    ensures Total(usages).completion == CompletionTokens(usages) % 0x1_0000_0000
  {
    if usages != [] {
      var before, last := usages[..|usages| - 1], usages[|usages| - 1];
      TotalWraps(before);
      WrapAdds(PromptTokens(before), last.prompt);
      WrapAdds(CompletionTokens(before), last.completion);
    }
  }

  function TotalTokens(usages: seq<Usage>): nat {
    if usages == [] then 0 else TotalTokens(usages[..|usages| - 1]) + usages[|usages| - 1].total
  }

  function CostSum(usages: seq<Usage>): real {
    if usages == [] then 0.0
    else CostSum(usages[..|usages| - 1]) + if usages[|usages| - 1].cost.Some? then usages[|usages| - 1].cost.value else 0.0
  }

  /** No counter has wrapped. */
  predicate Fits(usages: seq<Usage>) {
    PromptTokens(usages) < 0x1_0000_0000 && CompletionTokens(usages) < 0x1_0000_0000 && TotalTokens(usages) < 0x1_0000_0000
  }

  /** The total's cost is the sum when every response told one. */
  lemma {:induction false} CostsAdd(usages: seq<Usage>)
    requires forall u :: u in usages ==> u.cost.Some?
    ensures Total(usages).cost == if usages == [] then None else Some(CostSum(usages))
    ensures Total(usages).total == TotalTokens(usages) % 0x1_0000_0000
  {
    if usages != [] {
      var before, last := usages[..|usages| - 1], usages[|usages| - 1];
      CostsAdd(before);
      WrapAdds(TotalTokens(before), last.total);
      assert last in usages;
      if before == [] {
        assert CostSum(before) == 0.0;
      }
    }
  }

  /** It is unknown for good once a response has told none, as long as tokens have
      been counted by then and no counter has wrapped. */
  lemma {:induction false} UnknownCostStays(usages: seq<Usage>, k: nat)
    requires Fits(usages) && k < |usages| && usages[k].cost.None?
    requires Tokens(usages[..k + 1]) + TotalTokens(usages[..k + 1]) > 0
    ensures Total(usages).cost.None? && Tokens(usages) + TotalTokens(usages) > 0
    ensures Total(usages).total == TotalTokens(usages)
  {
    hide Wrap;
    var before, last := usages[..|usages| - 1], usages[|usages| - 1];
    TotalWraps(usages);
    TotalWraps(before);
    CountsTotal(usages);
    CountsTotal(before);
    if k < |usages| - 1 {
      assert before[..k + 1] == usages[..k + 1];
      UnknownCostStays(before, k);
    } else {
      assert usages[..k + 1] == usages;
    }
  }

  lemma {:induction false} CountsTotal(usages: seq<Usage>)
    ensures Total(usages).total == TotalTokens(usages) % 0x1_0000_0000
  {
    if usages != [] {
      CountsTotal(usages[..|usages| - 1]);
      WrapAdds(TotalTokens(usages[..|usages| - 1]), usages[|usages| - 1].total);
    }
  }

  /** What the responses that told a part of their usage come to, if any did. */
  function Told(usages: seq<Usage>, part: Usage -> Option<u32>): Option<nat> {
    if usages == [] then None
    else
      var before, last := Told(usages[..|usages| - 1], part), part(usages[|usages| - 1]);
      if last.None? then before else Some(last.value + if before.Some? then before.value else 0)
  }

  predicate IsWrapped(a: Option<u32>, told: Option<nat>) { a == if told.Some? then Some(Wrap(told.value)) else None }

  lemma {:induction false} CacheAdds(usages: seq<Usage>)
    ensures IsWrapped(Total(usages).cacheRead, Told(usages, (u: Usage) => u.cacheRead))
    ensures IsWrapped(Total(usages).cacheWrite, Told(usages, (u: Usage) => u.cacheWrite))
  {
    if usages != [] {
      var before, last := usages[..|usages| - 1], usages[|usages| - 1];
      CacheAdds(before);
      SumWraps(Total(before).cacheRead, Told(before, (u: Usage) => u.cacheRead), last.cacheRead);
      SumWraps(Total(before).cacheWrite, Told(before, (u: Usage) => u.cacheWrite), last.cacheWrite);
    }
  }

  lemma SumWraps(a: Option<u32>, told: Option<nat>, b: Option<u32>)
    requires IsWrapped(a, told)
    ensures IsWrapped(SumOptional(a, b), if b.None? then told else Some(b.value + if told.Some? then told.value else 0))
  {
    if told.Some? && b.Some? {
      WrapAdds(told.value, b.value);
    }
    if told.Some? {
      WrapAdds(told.value, 0);
    }
  }

  /** The running total tells the tokens a run spent exactly while neither
      32-bit counter has wrapped. */
  lemma {:induction false} TotalIsExactIff(usages: seq<Usage>)
    ensures Total(usages).prompt + Total(usages).completion == Tokens(usages)
            <==> PromptTokens(usages) < 0x1_0000_0000 && CompletionTokens(usages) < 0x1_0000_0000
  {
    TotalWraps(usages);
    ModuloBounds(PromptTokens(usages));
    ModuloBounds(CompletionTokens(usages));
  }

  lemma ModuloBounds(n: nat)
    ensures n % 0x1_0000_0000 <= n && (n % 0x1_0000_0000 == n <==> n < 0x1_0000_0000)
  {}

  // ----- cost -----

  /** Prices as published, already parsed; anything negative is no price. */
  datatype Pricing = Pricing(prompt: Option<real>, completion: Option<real>, cacheRead: Option<real>, cacheWrite: Option<real>)

  function Price(p: Option<real>): Option<real> { if p.Some? && p.value >= 0.0 then p else None }

  function PriceOr(p: Option<real>, default: real): real { if Price(p).Some? then p.value else default }

  function Min(a: nat, b: nat): nat { if a < b then a else b }

  function Charge(tokens: nat, price: real): (cost: real)
    ensures price >= 0.0 ==> cost >= 0.0
  {
    tokens as real * price
  }

  function EstimateCost(pricing: Pricing, usage: Usage): (cost: Option<real>)
    ensures cost.Some? ==> cost.value >= 0.0
  {
    if Price(pricing.prompt).None? || Price(pricing.completion).None? then None
    else
      var prompt, completion := pricing.prompt.value, pricing.completion.value;
      var read := Min(if usage.cacheRead.Some? then usage.cacheRead.value else 0, usage.prompt);
      var write := Min(if usage.cacheWrite.Some? then usage.cacheWrite.value else 0, usage.prompt - read);
      var uncached := usage.prompt - read - write;
      Some(Charge(uncached, prompt) + Charge(read, PriceOr(pricing.cacheRead, prompt))
           + Charge(write, PriceOr(pricing.cacheWrite, prompt)) + Charge(usage.completion, completion))
  }

  /** The estimate is the full price of all tokens less what the cache saves: tokens
      read from and written to it cost their own price where there is one. */
  lemma EstimateDiscounts(pricing: Pricing, usage: Usage)
    ensures var cost, p, c := EstimateCost(pricing, usage), Price(pricing.prompt), Price(pricing.completion);
            && (cost.Some? <==> p.Some? && c.Some?)
            && (cost.Some? ==>
                  var read := if usage.cacheRead.None? then 0 else Min(usage.cacheRead.value, usage.prompt);
                  var write := if usage.cacheWrite.None? then 0 else Min(usage.cacheWrite.value, usage.prompt - read);
                  cost.value == Charge(usage.prompt, p.value) + Charge(usage.completion, c.value)
                                - Charge(read, p.value - PriceOr(pricing.cacheRead, p.value))
                                - Charge(write, p.value - PriceOr(pricing.cacheWrite, p.value)))
  {
    if Price(pricing.prompt).Some? && Price(pricing.completion).Some? {
      var p := pricing.prompt.value;
      var read := if usage.cacheRead.None? then 0 else Min(usage.cacheRead.value, usage.prompt);
      var write := if usage.cacheWrite.None? then 0 else Min(usage.cacheWrite.value, usage.prompt - read);
      ChargeSplits(usage.prompt - read - write, read + write, p);
      ChargeSplits(read, write, p);
      ChargeLess(read, p, PriceOr(pricing.cacheRead, p));
      ChargeLess(write, p, PriceOr(pricing.cacheWrite, p));
    }
  }

  lemma ChargeSplits(m: nat, n: nat, price: real)
    ensures Charge(m + n, price) == Charge(m, price) + Charge(n, price)
  {}

  lemma ChargeLess(n: nat, price: real, less: real)
    ensures Charge(n, price - less) == Charge(n, price) - Charge(n, less)
  {}

  /** What one response costs: the reported cost when it is usable, else an
      estimate, else unknown. An empty response is never estimated. */
  function CostOf(pricing: Option<Pricing>, usage: Usage): (cost: Option<real>)
    ensures cost.Some? ==> cost.value >= 0.0
    ensures usage.cost.Some? && usage.cost.value >= 0.0 ==> cost == usage.cost
    ensures cost.None? <==>
            && !(usage.cost.Some? && usage.cost.value >= 0.0)
            && ((usage.prompt == 0 && usage.completion == 0) || pricing.None?
                || Price(pricing.value.prompt).None? || Price(pricing.value.completion).None?)
  {
    if usage.cost.Some? && usage.cost.value >= 0.0 then usage.cost
    else if usage.prompt == 0 && usage.completion == 0 then None
    else if pricing.None? then None
    else EstimateCost(pricing.value, usage)
  }
}
