/** Optional bounds on one run and the pausable clock behind them (`RunBudget`).
    Instants are ticks of a clock that never goes back. */
module RunBudget {
  import opened Wrappers
  import opened Usage

  datatype Limits = Limits(
    maxDuration: Option<nat>, maxCost: Option<real>, maxTokens: Option<nat>, pricing: Option<Pricing>)

  datatype Reason = TimeLimit | TokenLimit(limit: nat, used: nat) | CostUnknown | CostLimit(threshold: real, spent: real)

  /** What one check of the limits goes by. */
  datatype Reading = Reading(limits: Limits, elapsed: nat, tokens: nat, cost: real, costUnknown: bool)

  function ReasonIn(r: Reading): Option<Reason> {
    if r.limits.maxDuration.Some? && r.elapsed >= r.limits.maxDuration.value then Some(TimeLimit)
    else if r.limits.maxTokens.Some? && r.tokens >= r.limits.maxTokens.value then Some(TokenLimit(r.limits.maxTokens.value, r.tokens))
    else if r.limits.maxCost.Some? && r.costUnknown then Some(CostUnknown)
    else if r.limits.maxCost.Some? && r.cost >= r.limits.maxCost.value then Some(CostLimit(r.limits.maxCost.value, r.cost))
    else None
  }

  /** A reading at which some limit is reached. */
  predicate Stops(r: Reading) { ReasonIn(r).Some? }

  // ----- what a run has cost -----

  function Charged(pricing: Option<Pricing>, usages: seq<Usage>): real {
    if usages == [] then 0.0
    else
      var last := CostOf(pricing, usages[|usages| - 1]);
      Charged(pricing, usages[..|usages| - 1]) + if last.Some? then last.value else 0.0
  }

  /** Some response's cost is unknown. */
  predicate Unpriced(pricing: Option<Pricing>, usages: seq<Usage>) { exists u :: u in usages && CostOf(pricing, u).None? }

  lemma {:induction false} ChargedSnoc(pricing: Option<Pricing>, usages: seq<Usage>, u: Usage)
    ensures var c := CostOf(pricing, u);
            && Charged(pricing, usages + [u]) == Charged(pricing, usages) + (if c.Some? then c.value else 0.0)
            && (Unpriced(pricing, usages + [u]) <==> Unpriced(pricing, usages) || c.None?)
  {
    hide CostOf;
    assert (usages + [u])[..|usages|] == usages;
    assert (usages + [u])[|usages|] == u;
    assert forall v :: v in usages + [u] <==> v in usages || v == u;
  }

  // ----- paused time, stated instant by instant -----

  /** The clock stands at instant `t`: inside a finished pause or the open one. */
  predicate IsPaused(pauses: seq<(nat, nat)>, since: Option<nat>, t: nat) {
    (exists i :: 0 <= i < |pauses| && pauses[i].0 <= t < pauses[i].1) || (since.Some? && since.value <= t)
  }

  /** How many instants from `from` up to `to` the clock ran. */
  function RunningTime(pauses: seq<(nat, nat)>, since: Option<nat>, from: nat, to: nat): (n: nat)
    requires from <= to
    ensures n <= to - from
  {
    if to == from then 0
    else RunningTime(pauses, since, from, to - 1) + if IsPaused(pauses, since, to - 1) then 0 else 1
  }

  lemma {:induction false} RunningTimeAgrees(
    p: seq<(nat, nat)>, s: Option<nat>, q: seq<(nat, nat)>, r: Option<nat>, from: nat, to: nat)
    requires from <= to && forall t: nat :: from <= t < to ==> IsPaused(p, s, t) == IsPaused(q, r, t)
    ensures RunningTime(p, s, from, to) == RunningTime(q, r, from, to)
  {
    if from < to {
      RunningTimeAgrees(p, s, q, r, from, to - 1);
    }
  }

  /** With every finished pause in the past, the clock runs on exactly while no
      pause is open. */
  lemma {:induction false} RunningTimeGrows(pauses: seq<(nat, nat)>, since: Option<nat>, from: nat, past: nat, to: nat)
    requires from <= past <= to
    requires forall i :: 0 <= i < |pauses| ==> pauses[i].1 <= past
    requires since.Some? ==> since.value <= past
    ensures RunningTime(pauses, since, from, to) ==
            RunningTime(pauses, since, from, past) + if since.Some? then 0 else to - past
  {
    if past < to {
      RunningTimeGrows(pauses, since, from, past, to - 1);
    }
  }

  class RunBudget {
    const limits: Limits
    const started: nat
    var paused: nat
    var pausedSince: Option<nat>
    var cost: real
    var costUnknown: bool
    var tokens: nat

    ghost var pauses: seq<(nat, nat)>
    ghost var usages: seq<Usage>
    /** The latest clock reading. */
    ghost var clock: nat

    ghost predicate Valid()
      reads this
    {
      && started <= clock && cost >= 0.0
      && (forall i :: 0 <= i < |pauses| ==> pauses[i].1 <= clock)
      && (pausedSince.Some? ==> pausedSince.value <= clock)
      && Elapsed(clock) == RunningTime(pauses, pausedSince, started, clock)
      && paused + (if pausedSince.Some? then clock - pausedSince.value else 0) <= clock - started
      && tokens == Tokens(usages)
      && cost == Charged(limits.pricing, usages) && costUnknown == Unpriced(limits.pricing, usages)
    }

    constructor (limits: Limits, now: nat)
      ensures Valid() && this.limits == limits && started == clock == now
      ensures pauses == [] && usages == [] && pausedSince == None
    {
      this.limits := limits;
      started := now;
      paused, pausedSince, cost, costUnknown, tokens := 0, None, 0.0, false, 0;
      pauses, usages, clock := [], [], now;
    }

    /** Run time counted against the limit. */
    function Elapsed(now: nat): nat
      reads this
    {
      var standing := paused + if pausedSince.Some? && pausedSince.value <= now then now - pausedSince.value else 0;
      if now >= started + standing then now - started - standing else 0
    }

    function ReadingAt(now: nat): Reading
      reads this
    {
      Reading(limits, Elapsed(now), tokens, cost, costUnknown)
    }

    function Reason(now: nat): Option<Reason>
      reads this
    {
      ReasonIn(ReadingAt(now))
    }

    /** Time left before the run time limit, when one is set. */
    function RemainingTime(now: nat): Option<nat>
      reads this
    {
      match limits.maxDuration
      case None => None
      case Some(limit) => Some(if limit > Elapsed(now) then limit - Elapsed(now) else 0)
    }

    /** A run is stopped exactly when the clock has run for the time limit, outside all
        pauses, or the responses used the tokens allowed, or, with a cost limit, the
        cost of one of them is unknown or they cost that much; in this order. */
    lemma {:induction false} StopsIff(now: nat)
      requires Valid() && now >= clock
      ensures var time, used, spent := RunningTime(pauses, pausedSince, started, now), Tokens(usages), Charged(limits.pricing, usages);
              var late := limits.maxDuration.Some? && time >= limits.maxDuration.value;
              var long := limits.maxTokens.Some? && used >= limits.maxTokens.value;
              var unknown := limits.maxCost.Some? && Unpriced(limits.pricing, usages);
              var dear := limits.maxCost.Some? && spent >= limits.maxCost.value;
              && (Reason(now).None? <==> !late && !long && !unknown && !dear)
              && (Reason(now) == Some(TimeLimit) <==> late)
              && (!late && long ==> Reason(now) == Some(TokenLimit(limits.maxTokens.value, used)))
              && (Reason(now) == Some(CostUnknown) <==> !late && !long && unknown)
              && (!late && !long && !unknown && dear ==> Reason(now) == Some(CostLimit(limits.maxCost.value, spent)))
              && RemainingTime(now) == if limits.maxDuration.None? then None
                                       else if late then Some(0) else Some(limits.maxDuration.value - time)
    {
      RunningTimeGrows(pauses, pausedSince, started, clock, now);
    }

    /** Reading the clock: counted time is the time the clock ran, it never falls,
        and a limit once reached stays reached. */
    ghost method Tick(now: nat)
      requires Valid() && now >= clock
      modifies `clock
      ensures Valid() && clock == now
      ensures Elapsed(now) == RunningTime(pauses, pausedSince, started, now)
      ensures old(Elapsed(clock)) <= Elapsed(now)
      ensures old(Reason(clock)).Some? ==> Reason(now).Some?
    {
      RunningTimeGrows(pauses, pausedSince, started, clock, now);
      clock := now;
    }

    method Record(usage: Usage)
      requires Valid()
      modifies `tokens, `cost, `costUnknown, `usages
      ensures Valid() && usages == old(usages) + [usage]
      ensures var c := CostOf(limits.pricing, usage);
              && cost == old(cost) + (if c.Some? then c.value else 0.0)
              && costUnknown == (old(costUnknown) || c.None?)
      ensures old(Reason(clock)).Some? ==> Reason(clock).Some?
    {
      hide RunningTime, Total, AddUsage, PromptTokens, CompletionTokens, Charged, Unpriced;
      UsagesSnoc(usages, usage);
      ChargedSnoc(limits.pricing, usages, usage);
      tokens := tokens + usage.prompt + usage.completion;
      var c := CostOf(limits.pricing, usage);
      if c.Some? {
        cost := cost + c.value;
      } else {
        costUnknown := true;
      }
      usages := usages + [usage];
    }

    method PauseClock(now: nat)
      requires Valid() && now >= clock
      modifies `pausedSince, `clock
      ensures Valid() && clock == now
      ensures pausedSince == if old(pausedSince).Some? then old(pausedSince) else Some(now)
      ensures old(Elapsed(clock)) <= Elapsed(now)
      ensures old(Reason(clock)).Some? ==> Reason(now).Some?
    {
      Tick(now);
      if pausedSince.None? {
        RunningTimeAgrees(pauses, None, pauses, Some(now), started, now);
        pausedSince := Some(now);
      }
    }

    method ResumeClock(now: nat)
      requires Valid() && now >= clock
      modifies `paused, `pausedSince, `clock, `pauses
      ensures Valid() && clock == now && pausedSince == None
      ensures old(pausedSince).Some? ==> pauses == old(pauses) + [(old(pausedSince).value, now)]
      ensures old(pausedSince).None? ==> pauses == old(pauses)
      ensures old(Elapsed(clock)) <= Elapsed(now)
      ensures old(Reason(clock)).Some? ==> Reason(now).Some?
    {
      Tick(now);
      if pausedSince.Some? {
        var since := pausedSince.value;
        ClosingPause(pauses, since, started, now);
        paused := paused + (now - since);
        pausedSince := None;
        pauses := pauses + [(since, now)];
      }
    }
  }

  /** Up to now, an open pause and the same pause just closed stop the same instants. */
  lemma {:induction false} ClosingPause(pauses: seq<(nat, nat)>, since: nat, started: nat, now: nat)
    requires started <= now
    ensures RunningTime(pauses, Some(since), started, now) == RunningTime(pauses + [(since, now)], None, started, now)
  {
    var closed := pauses + [(since, now)];
    forall t: nat | started <= t < now ensures IsPaused(pauses, Some(since), t) == IsPaused(closed, None, t) {
      assert closed[|pauses|] == (since, now);
      assert forall i :: 0 <= i < |pauses| ==> closed[i] == pauses[i];
    }
    RunningTimeAgrees(pauses, Some(since), closed, None, started, now);
  }
}
