/** The tool calls of one model step: announced and approved, run in call order,
    and answered (the tool half of `agent_loop`). */
module ToolStep {
  import opened Wrappers
  import opened Messages
  import opened Conversation
  import opened Trace
  import opened RunBudget
  import opened RepeatTracker
  import opened ApprovalBroker
  import opened Services
  import opened ToolLog
  import opened ToolCalls
  import opened Approvals
  import Marks

  class Tools {
    const registry: Registry
    /** Without a broker nothing is asked, and without an interceptor it says nothing. */
    const policy: Policy
    /** Whether an approval timeout is configured. */
    const timesOut: bool
    const broker: ToolApprovalBroker
    const repeats: RepeatTracker
    ghost var log: Log

    ghost predicate Valid()
      reads this, broker, repeats
    {
      && broker.Valid() && repeats.Valid()
      && Observed(registry, log) == repeats.history
      && Lawful(registry, policy, log, broker.log)
      && AskedIds(log) <= broker.issued && NotedIds(log) <= broker.Over()
    }

    /** Every run so far is behind a check of these, and once a limit has kept a
        call from running they have found it. */
    ghost predicate Watched(meter: Meter)
      reads `log, meter`readings
    {
      AllRanRead(log, meter.readings) && (Stopped(log) ==> meter.LimitSeen())
    }

    /** A consumer knows of exactly the approvals asked for, and of every decision,
        unless the run waits for one. */
    ghost predicate Tells(journal: Journal, waiting: bool)
      reads `log, journal`events, broker
    {
      && AskingsOf(log) == Askings(journal.events) && AllOver(Rulings(journal.events), broker.Over())
      && RuledBut(Askings(journal.events), Rulings(journal.events), broker.log, waiting)
    }

    /** The same while some calls of the step wait. */
    ghost predicate Informs(journal: Journal, prepared: seq<Prepared>, open: seq<Open>)
      reads `log, journal`events, broker
    {
      && AskingsOf(log) == Askings(journal.events) && AllOver(Rulings(journal.events), broker.Over())
      && Ruled(Askings(journal.events), Rulings(journal.events), broker.log, OpenIds(open))
      && AllAsked(Askings(journal.events), prepared, open)
    }

    /** All calls begun are answered, and a consumer knows exactly that. */
    ghost predicate Even(journal: Journal)
      reads `log, journal`events, broker
    {
      && Begun(log) == Announced(journal.events) == Answered(journal.events)
      && NotedCount(log) == |Begun(log)| && RanNumbers(log) == RanResults(journal.events)
      && Tells(journal, false)
    }

    constructor (registry: Registry, policy: Policy, timesOut: bool, broker: ToolApprovalBroker)
      requires broker.Valid()
      ensures Valid() && log == [] && fresh(repeats)
      ensures this.registry == registry && this.policy == policy && this.broker == broker
    {
      this.registry, this.policy, this.timesOut, this.broker := registry, policy, timesOut, broker;
      repeats := new RepeatTracker();
      log := [];
    }

    ghost method Do(act: Act)
      requires Valid() && !act.Noted? && LawfulAct(registry, policy, log, act, broker.log)
      requires act.Asked? ==> act.id in broker.issued
      modifies `log
      ensures Valid() && log == old(log) + [act]
    {
      LogSnoc(registry, policy, log, act, broker.log);
      NotedIdsSnoc(log, act);
      assert Observed(registry, log) + [] == Observed(registry, log);
      log := log + [act];
    }

    /** Ask the user about one call. */
    method Ask(ghost n: nat, call: Call) returns (id: Id)
      requires Valid() && IsOpenCall(log, n, call) && FateOf(log, n).(verdict := None) == FRESH
      requires FateOf(log, n).verdict.Some? ==> FateOf(log, n).verdict.value.Continue?
      requires policy.asks && Accepts(registry, call) && !ReadOnly(registry, call) && Undenied(registry, log, call)
      modifies broker, `log
      ensures Valid() && log == old(log) + [Asked(n, call, id)] && broker.log == old(broker.log) && old(broker.Over()) <= broker.Over()
      ensures id !in old(AskedIds(log)) && FateOf(log, n) == old(FateOf(log, n)).(ask := Some(id))
      ensures Undenied(registry, log, call)
    {
      hide FateOf, Begun, NotedCount, Observed, AskedIds, FirstDenial, NotedIds, Stopped;
      ghost var before := log;
      id := broker.Request();
      Do(Asked(n, call, id));
      FateSnoc(before, Asked(n, call, id), n);
      VettedSnoc(before, before, Asked(n, call, id), n);
      VettedIsSteady(registry, before, log, n, n);
    }

    /** Hear the interceptor about a call. */
    method Intercept(ghost n: nat, call: Call) returns (verdict: Verdict)
      requires Valid() && IsOpenCall(log, n, call) && FateOf(log, n) == FRESH
      requires policy.hooked && Accepts(registry, call) && Undenied(registry, log, call)
      modifies `log
      ensures Valid() && log == old(log) + [HookSaid(n, call, verdict)]
    {
      verdict := *;
      Do(HookSaid(n, call, verdict));
    }

    /** An identical call denied before is answered with that denial; otherwise the
        hook, where there is one, is heard and may approve or deny. `approved` when
        nothing stands in the way. */
    method Vet(meter: Meter, ghost n: nat, call: Call)
      returns (approved: bool, hookApproved: bool, denial: Option<string>, ghost verdict: Option<Verdict>)
      requires Valid() && meter.Valid() && IsOpenCall(log, n, call) && FateOf(log, n) == FRESH
      modifies meter`now, meter`readings, meter.budget`clock, `log
      ensures Valid() && meter.Valid() && (old(meter.LimitSeen()) ==> meter.LimitSeen()) && old(meter.readings) <= meter.readings
      ensures log == if verdict.Some? then old(log) + [HookSaid(n, call, verdict.value)] else old(log)
      ensures Vetted(old(log), log, n) && FateOf(log, n) == FRESH.(verdict := verdict) && AskingsOf(log) == old(AskingsOf(log))
      ensures verdict.Some? ==> policy.hooked && Accepts(registry, call) && Undenied(registry, log, call)
      ensures verdict.None? ==> !policy.hooked || !Accepts(registry, call) || !Undenied(registry, log, call) || meter.LimitSeen()
      ensures hookApproved <==> verdict == Some(Approve)
      ensures denial == if !Undenied(registry, log, call) then FirstDenial(Observed(registry, log), Key(registry, call))
                        else if verdict.Some? && verdict.value.Deny? then Some(verdict.value.reason) else None
      ensures approved == (denial.None? && !meter.LimitSeen())
    {
      hide FateOf, Begun, NotedCount, AskedIds, NotedIds, Stopped, Lawful, Latched, AskingsOf;
      hide ToolApprovalBroker.Valid, ToolApprovalBroker.Over, RepeatTracker.Valid, Meter.Valid;
      ghost var start := log;
      denial := repeats.PriorDenial(Key(registry, call));
      hookApproved, verdict := false, None;
      var reason := meter.Check();
      if policy.hooked && Accepts(registry, call) && reason.None? && denial.None? {
        var said := Intercept(n, call);
        match said {
          case Continue =>
          case Approve => hookApproved := true;
          case Deny(why) => denial := Some(why);
        }
        verdict := Some(said);
        AskingsSnoc(start, HookSaid(n, call, said));
        FateSnoc(start, HookSaid(n, call, said), n);
        VettedSnoc(start, start, HookSaid(n, call, said), n);
        VettedIsSteady(registry, start, log, n, n);
      }
      reason := meter.Check();
      approved := reason.None? && denial.None?;
    }

    /** What clears a vetted call: nobody need be asked, or the user is. */
    method Clear(journal: Journal, ghost n: nat, call: Call, approved: bool, hookApproved: bool, denial: Option<string>)
      returns (p: Prepared, id: Option<Id>)
      requires Valid() && journal.Valid() && IsOpenCall(log, n, call) && FateOf(log, n).(verdict := None) == FRESH
      requires approved ==> denial.None? && Undenied(registry, log, call)
      requires hookApproved <==> FateOf(log, n).verdict == Some(Approve)
      requires HookDenies(FateOf(log, n)) ==> denial == Some(FateOf(log, n).verdict.value.reason)
      modifies journal`events, broker, `log
      ensures Valid() && journal.Valid()
      ensures journal.Known() ==
              if id.Some? then WithAsking(old(journal.Known()), Asking(id.value, call.id)) else old(journal.Known())
      ensures AskingsOf(log) == old(AskingsOf(log)) + AskingFor(call, id)
      ensures broker.log == old(broker.log) && old(broker.Over()) <= broker.Over()
      ensures id.Some? <==> approved && Accepts(registry, call) && policy.asks && !ReadOnly(registry, call) && !hookApproved
      ensures p.call == call && p.valid == Accepts(registry, call) && p.denial == denial && p.approved == (approved && id.None?)
      ensures log == (if id.Some? then old(log) + [Asked(n, call, id.value)] else old(log)) && Vetted(old(log), log, n)
      ensures id.Some? ==> FateOf(log, n).ask == id && id.value !in old(AskedIds(log))
      ensures Agrees(registry, policy, FateOf(log, n), Undenied(registry, log, call), p, id.Some?, broker.log, broker.Over())
    {
      hide FateOf, Begun, NotedCount, AskedIds, NotedIds, Stopped, Lawful, Observed, FirstDenial, AskingsOf;
      hide Journal.Valid, Journal.Known, ToolApprovalBroker.Valid, ToolApprovalBroker.Over, RepeatTracker.Valid;
      var valid := Accepts(registry, call);
      if approved && valid && policy.asks && !ReadOnly(registry, call) && !hookApproved {
        ghost var start := log;
        var asked := Ask(n, call);
        VettedSnoc(start, start, Asked(n, call, asked), n);
        AskingsSnoc(start, Asked(n, call, asked));
        journal.Require(Asking(asked, call.id));
        id, p := Some(asked), Prepared(call, valid, false, UserApproved(asked), denial);
      } else {
        assert AskingsOf(log) + [] == AskingsOf(log);
        id, p := None, Prepared(call, valid, approved, Unasked(registry, call, hookApproved), denial);
      }
    }

    /** Find out what may still stand in a call's way. `id` is the request made for
        it, when the user must decide. */
    method Decide(journal: Journal, meter: Meter, ghost n: nat, call: Call) returns (p: Prepared, id: Option<Id>)
      requires Valid() && journal.Valid() && meter.Valid() && IsOpenCall(log, n, call) && FateOf(log, n) == FRESH
      modifies journal`events, meter`now, meter`readings, meter.budget`clock, broker, `log
      ensures Valid() && journal.Valid() && meter.Valid()
      ensures journal.Known() ==
              if id.Some? then WithAsking(old(journal.Known()), Asking(id.value, call.id)) else old(journal.Known())
      ensures AskingsOf(log) == old(AskingsOf(log)) + AskingFor(call, id)
      ensures (old(meter.LimitSeen()) ==> meter.LimitSeen()) && old(meter.readings) <= meter.readings
      ensures broker.log == old(broker.log) && old(broker.Over()) <= broker.Over()
      ensures p.call == call && Placed(p, id.Some?, meter.LimitSeen()) && Vetted(old(log), log, n)
      ensures id.Some? ==> FateOf(log, n).ask == id && id.value !in old(AskedIds(log))
      ensures Agrees(registry, policy, FateOf(log, n), Undenied(registry, log, call), p, id.Some?, broker.log, broker.Over())
    {
      hide FateOf, Begun, NotedCount, NotedIds, Stopped, Lawful, FirstDenial, Agrees, Observed, Latched, Vetted, AskedIds;
      hide AskingsOf;
      hide Journal.Valid, Meter.Valid, Journal.Known, RepeatTracker.Valid, ToolApprovalBroker.Valid, ToolApprovalBroker.Over;
      ghost var start := log;
      var approved, hookApproved, denial, _ := Vet(meter, n, call);
      ghost var middle := log;
      VettedIsSteady(registry, start, middle, n, n);
      FewerAsked(start, middle, n);
      p, id := Clear(journal, n, call, approved, hookApproved, denial);
      VettedTransitive(start, middle, log, n);
    }

    /** Announce one call and decide about it. */
    method PrepareCall(journal: Journal, meter: Meter, ghost n: nat, call: Call) returns (p: Prepared, id: Option<Id>)
      requires Valid() && journal.Valid() && meter.Valid() && IsOpenCall(log, n, call) && FateOf(log, n) == FRESH
      modifies journal`events, meter`now, meter`readings, meter.budget`clock, broker, `log
      ensures Valid() && journal.Valid() && meter.Valid()
      ensures (old(meter.LimitSeen()) ==> meter.LimitSeen()) && old(meter.readings) <= meter.readings
      ensures broker.log == old(broker.log) && old(broker.Over()) <= broker.Over()
      ensures p.call == call && Placed(p, id.Some?, meter.LimitSeen()) && Vetted(old(log), log, n)
      ensures id.Some? ==> FateOf(log, n).ask == id && id.value !in old(AskedIds(log))
      ensures Agrees(registry, policy, FateOf(log, n), Undenied(registry, log, call), p, id.Some?, broker.log, broker.Over())
      ensures Replay(journal.events) == old(Replay(journal.events)) && Usages(journal.events) == old(Usages(journal.events))
      ensures Dealt(journal.events) == old(Dealt(journal.events)).(
              announced := old(Announced(journal.events)) + [call], asked := old(Askings(journal.events)) + AskingFor(call, id))
      ensures AskingsOf(log) == old(AskingsOf(log)) + AskingFor(call, id)
    {
      hide FateOf, Begun, NotedCount, NotedIds, Stopped, Lawful, FirstDenial, Replay, Usages, Announced, Answered;
      hide RanResults, Askings, Rulings, Agrees;
      hide Journal.Valid, Meter.Valid, ToolApprovalBroker.Valid, Observed, Vetted;
      journal.Announce(call);
      ghost var asked := Askings(journal.events);
      p, id := Decide(journal, meter, n, call);
      assert asked + [] == asked;
    }

    /** The next call of the step. */
    method PrepareNext(
      journal: Journal, meter: Meter, made: seq<Call>, ghost base: nat, prepared: seq<Prepared>, open: seq<Open>,
      ghost announced: seq<Call>)
      returns (p: Prepared, id: Option<Id>)
      requires Valid() && journal.Valid() && meter.Valid() && Watched(meter) && |prepared| < |made|
      requires Stands(registry, policy, log, base, AllProxied(registry, made), prepared, open, meter.LimitSeen(), broker.log, broker.Over())
      requires Announced(journal.events) == announced + PreparedCalls(prepared) && Informs(journal, prepared, open)
      modifies journal`events, meter`now, meter`readings, meter.budget`clock, broker, `log
      ensures Valid() && journal.Valid() && meter.Valid() && Watched(meter) && old(meter.readings) <= meter.readings
      ensures broker.log == old(broker.log) && Steady(registry, old(log), log)
      ensures Stands(registry, policy, log, base, AllProxied(registry, made), prepared + [p], open + Opened(|prepared|, id),
                     meter.LimitSeen(), broker.log, broker.Over())
      ensures Informs(journal, prepared + [p], open + Opened(|prepared|, id))
      ensures Replay(journal.events) == old(Replay(journal.events)) && Usages(journal.events) == old(Usages(journal.events))
      ensures Dealt(journal.events) == old(Dealt(journal.events)).(
              announced := announced + PreparedCalls(prepared + [p]), asked := Askings(journal.events))
    {
      hide FateOf, NotedIds, AskedIds, Lawful, Observed, Replay, Usages, Announced, Answered, RanResults, Askings, Rulings, Agrees;
      hide Journal.Valid, Meter.Valid, AllPlaced, AllWait, AllAgree, AllRanRead, Stopped, Begun, NotedCount;
      hide ToolApprovalBroker.Valid, ToolApprovalBroker.Over, RepeatTracker.Valid;
      ghost var before, limited, over, readings := log, meter.LimitSeen(), broker.Over(), meter.readings;
      ghost var calls, rulings := AllProxied(registry, made), Rulings(journal.events);
      var i := |prepared|;
      p, id := PrepareCall(journal, meter, base + i, Proxied(registry, made[i]));
      OneMoreAsked(before, rulings, broker.log, prepared, open, p, id);
      VettedIsSteady(registry, before, log, base + i, 0);
      VettedRead(before, log, base + i, readings, meter.readings);
      StandsOneMore(registry, policy, before, log, base, calls, prepared, open, p, id, limited, meter.LimitSeen(),
                    broker.log, over, broker.Over());
      PreparesOneMore(calls, prepared, p);
      AppendOne(announced, PreparedCalls(prepared), p.call);
    }

    /** Every call announced, and every approval the step needs asked for, each by a
        request of its own, before any of them is waited on. */
    method Prepare(journal: Journal, meter: Meter, made: seq<Call>, ghost base: nat) returns (prepared: seq<Prepared>, open: seq<Open>)
      requires Valid() && journal.Valid() && meter.Valid() && Watched(meter)
      requires InStep(log, base, AllProxied(registry, made)) && Untouched(log, base) && Informs(journal, [], [])
      modifies journal`events, meter`now, meter`readings, meter.budget`clock, broker, `log
      ensures Valid() && journal.Valid() && meter.Valid() && Watched(meter) && old(meter.readings) <= meter.readings
      ensures Informs(journal, prepared, open)
      ensures broker.log == old(broker.log) && Steady(registry, old(log), log)
      ensures PreparedCalls(prepared) == AllProxied(registry, made)
      ensures Stands(registry, policy, log, base, AllProxied(registry, made), prepared, open, meter.LimitSeen(), broker.log, broker.Over())
      ensures Replay(journal.events) == old(Replay(journal.events)) && Usages(journal.events) == old(Usages(journal.events))
      ensures Dealt(journal.events) == old(Dealt(journal.events)).(
              announced := old(Announced(journal.events)) + AllProxied(registry, made), asked := Askings(journal.events))
    {
      hide FateOf, Begun, NotedCount, NotedIds, AskedIds, Lawful, Observed, Replay, Usages, Announced, Answered, RanResults;
      hide Askings, Rulings;
      hide Agrees;
      hide Journal.Valid, Meter.Valid, AllPlaced, AllWait, AllAgree, InStep, AllRanRead, Stopped, PreparedCalls;
      hide ToolApprovalBroker.Valid;
      prepared, open := [], [];
      ghost var calls, announced := AllProxied(registry, made), Announced(journal.events);
      NothingPrepared(registry, policy, log, base, calls, meter.LimitSeen(), broker.log, broker.Over());
      for i := 0 to |made|
        invariant Valid() && journal.Valid() && meter.Valid() && Watched(meter) && old(meter.readings) <= meter.readings
        invariant broker.log == old(broker.log) && Steady(registry, old(log), log) && |prepared| == i
        invariant Stands(registry, policy, log, base, calls, prepared, open, meter.LimitSeen(), broker.log, broker.Over())
        invariant Replay(journal.events) == old(Replay(journal.events)) && Usages(journal.events) == old(Usages(journal.events))
        invariant Informs(journal, prepared, open)
        invariant Dealt(journal.events) == old(Dealt(journal.events)).(
                  announced := announced + PreparedCalls(prepared), asked := Askings(journal.events))
      {
        ghost var before := log;
        var p, id := PrepareNext(journal, meter, made, base, prepared, open, announced);
        open := open + Opened(|prepared|, id);
        prepared := prepared + [p];
      }
      assert PreparedCalls(prepared) <= calls && |prepared| == |calls|;
    }

    // ----- waiting for the user -----

    /** The step's calls fit what was done about them, the waiting ones `open`. */
    ghost predicate Fits(base: nat, prepared: seq<Prepared>, open: seq<Open>)
      reads `log, broker
    {
      && AllAgree(registry, policy, log, base, prepared, 0, open, broker.log, broker.Over())
      && AllWait(log, base, prepared, open)
    }

    /** What has become of one request: decided, timed out, or neither yet. Once it
        has become something it is over. */
    method Hear(journal: Journal, id: Id, callId: Option<string>) returns (decided: Option<bool>, late: bool)
      requires Valid() && journal.Valid() && id in broker.issued && Asking(id, callId) in Askings(journal.events)
      modifies journal`events, broker
      ensures Valid() && journal.Valid() && broker.log == old(broker.log)
      ensures journal.Known() ==
              if decided.Some? || late then WithRuling(old(journal.Known()), Ruling(id, callId, decided == Some(true)))
              else old(journal.Known())
      ensures old(broker.Over()) <= broker.Over() && (decided.Some? || late ==> id in broker.Over())
      ensures decided == Some(true) <==> WasResolved(broker.log, id, true)
      ensures WasResolved(broker.log, id, false) ==> decided.Some?
      ensures late ==> decided.None?
    {
      hide Lawful, ToolApprovalBroker.Valid, ToolApprovalBroker.Over, Journal.Valid;
      decided, late := None, false;
      var r, _ := broker.TakeDecision(id);
      match r {
        case Ready(decision) =>
          decided := Some(decision.approved);
          journal.Rule(Ruling(id, callId, decision.approved));
          broker.Release(id, None);
        case Waiting =>
          late := *;
          late := late && timesOut;
          if late {
            broker.Release(id, Some(APPROVAL_TIMEOUT_MESSAGE));
            journal.Rule(Ruling(id, callId, false));
          }
      }
    }

    /** See to one waiting call: its decision has come, its time is up, or neither. */
    method Settle(journal: Journal, ghost base: nat, prepared: seq<Prepared>, open: seq<Open>, k: nat)
      returns (prepared': seq<Prepared>, settled: bool)
      requires Valid() && journal.Valid() && k < |open| && Fits(base, prepared, open) && Informs(journal, prepared, open)
      modifies journal`events, broker
      ensures Valid() && journal.Valid() && broker.log == old(broker.log)
      ensures journal.Known() == WithRulings(old(journal.Known()), Rulings(journal.events))
      ensures var left := if settled then open[..k] + open[k + 1..] else open;
              Fits(base, prepared', left) && Informs(journal, prepared', left)
      ensures PreparedCalls(prepared') == PreparedCalls(prepared)
      ensures !settled ==> prepared' == prepared
      ensures settled ==> open[k].index < |prepared| && prepared' == prepared[open[k].index := prepared'[open[k].index]]
      ensures settled ==> (prepared'[open[k].index].approved <==> WasResolved(broker.log, open[k].id, true))
      ensures WasResolved(broker.log, open[k].id, true) || WasResolved(broker.log, open[k].id, false) ==> settled
    {
      hide FateOf, AllAgree, NotedIds, Lawful, Observed, WasResolved, PreparedCalls, ToolApprovalBroker.Valid;
      hide ToolApprovalBroker.Over, Journal.Valid;
      var o := open[k];
      ghost var over, rulings := broker.Over(), Rulings(journal.events);
      AskedBefore(log, base + o.index);
      prepared', settled := prepared, false;
      WaitingIsUndenied(registry, policy, log, base, prepared, open, k, broker.log, over);
      var decided, late := Hear(journal, o.id, prepared[o.index].call.id);
      AgreesLater(registry, policy, log, base, prepared, 0, open, broker.log, over, broker.log, broker.Over());
      if decided.Some? || late {
        var approved, denial := decided == Some(true), if late then Some(APPROVAL_TIMEOUT_MESSAGE) else None;
        DecisionAgrees(registry, policy, log, base, prepared, open, k, approved, denial, broker.log, broker.Over());
        prepared', settled := prepared[o.index := prepared[o.index].(approved := approved, denial := denial)], true;
        Settled(journal, rulings, base, prepared, prepared', open, k, Ruling(o.id, prepared[o.index].call.id, approved));
      }
    }

    /** A decision told, its call no longer waiting. */
    lemma {:induction false} Settled(
      journal: Journal, rulings: seq<Ruling>, base: nat, prepared: seq<Prepared>, later: seq<Prepared>, open: seq<Open>, k: nat, r: Ruling)
      requires AskingsOf(log) == Askings(journal.events) && AllOver(Rulings(journal.events), broker.Over())
      requires Ruled(Askings(journal.events), rulings, broker.log, OpenIds(open)) && AllAsked(Askings(journal.events), prepared, open)
      requires AllWait(log, base, prepared, open) && k < |open| && PreparedCalls(later) == PreparedCalls(prepared)
      requires r.approvalId == open[k].id && r.callId == prepared[open[k].index].call.id
      requires r.approved <==> WasResolved(broker.log, r.approvalId, true)
      requires Rulings(journal.events) == rulings + [r]
      ensures Informs(journal, later, open[..k] + open[k + 1..])
    {
      hide AskingsOf, Askings, Rulings, Ruled, WasResolved, FateOf, ToolApprovalBroker.Over;
      assert open[k] in open;
      OneMoreRuled(Askings(journal.events), rulings, broker.log, OpenIds(open), r);
      OneLessOpen(log, base, prepared, open, k);
      StillAsked(Askings(journal.events), prepared, later, open, k);
    }

    /** One thing that happens while the run waits: somebody else uses the broker,
        or one of the waiting calls is seen to. */
    method Move(journal: Journal, ghost base: nat, prepared: seq<Prepared>, open: seq<Open>)
      returns (settled: seq<Prepared>, left: seq<Open>)
      requires Valid() && journal.Valid() && open != [] && Fits(base, prepared, open) && Informs(journal, prepared, open)
      modifies journal`events, broker
      ensures Valid() && journal.Valid() && journal.Known() == WithRulings(old(journal.Known()), Rulings(journal.events))
      ensures Fits(base, settled, left) && PreparedCalls(settled) == PreparedCalls(prepared) && Informs(journal, settled, left)
    {
      hide AllAgree, AllWait, Lawful, ToolApprovalBroker.Valid, ToolApprovalBroker.Over;
      settled, left := prepared, open;
      if * {
        ghost var answers, over := broker.log, broker.Over();
        Elsewhere();
        AgreesLater(registry, policy, log, base, settled, 0, open, answers, over, broker.log, broker.Over());
        RuledLater(Askings(journal.events), Rulings(journal.events), answers, broker.log, over, broker.Over(), OpenIds(open));
      } else {
        var k: nat :| k < |open|;
        var gone;
        settled, gone := Settle(journal, base, prepared, open, k);
        if gone {
          left := open[..k] + open[k + 1..];
        }
      }
    }

    /** Wait for the decisions, in whatever order they come, with anyone else using
        the broker in between; the waiting does not count as run time. When this
        many moves bring no end to it, the run is still waiting (`done` is false). */
    method Await(journal: Journal, meter: Meter, ghost base: nat, prepared: seq<Prepared>, open: seq<Open>)
      returns (settled: seq<Prepared>, done: bool)
      requires Valid() && journal.Valid() && meter.Valid() && Fits(base, prepared, open) && Informs(journal, prepared, open)
      modifies journal`events, meter`now, meter.budget`clock, meter.budget`paused, meter.budget`pausedSince, meter.budget`pauses, broker
      ensures Valid() && journal.Valid() && meter.Valid() && Tells(journal, !done)
      ensures journal.Known() == WithRulings(old(journal.Known()), Rulings(journal.events))
      ensures PreparedCalls(settled) == PreparedCalls(prepared)
      ensures done ==> AllAgree(registry, policy, log, base, settled, 0, [], broker.log, broker.Over())
      ensures done && open != [] && old(meter.budget.pausedSince).None? ==>
                var pauses, n := meter.budget.pauses, |old(meter.budget.pauses)|;
                |pauses| == n + 1 && old(meter.now) <= pauses[n].0 <= pauses[n].1 == meter.now && meter.budget.pausedSince.None?
    {
      hide AllAgree, AllWait, Lawful, ToolApprovalBroker.Valid, ToolApprovalBroker.Over, Meter.Valid, Journal.Valid, Tools.Valid;
      hide AskingsOf, Askings, Rulings, RunBudget.Valid, AllOver, Meter.LimitSeen;
      settled := prepared;
      if open == [] {
        return settled, true;
      }
      meter.Pause();
      ghost var at, since, pauses := meter.now, meter.budget.pausedSince, meter.budget.pauses;
      var left := open;
      var moves :| moves >= 0;
      while left != [] && moves > 0
        invariant Valid() && journal.Valid() && meter.Valid()
        invariant journal.Known() == WithRulings(old(journal.Known()), Rulings(journal.events)) && Informs(journal, settled, left)
        invariant Fits(base, settled, left) && PreparedCalls(settled) == PreparedCalls(prepared)
        invariant meter.now == at && meter.budget.pausedSince == since && meter.budget.pauses == pauses
        decreases moves
      {
        moves := moves - 1;
        settled, left := Move(journal, base, settled, left);
      }
      if left != [] {
        return settled, false;
      }
      meter.Resume();
      done := true;
    }

    method Elsewhere()
      requires Valid()
      modifies broker
      ensures Valid() && old(broker.log) <= broker.log && old(broker.Over()) <= broker.Over()
      ensures NoNews(old(broker.Over()), old(broker.log), broker.log)
    {
      ghost var answers, over := broker.log, broker.Over();
      broker.Elsewhere();
      LawfulLater(registry, policy, log, over, answers, broker.log);
    }

    // ----- running the calls -----

    /** Run one call, unless a limit has been reached by now, it was not approved,
        or its arguments were no good. */
    method ExecuteCall(meter: Meter, ghost n: nat, p: Prepared) returns (e: Executed)
      requires Valid() && meter.Valid() && IsOpenCall(log, n, p.call) && Watched(meter)
      requires Agrees(registry, policy, FateOf(log, n), Undenied(registry, log, p.call), p, false, broker.log, broker.Over())
      modifies meter`now, meter`readings, meter.budget`clock, `log
      ensures Valid() && meter.Valid() && Watched(meter) && e.call == p.call
      ensures meter.readings == old(meter.readings) + [meter.budget.ReadingAt(meter.now)]
      ensures e.attempted == (p.approved && p.valid && !meter.LimitSeen())
      ensures log == if meter.LimitSeen() then old(log) + [Skipped(n, p.call)]
                     else if e.attempted then old(log) + [Ran(n, p.call, p.via, meter.Last())]
                     else old(log)
      ensures Accounts(FateOf(log, n), broker.log, e, broker.Over()) && AskingsOf(log) == old(AskingsOf(log))
      ensures meter.LimitSeen() ==> e.visible.skipped
      ensures !meter.LimitSeen() && !p.approved ==>
                e.visible.denied && e.visible.error == Some(Some(if p.denial.Some? then p.denial.value else DENIED_BY_USER))
      ensures !meter.LimitSeen() && p.approved && !p.valid ==> e.visible.error.Some? && !e.visible.denied && !e.visible.skipped
    {
      hide FateOf, Begun, NotedCount, NotedIds, Observed, FirstDenial, Lawful, AskedIds, Latched, Explains, Accounts, AllRanRead;
      hide RunBudget.Valid, RepeatTracker.Valid, ToolApprovalBroker.Valid, ToolApprovalBroker.Over;
      var fingerprint :| fingerprint >= 0;
      var visible: Visible := *;
      var image: Option<string>, proposal: bool, decision: bool := *, *, *;
      ghost var f, readings := FateOf(log, n), meter.readings;
      ghost var undenied := Undenied(registry, log, p.call);
      ResolvedOneWay(f);
      var reason := meter.Check();
      RanReadLater(log, readings, meter.readings);
      if reason.Some? {
        visible := Visible(true, false, Some(Some("run limit")), fingerprint);
        Carried(Skipped(n, p.call), n, meter.readings);
        e := Executed(p.call, visible, false, None, false, false);
      } else if !p.approved {
        visible := Visible(false, true, Some(Some(if p.denial.Some? then p.denial.value else DENIED_BY_USER)), fingerprint);
        e := Executed(p.call, visible, false, None, false, false);
      } else if p.valid {
        Carried(Ran(n, p.call, p.via, meter.Last()), n, meter.readings);
        e := Executed(p.call, visible, true, image, proposal, decision);
      } else {
        var message: string := *;
        visible := Visible(false, false, Some(Some(message)), fingerprint);
        e := Executed(p.call, visible, false, None, false, false);
      }
      OutcomeAccounts(registry, policy, f, undenied, p, broker.log, broker.Over(), e, reason.Some?);
    }

    ghost method Carried(act: Act, n: nat, readings: seq<Reading>)
      requires Valid() && (act.Ran? || act.Skipped?) && act.n == n && LawfulAct(registry, policy, log, act, broker.log)
      requires AllRanRead(log, readings) && (act.Ran? ==> act.reading in readings)
      modifies `log
      ensures Valid() && log == old(log) + [act] && AllRanRead(log, readings) && AskingsOf(log) == old(AskingsOf(log))
      ensures FateOf(log, n) == With(old(FateOf(log, n)), act) && Stopped(log) == (old(Stopped(log)) || act.Skipped?)
    {
      AskingsSnoc(log, act);
      FateSnoc(log, act, n);
      RanReadSnoc(log, act, readings);
      LogSnoc(registry, policy, log, act, broker.log);
      Do(act);
    }

    lemma ResolvedOneWay(f: Fate)
      requires Valid()
      ensures f.ask.Some? ==> !(WasResolved(broker.log, f.ask.value, true) && WasResolved(broker.log, f.ask.value, false))
    {
      if f.ask.Some? {
        NotBoth(broker.log, f.ask.value);
      }
    }

    /** The `i`-th call of the step, behind those already run. */
    method ExecuteNext(
      meter: Meter, ghost base: nat, prepared: seq<Prepared>, executed: seq<Executed>, ghost calls: seq<Call>) returns (e: Executed)
      requires Valid() && meter.Valid() && Watched(meter) && |executed| < |prepared|
      requires InStep(log, base, calls) && PreparedCalls(prepared) == calls
      requires AllAgree(registry, policy, log, base, prepared, |executed|, [], broker.log, broker.Over())
      requires AllAccount(log, base, executed, broker.log, broker.Over())
      modifies meter`now, meter`readings, meter.budget`clock, `log
      ensures Valid() && meter.Valid() && Watched(meter) && old(meter.readings) <= meter.readings
      ensures InStep(log, base, calls) && old(log) <= log && e.call == calls[|executed|]
      ensures AllAgree(registry, policy, log, base, prepared, |executed| + 1, [], broker.log, broker.Over())
      ensures AllAccount(log, base, executed + [e], broker.log, broker.Over()) && AskingsOf(log) == old(AskingsOf(log))
      ensures RanNumbers(log) == old(RanNumbers(log)) + if e.attempted then [base + |executed|] else []
    {
      hide FateOf, NotedIds, Observed, FirstDenial, Lawful, AskedIds, Latched, RunBudget.Valid, AllAccount, Accounts, Agrees;
      hide AllRanRead;
      hide ToolApprovalBroker.Valid, ToolApprovalBroker.Over, Meter.Valid, Begun, NotedCount, RanNumbers, Stopped;
      ghost var before := log;
      var n, p := |executed|, prepared[|executed|];
      assert PreparedCalls(prepared)[n] == p.call;
      assert !IsOpen([], n);
      e := ExecuteCall(meter, base + n, p);
      StepGoesOn(registry, policy, before, log, base + n, calls, base, e.attempted, broker.log);
      AgreesStill(registry, policy, before, log, base, prepared, n + 1, [], broker.log, broker.Over());
      OneMoreAccounts(before, log, base, executed, e, broker.log, broker.Over());
    }

    method Execute(meter: Meter, ghost base: nat, prepared: seq<Prepared>, ghost calls: seq<Call>) returns (executed: seq<Executed>)
      requires Valid() && meter.Valid() && Watched(meter) && InStep(log, base, calls) && PreparedCalls(prepared) == calls
      requires AllAgree(registry, policy, log, base, prepared, 0, [], broker.log, broker.Over())
      modifies meter`now, meter`readings, meter.budget`clock, `log
      ensures Valid() && meter.Valid() && Watched(meter) && old(meter.readings) <= meter.readings
      ensures InStep(log, base, calls) && old(log) <= log
      ensures |executed| == |calls| && Executes(calls, executed)
      ensures AllAccount(log, base, executed, broker.log, broker.Over()) && AskingsOf(log) == old(AskingsOf(log))
      ensures RanNumbers(log) == old(RanNumbers(log)) + Attempted(base, executed)
    {
      hide FateOf, NotedIds, Observed, Lawful, AskedIds, Latched, AllAgree, AllAccount, AllRanRead;
      hide ToolApprovalBroker.Valid, ToolApprovalBroker.Over, Meter.Valid, Begun, NotedCount, RanNumbers, Stopped, InStep;
      executed := [];
      ghost var ran := RanNumbers(log);
      NothingAttempted(base, ran);
      NothingAccounted(log, base, broker.log, broker.Over());
      for i := 0 to |prepared|
        invariant Valid() && meter.Valid() && Watched(meter) && old(meter.readings) <= meter.readings
        invariant InStep(log, base, calls) && old(log) <= log
        invariant |executed| == i && Executes(calls, executed)
        invariant AllAgree(registry, policy, log, base, prepared, i, [], broker.log, broker.Over())
        invariant AllAccount(log, base, executed, broker.log, broker.Over()) && AskingsOf(log) == old(AskingsOf(log))
        invariant RanNumbers(log) == ran + Attempted(base, executed)
      {
        var e := ExecuteNext(meter, base, prepared, executed, calls);
        AttemptedSnoc(base, executed, e, ran);
        executed := executed + [e];
      }
    }

    /** Every call announced, and every approval asked for and come, or still
        waited for. */
    method GetApproved(journal: Journal, meter: Meter, made: seq<Call>, ghost base: nat) returns (prepared: seq<Prepared>, done: bool)
      requires Valid() && journal.Valid() && meter.Valid() && Watched(meter)
      requires InStep(log, base, AllProxied(registry, made)) && Untouched(log, base) && Informs(journal, [], [])
      modifies journal`events, meter`now, meter`readings, meter.budget`clock, meter.budget`paused, meter.budget`pausedSince,
               meter.budget`pauses, broker, `log
      ensures Valid() && journal.Valid() && meter.Valid() && Watched(meter) && old(meter.readings) <= meter.readings
      ensures Tells(journal, !done)
      ensures Steady(registry, old(log), log) && InStep(log, base, AllProxied(registry, made))
      ensures PreparedCalls(prepared) == AllProxied(registry, made)
      ensures done ==> AllAgree(registry, policy, log, base, prepared, 0, [], broker.log, broker.Over())
      ensures Replay(journal.events) == old(Replay(journal.events)) && Usages(journal.events) == old(Usages(journal.events))
      ensures Dealt(journal.events) == old(Dealt(journal.events)).(
              announced := old(Announced(journal.events)) + AllProxied(registry, made),
              asked := Askings(journal.events), rulings := Rulings(journal.events))
    {
      hide NotedIds, Observed, Lawful, AskedIds, AllRanRead, AllAgree, AllWait, AllPlaced, InStep, Untouched, Replay, Usages;
      hide Announced;
      hide Answered, RanResults, Askings, Rulings, Begun, NotedCount, RanNumbers, Stopped, ToolApprovalBroker.Valid;
      hide ToolApprovalBroker.Over;
      hide Journal.Valid, Meter.Valid;
      var first, open := Prepare(journal, meter, made, base);
      prepared, done := Await(journal, meter, base, first, open);
    }

    /** A step begins; nothing of the run's calls is open before it. */
    ghost method BeginCalls(calls: seq<Call>, meter: Meter) returns (base: nat)
      requires Valid() && Watched(meter) && !meter.LimitSeen() && NotedCount(log) == |Begun(log)|
      modifies `log
      ensures Valid() && Watched(meter) && log == old(log) + [Began(calls)] && base == |old(Begun(log))|
      ensures InStep(log, base, calls) && Untouched(log, base) && AskingsOf(log) == old(AskingsOf(log))
      ensures Begun(log) == old(Begun(log)) + calls && RanNumbers(log) == old(RanNumbers(log))
    {
      base := |Begun(log)|;
      AskingsSnoc(log, Began(calls));
      StepBegins(registry, policy, log, broker.log, calls);
      LogSnoc(registry, policy, log, Began(calls), broker.log);
      RanReadSnoc(log, Began(calls), meter.readings);
      assert RanNumbers(log) + [] == RanNumbers(log);
      Do(Began(calls));
    }

    /** From announcing a step's calls to their outcomes, in call order. */
    method Carry(journal: Journal, meter: Meter, made: seq<Call>) returns (executed: seq<Executed>, done: bool)
      requires Valid() && journal.Valid() && meter.Valid() && Watched(meter) && !meter.LimitSeen() && Even(journal)
      modifies journal`events, meter`now, meter`readings, meter.budget`clock, meter.budget`paused, meter.budget`pausedSince,
               meter.budget`pauses, broker, `log
      ensures Valid() && journal.Valid() && meter.Valid() && Watched(meter) && old(meter.readings) <= meter.readings
      ensures old(log) <= log && Begun(log) == old(Begun(log)) + AllProxied(registry, made)
      ensures Replay(journal.events) == old(Replay(journal.events)) && Usages(journal.events) == old(Usages(journal.events))
      ensures Dealt(journal.events) == old(Dealt(journal.events)).(
              announced := Begun(log), asked := Askings(journal.events), rulings := Rulings(journal.events))
      ensures Tells(journal, !done)
      ensures RanNumbers(log) == old(RanNumbers(log)) + Attempted(|old(Begun(log))|, executed)
      ensures done ==> |executed| == |made| && Executes(AllProxied(registry, made), executed)
      ensures done ==> InStep(log, |old(Begun(log))|, AllProxied(registry, made))
      ensures done ==> AllAccount(log, |old(Begun(log))|, executed, broker.log, broker.Over())
    {
      hide NotedIds, Observed, Lawful, AskedIds, AllRanRead, AllAgree, AllAccount, Untouched, Replay, Usages, InStep, Executes;
      hide Begun, NotedCount, RanNumbers, Stopped, Announced, Answered, RanResults, Askings, Rulings, PreparedCalls, Attempted;
      hide ToolApprovalBroker.Valid, ToolApprovalBroker.Over, Journal.Valid, Meter.Valid, RepeatTracker.Valid, Tools.Watched;
      ghost var calls := AllProxied(registry, made);
      ghost var base := BeginCalls(calls, meter);
      NothingAttempted(base, RanNumbers(log));
      var prepared;
      prepared, done := GetApproved(journal, meter, made, base);
      executed := [];
      if done {
        ghost var before := log;
        executed := Execute(meter, base, prepared, calls);
        SameCalls(before, log, base, calls);
      }
    }

    // ----- recording the results -----

    /** Enter one result into the history; `note` is what the model is told about a
        repetition. */
    method Observe(ghost n: nat, e: Executed) returns (note: Option<Note>)
      requires Valid() && n == NotedCount(log) && IsOpenCall(log, n, e.call) && Accounts(FateOf(log, n), broker.log, e, broker.Over())
      modifies repeats, `log
      ensures Valid() && log == old(log) + [Noted(n, e.call, e.visible)]
      ensures note == NoteOn(registry, old(log), e)
    {
      hide FateOf, Begun, NotedCount, AskedIds, Stopped, FirstDenial, Observed, Lawful, NotedIds, Explains, Classify;
      hide ToolApprovalBroker.Valid, ToolApprovalBroker.Over, RepeatTracker.Valid;
      ghost var act := Noted(n, e.call, e.visible);
      note := repeats.Observe(Key(registry, e.call), ReadOnly(registry, e.call), e.visible);
      LogSnoc(registry, policy, log, act, broker.log);
      NotedIdsSnoc(log, act);
      log := log + [act];
    }

    /** Answer one call: history, ledger, event, and the message the model sees. */
    method RecordResult(journal: Journal, conversation: Conversation, iteration: nat, ghost n: nat, e: Executed, awaiting: bool)
      returns (live: bool)
      requires Valid() && journal.At(awaiting) && Replay(journal.events) == journal.Committed()
      requires n == NotedCount(log) && IsOpenCall(log, n, e.call) && Accounts(FateOf(log, n), broker.log, e, broker.Over())
      requires Answered(journal.events) + [e.call] <= Announced(journal.events)
      modifies journal`events, conversation`messages, repeats, `log
      ensures Valid() && log == old(log) + [Noted(n, e.call, e.visible)]
      ensures live ==> !e.proposal && journal.At(awaiting || e.decision)
      ensures live ==> journal.events == AsTold(old(journal.events), e, awaiting)
      ensures live ==> Replay(journal.events) == journal.Committed() && Usages(journal.events) == old(Usages(journal.events))
      ensures live ==> Dealt(journal.events) == WithResult(old(Dealt(journal.events)), e.call, e.attempted)
      ensures live ==>
                exists content ::
                  && EndsWithNote(content, NoteOn(registry, old(log), e))
                  && conversation.messages == old(conversation.messages) + [ToolMessage(e.call, content)]
      ensures !live ==> journal.Finished(iteration) && Announced(journal.events) == old(Announced(journal.events))
      ensures live <==> !e.proposal && !old(journal.Refuses(ResultCommit))
      ensures !live ==>
                journal.events == if old(journal.Refuses(ResultCommit)) then old(journal.events) + [Event.Failed]
                                  else AsTold(old(journal.events), e, awaiting) + [Done(iteration, false, journal.total)]
      ensures !live ==> RanResults(journal.events) <= WithResult(old(Dealt(journal.events)), e.call, e.attempted).ran
      ensures !live ==> Askings(journal.events) == old(Askings(journal.events)) && Rulings(journal.events) == old(Rulings(journal.events))
    {
      hide FateOf, Begun, NotedCount, NotedIds, Observed, Lawful, Marks.Concluded, Replay, Usages, Announced, Answered;
      hide RanResults, Askings, Rulings, Accounts, NoteOn, EndsWithNote, WithNote;
      hide Journal.Open, ToolApprovalBroker.Valid, ToolApprovalBroker.Over;
      var note := Observe(n, e);
      var shown: string := *;
      var content := WithNote(shown, note);
      NoteIsAtTheEnd(shown, note);
      if journal.Refuses(ResultCommit) {
        journal.EndAt(Event.Failed, awaiting, iteration);
        return false;
      }
      journal.Resolve(e.call, e.attempted, e.proposal, e.decision, awaiting);
      if e.proposal {
        journal.Close(Done(iteration, false, journal.total), iteration);
        return false;
      }
      if e.decision && !awaiting {
        journal.AskUser(e.call);
      }
      conversation.Append([ToolMessage(e.call, content)]);
      live := true;
    }

    /** The `i`-th result, on top of those already in. */
    method RecordNext(
      journal: Journal, conversation: Conversation, iteration: nat, executed: seq<Executed>, i: nat, awaiting: bool,
      ghost before: Dealings, ghost start: Log, ghost messages: seq<Message>, ghost results: seq<Message>)
      returns (live: bool, ghost results': seq<Message>)
      requires Valid() && journal.At(awaiting) && i < |executed| && Replay(journal.events) == journal.Committed()
      requires Awaited(before.announced, before.answered, executed) && Dealt(journal.events) == WithResults(before, executed, i)
      requires Recording(start, before, executed) && log == start + NotesOf(|before.answered|, executed, i)
      requires |results| == i && ResultsFor(executed, results) && conversation.messages == messages + results
      requires NotesTold(registry, start, |before.answered|, executed, results)
      modifies journal`events, conversation`messages, repeats, `log
      ensures Valid() && log == start + NotesOf(|before.answered|, executed, i + 1)
      ensures live ==> (NoneProposes(executed, i) ==> NoneProposes(executed, i + 1)) && journal.At(awaiting || executed[i].decision)
      ensures live ==> Replay(journal.events) == journal.Committed() && Usages(journal.events) == old(Usages(journal.events))
      ensures live ==> Dealt(journal.events) == WithResults(before, executed, i + 1)
      ensures live ==> |results'| == i + 1 && ResultsFor(executed, results') && conversation.messages == messages + results'
      ensures live ==> NotesTold(registry, start, |before.answered|, executed, results')
      ensures !live ==> journal.Finished(iteration) && Announced(journal.events) == before.announced
      ensures !live ==> EndsStep(journal.events, journal.outside, executed[i].proposal, Done(iteration, false, journal.total))
      ensures !live ==> RanResults(journal.events) <= before.ran + Attempted(|before.answered|, executed)
      ensures !live ==> Askings(journal.events) == before.asked && Rulings(journal.events) == before.rulings
    {
      hide FateOf, Begun, NotedCount, NotedIds, Observed, Lawful, Marks.Concluded, Replay, Usages, Announced, Answered;
      hide RanResults, Askings, Rulings, Accounts, NotesOf, NoteOn, EndsWithNote, NotesTold;
      hide Journal.At, ToolApprovalBroker.Valid, ToolApprovalBroker.Over, AttemptedFirst;
      ghost var base := |before.answered|;
      NextAnswer(before.announced, before.answered, executed, i);
      NextResult(before, executed, i);
      NotesKeep(start, base, executed, i, base + i, []);
      NextNote(start, base, executed, i);
      results' := results;
      live := RecordResult(journal, conversation, iteration, base + i, executed[i], awaiting);
      if live {
        ghost var content :|
          && EndsWithNote(content, NoteOn(registry, start + NotesOf(base, executed, i), executed[i]))
          && conversation.messages == messages + results + [ToolMessage(executed[i].call, content)];
        OneMoreResult(executed, results, content, messages);
        OneMoreTold(registry, start, base, executed, results, ToolMessage(executed[i].call, content));
        results' := results + [ToolMessage(executed[i].call, content)];
      }
    }

    /** The outcomes of the step under way, none of them answered yet. */
    ghost predicate Recording(start: Log, before: Dealings, executed: seq<Executed>)
      reads broker
    {
      && NotedCount(start) == |before.answered| && Begun(start) == before.announced
      && AllAccount(start, |before.answered|, executed, broker.log, broker.Over())
    }

    /** Every announced call gets one result, in call order, entered as it came into
        the history; the model sees the results in that order right behind the turn
        that made the calls. A result that proposes a worker run ends the run right
        there; one that asks for a decision has the user told once, for the first. */
    method Record(journal: Journal, conversation: Conversation, iteration: nat, executed: seq<Executed>)
      returns (images: seq<Message>, awaiting: bool, live: bool, ghost results: seq<Message>, ghost noted: nat)
      requires Valid() && journal.Valid() && Replay(journal.events) == journal.Committed()
      requires Awaited(Announced(journal.events), Answered(journal.events), executed)
      requires Recording(log, Dealt(journal.events), executed)
      modifies journal`events, conversation`messages, repeats, `log
      ensures Valid() && noted <= |executed| && log == old(log) + NotesOf(|old(Answered(journal.events))|, executed, noted)
      ensures live ==> noted == |executed| && NoneProposes(executed, |executed|)
      ensures live ==> journal.At(awaiting) && Replay(journal.events) == journal.Committed()
      ensures live ==> Usages(journal.events) == old(Usages(journal.events))
      ensures live ==> Dealt(journal.events) == AllTold(old(Dealt(journal.events)), executed)
      ensures live ==> conversation.messages == old(conversation.messages) + results
      ensures live ==> |results| == |executed| && ResultsFor(executed, results)
      ensures live ==> NotesTold(registry, old(log), |old(Answered(journal.events))|, executed, results)
      ensures live ==> images == ImagesOf(executed) && AllNotes(images) && awaiting == Decides(executed)
      ensures !live ==> journal.Finished(iteration) && Announced(journal.events) == old(Announced(journal.events))
      ensures !live ==>
                && noted > 0
                && EndsStep(journal.events, journal.outside, executed[noted - 1].proposal, Done(iteration, false, journal.total))
      ensures !live ==> RanResults(journal.events) <= AllTold(old(Dealt(journal.events)), executed).ran
      ensures !live ==> Askings(journal.events) == old(Askings(journal.events)) && Rulings(journal.events) == old(Rulings(journal.events))
    {
      hide FateOf, Begun, NotedCount, NotedIds, Observed, Lawful, Marks.Concluded, Replay, Usages, Announced, Answered;
      hide RanResults, Askings, Rulings, Accounts, ImagesOf, Decides, WithResults, NotesOf, NoneProposes, ResultsFor;
      hide TellsNote, NoteOn;
      hide Journal.Open, ToolApprovalBroker.Valid, ToolApprovalBroker.Over, AttemptedFirst, AllNotes, Recording;
      images, awaiting, results, noted := [], false, [], 0;
      ghost var before, start, messages := Dealt(journal.events), log, conversation.messages;
      NoResults(before, executed);
      NoNotes(start, |before.answered|, executed);
      NoImages(executed);
      for i := 0 to |executed|
        invariant Valid() && journal.At(awaiting) && log == start + NotesOf(|before.answered|, executed, i) && noted == i
        invariant NoneProposes(executed, i)
        invariant Replay(journal.events) == journal.Committed() && Usages(journal.events) == old(Usages(journal.events))
        invariant Dealt(journal.events) == WithResults(before, executed, i) && Recording(start, before, executed)
        invariant |results| == i && ResultsFor(executed, results) && conversation.messages == messages + results
        invariant NotesTold(registry, start, |before.answered|, executed, results)
        invariant images == ImagesOf(executed[..i]) && awaiting == Decides(executed[..i])
      {
        live, results := RecordNext(journal, conversation, iteration, executed, i, awaiting, before, start, messages, results);
        noted := i + 1;
        if !live {
          return;
        }
        ImagesSnoc(executed, i);
        awaiting := awaiting || executed[i].decision;
        if executed[i].image.Some? {
          images := images + [ImageMessage(executed[i].call.name, executed[i].image.value)];
        }
      }
      AllResults(before, executed);
      AllImages(executed);
      live := true;
    }
  }
}
