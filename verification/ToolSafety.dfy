/** What a lawful log says of a run's tool calls: who approved each, that no
    approval speaks twice, and what a refusal forbids from then on. */
module ToolSafety {
  import opened Wrappers
  import opened Messages
  import opened RunBudget
  import opened RepeatTracker
  import opened ApprovalBroker
  import opened ToolLog
  import CanonicalJson

  // ----- one place in the log -----

  lemma {:induction false} LawfulAt(reg: Registry, policy: Policy, log: Log, answers: seq<Answer>, i: nat)
    requires Lawful(reg, policy, log, answers) && i < |log|
    ensures LawfulAct(reg, policy, log[..i], log[i], answers)
  {
    hide LawfulAct;
    if i < |log| - 1 {
      LawfulAt(reg, policy, log[..|log| - 1], answers, i);
      assert log[..|log| - 1][..i] == log[..i];
    }
  }

  lemma {:induction false} LawfulFirst(reg: Registry, policy: Policy, log: Log, answers: seq<Answer>, i: nat)
    requires Lawful(reg, policy, log, answers) && i <= |log|
    ensures Lawful(reg, policy, log[..i], answers)
  {
    hide LawfulAct;
    if i < |log| {
      LawfulFirst(reg, policy, log[..|log| - 1], answers, i);
      assert log[..|log| - 1][..i] == log[..i];
    } else {
      assert log[..i] == log;
    }
  }

  /** Calls, counts, requests and limits only add up. */
  lemma {:induction false} LaterHasMore(log: Log, i: nat, j: nat)
    requires i <= j <= |log|
    ensures Begun(log[..i]) <= Begun(log[..j]) && NotedCount(log[..i]) <= NotedCount(log[..j])
    ensures AskedIds(log[..i]) <= AskedIds(log[..j]) && (Stopped(log[..i]) ==> Stopped(log[..j]))
    decreases j
  {
    if i < j {
      LaterHasMore(log, i, j - 1);
      assert log[..j][..j - 1] == log[..j - 1];
    }
  }

  /** What was done about a call stays done: a request, a verdict, a run. */
  lemma {:induction false} FateGrows(reg: Registry, policy: Policy, log: Log, answers: seq<Answer>, i: nat, j: nat, n: nat)
    requires Lawful(reg, policy, log, answers) && i <= j <= |log|
    ensures var f, g := FateOf(log[..i], n), FateOf(log[..j], n);
            && (f.ask.Some? ==> g.ask == f.ask) && (f.verdict.Some? ==> g.verdict == f.verdict)
            && (f.ran ==> g.ran) && (f.skipped ==> g.skipped)
    decreases j
  {
    hide Accepts, ReadOnly, Undenied, Clears, Refusal, Explains, IsOpenCall, AskedIds, Begun, NotedCount, Stopped;
    if i < j {
      FateGrows(reg, policy, log, answers, i, j - 1, n);
      LawfulAt(reg, policy, log, answers, j - 1);
      assert log[..j][..j - 1] == log[..j - 1];
    }
  }

  /** An act about a call leaves its trace in the call's fate. */
  lemma {:induction false} ActIsFate(reg: Registry, policy: Policy, log: Log, answers: seq<Answer>, i: nat, j: nat)
    requires Lawful(reg, policy, log, answers) && i < j <= |log| && !log[i].Began?
    ensures var f := FateOf(log[..j], log[i].n);
            && (log[i].HookSaid? ==> f.verdict == Some(log[i].verdict)) && (log[i].Asked? ==> f.ask == Some(log[i].id))
            && (log[i].Ran? ==> f.ran) && (log[i].Skipped? ==> f.skipped)
  {
    hide Lawful;
    assert log[..i + 1] == log[..i] + [log[i]];
    FateSnoc(log[..i], log[i], log[i].n);
    FateGrows(reg, policy, log, answers, i + 1, j, log[i].n);
  }

  /** And what a fate tells was done at some place, about that very call. */
  lemma {:induction false} FindAsk(reg: Registry, policy: Policy, log: Log, answers: seq<Answer>, n: nat) returns (k: nat)
    requires Lawful(reg, policy, log, answers) && FateOf(log, n).ask.Some?
    ensures k < |log| && log[k].Asked? && log[k].n == n && log[k].id == FateOf(log, n).ask.value
    ensures n < |Begun(log)| && log[k].call == Begun(log)[n]
  {
    hide LawfulAct;
    k := |log| - 1;
    if !(log[k].Asked? && log[k].n == n) {
      k := FindAsk(reg, policy, log[..|log| - 1], answers, n);
    } else {
      LawfulAskNames(reg, policy, log[..k], log[k], answers);
    }
  }

  lemma {:induction false} LawfulAskNames(reg: Registry, policy: Policy, past: Log, act: Act, answers: seq<Answer>)
    requires LawfulAct(reg, policy, past, act, answers) && (act.Asked? || act.HookSaid?)
    ensures act.n < |Begun(past)| && Begun(past)[act.n] == act.call && (act.HookSaid? ==> policy.hooked)
  {}

  lemma {:induction false} FindVerdict(reg: Registry, policy: Policy, log: Log, answers: seq<Answer>, n: nat) returns (k: nat)
    requires Lawful(reg, policy, log, answers) && FateOf(log, n).verdict.Some?
    ensures k < |log| && log[k].HookSaid? && log[k].n == n && log[k].verdict == FateOf(log, n).verdict.value && policy.hooked
    ensures n < |Begun(log)| && log[k].call == Begun(log)[n]
  {
    hide LawfulAct;
    k := |log| - 1;
    if !(log[k].HookSaid? && log[k].n == n) {
      k := FindVerdict(reg, policy, log[..|log| - 1], answers, n);
    } else {
      LawfulAskNames(reg, policy, log[..k], log[k], answers);
    }
  }

  // ----- approvals -----

  /** With a broker in place, a call that is not read-only ran only because its
      arguments were valid, the check of the limits before it found none reached, and
      for that very call the interceptor said yes or the user was asked and approved. */
  lemma {:induction false} OnlyApprovedCallsRun(reg: Registry, policy: Policy, log: Log, answers: seq<Answer>, i: nat)
    requires Lawful(reg, policy, log, answers) && policy.asks
    requires i < |log| && log[i].Ran? && !ReadOnly(reg, log[i].call)
    ensures Accepts(reg, log[i].call) && ReasonIn(log[i].reading).None?
    ensures ApprovedByHook(policy, log, i) || ApprovedByUser(log, answers, i)
  {
    LawfulAt(reg, policy, log, answers, i);
    LawfulFirst(reg, policy, log, answers, i);
    if log[i].via.HookApproved? {
      var k := FindVerdict(reg, policy, log[..i], answers, log[i].n);
      assert log[..i][k] == log[k];
    } else {
      var k := FindAsk(reg, policy, log[..i], answers, log[i].n);
      assert log[..i][k] == log[k];
    }
  }

  ghost predicate ApprovedByHook(policy: Policy, log: Log, i: nat)
    requires i < |log| && log[i].Ran?
  {
    policy.hooked && exists k :: 0 <= k < i && log[k] == HookSaid(log[i].n, log[i].call, Approve)
  }

  ghost predicate ApprovedByUser(log: Log, answers: seq<Answer>, i: nat)
    requires i < |log| && log[i].Ran?
  {
    exists k :: 0 <= k < i && log[k].Asked? && log[k].n == log[i].n && log[k].call == log[i].call
                && WasResolved(answers, log[k].id, true)
  }

  /** No call runs twice. */
  lemma {:induction false} EachRunsOnce(reg: Registry, policy: Policy, log: Log, answers: seq<Answer>, i: nat, j: nat)
    requires Lawful(reg, policy, log, answers) && i < j < |log| && log[i].Ran? && log[j].Ran?
    ensures log[i].n != log[j].n
  {
    LawfulAt(reg, policy, log, answers, j);
    ActIsFate(reg, policy, log, answers, i, j);
  }

  /** No two requests share an id, and no call is asked about twice. */
  lemma {:induction false} AskedOnce(reg: Registry, policy: Policy, log: Log, answers: seq<Answer>, i: nat, j: nat)
    requires Lawful(reg, policy, log, answers) && i < j < |log| && log[i].Asked? && log[j].Asked?
    ensures log[i].id != log[j].id && log[i].n != log[j].n
  {
    hide Lawful, Begun, NotedCount, Observed, Stopped, FirstDenial, Undenied, Accepts, FateOf;
    LawfulAt(reg, policy, log, answers, j);
    ActIsFate(reg, policy, log, answers, i, j);
    LaterHasMore(log, i + 1, j);
    assert log[..i + 1][..i] == log[..i];
  }

  /** An approval speaks for one call and one run: two runs the user approved had a
      request each, made for that very call. */
  lemma {:induction false} ApprovalsAreNotShared(reg: Registry, policy: Policy, log: Log, answers: seq<Answer>, i: nat, j: nat)
    requires Lawful(reg, policy, log, answers) && i < j < |log|
    requires log[i].Ran? && log[j].Ran? && log[i].via.UserApproved? && log[j].via.UserApproved?
    ensures log[i].n != log[j].n && log[i].via.id != log[j].via.id
    ensures exists k, l :: 0 <= k < i && 0 <= l < j
                           && log[k] == Asked(log[i].n, log[i].call, log[i].via.id) && log[l] == Asked(log[j].n, log[j].call, log[j].via.id)
  {
    hide Lawful, LawfulAct;
    EachRunsOnce(reg, policy, log, answers, i, j);
    var k := RequestOf(reg, policy, log, answers, i);
    var l := RequestOf(reg, policy, log, answers, j);
    if k < l {
      AskedOnce(reg, policy, log, answers, k, l);
    } else {
      AskedOnce(reg, policy, log, answers, l, k);
    }
  }

  lemma RequestOf(reg: Registry, policy: Policy, log: Log, answers: seq<Answer>, i: nat) returns (k: nat)
    requires Lawful(reg, policy, log, answers) && i < |log| && log[i].Ran? && log[i].via.UserApproved?
    ensures k < i && log[k] == Asked(log[i].n, log[i].call, log[i].via.id) && WasResolved(answers, log[i].via.id, true)
  {
    LawfulAt(reg, policy, log, answers, i);
    LawfulFirst(reg, policy, log, answers, i);
    k := FindAsk(reg, policy, log[..i], answers, log[i].n);
    assert log[..i][k] == log[k];
  }

  // ----- refusals -----

  /** The call of this act was refused, for this reason: the interceptor denied it,
      or the user was asked and the request was resolved with a denial. */
  predicate Refuses(act: Act, answers: seq<Answer>, reason: string) {
    match act
    case HookSaid(_, _, verdict) => verdict == Deny(reason)
    case Asked(_, _, id) => WasResolved(answers, id, false) && reason == DENIED_BY_USER
    case _ => false
  }

  /** A call the user was asked about runs only on that request. */
  lemma {:induction false} AskedNeedsApproval(reg: Registry, policy: Policy, log: Log, answers: seq<Answer>, i: nat, j: nat)
    requires Lawful(reg, policy, log, answers) && i < j < |log|
    requires log[i].Asked? && log[j].Ran? && log[i].n == log[j].n
    ensures log[j].via == UserApproved(log[i].id) && WasResolved(answers, log[i].id, true)
  {
    LawfulAt(reg, policy, log, answers, i);
    LawfulAt(reg, policy, log, answers, j);
    LawfulFirst(reg, policy, log, answers, j);
    ActIsFate(reg, policy, log, answers, i, j);
    LaterHasMore(log, i, j);
    AskedIsNotApproved(reg, policy, log[..j], answers, log[i].n);
  }

  /** The user is asked only about calls the interceptor left open. */
  lemma {:induction false} AskedIsNotApproved(reg: Registry, policy: Policy, log: Log, answers: seq<Answer>, n: nat)
    requires Lawful(reg, policy, log, answers)
    ensures var f := FateOf(log, n); f.ask.Some? && f.verdict.Some? ==> f.verdict.value.Continue?
  {
    hide Accepts, ReadOnly, Undenied, Clears, Refusal, Explains, IsOpenCall, AskedIds, Begun, NotedCount, Stopped;
    if log != [] {
      AskedIsNotApproved(reg, policy, log[..|log| - 1], answers, n);
    }
  }

  /** A refused call does not run. */
  lemma {:induction false} RefusedDoesNotRun(reg: Registry, policy: Policy, log: Log, answers: seq<Answer>, i: nat, j: nat, reason: string)
    requires Lawful(reg, policy, log, answers) && ResolvedOnce(answers)
    requires i < |log| && j < |log| && Refuses(log[i], answers, reason) && log[j].Ran?
    ensures log[i].n != log[j].n
  {
    LawfulAt(reg, policy, log, answers, i);
    LawfulAt(reg, policy, log, answers, j);
    if j < i {
      ActIsFate(reg, policy, log, answers, j, i);
    } else {
      ActIsFate(reg, policy, log, answers, i, j);
      if log[i].Asked? {
        NotBoth(answers, log[i].id);
        if log[i].n == log[j].n {
          AskedNeedsApproval(reg, policy, log, answers, i, j);
        }
      }
    }
  }

  /** A refused call stays refused: once the next step has begun, no call with its
      key is heard about, asked about or run, whatever its spelling. Only a denial
      worded as the approval timeout is not remembered. */
  lemma {:induction false} RefusedStaysRefused(
    reg: Registry, policy: Policy, log: Log, answers: seq<Answer>, i: nat, k: nat, j: nat, reason: string)
    requires Lawful(reg, policy, log, answers) && i < k < j < |log|
    requires Refuses(log[i], answers, reason) && reason != APPROVAL_TIMEOUT_MESSAGE && log[k].Began?
    requires log[j].HookSaid? || log[j].Asked? || log[j].Ran?
    ensures Key(reg, log[j].call) != Key(reg, log[i].call)
  {
    var p := RefusalIsNoted(reg, policy, log, answers, i, k, reason);
    assert log[..j][p] == log[p];
    DenialIsSeen(reg, log[..j], p);
    LawfulAt(reg, policy, log, answers, j);
  }

  /** By the next step the refusal is in the history, under the call's own key,
      unless it is worded as a timeout. */
  lemma RefusalIsNoted(reg: Registry, policy: Policy, log: Log, answers: seq<Answer>, i: nat, k: nat, reason: string) returns (p: nat)
    requires Lawful(reg, policy, log, answers) && i < k < |log| && Refuses(log[i], answers, reason) && log[k].Began?
    ensures i < p < k && log[p].Noted? && log[p].call == log[i].call
    ensures ObservationOf(reg, log[p].call, log[p].visible) ==
            if reason == APPROVAL_TIMEOUT_MESSAGE then Ignored else Denied(Key(reg, log[i].call), reason)
  {
    hide FateOf, Begun, NotedCount, Observed, AskedIds, Stopped, Lawful;
    var n := log[i].n;
    LawfulAt(reg, policy, log, answers, i);
    LawfulAt(reg, policy, log, answers, k);
    LaterHasMore(log, i, k);
    LawfulFirst(reg, policy, log, answers, k);
    p := FindNote(reg, policy, log[..k], answers, n);
    assert log[..k][p] == log[p] && log[..k][..p] == log[..p] && log[..k][..p + 1] == log[..p + 1];
    NotedComesLater(log, i, p);
    ActIsFate(reg, policy, log, answers, i, p);
    LawfulAt(reg, policy, log, answers, p);
    LawfulFirst(reg, policy, log, answers, p);
    LaterHasMore(log, p, k);
    SkippedStops(log[..p], n);
    AskedIsNotApproved(reg, policy, log[..p], answers, n);
  }

  lemma NotedComesLater(log: Log, i: nat, p: nat)
    requires i < |log| && p < |log| && !log[i].Noted? && log[p].Noted? && NotedCount(log[..i]) <= NotedCount(log[..p])
    ensures i < p
  {
    assert log[..p + 1][..p] == log[..p];
    assert NotedCount(log[..p + 1]) == NotedCount(log[..p]) + 1;
    if p < i {
      LaterHasMore(log, p + 1, i);
    }
  }

  lemma {:induction false} SkippedStops(log: Log, n: nat)
    ensures FateOf(log, n).skipped ==> Stopped(log)
  {
    if log != [] {
      SkippedStops(log[..|log| - 1], n);
    }
  }

  lemma {:induction false} FindNote(reg: Registry, policy: Policy, log: Log, answers: seq<Answer>, n: nat) returns (p: nat)
    requires Lawful(reg, policy, log, answers) && n < NotedCount(log)
    ensures p < |log| && log[p].Noted? && log[p].n == n == NotedCount(log[..p])
    ensures n < |Begun(log)| && log[p].call == Begun(log)[n]
  {
    hide Explains, FateOf, Accepts, ReadOnly, Undenied, Clears, AskedIds, Stopped;
    var front, last := log[..|log| - 1], log[|log| - 1];
    if n < NotedCount(front) {
      p := FindNote(reg, policy, front, answers, n);
      assert front[..p] == log[..p];
    } else {
      p := |log| - 1;
    }
  }

  lemma {:induction false} DenialIsSeen(reg: Registry, log: Log, i: nat)
    requires i < |log| && log[i].Noted? && ObservationOf(reg, log[i].call, log[i].visible).Denied?
    ensures FirstDenial(Observed(reg, log), Key(reg, log[i].call)).Some?
  {
    hide FirstDenial;
    var before, last := log[..|log| - 1], log[|log| - 1];
    if i < |log| - 1 {
      DenialIsSeen(reg, before, i);
    }
    if last.Noted? {
      FirstDenialSnoc(Observed(reg, before), ObservationOf(reg, last.call, last.visible), Key(reg, log[i].call));
    } else {
      assert Observed(reg, log) == Observed(reg, before);
    }
  }

  /** In the terms of the calls themselves: after a refusal no call with the same
      name and arguments of the same meaning is heard about, asked about or run. */
  lemma {:induction false} RefusalCoversSpellings(
    reg: Registry, parse: string -> Option<CanonicalJson.Json>, policy: Policy, log: Log, answers: seq<Answer>, i: nat, k: nat, j: nat,
    reason: string)
    requires Lawful(reg, policy, log, answers) && i < k < j < |log| && Keyed(reg, parse)
    requires forall s :: parse(s).Some? ==> CanonicalJson.Valid(parse(s).value)
    requires Refuses(log[i], answers, reason) && reason != APPROVAL_TIMEOUT_MESSAGE && log[k].Began?
    requires log[j].HookSaid? || log[j].Asked? || log[j].Ran?
    ensures var refused, later := log[i].call, log[j].call;
            later.name == refused.name ==>
              match (ParseArguments(parse, later.arguments), ParseArguments(parse, refused.arguments))
              case (Some(x), Some(y)) => CanonicalJson.Meaning(x) != CanonicalJson.Meaning(y)
              case (None, None) => TrimText(later.arguments) != TrimText(refused.arguments)
              case _ => true
  {
    RefusedStaysRefused(reg, policy, log, answers, i, k, j, reason);
    SameKeyIff(parse, log[j].call.name, log[j].call.arguments, log[i].call.name, log[i].call.arguments);
  }

  /** A denial worded as the timeout is forgotten: the user is asked about the same
      call in the next step. */
  lemma {:induction false} TimeoutWordingIsForgotten(reg: Registry, call: Call, id: Id, answers: seq<Answer>)
    requires Accepts(reg, call) && !ReadOnly(reg, call)
    ensures var denied := Visible(false, true, Some(Some(APPROVAL_TIMEOUT_MESSAGE)), 0);
            var log := [Began([call]), HookSaid(0, call, Deny(APPROVAL_TIMEOUT_MESSAGE)), Noted(0, call, denied),
                        Began([call]), Asked(1, call, id)];
            Lawful(reg, Policy(true, true), log, answers)
  {
    hide Lawful;
    Forgotten(reg, call, id, answers, APPROVAL_TIMEOUT_MESSAGE);
  }

  lemma {:induction false} Forgotten(reg: Registry, call: Call, id: Id, answers: seq<Answer>, reason: string)
    requires Accepts(reg, call) && !ReadOnly(reg, call)
    requires ObservationOf(reg, call, Visible(false, true, Some(Some(reason)), 0)) == Ignored
    ensures var denied := Visible(false, true, Some(Some(reason)), 0);
            var log := [Began([call]), HookSaid(0, call, Deny(reason)), Noted(0, call, denied), Began([call]), Asked(1, call, id)];
            Lawful(reg, Policy(true, true), log, answers)
  {
    hide Lawful, Begun, NotedCount, Observed, AskedIds, Stopped, FateOf, ObservationOf, Classify, FirstDenial;
    var policy := Policy(true, true);
    var l1 := [Began([call])];
    var l2 := l1 + [HookSaid(0, call, Deny(reason))];
    var l3 := l2 + [Noted(0, call, Visible(false, true, Some(Some(reason)), 0))];
    NothingDone(reg, policy, answers);
    NoDenial(Key(reg, call));
    assert [] + l1 == l1;
    Grow(reg, policy, [], l1[0], answers);
    Grow(reg, policy, l1, l2[1], answers);
    Grow(reg, policy, l2, l3[2], answers);
    AskedAgain(reg, policy, l3, call, id, answers);
    assert l3 + [Began([call])] + [Asked(1, call, id)] == [l1[0], l2[1], l3[2], Began([call]), Asked(1, call, id)];
  }

  lemma {:induction false} AskedAgain(reg: Registry, policy: Policy, log: Log, call: Call, id: Id, answers: seq<Answer>)
    requires Accepts(reg, call) && !ReadOnly(reg, call) && policy.asks && Lawful(reg, policy, log, answers)
    requires Begun(log) == [call] && NotedCount(log) == 1 && Observed(reg, log) == [Ignored]
    requires AskedIds(log) == {} && !Stopped(log) && FateOf(log, 1) == FRESH
    ensures Lawful(reg, policy, log + [Began([call])] + [Asked(1, call, id)], answers)
  {
    hide Lawful, Begun, NotedCount, Observed, AskedIds, Stopped, FateOf, FirstDenial;
    NoDenial(Key(reg, call));
    Grow(reg, policy, log, Began([call]), answers);
    assert [Ignored] + [] == [Ignored];
    Grow(reg, policy, log + [Began([call])], Asked(1, call, id), answers);
  }

  lemma {:induction false} NoDenial(key: CallKey)
    ensures FirstDenial([], key).None? && FirstDenial([Ignored], key).None?
  {
    assert [Ignored][1..] == [];
  }

  lemma {:induction false} NothingDone(reg: Registry, policy: Policy, answers: seq<Answer>)
    ensures Lawful(reg, policy, [], answers) && Begun([]) == [] && NotedCount([]) == 0 && Observed(reg, []) == []
    ensures AskedIds([]) == {} && !Stopped([]) && FateOf([], 0) == FateOf([], 1) == FRESH
  {}

  lemma {:induction false} Grow(reg: Registry, policy: Policy, log: Log, act: Act, answers: seq<Answer>)
    requires Lawful(reg, policy, log, answers) && LawfulAct(reg, policy, log, act, answers)
    ensures Lawful(reg, policy, log + [act], answers)
    ensures Begun(log + [act]) == Begun(log) + if act.Began? then act.calls else []
    ensures NotedCount(log + [act]) == NotedCount(log) + if act.Noted? then 1 else 0
    ensures Observed(reg, log + [act]) == Observed(reg, log) + if act.Noted? then [ObservationOf(reg, act.call, act.visible)] else []
    ensures AskedIds(log + [act]) == AskedIds(log) + if act.Asked? then {act.id} else {}
    ensures Stopped(log + [act]) == (act.Skipped? || Stopped(log))
    ensures FateOf(log + [act], 0) == if About(act, 0) then With(FateOf(log, 0), act) else FateOf(log, 0)
    ensures FateOf(log + [act], 1) == if About(act, 1) then With(FateOf(log, 1), act) else FateOf(log, 1)
  {
    hide LawfulAct;
    LogSnoc(reg, policy, log, act, answers);
    FateSnoc(log, act, 0);
    FateSnoc(log, act, 1);
  }
}
