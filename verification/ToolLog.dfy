/** What one run did about its tool calls, in order, and what of that is lawful:
    who cleared each call that ran, and what a refusal forbids. */
module ToolLog {
  import opened Wrappers
  import opened Messages
  import opened RunBudget
  import opened RepeatTracker
  import opened ApprovalBroker
  import CanonicalJson

  /** The parts of the tool registry the loop asks about a call. */
  datatype Registry = Registry(
    key: Call -> CallKey,   // the call's identity; see `Keyed`
    accepts: Call -> bool,  // known tool, arguments that fit its schema
    readOnly: Call -> bool, // the per-call effect
    proxied: Call -> Call)  // the deferred call a proxy call names

  /** The registry's keys are those of the repeat tracker, for the JSON parser `parse`. */
  ghost predicate Keyed(reg: Registry, parse: string -> Option<CanonicalJson.Json>) {
    forall call :: reg.key(call) == KeyOf(parse, call.name, call.arguments)
  }

  /** The call as announced, approved and run: a proxy call keeps its own id. */
  function Proxied(reg: Registry, call: Call): Call { reg.proxied(call).(id := call.id) }

  function AllProxied(reg: Registry, calls: seq<Call>): (r: seq<Call>)
    ensures |r| == |calls| && forall k :: 0 <= k < |calls| ==> r[k] == Proxied(reg, calls[k])
  {
    if calls == [] then [] else AllProxied(reg, calls[..|calls| - 1]) + [Proxied(reg, calls[|calls| - 1])]
  }

  function Key(reg: Registry, call: Call): CallKey { reg.key(call) }

  predicate Accepts(reg: Registry, call: Call) { reg.accepts(call) }

  predicate ReadOnly(reg: Registry, call: Call) { reg.readOnly(call) }

  /** Why a call may run. */
  datatype Clearance = ReadOnlyCall | NoBroker | HookApproved | UserApproved(id: Id)

  /** Whether a broker and whether an interceptor is configured. */
  datatype Policy = Policy(asks: bool, hooked: bool)

  /** What the interceptor says of a call before it runs. */
  datatype Verdict = Continue | Approve | Deny(reason: string)

  const DENIED_BY_USER: string := "Tool call denied by user"

  // ----- the log -----

  /** A call is known by its number, its place among all the run's calls. */
  datatype Act =
    | Began(calls: seq<Call>)                                     // a step's calls, as announced
    | HookSaid(n: nat, call: Call, verdict: Verdict)              // the interceptor was heard about a call
    | Asked(n: nat, call: Call, id: Id)                           // the user was asked
    | Ran(n: nat, call: Call, via: Clearance, reading: Reading)   // the tool ran, behind a check of the limits
    | Skipped(n: nat, call: Call)                                 // a limit came first
    | Noted(n: nat, call: Call, visible: Visible)                 // its result went into the history

  type Log = seq<Act>

  /** All calls begun so far. */
  function Begun(log: Log): seq<Call> {
    if log == [] then []
    else
      var last := log[|log| - 1];
      Begun(log[..|log| - 1]) + if last.Began? then last.calls else []
  }

  /** How many of them are answered; they are in order. */
  function NotedCount(log: Log): nat {
    if log == [] then 0 else NotedCount(log[..|log| - 1]) + if log[|log| - 1].Noted? then 1 else 0
  }

  /** The tracker's history within the log. */
  function Observed(reg: Registry, log: Log): History {
    if log == [] then []
    else
      var last := log[|log| - 1];
      Observed(reg, log[..|log| - 1]) + if last.Noted? then [ObservationOf(reg, last.call, last.visible)] else []
  }

  function ObservationOf(reg: Registry, call: Call, visible: Visible): Observation {
    Classify(Key(reg, call), ReadOnly(reg, call), visible)
  }

  function AskedIds(log: Log): set<Id> {
    if log == [] then {} else AskedIds(log[..|log| - 1]) + if log[|log| - 1].Asked? then {log[|log| - 1].id} else {}
  }

  /** The numbers of the calls that ran, in order. */
  function RanNumbers(log: Log): seq<nat> {
    if log == [] then [] else RanNumbers(log[..|log| - 1]) + if log[|log| - 1].Ran? then [log[|log| - 1].n] else []
  }

  /** A limit has kept some call from running. */
  predicate Stopped(log: Log) { log != [] && (log[|log| - 1].Skipped? || Stopped(log[..|log| - 1])) }

  /** What was done so far about one call. */
  datatype Fate = Fate(verdict: Option<Verdict>, ask: Option<Id>, ran: bool, skipped: bool)

  const FRESH: Fate := Fate(None, None, false, false)

  predicate About(act: Act, n: nat) { !act.Began? && act.n == n }

  function With(f: Fate, act: Act): Fate {
    match act
    case HookSaid(_, _, verdict) => f.(verdict := Some(verdict))
    case Asked(_, _, id) => f.(ask := Some(id))
    case Ran(_, _, _, _) => f.(ran := true)
    case Skipped(_, _) => f.(skipped := true)
    case _ => f
  }

  function FateOf(log: Log, n: nat): Fate {
    if log == [] then FRESH
    else
      var last := log[|log| - 1];
      if About(last, n) then With(FateOf(log[..|log| - 1], n), last) else FateOf(log[..|log| - 1], n)
  }

  /** The requests made for calls that are answered. */
  function NotedIds(log: Log): set<Id> {
    if log == [] then {}
    else
      var front, last := log[..|log| - 1], log[|log| - 1];
      NotedIds(front) + if last.Noted? && FateOf(front, last.n).ask.Some? then {FateOf(front, last.n).ask.value} else {}
  }

  /** Every call that ran did so behind one of these checks. */
  predicate AllRanRead(log: Log, readings: seq<Reading>)
    decreases |log|
  {
    log == [] || ((log[|log| - 1].Ran? ==> log[|log| - 1].reading in readings) && AllRanRead(log[..|log| - 1], readings))
  }

  // ----- what is lawful -----

  predicate Undenied(reg: Registry, past: Log, call: Call) { FirstDenial(Observed(reg, past), Key(reg, call)).None? }

  /** The number of a call that is begun and not answered. */
  predicate IsOpenCall(past: Log, n: nat, call: Call) { NotedCount(past) <= n < |Begun(past)| && Begun(past)[n] == call }

  /** A clearance that holds for a call, given what was done about that very call
      and what was resolved. */
  predicate Clears(reg: Registry, policy: Policy, f: Fate, call: Call, via: Clearance, answers: seq<Answer>) {
    match via
    case ReadOnlyCall => ReadOnly(reg, call)
    case NoBroker => !policy.asks
    case HookApproved => f.verdict == Some(Approve)
    case UserApproved(id) => f.ask == Some(id) && WasResolved(answers, id, true)
  }

  predicate HookDenies(f: Fate) { f.verdict.Some? && f.verdict.value.Deny? }

  /** Why a call was refused, when it was: the interceptor said no, or the user. */
  function Refusal(f: Fate, answers: seq<Answer>): Option<string> {
    if HookDenies(f) then Some(f.verdict.value.reason)
    else if f.ask.Some? && WasResolved(answers, f.ask.value, false) then Some(DENIED_BY_USER)
    else None
  }

  /** A result that says what happened to its call. */
  predicate Explains(f: Fate, answers: seq<Answer>, visible: Visible) {
    && (f.skipped ==> visible.skipped)
    && (!f.skipped && Refusal(f, answers).Some? ==>
          !visible.skipped && visible.denied && visible.error == Some(Refusal(f, answers)))
    && (!f.ran ==> visible.error.Some?)
  }

  predicate LawfulAct(reg: Registry, policy: Policy, past: Log, act: Act, answers: seq<Answer>) {
    match act
    case Began(_) => NotedCount(past) == |Begun(past)| && !Stopped(past)
    case HookSaid(n, call, _) =>
      policy.hooked && IsOpenCall(past, n, call) && FateOf(past, n) == FRESH && Accepts(reg, call) && Undenied(reg, past, call)
    case Asked(n, call, id) =>
      var f := FateOf(past, n);
      && policy.asks && IsOpenCall(past, n, call) && f.(verdict := None) == FRESH && (f.verdict.Some? ==> f.verdict.value.Continue?)
      && id !in AskedIds(past) && Accepts(reg, call) && !ReadOnly(reg, call) && Undenied(reg, past, call)
    case Ran(n, call, via, reading) =>
      var f := FateOf(past, n);
      && IsOpenCall(past, n, call) && !f.ran && !f.skipped && !HookDenies(f) && !Stops(reading) && !Stopped(past)
      && Accepts(reg, call) && Undenied(reg, past, call) && Clears(reg, policy, f, call, via, answers)
    case Skipped(n, call) => IsOpenCall(past, n, call) && !FateOf(past, n).ran
    case Noted(n, call, visible) =>
      n == NotedCount(past) && IsOpenCall(past, n, call) && Explains(FateOf(past, n), answers, visible)
  }

  predicate Lawful(reg: Registry, policy: Policy, log: Log, answers: seq<Answer>) {
    log == [] ||
    (Lawful(reg, policy, log[..|log| - 1], answers) && LawfulAct(reg, policy, log[..|log| - 1], log[|log| - 1], answers))
  }

  lemma {:induction false} LogSnoc(reg: Registry, policy: Policy, log: Log, act: Act, answers: seq<Answer>)
    ensures Begun(log + [act]) == Begun(log) + if act.Began? then act.calls else []
    ensures NotedCount(log + [act]) == NotedCount(log) + if act.Noted? then 1 else 0
    ensures Observed(reg, log + [act]) == Observed(reg, log) + if act.Noted? then [ObservationOf(reg, act.call, act.visible)] else []
    ensures RanNumbers(log + [act]) == RanNumbers(log) + if act.Ran? then [act.n] else []
    ensures AskedIds(log + [act]) == AskedIds(log) + if act.Asked? then {act.id} else {}
    ensures Stopped(log + [act]) == (act.Skipped? || Stopped(log))
    ensures Lawful(reg, policy, log + [act], answers) <==> Lawful(reg, policy, log, answers) && LawfulAct(reg, policy, log, act, answers)
  {
    assert (log + [act])[..|log|] == log;
  }

  lemma {:induction false} FateSnoc(log: Log, act: Act, n: nat)
    ensures FateOf(log + [act], n) == if About(act, n) then With(FateOf(log, n), act) else FateOf(log, n)
  {
    assert (log + [act])[..|log|] == log;
  }

  lemma {:induction false} NotedIdsSnoc(log: Log, act: Act)
    ensures NotedIds(log + [act]) ==
            NotedIds(log) + if act.Noted? && FateOf(log, act.n).ask.Some? then {FateOf(log, act.n).ask.value} else {}
  {
    assert (log + [act])[..|log|] == log;
  }

  lemma {:induction false} RanReadSnoc(log: Log, act: Act, readings: seq<Reading>)
    requires AllRanRead(log, readings) && (act.Ran? ==> act.reading in readings)
    ensures AllRanRead(log + [act], readings)
  {
    assert (log + [act])[..|log|] == log;
  }

  lemma {:induction false} RanReadLater(log: Log, readings: seq<Reading>, later: seq<Reading>)
    requires AllRanRead(log, readings) && readings <= later
    ensures AllRanRead(log, later)
    decreases |log|
  {
    if log != [] {
      var last := log[|log| - 1];
      RanReadLater(log[..|log| - 1], readings, later);
      if last.Ran? {
        var k :| 0 <= k < |readings| && readings[k] == last.reading;
        assert later[k] == last.reading;
      }
    }
  }

  lemma {:induction false} RanReadAt(log: Log, readings: seq<Reading>, i: nat)
    requires AllRanRead(log, readings) && i < |log| && log[i].Ran?
    ensures log[i].reading in readings
    decreases |log|
  {
    if i < |log| - 1 {
      RanReadAt(log[..|log| - 1], readings, i);
    }
  }

  /** Further answers take nothing back, as long as none of them resolves a request
      whose call is answered already. */
  lemma {:induction false} LawfulLater(reg: Registry, policy: Policy, log: Log, over: set<Id>, answers: seq<Answer>, later: seq<Answer>)
    requires Lawful(reg, policy, log, answers) && answers <= later && NotedIds(log) <= over && NoNews(over, answers, later)
    ensures Lawful(reg, policy, log, later)
  {
    if log != [] {
      var past := log[..|log| - 1];
      LawfulLater(reg, policy, past, over, answers, later);
      ActLater(reg, policy, past, log[|log| - 1], over, answers, later);
    }
  }

  lemma {:induction false} ActLater(
    reg: Registry, policy: Policy, past: Log, act: Act, over: set<Id>, answers: seq<Answer>, later: seq<Answer>)
    requires LawfulAct(reg, policy, past, act, answers) && answers <= later && NoNews(over, answers, later)
    requires act.Noted? && FateOf(past, act.n).ask.Some? ==> FateOf(past, act.n).ask.value in over
    ensures LawfulAct(reg, policy, past, act, later)
  {
    hide FateOf, Begun, NotedCount, Observed, AskedIds, Stopped;
    if act.Ran? && act.via.UserApproved? {
      StillResolved(answers, later, act.via.id, true);
    }
    if act.Noted? {
      SameRefusal(FateOf(past, act.n), over, answers, later);
    }
  }

  lemma StillResolved(answers: seq<Answer>, later: seq<Answer>, id: Id, approved: bool)
    requires answers <= later && WasResolved(answers, id, approved)
    ensures WasResolved(later, id, approved)
  {
    var i :| 0 <= i < |answers| && answers[i] == Answer(id, approved, Resolved);
    assert later[i] == answers[i];
  }

  lemma SameRefusal(f: Fate, over: set<Id>, answers: seq<Answer>, later: seq<Answer>)
    requires answers <= later && NoNews(over, answers, later) && (f.ask.Some? ==> f.ask.value in over)
    ensures Refusal(f, later) == Refusal(f, answers)
  {
    if f.ask.Some? && WasResolved(answers, f.ask.value, false) {
      StillResolved(answers, later, f.ask.value, false);
    }
  }
}
