/** The tool calls of one model step as values: how a prepared call fits what was
    done about it, what its outcome tells, and what enters the history. */
module ToolCalls {
  import opened Wrappers
  import opened Messages
  import opened Conversation
  import opened Trace
  import opened RunBudget
  import opened RepeatTracker
  import opened ApprovalBroker
  import opened Services
  import opened ToolLog

  /** One call on its way through approval. */
  datatype Prepared = Prepared(call: Call, valid: bool, approved: bool, via: Clearance, denial: Option<string>)

  /** A call waiting for the user: its place among the step's calls. */
  datatype Open = Open(index: nat, id: Id)

  /** What a call came to. */
  datatype Executed = Executed(call: Call, visible: Visible, attempted: bool, image: Option<string>, proposal: bool, decision: bool)

  // ----- a call and what was done about it -----

  /** A prepared call fits what was done about it: its clearance holds, a denial by
      the hook stands, and once the user's decision is in (`!open`) it is approved
      exactly if its own request was resolved so, and by no later answer. */
  predicate Agrees(
    reg: Registry, policy: Policy, f: Fate, undenied: bool, p: Prepared, open: bool, answers: seq<Answer>, over: set<Id>)
  {
    && !f.ran && !f.skipped && p.valid == Accepts(reg, p.call)
    && (p.approved && p.valid ==> undenied && !HookDenies(f) && Clears(reg, policy, f, p.call, p.via, answers))
    && (HookDenies(f) ==> f.ask.None? && !p.approved && p.denial == Some(f.verdict.value.reason))
    && (open ==> f.ask.Some? && !p.approved && p.denial.None?)
    && (f.ask.Some? ==> undenied && p.valid && p.via == UserApproved(f.ask.value))
    && (f.ask.Some? && !open ==>
          && f.ask.value in over && (p.approved <==> WasResolved(answers, f.ask.value, true))
          && (WasResolved(answers, f.ask.value, false) ==> p.denial.None?))
  }

  predicate IsOpen(open: seq<Open>, i: nat) { exists k :: 0 <= k < |open| && open[k].index == i }

  /** From the `from`-th on, the calls of the step that starts at number `base`. */
  predicate AllAgree(
    reg: Registry, policy: Policy, log: Log, base: nat, prepared: seq<Prepared>, from: nat, open: seq<Open>, answers: seq<Answer>,
    over: set<Id>)
  {
    forall k: nat :: from <= k < |prepared| ==>
      Agrees(reg, policy, FateOf(log, base + k), Undenied(reg, log, prepared[k].call), prepared[k], IsOpen(open, k), answers, over)
  }

  /** Every waiting call has a request of its own. */
  predicate AllWait(log: Log, base: nat, prepared: seq<Prepared>, open: seq<Open>) {
    && (forall k :: 0 <= k < |open| ==> open[k].index < |prepared| && FateOf(log, base + open[k].index).ask == Some(open[k].id))
    && (forall k, l :: 0 <= k < l < |open| ==> open[k].index != open[l].index && open[k].id != open[l].id)
  }

  /** The step's calls are the last begun, and none is answered. */
  predicate InStep(log: Log, base: nat, calls: seq<Call>) {
    && NotedCount(log) == base && |Begun(log)| == base + |calls|
    && forall k :: 0 <= k < |calls| ==> Begun(log)[base + k] == calls[k]
  }

  function PreparedCalls(prepared: seq<Prepared>): (r: seq<Call>)
    ensures |r| == |prepared| && forall i :: 0 <= i < |prepared| ==> r[i] == prepared[i].call
  {
    if prepared == [] then [] else PreparedCalls(prepared[..|prepared| - 1]) + [prepared[|prepared| - 1].call]
  }

  /** The prepared calls are the first of the step's. */
  predicate Prepares(calls: seq<Call>, prepared: seq<Prepared>) { PreparedCalls(prepared) <= calls }

  lemma {:induction false} PreparesOneMore(calls: seq<Call>, prepared: seq<Prepared>, p: Prepared)
    requires Prepares(calls, prepared) && |prepared| < |calls| && p.call == calls[|prepared|]
    ensures Prepares(calls, prepared + [p]) && PreparedCalls(prepared + [p]) == PreparedCalls(prepared) + [p.call]
  {
    assert (prepared + [p])[..|prepared|] == prepared;
  }

  /** What clears a call nobody is asked about. */
  function Unasked(reg: Registry, call: Call, hookApproved: bool): Clearance {
    if ReadOnly(reg, call) then ReadOnlyCall else if hookApproved then HookApproved else NoBroker
  }

  /** Results come in call order. */
  predicate Executes(calls: seq<Call>, executed: seq<Executed>) {
    |executed| <= |calls| && forall k :: 0 <= k < |executed| ==> executed[k].call == calls[k]
  }

  /** One result per call, under the call's own id. */
  predicate AnswersIds(calls: seq<Call>, executed: seq<Executed>) {
    |executed| == |calls| && forall k :: 0 <= k < |calls| ==> executed[k].call.id == calls[k].id
  }

  /** The calls announced are those executed, and they keep the ids of the calls
      the model made. */
  lemma {:induction false} StepIsAwaited(reg: Registry, calls: seq<Call>, before: seq<Call>, executed: seq<Executed>)
    requires |executed| == |calls| && Executes(AllProxied(reg, calls), executed)
    ensures Awaited(before + AllProxied(reg, calls), before, executed) && AnswersIds(calls, executed)
  {}

  function ToolMessage(call: Call, content: string): Message { Message(Tool, Some(Text(content)), None, call.id, None) }

  /** A tool's image follows the results as a user message. */
  function ImageMessage(tool: string, uri: string): Message {
    Message(User, Some(Parts([TextPart("Image returned by the `" + tool + "` tool:"), ImagePart(uri)])), None, None, None)
  }

  /** The message shows the image, under the tool's name, and calls nothing. */
  lemma ImageIsShown(tool: string, uri: string)
    ensures var m := ImageMessage(tool, uri);
            && m.role.User? && Plain(m) && m.content.Some? && m.content.value.Parts?
            && ImagePart(uri) in m.content.value.parts
            && exists a, b :: TextContent(m) == a + tool + b
  {
    var before, after := "Image returned by the `", "` tool:";
    assert PartsText([ImagePart(uri)]) == "" by {
      assert [ImagePart(uri)][1..] == [];
    }
    var parts := [TextPart(before + tool + after), ImagePart(uri)];
    assert parts[1..] == [ImagePart(uri)] && parts[1] == ImagePart(uri);
    assert PartsText(parts) == before + tool + after + "";
    assert before + tool + after + "" == before + tool + after;
    assert TextContent(ImageMessage(tool, uri)) == before + tool + after;
  }

  /** A result as told: the event, and, for the first that asks for one, that a
      decision is wanted of the user. */
  function AsTold(events: seq<Event>, e: Executed, awaiting: bool): seq<Event> {
    var result := ToolResult(e.call, e.attempted, e.proposal, e.decision);
    if e.decision && !e.proposal && !awaiting then events + [result] + [UserDecisionRequested(e.call)] else events + [result]
  }

  /** A step cut short because the ledger refused a result, or ended by a result's
      proposal. */
  ghost predicate EndsStep(events: seq<Event>, outside: (Ask, seq<Event>) -> bool, proposal: bool, done: Event) {
    && events != []
    && var front, last := events[..|events| - 1], events[|events| - 1];
    (last == Event.Failed && outside(ResultCommit, front)) || (proposal && last == done)
  }

  lemma StepEnded(before: seq<Event>, last: Event, outside: (Ask, seq<Event>) -> bool, proposal: bool, done: Event)
    requires (last == Event.Failed && outside(ResultCommit, before)) || (proposal && last == done)
    ensures EndsStep(before + [last], outside, proposal, done)
  {
    assert (before + [last])[..|before|] == before;
  }

  /** None of the first `n` results proposes a worker run. */
  predicate NoneProposes(executed: seq<Executed>, n: nat) { forall k :: 0 <= k < n && k < |executed| ==> !executed[k].proposal }

  /** The images of a step's results, in call order. */
  function ImagesOf(executed: seq<Executed>): seq<Message> {
    if executed == [] then []
    else
      var before, last := ImagesOf(executed[..|executed| - 1]), executed[|executed| - 1];
      if last.image.Some? then before + [ImageMessage(last.call.name, last.image.value)] else before
  }

  /** Some result leaves a decision to the user. */
  predicate Decides(executed: seq<Executed>) {
    executed != [] && (executed[|executed| - 1].decision || Decides(executed[..|executed| - 1]))
  }

  lemma NoImages(executed: seq<Executed>)
    ensures ImagesOf(executed[..0]) == [] && !Decides(executed[..0])
  {}

  lemma {:induction false} AllImages(executed: seq<Executed>)
    ensures executed[..|executed|] == executed && AllNotes(ImagesOf(executed))
  {
    ImagesAreNotes(executed);
  }

  lemma ImagesSnoc(executed: seq<Executed>, i: nat)
    requires i < |executed|
    ensures var e, before := executed[i], ImagesOf(executed[..i]);
            && ImagesOf(executed[..i + 1]) == (if e.image.Some? then before + [ImageMessage(e.call.name, e.image.value)] else before)
            && Decides(executed[..i + 1]) == (Decides(executed[..i]) || e.decision)
  {
    assert executed[..i + 1][..i] == executed[..i];
  }

  lemma {:induction false} ImagesAreNotes(executed: seq<Executed>)
    ensures AllNotes(ImagesOf(executed))
  {
    if executed != [] {
      var front, last := executed[..|executed| - 1], executed[|executed| - 1];
      ImagesAreNotes(front);
      if last.image.Some? {
        ImageIsNote(ImagesOf(front), last.call.name, last.image.value);
      }
    }
  }

  lemma ImageIsNote(images: seq<Message>, tool: string, uri: string)
    requires AllNotes(images)
    ensures AllNotes(images + [ImageMessage(tool, uri)])
  {}

  /** The calls still open are exactly those executed, in order. */
  predicate Awaited(announced: seq<Call>, answered: seq<Call>, executed: seq<Executed>) {
    && answered <= announced && |announced| == |answered| + |executed|
    && forall k :: 0 <= k < |executed| ==> executed[k].call == announced[|answered| + k]
  }

  lemma NextAnswer(announced: seq<Call>, answered: seq<Call>, executed: seq<Executed>, i: nat)
    requires Awaited(announced, answered, executed) && i < |executed|
    ensures announced[..|answered| + i] + [executed[i].call] == announced[..|answered| + i + 1]
  {}

  /** The tool messages for the first results, ids and order kept. */
  predicate ResultsFor(executed: seq<Executed>, results: seq<Message>) {
    && |results| <= |executed|
    && forall k :: 0 <= k < |results| ==>
         results[k].role.Tool? && results[k].toolCallId == executed[k].call.id && Calls(results[k]) == []
  }

  lemma OneMoreResult(executed: seq<Executed>, results: seq<Message>, content: string, before: seq<Message>)
    requires ResultsFor(executed, results) && |results| < |executed|
    ensures var m := ToolMessage(executed[|results|].call, content);
            ResultsFor(executed, results + [m]) && (before + results) + [m] == before + (results + [m])
  {}

  // ----- a call is placed one way -----

  function Opened(index: nat, id: Option<Id>): seq<Open> { if id.Some? then [Open(index, id.value)] else [] }

  /** A prepared call is approved, denied for a reason, or waiting for the user, one
      of these at most; it is none of them only once a limit has been seen. */
  predicate Placed(p: Prepared, open: bool, limitSeen: bool) {
    && !(p.approved && p.denial.Some?) && !(p.approved && open) && !(p.denial.Some? && open)
    && (p.approved || p.denial.Some? || open || limitSeen)
  }

  predicate AllPlaced(prepared: seq<Prepared>, open: seq<Open>, limitSeen: bool) {
    && (forall k :: 0 <= k < |open| ==> open[k].index < |prepared|)
    && (forall i: nat :: i < |prepared| ==> Placed(prepared[i], IsOpen(open, i), limitSeen))
  }

  lemma OneMorePlaced(prepared: seq<Prepared>, open: seq<Open>, p: Prepared, id: Option<Id>, before: bool, limitSeen: bool)
    requires AllPlaced(prepared, open, before) && Placed(p, id.Some?, limitSeen) && (before ==> limitSeen)
    ensures AllPlaced(prepared + [p], open + Opened(|prepared|, id), limitSeen)
  {
    var prepared', open' := prepared + [p], open + Opened(|prepared|, id);
    forall i: nat | i < |prepared'| ensures Placed(prepared'[i], IsOpen(open', i), limitSeen) {
      if i < |prepared| {
        StillOpen(open, open', i, |prepared|, id);
      } else {
        LastIsOpen(open, |prepared|, id);
      }
    }
  }

  lemma StillOpen(open: seq<Open>, open': seq<Open>, i: nat, index: nat, id: Option<Id>)
    requires open' == open + Opened(index, id) && i != index
    ensures IsOpen(open', i) <==> IsOpen(open, i)
  {
    if IsOpen(open, i) {
      var k :| 0 <= k < |open| && open[k].index == i;
      assert open'[k].index == i;
    }
  }

  lemma LastIsOpen(open: seq<Open>, index: nat, id: Option<Id>)
    requires forall k :: 0 <= k < |open| ==> open[k].index < index
    ensures IsOpen(open + Opened(index, id), index) <==> id.Some?
  {
    if id.Some? {
      assert (open + Opened(index, id))[|open|].index == index;
    }
  }

  // ----- the log grows -----

  /** `log` goes on from `before` with what was heard and asked about call `n`. */
  predicate Vetted(before: Log, log: Log, n: nat)
    decreases |log|
  {
    log == before
    || (log != [] && (log[|log| - 1].HookSaid? || log[|log| - 1].Asked?) && log[|log| - 1].n == n && Vetted(before, log[..|log| - 1], n))
  }

  lemma {:induction false} VettedSnoc(before: Log, log: Log, act: Act, n: nat)
    requires Vetted(before, log, n) && (act.HookSaid? || act.Asked?) && act.n == n
    ensures Vetted(before, log + [act], n)
  {
    assert (log + [act])[..|log|] == log;
  }

  /** Nothing ran, nothing was answered, and no other call was touched. */
  predicate Steady(reg: Registry, before: Log, log: Log) {
    && before <= log && Begun(log) == Begun(before) && NotedCount(log) == NotedCount(before)
    && Observed(reg, log) == Observed(reg, before) && RanNumbers(log) == RanNumbers(before) && Stopped(log) == Stopped(before)
  }

  lemma {:induction false} VettedIsSteady(reg: Registry, before: Log, log: Log, n: nat, m: nat)
    requires Vetted(before, log, n)
    ensures Steady(reg, before, log) && (m != n ==> FateOf(log, m) == FateOf(before, m))
    decreases |log|
  {
    hide FirstDenial;
    if log != before {
      VettedIsSteady(reg, before, log[..|log| - 1], n, m);
    }
  }

  lemma {:induction false} AgreesStill(
    reg: Registry, policy: Policy, before: Log, log: Log, base: nat, prepared: seq<Prepared>, from: nat, open: seq<Open>,
    answers: seq<Answer>, over: set<Id>)
    requires AllAgree(reg, policy, before, base, prepared, from, open, answers, over) && Observed(reg, log) == Observed(reg, before)
    requires forall n: nat :: base + from <= n ==> SameFate(before, log, n)
    ensures AllAgree(reg, policy, log, base, prepared, from, open, answers, over)
  {
    hide Agrees, FateOf, Undenied;
    forall k: nat | from <= k < |prepared|
      ensures Agrees(reg, policy, FateOf(log, base + k), Undenied(reg, log, prepared[k].call), prepared[k], IsOpen(open, k), answers, over)
    {
      assert SameFate(before, log, base + k);
      SameHistory(reg, before, log, prepared[k].call);
    }
  }

  predicate SameFate(a: Log, b: Log, n: nat) { FateOf(a, n) == FateOf(b, n) }

  /** One more call prepared, behind what was heard and asked about it. */
  lemma {:induction false} OneMoreAgrees(
    reg: Registry, policy: Policy, before: Log, log: Log, base: nat, prepared: seq<Prepared>, open: seq<Open>, p: Prepared,
    id: Option<Id>, answers: seq<Answer>, over: set<Id>)
    requires AllAgree(reg, policy, before, base, prepared, 0, open, answers, over) && AllPlacedIndexes(open, |prepared|)
    requires Vetted(before, log, base + |prepared|)
    requires Agrees(reg, policy, FateOf(log, base + |prepared|), Undenied(reg, log, p.call), p, id.Some?, answers, over)
    ensures AllAgree(reg, policy, log, base, prepared + [p], 0, open + Opened(|prepared|, id), answers, over)
  {
    hide Agrees, FateOf, Undenied;
    var n := |prepared|;
    var prepared', open' := prepared + [p], open + Opened(n, id);
    forall k: nat | k < |prepared'|
      ensures Agrees(reg, policy, FateOf(log, base + k), Undenied(reg, log, prepared'[k].call),
                     prepared'[k], IsOpen(open', k), answers, over)
    {
      VettedIsSteady(reg, before, log, base + n, base + k);
      if k < n {
        StillOpen(open, open', k, n, id);
        SameHistory(reg, before, log, prepared[k].call);
      } else {
        LastIsOpen(open, n, id);
      }
    }
  }

  lemma {:induction false} SameHistory(reg: Registry, before: Log, log: Log, call: Call)
    requires Observed(reg, log) == Observed(reg, before)
    ensures Undenied(reg, log, call) == Undenied(reg, before, call)
  {}

  predicate AllPlacedIndexes(open: seq<Open>, n: nat) { forall k :: 0 <= k < |open| ==> open[k].index < n }

  lemma {:induction false} OneMoreWaits(
    reg: Registry, policy: Policy, before: Log, log: Log, base: nat, prepared: seq<Prepared>, open: seq<Open>, p: Prepared, id: Option<Id>,
    answers: seq<Answer>)
    requires AllWait(before, base, prepared, open) && Vetted(before, log, base + |prepared|)
    requires id.Some? ==> FateOf(log, base + |prepared|).ask == id
    requires id.Some? ==> forall k :: 0 <= k < |open| ==> open[k].id != id.value
    ensures AllWait(log, base, prepared + [p], open + Opened(|prepared|, id))
  {
    hide FateOf;
    var n := |prepared|;
    forall k | 0 <= k < |open| ensures FateOf(log, base + open[k].index).ask == Some(open[k].id) {
      VettedIsSteady(reg, before, log, base + n, base + open[k].index);
    }
  }

  /** Requests of calls asked about before are in the log's ids. */
  lemma {:induction false} AskedBefore(log: Log, n: nat)
    requires FateOf(log, n).ask.Some?
    ensures FateOf(log, n).ask.value in AskedIds(log)
  {
    var front := log[..|log| - 1];
    if FateOf(front, n).ask.Some? && !(log[|log| - 1].Asked? && log[|log| - 1].n == n) {
      AskedBefore(front, n);
    }
  }

  lemma {:induction false} NewRequest(log: Log, base: nat, prepared: seq<Prepared>, open: seq<Open>, id: Id)
    requires AllWait(log, base, prepared, open) && id !in AskedIds(log)
    ensures forall k :: 0 <= k < |open| ==> open[k].id != id
  {
    forall k | 0 <= k < |open| ensures open[k].id != id {
      AskedBefore(log, base + open[k].index);
    }
  }

  // ----- decisions -----

  /** The decision on one waiting call: an approval exactly if its request was
      resolved so. */
  lemma DecisionAgrees(
    reg: Registry, policy: Policy, log: Log, base: nat, prepared: seq<Prepared>, open: seq<Open>, k: nat, approved: bool,
    denial: Option<string>, answers: seq<Answer>, over: set<Id>)
    requires AllAgree(reg, policy, log, base, prepared, 0, open, answers, over) && AllWait(log, base, prepared, open) && k < |open|
    requires (approved <==> WasResolved(answers, open[k].id, true)) && (WasResolved(answers, open[k].id, false) ==> denial.None?)
    requires open[k].id in over
    ensures open[k].index < |prepared|
    ensures var decided := prepared[open[k].index := prepared[open[k].index].(approved := approved, denial := denial)];
            var left := open[..k] + open[k + 1..];
            && AllAgree(reg, policy, log, base, decided, 0, left, answers, over) && AllWait(log, base, decided, left)
            && PreparedCalls(decided) == PreparedCalls(prepared)
  {
    hide Agrees, FateOf, Undenied;
    var i := open[k].index;
    var decided := prepared[i := prepared[i].(approved := approved, denial := denial)];
    var left := open[..k] + open[k + 1..];
    assert forall l :: 0 <= l < |left| ==> left[l] == open[if l < k then l else l + 1];
    assert PreparedCalls(decided) == PreparedCalls(prepared);
    assert IsOpen(open, i);
    DecidedAgrees(reg, policy, FateOf(log, base + i), Undenied(reg, log, prepared[i].call), prepared[i], approved, denial, answers, over);
    forall m: nat | m < |decided|
      ensures Agrees(reg, policy, FateOf(log, base + m), Undenied(reg, log, decided[m].call), decided[m], IsOpen(left, m), answers, over)
    {
      OneFewerOpen(open, left, k, m);
    }
  }

  /** A call that waits was not denied. */
  lemma WaitingIsUndenied(
    reg: Registry, policy: Policy, log: Log, base: nat, prepared: seq<Prepared>, open: seq<Open>, k: nat, answers: seq<Answer>,
    over: set<Id>)
    requires AllAgree(reg, policy, log, base, prepared, 0, open, answers, over) && AllWait(log, base, prepared, open) && k < |open|
    ensures open[k].index < |prepared| && prepared[open[k].index].denial.None?
  {
    assert IsOpen(open, open[k].index);
  }

  lemma DecidedAgrees(
    reg: Registry, policy: Policy, f: Fate, undenied: bool, p: Prepared, approved: bool, denial: Option<string>, answers: seq<Answer>,
    over: set<Id>)
    requires Agrees(reg, policy, f, undenied, p, true, answers, over) && f.ask.value in over
    requires (approved <==> WasResolved(answers, f.ask.value, true)) && (WasResolved(answers, f.ask.value, false) ==> denial.None?)
    ensures Agrees(reg, policy, f, undenied, p.(approved := approved, denial := denial), false, answers, over)
  {}

  lemma OneFewerOpen(open: seq<Open>, left: seq<Open>, k: nat, m: nat)
    requires k < |open| && left == open[..k] + open[k + 1..]
    requires forall i, j :: 0 <= i < j < |open| ==> open[i].index != open[j].index
    ensures IsOpen(left, m) <==> IsOpen(open, m) && m != open[k].index
  {
    assert forall l :: 0 <= l < |left| ==> left[l] == open[if l < k then l else l + 1];
    if IsOpen(open, m) && m != open[k].index {
      var l :| 0 <= l < |open| && open[l].index == m;
      assert left[if l < k then l else l - 1].index == m;
    }
  }

  /** More answers and more requests that are over change nothing for these calls. */
  lemma AgreesLater(
    reg: Registry, policy: Policy, log: Log, base: nat, prepared: seq<Prepared>, from: nat, open: seq<Open>, answers: seq<Answer>,
    over: set<Id>, later: seq<Answer>, ended: set<Id>)
    requires AllAgree(reg, policy, log, base, prepared, from, open, answers, over)
    requires answers <= later && over <= ended && NoNews(over, answers, later)
    ensures AllAgree(reg, policy, log, base, prepared, from, open, later, ended)
  {
    forall k: nat | from <= k < |prepared|
      ensures Agrees(reg, policy, FateOf(log, base + k), Undenied(reg, log, prepared[k].call), prepared[k], IsOpen(open, k), later, ended)
    {
      OneAgreesLater(reg, policy, FateOf(log, base + k), Undenied(reg, log, prepared[k].call), prepared[k], IsOpen(open, k),
                      answers, over, later, ended);
    }
  }

  lemma OneAgreesLater(
    reg: Registry, policy: Policy, f: Fate, undenied: bool, p: Prepared, open: bool, answers: seq<Answer>, over: set<Id>,
    later: seq<Answer>, ended: set<Id>)
    requires Agrees(reg, policy, f, undenied, p, open, answers, over)
    requires answers <= later && over <= ended && NoNews(over, answers, later)
    ensures Agrees(reg, policy, f, undenied, p, open, later, ended)
  {
    if f.ask.Some? && !open {
      if WasResolved(answers, f.ask.value, true) {
        StillResolved(answers, later, f.ask.value, true);
      }
    }
  }

  lemma {:induction false} VettedTransitive(a: Log, b: Log, c: Log, n: nat)
    requires Vetted(a, b, n) && Vetted(b, c, n)
    ensures Vetted(a, c, n)
    decreases |c|
  {
    if c != b {
      VettedTransitive(a, b, c[..|c| - 1], n);
    }
  }

  lemma {:induction false} FewerAsked(a: Log, b: Log, n: nat)
    requires Vetted(a, b, n)
    ensures AskedIds(a) <= AskedIds(b)
    decreases |b|
  {
    if a != b {
      FewerAsked(a, b[..|b| - 1], n);
    }
  }

  lemma {:induction false} VettedRead(a: Log, b: Log, n: nat, readings: seq<Reading>, later: seq<Reading>)
    requires Vetted(a, b, n) && AllRanRead(a, readings) && readings <= later
    ensures AllRanRead(b, later)
    decreases |b|
  {
    if a != b {
      VettedRead(a, b[..|b| - 1], n, readings, later);
    } else {
      RanReadLater(a, readings, later);
    }
  }

  lemma AppendOne<T>(a: seq<T>, b: seq<T>, x: T)
    ensures a + (b + [x]) == (a + b) + [x]
  {}

  lemma NothingPrepared(
    reg: Registry, policy: Policy, log: Log, base: nat, calls: seq<Call>, limitSeen: bool, answers: seq<Answer>, over: set<Id>)
    requires InStep(log, base, calls) && Untouched(log, base)
    ensures Stands(reg, policy, log, base, calls, [], [], limitSeen, answers, over)
  {
    hide InStep, Untouched;
  }

  /** The first calls of a step, announced and placed, each fitting what was done
      about it, the waiting ones with a request of their own. */
  ghost predicate Stands(
    reg: Registry, policy: Policy, log: Log, base: nat, calls: seq<Call>, prepared: seq<Prepared>, open: seq<Open>, limitSeen: bool,
    answers: seq<Answer>, over: set<Id>)
  {
    && InStep(log, base, calls) && Prepares(calls, prepared) && Untouched(log, base + |prepared|)
    && AllPlaced(prepared, open, limitSeen) && AllAgree(reg, policy, log, base, prepared, 0, open, answers, over)
    && AllWait(log, base, prepared, open)
  }

  /** Nothing was done about any call from number `n` on. */
  ghost predicate Untouched(log: Log, n: nat) { forall m: nat :: n <= m ==> FateOf(log, m) == FRESH }

  lemma {:induction false} NewCallsAreFresh(reg: Registry, policy: Policy, log: Log, answers: seq<Answer>, m: nat)
    requires Lawful(reg, policy, log, answers) && |Begun(log)| <= m
    ensures FateOf(log, m) == FRESH
  {
    hide Observed, Clears, Explains, NotedCount, AskedIds, Stopped;
    if log != [] {
      NewCallsAreFresh(reg, policy, log[..|log| - 1], answers, m);
    }
  }

  /** A step begins: its calls are the last begun. */
  lemma {:induction false} StepBegins(reg: Registry, policy: Policy, log: Log, answers: seq<Answer>, calls: seq<Call>)
    requires Lawful(reg, policy, log, answers) && NotedCount(log) == |Begun(log)|
    ensures var l := log + [Began(calls)];
            InStep(l, |Begun(log)|, calls) && Untouched(l, |Begun(log)|)
  {
    hide Lawful;
    LogSnoc(reg, policy, log, Began(calls), answers);
    forall m: nat | |Begun(log)| <= m ensures FateOf(log + [Began(calls)], m) == FRESH {
      NewCallsAreFresh(reg, policy, log, answers, m);
      FateSnoc(log, Began(calls), m);
    }
  }

  lemma {:induction false} StandsOneMore(
    reg: Registry, policy: Policy, before: Log, log: Log, base: nat, calls: seq<Call>, prepared: seq<Prepared>, open: seq<Open>,
    p: Prepared, id: Option<Id>, limited: bool, limitSeen: bool, answers: seq<Answer>, over: set<Id>, later: set<Id>)
    requires Stands(reg, policy, before, base, calls, prepared, open, limited, answers, over) && over <= later
    requires |prepared| < |calls| && p.call == calls[|prepared|] && Placed(p, id.Some?, limitSeen) && (limited ==> limitSeen)
    requires Vetted(before, log, base + |prepared|)
    requires Agrees(reg, policy, FateOf(log, base + |prepared|), Undenied(reg, log, p.call), p, id.Some?, answers, later)
    requires id.Some? ==> FateOf(log, base + |prepared|).ask == id && id.value !in AskedIds(before)
    ensures Stands(reg, policy, log, base, calls, prepared + [p], open + Opened(|prepared|, id), limitSeen, answers, later)
  {
    hide Agrees, FateOf, Undenied, Begun, NotedCount, AskedIds, Observed;
    var n := base + |prepared|;
    AgreesLater(reg, policy, before, base, prepared, 0, open, answers, over, answers, later);
    OneMoreAgrees(reg, policy, before, log, base, prepared, open, p, id, answers, later);
    if id.Some? {
      NewRequest(before, base, prepared, open, id.value);
    }
    OneMoreWaits(reg, policy, before, log, base, prepared, open, p, id, answers);
    OneMorePlaced(prepared, open, p, id, limited, limitSeen);
    PreparesOneMore(calls, prepared, p);
    VettedIsSteady(reg, before, log, n, n + 1);
    forall m: nat | n + 1 <= m ensures FateOf(log, m) == FRESH {
      VettedIsSteady(reg, before, log, n, m);
    }
  }

  // ----- outcomes -----

  /** An outcome fits what was done about its call, whose request is over. */
  predicate Accounts(f: Fate, answers: seq<Answer>, e: Executed, over: set<Id>) {
    Explains(f, answers, e.visible) && e.attempted == f.ran && (f.ask.Some? ==> f.ask.value in over)
  }

  /** The outcome of a call that fits what was done about it. */
  lemma OutcomeAccounts(
    reg: Registry, policy: Policy, f: Fate, undenied: bool, p: Prepared, answers: seq<Answer>, over: set<Id>, e: Executed, limit: bool)
    requires Agrees(reg, policy, f, undenied, p, false, answers, over)
    requires f.ask.Some? ==> !(WasResolved(answers, f.ask.value, true) && WasResolved(answers, f.ask.value, false))
    requires e.attempted == (p.approved && p.valid && !limit)
    requires limit ==> e.visible.skipped && e.visible.error.Some?
    requires !limit && !p.approved ==>
               !e.visible.skipped && e.visible.denied
               && e.visible.error == Some(Some(if p.denial.Some? then p.denial.value else DENIED_BY_USER))
    requires !limit && p.approved && !p.valid ==> e.visible.error.Some?
    ensures Accounts(if limit then f.(skipped := true) else if e.attempted then f.(ran := true) else f, answers, e, over)
  {}

  lemma NothingAccounted(log: Log, base: nat, answers: seq<Answer>, over: set<Id>)
    ensures AllAccount(log, base, [], answers, over)
  {}

  /** A run or a skip of call `n` changes nothing about any other. */
  lemma {:induction false} StepGoesOn(
    reg: Registry, policy: Policy, before: Log, log: Log, n: nat, calls: seq<Call>, base: nat, ran: bool, answers: seq<Answer>)
    requires InStep(before, base, calls)
    requires log == before ||
             (log != [] && before == log[..|log| - 1] && (log[|log| - 1].Ran? || log[|log| - 1].Skipped?) && log[|log| - 1].n == n)
    requires ran <==> log != before && log[|log| - 1].Ran?
    ensures InStep(log, base, calls) && before <= log && Observed(reg, log) == Observed(reg, before)
    ensures RanNumbers(log) == RanNumbers(before) + if ran then [n] else []
    ensures forall m: nat :: m != n ==> SameFate(before, log, m)
  {
    assert RanNumbers(before) + [] == RanNumbers(before) && Observed(reg, before) + [] == Observed(reg, before);
    assert Begun(before) + [] == Begun(before);
    if log != before {
      var act := log[|log| - 1];
      assert log == before + [act];
      LogSnoc(reg, policy, before, act, answers);
      forall m: nat | m != n ensures SameFate(before, log, m) {
        FateSnoc(before, act, m);
      }
    }
  }

  lemma {:induction false} SameCalls(before: Log, log: Log, base: nat, calls: seq<Call>)
    requires InStep(before, base, calls) && InStep(log, base, calls) && before <= log
    ensures Begun(log) == Begun(before)
  {
    BegunGrows(before, log);
  }

  lemma {:induction false} BegunGrows(before: Log, log: Log)
    requires before <= log
    ensures Begun(before) <= Begun(log)
    decreases |log|
  {
    if |before| < |log| {
      BegunGrows(before, log[..|log| - 1]);
    } else {
      assert before == log;
    }
  }

  lemma {:induction false} NoNotes(log: Log, base: nat, executed: seq<Executed>)
    ensures log == log + NotesOf(base, executed, 0)
  {}

  predicate AllAccount(log: Log, base: nat, executed: seq<Executed>, answers: seq<Answer>, over: set<Id>) {
    forall k: nat :: k < |executed| ==> Accounts(FateOf(log, base + k), answers, executed[k], over)
  }

  lemma {:induction false} OneMoreAccounts(
    before: Log, log: Log, base: nat, executed: seq<Executed>, e: Executed, answers: seq<Answer>, over: set<Id>)
    requires AllAccount(before, base, executed, answers, over) && Accounts(FateOf(log, base + |executed|), answers, e, over)
    requires forall m: nat :: m != base + |executed| ==> SameFate(before, log, m)
    ensures AllAccount(log, base, executed + [e], answers, over)
  {
    hide Accounts, FateOf;
    forall k: nat | k < |executed + [e]| ensures Accounts(FateOf(log, base + k), answers, (executed + [e])[k], over) {
      assert k < |executed| ==> SameFate(before, log, base + k);
    }
  }

  /** The numbers of the calls among the first `n` of the step whose tool ran. */
  function AttemptedFirst(base: nat, executed: seq<Executed>, n: nat): seq<nat>
    requires n <= |executed|
  {
    if n == 0 then [] else AttemptedFirst(base, executed, n - 1) + if executed[n - 1].attempted then [base + n - 1] else []
  }

  function Attempted(base: nat, executed: seq<Executed>): seq<nat> { AttemptedFirst(base, executed, |executed|) }

  lemma NothingAttempted(base: nat, before: seq<nat>)
    ensures before + Attempted(base, []) == before
  {}

  lemma {:induction false} AttemptedStill(base: nat, executed: seq<Executed>, e: Executed, n: nat)
    requires n <= |executed|
    ensures AttemptedFirst(base, executed + [e], n) == AttemptedFirst(base, executed, n)
  {
    if n > 0 {
      AttemptedStill(base, executed, e, n - 1);
    }
  }

  lemma AttemptedSnoc(base: nat, executed: seq<Executed>, e: Executed, before: seq<nat>)
    ensures before + Attempted(base, executed + [e])
         == (before + Attempted(base, executed)) + if e.attempted then [base + |executed|] else []
  {
    AttemptedStill(base, executed, e, |executed|);
  }

  lemma {:induction false} AttemptedPrefix(base: nat, executed: seq<Executed>, n: nat, before: seq<nat>)
    requires n <= |executed|
    ensures before + AttemptedFirst(base, executed, n) <= before + Attempted(base, executed)
    decreases |executed| - n
  {
    if n < |executed| {
      AttemptedPrefix(base, executed, n + 1, before);
    }
  }

  // ----- results in the history -----

  /** What the first `n` results enter into the history. */
  function NotesOf(base: nat, executed: seq<Executed>, n: nat): seq<Act>
    requires n <= |executed|
  {
    if n == 0 then [] else NotesOf(base, executed, n - 1) + [Noted(base + n - 1, executed[n - 1].call, executed[n - 1].visible)]
  }

  lemma NextNote(log: Log, base: nat, executed: seq<Executed>, i: nat)
    requires i < |executed|
    ensures log + NotesOf(base, executed, i) + [Noted(base + i, executed[i].call, executed[i].visible)]
         == log + NotesOf(base, executed, i + 1)
  {}

  /** What the model is told about the repetition of a result's call, given the
      history before it. */
  function NoteOn(reg: Registry, log: Log, e: Executed): Option<Note> {
    NoteFor(Observed(reg, log), ObservationOf(reg, e.call, e.visible))
  }

  ghost predicate TellsNote(m: Message, note: Option<Note>) {
    m.content.Some? && m.content.value.Text? && EndsWithNote(m.content.value.text, note)
  }

  /** Each result the model sees ends with the note its call has earned. */
  ghost predicate NotesTold(reg: Registry, start: Log, base: nat, executed: seq<Executed>, results: seq<Message>) {
    && |results| <= |executed|
    && forall k :: 0 <= k < |results| ==>
         TellsNote(results[k], NoteOn(reg, start + NotesOf(base, executed, k), executed[k]))
  }

  lemma {:induction false} OneMoreTold(
    reg: Registry, start: Log, base: nat, executed: seq<Executed>, results: seq<Message>, m: Message)
    requires NotesTold(reg, start, base, executed, results) && |results| < |executed|
    requires TellsNote(m, NoteOn(reg, start + NotesOf(base, executed, |results|), executed[|results|]))
    ensures NotesTold(reg, start, base, executed, results + [m])
  {
    hide TellsNote, NoteOn, NotesOf;
  }

  /** Results touch nothing but the history. */
  lemma {:induction false} NotesKeep(log: Log, base: nat, executed: seq<Executed>, i: nat, m: nat, readings: seq<Reading>)
    requires i <= |executed|
    ensures var l := log + NotesOf(base, executed, i);
            && FateOf(l, m) == FateOf(log, m) && Begun(l) == Begun(log) && NotedCount(l) == NotedCount(log) + i
            && RanNumbers(l) == RanNumbers(log) && Stopped(l) == Stopped(log)
            && (AllRanRead(log, readings) ==> AllRanRead(l, readings))
    decreases i
  {
    hide FateOf, Begun, NotedCount, RanNumbers, Stopped, AllRanRead;
    if i == 0 {
      assert log + [] == log;
    } else {
      var before := log + NotesOf(base, executed, i - 1);
      var act := Noted(base + i - 1, executed[i - 1].call, executed[i - 1].visible);
      NotesKeep(log, base, executed, i - 1, m, readings);
      NextNote(log, base, executed, i - 1);
      NoteKeeps(before, act, m, readings);
    }
  }

  lemma {:induction false} NoteKeeps(log: Log, act: Act, m: nat, readings: seq<Reading>)
    requires act.Noted?
    ensures var l := log + [act];
            && FateOf(l, m) == FateOf(log, m) && Begun(l) == Begun(log) && NotedCount(l) == NotedCount(log) + 1
            && RanNumbers(l) == RanNumbers(log) && Stopped(l) == Stopped(log)
            && (AllRanRead(log, readings) ==> AllRanRead(l, readings))
  {
    assert (log + [act])[..|log|] == log;
    assert Begun(log) + [] == Begun(log) && RanNumbers(log) + [] == RanNumbers(log);
  }

  // ----- what a consumer learns of the results -----

  /** The first `i` results told. */
  function WithResults(before: Dealings, executed: seq<Executed>, i: nat): Dealings
    requires Awaited(before.announced, before.answered, executed) && i <= |executed|
  {
    before.(answered := before.announced[..|before.answered| + i],
            ran := before.ran + AttemptedFirst(|before.answered|, executed, i))
  }

  lemma NextResult(before: Dealings, executed: seq<Executed>, i: nat)
    requires Awaited(before.announced, before.answered, executed) && i < |executed|
    ensures WithResult(WithResults(before, executed, i), executed[i].call, executed[i].attempted) == WithResults(before, executed, i + 1)
    ensures WithResults(before, executed, i + 1).ran <= before.ran + Attempted(|before.answered|, executed)
  {
    NextAnswer(before.announced, before.answered, executed, i);
    AttemptedPrefix(|before.answered|, executed, i + 1, before.ran);
  }

  lemma NoResults(before: Dealings, executed: seq<Executed>)
    requires Awaited(before.announced, before.answered, executed)
    ensures WithResults(before, executed, 0) == before && ResultsFor(executed, []) && NoneProposes(executed, 0)
  {
    assert before.ran + [] == before.ran;
  }

  /** All the step's results told: nothing is left unanswered. */
  function AllTold(before: Dealings, executed: seq<Executed>): Dealings {
    before.(answered := before.announced, ran := before.ran + Attempted(|before.answered|, executed))
  }

  lemma AllResults(before: Dealings, executed: seq<Executed>)
    requires Awaited(before.announced, before.answered, executed)
    ensures WithResults(before, executed, |executed|) == AllTold(before, executed)
  {}
}
