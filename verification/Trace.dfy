/** What one run leaves behind: the events it yields, the requests it sends, and
    what a consumer can rebuild from them. */
module Trace {
  import opened Wrappers
  import opened Messages
  import opened Summaries
  import opened Folding
  import opened Conversation
  import opened Usage
  import opened RunBudget
  import Elision
  import Utf8

  // ----- events -----

  datatype Event =
    | Start
    | Token(text: string)
    | Reasoning(text: string)
    | UsageDelta(usage: Usage)
    | ProviderRetry(discardedContent: nat, discardedReasoning: nat)
    | ContextCompacted(elided: nat, summarized: nat)
    | ToolCall(call: Call)
    | ToolApprovalRequired(approvalId: string, callId: Option<string>)
    | ToolApprovalResolved(approvalId: string, callId: Option<string>, approved: bool)
    | ToolResult(call: Call, ran: bool, proposal: bool, decision: bool) // what the result asks of the user
    | UserDecisionRequested(call: Call)
    | Answer(message: Message)
    | Done(iterations: nat, stoppedAtLimit: bool, total: Usage)
    | Limited(iterations: nat, total: Usage)
    | Failed

  // ----- a consumer of the stream -----

  /** A text less `bytes` bytes at its end. */
  function DropEnd(s: string, bytes: int): string {
    if s == [] || bytes <= 0 then s else DropEnd(s[..|s| - 1], bytes - Utf8.CharLen(s[|s| - 1]))
  }

  lemma {:induction false} DropAppended(a: string, b: string)
    ensures DropEnd(a + b, Utf8.ByteLen(b)) == a
    decreases |b|
  {
    if b == [] {
      assert a + b == a;
    } else {
      var front, last := b[..|b| - 1], b[|b| - 1];
      Utf8.ByteLenAppend(front, [last]);
      assert b == front + [last] && Utf8.ByteLen([last]) == Utf8.CharLen(last) + Utf8.ByteLen([last][1..]);
      assert (a + b)[..|a + b| - 1] == a + front && (a + b)[|a + b| - 1] == last;
      DropAppended(a, front);
    }
  }

  datatype Display = Display(content: string, reasoning: string)

  /** Append every token; at a retry, drop what it says was discarded. */
  function Show(d: Display, e: Event): Display {
    match e
    case Token(text) => d.(content := d.content + text)
    case Reasoning(text) => d.(reasoning := d.reasoning + text)
    case ProviderRetry(c, r) => Display(DropEnd(d.content, c), DropEnd(d.reasoning, r))
    case _ => d
  }

  function Plus(d: Display, content: string, reasoning: string): Display {
    Display(d.content + content, d.reasoning + reasoning)
  }

  function Replay(events: seq<Event>): Display {
    if events == [] then Display("", "") else Show(Replay(events[..|events| - 1]), events[|events| - 1])
  }

  /** The usage deltas among the events. */
  function Usages(events: seq<Event>): seq<Usage> {
    if events == [] then []
    else
      var last := events[|events| - 1];
      Usages(events[..|events| - 1]) + if last.UsageDelta? then [last.usage] else []
  }

  /** The calls announced, and those answered, in order. */
  function Announced(events: seq<Event>): seq<Call> {
    if events == [] then []
    else
      var last := events[|events| - 1];
      Announced(events[..|events| - 1]) + if last.ToolCall? then [last.call] else []
  }

  function Answered(events: seq<Event>): seq<Call> {
    if events == [] then []
    else
      var last := events[|events| - 1];
      Answered(events[..|events| - 1]) + if last.ToolResult? then [last.call] else []
  }

  /** The places among the answered calls whose result comes from the tool itself. */
  function RanResults(events: seq<Event>): seq<nat> {
    if events == [] then []
    else
      var front, last := events[..|events| - 1], events[|events| - 1];
      RanResults(front) + if last.ToolResult? && last.ran then [|Answered(front)|] else []
  }

  /** An approval asked for, and the decision on it. */
  datatype Asking = Asking(approvalId: string, callId: Option<string>)
  datatype Ruling = Ruling(approvalId: string, callId: Option<string>, approved: bool)

  function Askings(events: seq<Event>): seq<Asking> {
    if events == [] then []
    else
      var last := events[|events| - 1];
      Askings(events[..|events| - 1]) + if last.ToolApprovalRequired? then [Asking(last.approvalId, last.callId)] else []
  }

  function Rulings(events: seq<Event>): seq<Ruling> {
    if events == [] then []
    else
      var last := events[|events| - 1];
      Rulings(events[..|events| - 1])
      + if last.ToolApprovalResolved? then [Ruling(last.approvalId, last.callId, last.approved)] else []
  }

  /** What a consumer knows of the calls. */
  datatype Dealings = Dealings(
    announced: seq<Call>, answered: seq<Call>, ran: seq<nat>, asked: seq<Asking>, rulings: seq<Ruling>)

  function Dealt(events: seq<Event>): Dealings {
    Dealings(Announced(events), Answered(events), RanResults(events), Askings(events), Rulings(events))
  }

  predicate EndsWith(events: seq<Event>, e: Event) { events != [] && events[|events| - 1] == e }

  predicate Ends(e: Event) { e.Done? || e.Limited? || e.Failed? }

  /** A decision told is on an approval asked for before. */
  predicate OnRequest(events: seq<Event>, e: Event) {
    e.ToolApprovalResolved? ==> Asking(e.approvalId, e.callId) in Askings(events)
  }

  /** A run under way: nothing has ended it, every result so far answers the
      earliest call still open, and every decision is on something asked. */
  predicate Flowing(events: seq<Event>) {
    events == []
    || var front, last := events[..|events| - 1], events[|events| - 1];
       Flowing(front) && !Ends(last) && Answered(events) <= Announced(events) && OnRequest(front, last)
  }

  lemma {:induction false} EventsSnoc(events: seq<Event>, e: Event)
    ensures Replay(events + [e]) == Show(Replay(events), e)
    ensures Usages(events + [e]) == Usages(events) + if e.UsageDelta? then [e.usage] else []
    ensures Announced(events + [e]) == Announced(events) + if e.ToolCall? then [e.call] else []
    ensures Answered(events + [e]) == Answered(events) + if e.ToolResult? then [e.call] else []
    ensures RanResults(events + [e]) == RanResults(events) + if e.ToolResult? && e.ran then [|Answered(events)|] else []
    ensures Askings(events + [e]) == Askings(events) + if e.ToolApprovalRequired? then [Asking(e.approvalId, e.callId)] else []
    ensures Rulings(events + [e]) ==
            Rulings(events) + if e.ToolApprovalResolved? then [Ruling(e.approvalId, e.callId, e.approved)] else []
    ensures Flowing(events + [e]) <==>
              Flowing(events) && !Ends(e) && Answered(events + [e]) <= Announced(events + [e]) && OnRequest(events, e)
  {
    assert (events + [e])[..|events|] == events;
  }

  /** What `commit_model_response` was told for each completed step. */
  datatype Response = Response(content: string, reasoning: string, calls: seq<Call>)

  function Contents(responses: seq<Response>): string {
    if responses == [] then "" else Contents(responses[..|responses| - 1]) + responses[|responses| - 1].content
  }

  function Reasonings(responses: seq<Response>): string {
    if responses == [] then "" else Reasonings(responses[..|responses| - 1]) + responses[|responses| - 1].reasoning
  }

  /** What the responses committed so far come to. */
  function Shown(responses: seq<Response>): Display { Display(Contents(responses), Reasonings(responses)) }

  lemma {:induction false} ResponsesSnoc(responses: seq<Response>, r: Response)
    ensures Contents(responses + [r]) == Contents(responses) + r.content
    ensures Reasonings(responses + [r]) == Reasonings(responses) + r.reasoning
    ensures Shown(responses + [r]) == Plus(Shown(responses), r.content, r.reasoning)
  {
    assert (responses + [r])[..|responses|] == responses;
  }

  // ----- requests -----

  datatype Kind =
    | StepRequest(step: nat)               // a model step, streamed
    | PrefixRequest(keep: nat, turns: nat) // a summary asked for behind the run's own prefix
    | StandaloneRequest                    // a summary of a transcript
    | WrapUpRequest(step: nat)             // the final report after a limit

  /** One request as it left: its messages, the conversation it was made from and
      the edits that led there, the text appended to ask for a summary or report,
      and what the last check of the limits before it read. */
  datatype Sent = Sent(kind: Kind, messages: seq<Message>, from: Talk, edits: seq<Edit>, text: string, reading: Reading)

  /** How a request is made from the conversation. */
  ghost predicate MadeFrom(s: Sent) {
    match s.kind
    case StepRequest(_) => s.messages == s.from.messages
    case WrapUpRequest(_) => s.messages == s.from.messages + [TextMessage(User, s.text)]
    case StandaloneRequest =>
      |s.messages| == 2 && s.messages[0].role.System? && Plain(s.messages[0]) && s.messages[1] == TextMessage(User, s.text)
    case PrefixRequest(keep, turns) =>
      var elided := Edited(s.from, Elide(keep));
      var plan := SummarySpan(elided.messages, elided.anchor, turns);
      && plan.Some? && plan.value.End() <= |elided.messages|
      && (s.messages == s.from.messages[..plan.value.End()] + [TextMessage(User, s.text)]
          || s.messages == elided.messages[..plan.value.End()] + [TextMessage(User, s.text)])
  }

  ghost predicate Sound(origin: Talk, s: Sent) {
    && MadeFrom(s)
    && AllLegal(s.edits) && s.from == EditedAll(origin, s.edits)
    && (Stops(s.reading) ==> s.kind.WrapUpRequest?)
  }

  /** The request for a final report: the run's messages, then the note. */
  lemma SoundReport(origin: Talk, edits: seq<Edit>, step: nat, text: string, reading: Reading) returns (s: Sent)
    requires AllLegal(edits)
    ensures Sound(origin, s) && s.kind == WrapUpRequest(step) && s.reading == reading
    ensures s.messages == EditedAll(origin, edits).messages + [TextMessage(User, text)]
  {
    var t := EditedAll(origin, edits);
    s := Sent(WrapUpRequest(step), t.messages + [TextMessage(User, text)], t, edits, text, reading);
  }

  ghost predicate AllSound(origin: Talk, sent: seq<Sent>) {
    forall i :: 0 <= i < |sent| ==> Sound(origin, sent[i])
  }

  lemma SoundSnoc(origin: Talk, sent: seq<Sent>, s: Sent)
    requires AllSound(origin, sent) && Sound(origin, s)
    ensures AllSound(origin, sent + [s])
  {}

  lemma {:induction false} SoundAt(origin: Talk, sent: seq<Sent>, i: nat)
    requires AllSound(origin, sent) && i < |sent|
    ensures Sound(origin, sent[i])
  {
    if i < |sent| - 1 {
      SoundAt(origin, sent[..|sent| - 1], i);
    }
  }

  /** Every request left behind one of these checks. */
  predicate AllRead(sent: seq<Sent>, readings: seq<Reading>)
    decreases |sent|
  {
    sent == [] || (sent[|sent| - 1].reading in readings && AllRead(sent[..|sent| - 1], readings))
  }

  lemma {:induction false} ReadSnoc(sent: seq<Sent>, s: Sent, readings: seq<Reading>)
    requires AllRead(sent, readings) && s.reading in readings
    ensures AllRead(sent + [s], readings)
  {
    assert (sent + [s])[..|sent|] == sent;
  }

  lemma {:induction false} ReadLater(sent: seq<Sent>, readings: seq<Reading>, later: seq<Reading>)
    requires AllRead(sent, readings) && readings <= later
    ensures AllRead(sent, later)
    decreases |sent|
  {
    if sent != [] {
      ReadLater(sent[..|sent| - 1], readings, later);
      StillThere(sent[|sent| - 1].reading, readings, later);
    }
  }

  lemma StillThere<T>(x: T, s: seq<T>, later: seq<T>)
    requires x in s && s <= later
    ensures x in later
  {
    var k :| 0 <= k < |s| && s[k] == x;
    assert later[k] == x;
  }

  lemma {:induction false} ReadAt(sent: seq<Sent>, readings: seq<Reading>, i: nat)
    requires AllRead(sent, readings) && i < |sent|
    ensures sent[i].reading in readings
    decreases |sent|
  {
    if i < |sent| - 1 {
      ReadAt(sent[..|sent| - 1], readings, i);
    }
  }

  /** How many requests of each sort have left. */
  datatype Tally = Tally(streams: nat, summaries: nat, reports: nat)

  /** At most so many more of each. */
  predicate Within(t: Tally, u: Tally, streams: nat, summaries: nat, reports: nat) {
    && t.streams <= u.streams <= t.streams + streams
    && t.summaries <= u.summaries <= t.summaries + summaries
    && t.reports <= u.reports <= t.reports + reports
  }

  /** `n` more requests of one kind. */
  function Counted(t: Tally, kind: Kind, n: nat): Tally {
    match kind
    case StepRequest(_) => t.(streams := t.streams + n)
    case WrapUpRequest(_) => t.(reports := t.reports + n)
    case _ => t.(summaries := t.summaries + n)
  }

  function TallyOf(sent: seq<Sent>): Tally {
    if sent == [] then Tally(0, 0, 0) else Counted(TallyOf(sent[..|sent| - 1]), sent[|sent| - 1].kind, 1)
  }

  lemma {:induction false} TallySnoc(sent: seq<Sent>, s: Sent)
    ensures TallyOf(sent + [s]) == Counted(TallyOf(sent), s.kind, 1)
  {
    assert (sent + [s])[..|sent|] == sent;
  }

  lemma {:induction false} TallyIsComplete(sent: seq<Sent>)
    ensures |sent| == TallyOf(sent).streams + TallyOf(sent).summaries + TallyOf(sent).reports
  {
    if sent != [] {
      TallyIsComplete(sent[..|sent| - 1]);
    }
  }

  /** One request on the ledger. */
  datatype Commit = Commit(step: nat, messages: seq<Message>)

  predicate NeedsCommit(kind: Kind) { kind.StepRequest? || kind.WrapUpRequest? }

  /** Model steps and final reports left exactly as the ledger has them. */
  predicate AllCommitted(ledger: seq<Commit>, sent: seq<Sent>) {
    forall i :: 0 <= i < |sent| && NeedsCommit(sent[i].kind) ==> Commit(sent[i].kind.step, sent[i].messages) in ledger
  }

  // ----- what holds of every request -----

  lemma ShapesPair(ms: seq<Message>, ns: seq<Message>, i: nat)
    requires SameShapes(ms, ns) && i <= |ms| && Paired(ns) && Boundary(ns, i)
    ensures Paired(ms[..i])
  {
    PairedCut(ns, i);
    forall k | 0 <= k < i ensures SameShape(ms[..i][k], ns[..i][k]) {
      assert SameShape(ms[k], ns[k]);
    }
    SameShapesPair([], ms[..i], ns[..i]);
  }

  lemma PrefixIsPaired(s: Sent)
    requires s.kind.PrefixRequest? && MadeFrom(s) && Paired(s.from.messages)
    ensures Paired(s.messages)
  {
    var elided := Edited(s.from, Elide(s.kind.keep));
    Elision.ElisionKeepsShapes(s.from.messages, s.kind.keep);
    SpanCutsAtBoundaries(elided.messages, elided.anchor, s.kind.turns);
    var end := SummarySpan(elided.messages, elided.anchor, s.kind.turns).value.End();
    ShapesPair(s.from.messages, elided.messages, end);
    PairedCut(elided.messages, end);
    AskedBehind(s.from.messages[..end], s.text);
    AskedBehind(elided.messages[..end], s.text);
  }

  lemma AskedBehind(ms: seq<Message>, text: string)
    requires Paired(ms)
    ensures Paired(ms + [TextMessage(User, text)])
  {
    PlainIsPaired([TextMessage(User, text)]);
    PairedAppend(ms, [TextMessage(User, text)]);
  }

  lemma SourceIsPaired(origin: Talk, s: Sent)
    requires Sound(origin, s) && Paired(origin.messages)
    ensures Paired(s.from.messages) && MadeFrom(s)
  {
    EditsKeepTheTalk(origin, s.edits, TextMessage(User, ""));
  }

  /** Every request answers every call in place, if the run's start did. */
  lemma RequestIsPaired(origin: Talk, s: Sent)
    requires Sound(origin, s) && Paired(origin.messages)
    ensures Paired(s.messages)
  {
    SourceIsPaired(origin, s);
    if s.kind.PrefixRequest? {
      PrefixIsPaired(s);
    } else if s.kind.StandaloneRequest? {
      PlainIsPaired(s.messages);
    } else {
      AskedBehind(s.from.messages, s.text);
    }
  }

  /** Every step and wrap-up request still holds the user request that started
      the run, unchanged, where the anchor points; and no request of either kind
      carries two summaries. */
  lemma RequestHoldsOrigin(origin: Talk, s: Sent, request: Message)
    requires Sound(origin, s) && (s.kind.StepRequest? || s.kind.WrapUpRequest?)
    ensures Anchored(origin, request) ==> Anchored(Talk(s.messages, s.from.anchor), request)
    ensures SummariesDoNotStack(origin.messages) ==> SummariesDoNotStack(s.from.messages)
    ensures s.from.messages <= s.messages
  {
    EditsKeepTheTalk(origin, s.edits, request);
  }
}
