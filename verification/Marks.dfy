/** What the provider streams, the response a finished stream amounts to, and the
    marks a run leaves behind each committed response. */
module Marks {
  import opened Wrappers
  import opened Messages
  import opened Trace
  import opened Usage
  import opened Retry
  import opened Stages

  // ----- streams -----

  datatype StreamEvent = Delta(content: Option<string>, reasoning: Option<string>) | Finished(usage: Usage, finishReason: string)

  /** What one streamed request brings: its events, the calls its deltas spell,
      and the failure that broke it off, if any. */
  datatype Stream = Stream(events: seq<StreamEvent>, calls: seq<Call>, failure: Option<Failure>)

  predicate FinishesOnce(events: seq<StreamEvent>) {
    forall i, j :: 0 <= i < j < |events| ==> !(events[i].Finished? && events[j].Finished?)
  }

  /** All the text of a stream, delta by delta. */
  function ContentOf(events: seq<StreamEvent>): string {
    if events == [] then ""
    else
      var last := events[|events| - 1];
      ContentOf(events[..|events| - 1]) + if last.Delta? && last.content.Some? then last.content.value else ""
  }

  function ReasoningOf(events: seq<StreamEvent>): string {
    if events == [] then ""
    else
      var last := events[|events| - 1];
      ReasoningOf(events[..|events| - 1]) + if last.Delta? && last.reasoning.Some? then last.reasoning.value else ""
  }

  /** The event that tells a stream's usage, if it came. */
  function FinishOf(events: seq<StreamEvent>): (r: Option<StreamEvent>)
    ensures r.Some? ==> r.value.Finished? && r.value in events
    ensures r.None? ==> forall i :: 0 <= i < |events| ==> !events[i].Finished?
  {
    if events == [] then None
    else if events[|events| - 1].Finished? then Some(events[|events| - 1])
    else FinishOf(events[..|events| - 1])
  }

  lemma {:induction false} StreamSnoc(events: seq<StreamEvent>, e: StreamEvent)
    ensures ContentOf(events + [e]) == ContentOf(events) + if e.Delta? && e.content.Some? then e.content.value else ""
    ensures ReasoningOf(events + [e]) == ReasoningOf(events) + if e.Delta? && e.reasoning.Some? then e.reasoning.value else ""
    ensures FinishOf(events + [e]) == if e.Finished? then Some(e) else FinishOf(events)
  {
    assert (events + [e])[..|events|] == events;
  }

  /** A stream that came to its end. */
  predicate Complete(s: Stream) { s.failure.None? && FinishOf(s.events).Some? }

  function FinishReason(s: Stream): string { if FinishOf(s.events).Some? then FinishOf(s.events).value.finishReason else "" }

  function ResponseOf(s: Stream): Response { Response(ContentOf(s.events), ReasoningOf(s.events), s.calls) }

  // ----- marks -----

  /** The run right behind a committed response: the events yielded until then, the
      stream the response comes from, and what the budget has recorded. */
  datatype Mark = Mark(events: seq<Event>, stream: Stream, recorded: seq<Usage>)

  function Responses(marks: seq<Mark>): seq<Response> {
    if marks == [] then [] else Responses(marks[..|marks| - 1]) + [ResponseOf(marks[|marks| - 1].stream)]
  }

  /** The text committed so far. */
  function Committed(marks: seq<Mark>): Display { Shown(Responses(marks)) }

  /** At the last mark a consumer holds exactly the committed text, and the budget
      has recorded exactly the usage it was told of. */
  predicate Agrees(marks: seq<Mark>)
    requires marks != []
  {
    var m := marks[|marks| - 1];
    Complete(m.stream) && Replay(m.events) == Committed(marks) && m.recorded == Usages(m.events)
  }

  /** Every mark agrees, and each lies on the way to the next and to `events`. */
  predicate Marked(marks: seq<Mark>, events: seq<Event>)
    decreases |marks|
  {
    marks == []
    || (marks[|marks| - 1].events <= events && Agrees(marks)
        && Marked(marks[..|marks| - 1], marks[|marks| - 1].events))
  }

  lemma {:induction false} CommittedSnoc(marks: seq<Mark>, m: Mark)
    ensures Responses(marks + [m]) == Responses(marks) + [ResponseOf(m.stream)]
    ensures Committed(marks + [m]) == Plus(Committed(marks), ContentOf(m.stream.events), ReasoningOf(m.stream.events))
  {
    assert (marks + [m])[..|marks|] == marks;
    ResponsesSnoc(Responses(marks), ResponseOf(m.stream));
  }

  lemma {:induction false} MarkedLater(marks: seq<Mark>, events: seq<Event>, e: Event)
    requires Marked(marks, events)
    ensures Marked(marks, events + [e])
  {
    if marks != [] {
      assert marks[|marks| - 1].events <= events + [e];
    }
  }

  lemma {:induction false} MarkedSnoc(marks: seq<Mark>, events: seq<Event>, stream: Stream, recorded: seq<Usage>)
    requires Marked(marks, events) && Complete(stream) && recorded == Usages(events)
    requires Replay(events) == Plus(Committed(marks), ContentOf(stream.events), ReasoningOf(stream.events))
    ensures Marked(marks + [Mark(events, stream, recorded)], events)
  {
    var m := Mark(events, stream, recorded);
    CommittedSnoc(marks, m);
    assert (marks + [m])[..|marks|] == marks;
  }

  lemma {:induction false} MarkedAt(marks: seq<Mark>, events: seq<Event>, i: nat)
    requires Marked(marks, events) && i < |marks|
    ensures Agrees(marks[..i + 1]) && marks[i].events <= events
    ensures i + 1 < |marks| ==> marks[i].events <= marks[i + 1].events
    decreases |marks|
  {
    hide Agrees;
    var before := marks[..|marks| - 1];
    if i < |marks| - 1 {
      MarkedAt(before, marks[|marks| - 1].events, i);
      assert before[..i + 1] == marks[..i + 1];
    } else {
      assert marks[..i + 1] == marks;
    }
  }

  lemma {:induction false} ResponseAt(marks: seq<Mark>, i: nat)
    requires i < |marks|
    ensures |Responses(marks)| == |marks| && Responses(marks)[i] == ResponseOf(marks[i].stream)
    ensures Responses(marks[..i + 1]) == Responses(marks)[..i + 1]
  {
    var before := marks[..|marks| - 1];
    ResponsesLength(before);
    if i < |marks| - 1 {
      ResponseAt(before, i);
      assert before[..i + 1] == marks[..i + 1];
      assert Responses(marks)[..i + 1] == Responses(before)[..i + 1];
    } else {
      assert marks[..i + 1] == marks && Responses(marks)[..i + 1] == Responses(marks);
    }
  }

  lemma {:induction false} ResponsesLength(marks: seq<Mark>)
    ensures |Responses(marks)| == |marks|
  {
    if marks != [] {
      ResponsesLength(marks[..|marks| - 1]);
    }
  }

  /** Every mark stands behind one of the streams. */
  predicate Streamed(marks: seq<Mark>, streams: seq<Stream>)
    decreases |marks|
  {
    marks == [] || (marks[|marks| - 1].stream in streams && Streamed(marks[..|marks| - 1], streams))
  }

  /** The responses are exactly the marked ones, each from one of the streams. */
  predicate Held(marks: seq<Mark>, responses: seq<Response>, streams: seq<Stream>) {
    responses == Responses(marks) && Streamed(marks, streams)
  }

  lemma {:induction false} HeldLater(marks: seq<Mark>, responses: seq<Response>, streams: seq<Stream>, later: seq<Stream>)
    requires Held(marks, responses, streams) && streams <= later
    ensures Held(marks, responses, later)
    decreases |marks|
  {
    if marks != [] {
      var front, last := marks[..|marks| - 1], marks[|marks| - 1];
      HeldLater(front, Responses(front), streams, later);
      var k :| 0 <= k < |streams| && streams[k] == last.stream;
      assert later[k] == last.stream;
    }
  }

  lemma HeldSnoc(marks: seq<Mark>, m: Mark, responses: seq<Response>, streams: seq<Stream>)
    requires Held(marks, responses, streams) && m.stream in streams
    ensures Held(marks + [m], responses + [ResponseOf(m.stream)], streams)
  {
    CommittedSnoc(marks, m);
    assert (marks + [m])[..|marks|] == marks;
  }

  lemma {:induction false} StreamedAt(marks: seq<Mark>, streams: seq<Stream>, i: nat)
    requires Streamed(marks, streams) && i < |marks|
    ensures marks[i].stream in streams
    decreases |marks|
  {
    if i < |marks| - 1 {
      StreamedAt(marks[..|marks| - 1], streams, i);
    }
  }

  // ----- how a run ends -----

  /** The terminal event reports `steps` completed steps, or one more when the last
      is a final report. */
  predicate Counts(e: Event, steps: nat) {
    match e
    case Done(iterations, atLimit, _) => iterations == steps || (atLimit && iterations == steps + 1)
    case Limited(iterations, _) => iterations == steps
    case _ => true
  }

  /** A finished run: its last event is the one that ends it, and that one reports
      all the usage told of. */
  predicate Closed(events: seq<Event>) {
    && events != [] && Flowing(events[..|events| - 1])
    && var last := events[|events| - 1];
    && Ends(last) && (last.Done? || last.Limited? ==> last.total == Total(Usages(events)))
  }

  /** What stands right before the end: an answer says what the response committed
      last does, or is a report; and only behind an answer is it a report's end. */
  predicate AnswerStands(events: seq<Event>, e: Event, marks: seq<Mark>) {
    if events != [] && events[|events| - 1].Answer? then
      e.Done? && (e.stoppedAtLimit || SaysLast(events[|events| - 1].message, marks))
    else e.Done? ==> !e.stoppedAtLimit
  }

  predicate SaysLast(m: Message, marks: seq<Mark>) {
    && marks != []
    && var r := ResponseOf(marks[|marks| - 1].stream);
    && r.calls == [] && Says(m, r.content, r.reasoning)
  }

  lemma {:induction false} ConcludedBy(events: seq<Event>, marks: seq<Mark>, e: Event, steps: nat)
    requires Flowing(events) && Marked(marks, events) && Ends(e) && Counts(e, steps)
    requires EndsFrom(StageOf(events), e) && AnswerStands(events, e, marks)
    requires !e.Failed? ==> e.total == Total(Usages(events)) && Replay(events) == Committed(marks)
    ensures Concluded(events + [e], marks, steps)
    ensures Dealt(events + [e]) == Dealt(events)
  {
    EventsSnoc(events, e);
    MarkedLater(marks, events, e);
    assert (events + [e])[..|events|] == events;
    assert Usages(events) + [] == Usages(events) && RanResults(events) + [] == RanResults(events);
    assert Announced(events) + [] == Announced(events) && Answered(events) + [] == Answered(events);
    assert Askings(events) + [] == Askings(events) && Rulings(events) + [] == Rulings(events);
  }

  /** A run that ended after `steps` completed steps, as it may from where it stood.
      Unless it failed, a consumer is left with exactly the committed text. */
  predicate Concluded(events: seq<Event>, marks: seq<Mark>, steps: nat) {
    && Closed(events) && Marked(marks, events)
    && var last := events[|events| - 1];
    && Counts(last, steps) && (last.Failed? || Replay(events) == Committed(marks))
    && EndsFrom(StageOf(events[..|events| - 1]), last) && AnswerStands(events[..|events| - 1], last, marks)
  }
}
