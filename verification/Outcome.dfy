/** One run's events collected into an outcome (`run_agent_with_config`). */
module Outcome {
  import opened Wrappers
  import opened Messages
  import opened Trace
  import opened Marks

  datatype ToolStep = ToolStep(name: string, arguments: string)

  datatype Collected =
    | Finished(answer: Option<Message>, steps: seq<ToolStep>, iterations: nat, stoppedAtLimit: bool)
    | LimitReached(steps: seq<ToolStep>, iterations: nat)
    | RunFailed
    | NoEnd // the loop ended without a terminal event

  /** Every result paired with the arguments of the call it answers. */
  function StepsOf(calls: seq<Call>): (r: seq<ToolStep>)
    ensures |r| == |calls| && forall k :: 0 <= k < |calls| ==> r[k] == ToolStep(calls[k].name, calls[k].arguments)
  {
    seq(|calls|, k requires 0 <= k < |calls| => ToolStep(calls[k].name, calls[k].arguments))
  }

  function ArgumentsOf(calls: seq<Call>): (r: seq<string>)
    ensures |r| == |calls| && forall k :: 0 <= k < |calls| ==> r[k] == calls[k].arguments
  {
    seq(|calls|, k requires 0 <= k < |calls| => calls[k].arguments)
  }

  /** The queue of arguments announced but not answered yet. */
  function Waiting(events: seq<Event>): seq<string> {
    if |Answered(events)| <= |Announced(events)| then ArgumentsOf(Announced(events)[|Answered(events)|..]) else []
  }

  lemma {:induction false} FlowingStep(events: seq<Event>, e: Event)
    requires Flowing(events) && Flowing(events + [e])
    ensures !Ends(e)
    ensures e.ToolCall? ==>
              Waiting(events + [e]) == Waiting(events) + [e.call.arguments] && Answered(events + [e]) == Answered(events)
    ensures e.ToolResult? ==>
              && Waiting(events) != [] && Waiting(events + [e]) == Waiting(events)[1..]
              && Waiting(events)[0] == e.call.arguments && Answered(events + [e]) == Answered(events) + [e.call]
    ensures !e.ToolCall? && !e.ToolResult? ==>
              Waiting(events + [e]) == Waiting(events) && Answered(events + [e]) == Answered(events)
  {
    EventsSnoc(events, e);
    assert Answered(events + [e]) == Answered(events) + if e.ToolResult? then [e.call] else [];
    assert Announced(events + [e]) == Announced(events) + if e.ToolCall? then [e.call] else [];
    var open := Announced(events)[|Answered(events)|..];
    if e.ToolCall? {
      assert Announced(events + [e])[|Answered(events)|..] == open + [e.call];
    } else if e.ToolResult? {
      assert Announced(events + [e]) == Announced(events);
      assert (Answered(events) + [e.call])[|Answered(events)|] == e.call;
      assert Announced(events)[|Answered(events)| + 1..] == open[1..];
    }
  }

  lemma StepsSnoc(calls: seq<Call>, call: Call)
    ensures StepsOf(calls + [call]) == StepsOf(calls) + [ToolStep(call.name, call.arguments)]
  {}

  lemma {:induction false} FlowingPrefix(events: seq<Event>, i: nat)
    requires Flowing(events) && i <= |events|
    ensures Flowing(events[..i])
  {
    if i < |events| {
      FlowingPrefix(events[..|events| - 1], i);
      assert events[..|events| - 1][..i] == events[..i];
    } else {
      assert events[..i] == events;
    }
  }

  /** What has been collected from the events so far. */
  predicate Holds(events: seq<Event>, steps: seq<ToolStep>, waiting: seq<string>) {
    Flowing(events) && steps == StepsOf(Answered(events)) && waiting == Waiting(events)
  }

  lemma {:induction false} HoldsOneMore(events: seq<Event>, e: Event, steps: seq<ToolStep>, waiting: seq<string>)
    requires Holds(events, steps, waiting) && Flowing(events + [e])
    ensures !Ends(e)
    ensures e.ToolCall? ==> Holds(events + [e], steps, waiting + [e.call.arguments])
    ensures e.ToolResult? ==>
              waiting != [] && Holds(events + [e], steps + [ToolStep(e.call.name, waiting[0])], waiting[1..])
    ensures !e.ToolCall? && !e.ToolResult? ==> Holds(events + [e], steps, waiting)
  {
    FlowingStep(events, e);
    if e.ToolResult? {
      StepsSnoc(Answered(events), e.call);
    }
  }

  /** The first `i + 1` events of a finished run are still under way, unless that
      is all of them. */
  lemma {:induction false} NextFlows(events: seq<Event>, i: nat)
    requires Closed(events) && i < |events|
    ensures events[..i + 1] == events[..i] + [events[i]]
    ensures i < |events| - 1 ==> Flowing(events[..i] + [events[i]])
    ensures i == |events| - 1 ==> Ends(events[i]) && Answered(events) == Answered(events[..i])
  {
    TakeOneMore(events, i);
    if i < |events| - 1 {
      NextStillFlows(events, i);
    } else {
      EndAnswersNothing(events[..i], events[i]);
      TakeAll(events);
    }
  }

  lemma NextStillFlows(events: seq<Event>, i: nat)
    requires i < |events| - 1 && Flowing(events[..|events| - 1])
    ensures Flowing(events[..i] + [events[i]])
  {
    FlowingPrefix(events[..|events| - 1], i + 1);
    TakeTwice(events, |events| - 1, i + 1);
    TakeOneMore(events, i);
  }

  lemma {:induction false} EndAnswersNothing(events: seq<Event>, e: Event)
    requires Ends(e)
    ensures Answered(events + [e]) == Answered(events)
  {
    EventsSnoc(events, e);
    assert Answered(events + [e]) == Answered(events) + [];
  }

  /** The last answer among the events, if there is one. */
  function LastAnswer(events: seq<Event>): Option<Message> {
    if events == [] then None
    else if events[|events| - 1].Answer? then Some(events[|events| - 1].message)
    else LastAnswer(events[..|events| - 1])
  }

  lemma LastAnswerSnoc(events: seq<Event>, i: nat)
    requires i < |events|
    ensures LastAnswer(events[..i + 1]) == if events[i].Answer? then Some(events[i].message) else LastAnswer(events[..i])
  {
    assert events[..i + 1][..i] == events[..i];
  }

  lemma TakeOneMore<T>(s: seq<T>, i: nat)
    requires i < |s|
    ensures s[..i + 1] == s[..i] + [s[i]]
  {}

  lemma TakeTwice<T>(s: seq<T>, n: nat, i: nat)
    requires i <= n <= |s|
    ensures s[..n][..i] == s[..i]
  {}

  lemma TakeAll<T>(s: seq<T>)
    ensures s[..|s|] == s
  {}

  /** Of a finished run every tool step carries the arguments of its own call, in
      call order, whatever calls share a step; and the end is always found. */
  method Collect(events: seq<Event>) returns (c: Collected)
    ensures Closed(events) ==> !c.NoEnd?
    ensures Closed(events) ==> (c.RunFailed? <==> events[|events| - 1].Failed?)
    ensures Closed(events) && (c.Finished? || c.LimitReached?) ==> c.steps == StepsOf(Answered(events))
    ensures Closed(events) && c.Finished? ==>
              var end := events[|events| - 1];
              end.Done? && c.iterations == end.iterations && c.stoppedAtLimit == end.stoppedAtLimit
    ensures Closed(events) && c.LimitReached? ==>
              events[|events| - 1].Limited? && c.iterations == events[|events| - 1].iterations
    ensures Closed(events) && c.Finished? ==> c.answer == LastAnswer(events)
  {
    var steps: seq<ToolStep>, waiting: seq<string>, answer: Option<Message> := [], [], None;
    for i := 0 to |events|
      invariant Closed(events) ==> i < |events| && Holds(events[..i], steps, waiting)
      invariant answer == LastAnswer(events[..i])
    {
      LastAnswerSnoc(events, i);
      if Closed(events) {
        NextFlows(events, i);
        if i < |events| - 1 {
          HoldsOneMore(events[..i], events[i], steps, waiting);
        }
      }
      match events[i] {
        case ToolCall(call) => waiting := waiting + [call.arguments];
        case ToolResult(call, _, _, _) =>
          steps := steps + [ToolStep(call.name, if waiting != [] then waiting[0] else "")];
          waiting := if waiting != [] then waiting[1..] else [];
        case Done(iterations, stoppedAtLimit, _) => return Collected.Finished(answer, steps, iterations, stoppedAtLimit);
        case Answer(message) => answer := Some(message);
        case Limited(iterations, _) => return LimitReached(steps, iterations);
        case Failed => return RunFailed;
        case _ =>
      }
    }
    c := NoEnd;
  }
}
