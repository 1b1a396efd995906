/** How far a run's events have brought it: at work, waiting to end for a decision
    of the user, or with nothing left to say but that it is done. */
module Stages {
  import opened Wrappers
  import opened Messages
  import opened Trace

  datatype Stage =
    | Working
    | Deciding(call: Call) // a result asked for a decision, and the user is still to be told
    | Awaiting             // the user has been told, and the step's other results follow
    | Closing              // an answer or a proposal stands, and only the end follows
    | Broken

  /** Events behind which only the end may follow. */
  predicate LastWords(e: Event) { e.Answer? || (e.ToolResult? && e.proposal) }

  /** A result for which the user is told that a decision is wanted. */
  predicate AsksUser(e: Event) { e.ToolResult? && e.decision && !e.proposal }

  function NextStage(s: Stage, e: Event): Stage {
    match s
    case Working =>
      if LastWords(e) then Closing
      else if AsksUser(e) then Deciding(e.call)
      else if e.UserDecisionRequested? then Broken
      else Working
    case Deciding(call) => if e == UserDecisionRequested(call) then Awaiting else Broken
    case Awaiting => if !e.ToolResult? then Broken else if e.proposal then Closing else Awaiting
    case _ => Broken
  }

  function StageOf(events: seq<Event>): Stage {
    if events == [] then Working else NextStage(StageOf(events[..|events| - 1]), events[|events| - 1])
  }

  lemma {:induction false} StageSnoc(events: seq<Event>, e: Event)
    ensures StageOf(events + [e]) == NextStage(StageOf(events), e)
  {
    assert (events + [e])[..|events|] == events;
  }

  /** How a run may end from where it stands. */
  predicate EndsFrom(s: Stage, e: Event) {
    match s
    case Working => e.Limited? || e.Failed?
    case Awaiting => e.Failed? || (e.Done? && !e.stoppedAtLimit)
    case Closing => e.Done?
    case _ => false
  }

  /** The message says what the response does: its text, and its reasoning if it
      had any. */
  predicate Says(m: Message, content: string, reasoning: string) {
    && m.role.Assistant? && Calls(m) == [] && m.content == Some(Text(content))
    && m.reasoning == if reasoning == "" then None else Some(reasoning)
  }

  lemma {:induction false} NoAnswerYet(events: seq<Event>)
    requires StageOf(events).Working? || StageOf(events).Awaiting?
    ensures events == [] || !events[|events| - 1].Answer?
  {}

  // ----- when requests leave -----

  /** Every request left while the run was at work; `sentAt` counts the events
      yielded before each. */
  predicate SentWhileWorking(sentAt: seq<nat>, events: seq<Event>) {
    forall i :: 0 <= i < |sentAt| ==> WorkedAt(events, sentAt[i])
  }

  predicate WorkedAt(events: seq<Event>, n: nat) { n <= |events| && StageOf(events[..n]).Working? }

  lemma SentLater(sentAt: seq<nat>, events: seq<Event>, e: Event)
    requires SentWhileWorking(sentAt, events)
    ensures SentWhileWorking(sentAt, events + [e])
  {
    forall i | 0 <= i < |sentAt| ensures WorkedAt(events + [e], sentAt[i]) {
      assert WorkedAt(events, sentAt[i]);
      assert (events + [e])[..sentAt[i]] == events[..sentAt[i]];
    }
  }

  lemma {:induction false} SentNow(sentAt: seq<nat>, events: seq<Event>)
    requires SentWhileWorking(sentAt, events) && StageOf(events).Working?
    ensures SentWhileWorking(sentAt + [|events|], events)
  {
    assert events[..|events|] == events;
  }

  // ----- what the stages mean -----

  /** While the run is at work nothing has been said that it waits or ends for. */
  lemma {:induction false} WorkingIsQuiet(events: seq<Event>, k: nat)
    requires StageOf(events).Working? && k < |events|
    ensures !LastWords(events[k]) && !AsksUser(events[k]) && !events[k].UserDecisionRequested?
  {
    if k < |events| - 1 {
      WorkingIsQuiet(events[..|events| - 1], k);
    }
  }

  /** Behind an answer or a proposal nothing follows. */
  lemma {:induction false} LastWordsAreLast(events: seq<Event>, k: nat)
    requires !StageOf(events).Broken? && k < |events| && LastWords(events[k])
    ensures k == |events| - 1 && StageOf(events).Closing?
  {
    if k < |events| - 1 {
      LastWordsAreLast(events[..|events| - 1], k);
    }
  }

  /** The user is told of one decision at most, right behind the first result that
      asks for one, and only results follow. */
  lemma {:induction false} ToldOnce(events: seq<Event>, k: nat)
    requires !StageOf(events).Broken? && k < |events| && events[k].UserDecisionRequested?
    ensures StageOf(events).Awaiting? || StageOf(events).Closing?
    ensures k > 0 && AsksUser(events[k - 1]) && events[k - 1].call == events[k].call && StageOf(events[..k - 1]).Working?
    ensures forall j :: k < j < |events| ==> events[j].ToolResult?
  {
    var front := events[..|events| - 1];
    if k < |events| - 1 {
      ToldOnce(front, k);
      assert front[..k - 1] == events[..k - 1];
      assert forall j :: k < j < |front| ==> front[j] == events[j];
    } else {
      assert front[..|front| - 1] == events[..k - 1];
      AskedBefore(front);
    }
  }

  /** In a run that has ended, only results follow a decision told of, and nothing
      asked for one before. */
  lemma {:induction false} ToldThenEnded(events: seq<Event>, k: nat)
    requires events != [] && Ends(events[|events| - 1]) && EndsFrom(StageOf(events[..|events| - 1]), events[|events| - 1])
    requires k < |events| && events[k].UserDecisionRequested?
    ensures 0 < k < |events| - 1 && AsksUser(events[k - 1]) && events[k - 1].call == events[k].call
    ensures forall j :: 0 <= j < k - 1 ==> !AsksUser(events[j])
    ensures forall j :: k < j < |events| - 1 ==> events[j].ToolResult?
    ensures (events[|events| - 1].Failed? || events[|events| - 1].Done?) && !events[|events| - 2].Answer?
  {
    hide StageOf;
    var front := events[..|events| - 1];
    ToldOnce(front, k);
    forall j | 0 <= j < k - 1 ensures !AsksUser(events[j]) {
      WorkingIsQuiet(front[..k - 1], j);
    }
    assert forall j :: k < j < |front| ==> front[j] == events[j];
  }

  lemma {:induction false} AskedBefore(events: seq<Event>)
    requires StageOf(events).Deciding?
    ensures events != [] && AsksUser(events[|events| - 1]) && StageOf(events[..|events| - 1]).Working?
    ensures events[|events| - 1].call == StageOf(events).call
  {}

  /** A result that asks for a decision: the user is told of one, no later than
      right behind it. */
  lemma {:induction false} AskedIsTold(events: seq<Event>, k: nat) returns (j: nat)
    requires !StageOf(events).Broken? && !StageOf(events).Deciding? && k < |events| && AsksUser(events[k])
    ensures 0 < j <= k + 1 && j < |events| && events[j].UserDecisionRequested?
  {
    var front := events[..|events| - 1];
    if StageOf(front).Deciding? {
      j := |events| - 1;
      AskedBefore(front);
      AsksAfter(front, k);
    } else if k < |events| - 1 {
      j := AskedIsTold(front, k);
    } else {
      j := AwaitingWasTold(front);
    }
  }

  /** In front of the first result that asks, no other does. */
  lemma {:induction false} AsksAfter(events: seq<Event>, k: nat)
    requires StageOf(events).Deciding? && k < |events| && AsksUser(events[k])
    ensures k == |events| - 1
  {
    if k < |events| - 1 {
      WorkingIsQuiet(events[..|events| - 1], k);
    }
  }

  lemma {:induction false} AwaitingWasTold(events: seq<Event>) returns (j: nat)
    requires StageOf(events).Awaiting?
    ensures 0 < j < |events| && events[j].UserDecisionRequested?
  {
    var front := events[..|events| - 1];
    if StageOf(front).Awaiting? {
      j := AwaitingWasTold(front);
    } else {
      j := |events| - 1;
    }
  }
}
