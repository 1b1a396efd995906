/** Why a run took another step behind each of its completed ones, and how often
    it can without the model calling any tool. */
module Turns {
  import opened Messages
  import opened Marks
  import opened ModelStep
  import opened ToolLog
  import opened RepeatTracker
  import opened Wrappers
  import CanonicalJson
  import Strings

  const MAX_LENGTH_RECOVERIES: nat := 2
  const MAX_STOP_CONTINUATIONS: nat := 3

  /** `normalize_finish_reason`: the provider's ways of saying `length`. */
  function NormalizeFinishReason(reason: string): string {
    if reason in ["max_tokens", "max_output_tokens", "MAX_TOKENS"] then "length" else reason
  }

  predicate Truncated(reply: Reply) { NormalizeFinishReason(reply.finishReason) == "length" }

  /** A reply was cut off exactly when the provider gives one of its four reasons. */
  lemma TruncatedIff(reply: Reply)
    ensures Truncated(reply) <==> reply.finishReason in {"length", "max_tokens", "max_output_tokens", "MAX_TOKENS"}
  {}

  /** Cut off at the output limit, in the middle of some call's arguments. */
  predicate Unparseable(reg: Registry, reply: Reply) {
    Truncated(reply) && exists k :: 0 <= k < |reply.calls| && Key(reg, reply.calls[k]).arguments.Err?
  }

  /** That is so exactly when the provider cut the reply off and the arguments of some
      call are neither blank nor JSON. */
  lemma UnparseableIff(reg: Registry, parse: string -> Option<CanonicalJson.Json>, reply: Reply)
    requires Keyed(reg, parse)
    ensures Unparseable(reg, reply) <==>
              && Truncated(reply)
              && exists k :: 0 <= k < |reply.calls| && IsNoJson(parse, reply.calls[k].arguments)
  {
    forall k | 0 <= k < |reply.calls|
      ensures Key(reg, reply.calls[k]).arguments.Err? <==> IsNoJson(parse, reply.calls[k].arguments)
    {
      assert reg.key(reply.calls[k]) == KeyOf(parse, reply.calls[k].name, reply.calls[k].arguments);
      Strings.TrimsAwayIff(reply.calls[k].arguments, Strings.IsRustSpace);
    }
  }

  /** The text has a character that is no space, and does not parse. */
  predicate IsNoJson(parse: string -> Option<CanonicalJson.Json>, text: string) {
    (exists i :: 0 <= i < |text| && !Strings.IsRustSpace(text[i])) && parse(text).None?
  }

  /** What made the loop take another step. */
  datatype Turn =
    | Calls                    // every call of the step was answered
    | CutCalls(noted: bool)    // and some call was cut off; `noted` asks the model to go on
    | CutAnswer                // the answer was cut off, and the model is asked to go on
    | StopFeedback             // the stop hook asks for more

  /** Recoveries from a cut-off since the last step whose calls were all whole. */
  function Recoveries(turns: seq<Turn>): nat {
    if turns == [] then 0
    else
      var before := Recoveries(turns[..|turns| - 1]);
      match turns[|turns| - 1]
      case Calls => 0
      case CutCalls(noted) => if noted then before + 1 else before
      case CutAnswer => before + 1
      case StopFeedback => before
  }

  function Continuations(turns: seq<Turn>): nat {
    if turns == [] then 0
    else Continuations(turns[..|turns| - 1]) + if turns[|turns| - 1].StopFeedback? then 1 else 0
  }

  /** The turn a reply takes when the run goes on behind it. */
  predicate TurnFor(reg: Registry, policy: Policy, before: seq<Turn>, t: Turn, reply: Reply) {
    match t
    case Calls => reply.calls != [] && !Unparseable(reg, reply)
    case CutCalls(noted) => reply.calls != [] && Unparseable(reg, reply) && noted == (Recoveries(before) < MAX_LENGTH_RECOVERIES)
    case CutAnswer => reply.calls == [] && Truncated(reply) && Recoveries(before) < MAX_LENGTH_RECOVERIES
    case StopFeedback =>
      && reply.calls == [] && policy.hooked && Continuations(before) < MAX_STOP_CONTINUATIONS
      && (Truncated(reply) ==> Recoveries(before) >= MAX_LENGTH_RECOVERIES)
  }

  /** One turn for each of the first committed replies. */
  predicate Taken(reg: Registry, policy: Policy, turns: seq<Turn>, marks: seq<Mark>)
    decreases |turns|
  {
    var n := |turns| - 1;
    turns == []
    || (n < |marks| && TurnFor(reg, policy, turns[..n], turns[n], ReplyOf(marks[n].stream)) && Taken(reg, policy, turns[..n], marks))
  }

  /** The calls, as announced, of the first `n` committed replies, in order. */
  function CarriedCalls(reg: Registry, marks: seq<Mark>, n: nat): seq<Call>
    requires n <= |marks|
  {
    if n == 0 then [] else CarriedCalls(reg, marks, n - 1) + AllProxied(reg, marks[n - 1].stream.calls)
  }

  lemma {:induction false} CarriedStill(reg: Registry, marks: seq<Mark>, later: seq<Mark>, n: nat)
    requires n <= |marks| && marks <= later
    ensures CarriedCalls(reg, later, n) == CarriedCalls(reg, marks, n)
  {
    if n > 0 {
      CarriedStill(reg, marks, later, n - 1);
    }
  }

  lemma CarriedOne(reg: Registry, marks: seq<Mark>, n: nat, reply: Reply)
    requires n < |marks| && reply == ReplyOf(marks[n].stream)
    ensures CarriedCalls(reg, marks, n + 1) == CarriedCalls(reg, marks, n) + AllProxied(reg, reply.calls)
  {}

  lemma CarriedNone(reg: Registry, marks: seq<Mark>, n: nat)
    requires n < |marks| && marks[n].stream.calls == []
    ensures CarriedCalls(reg, marks, n + 1) == CarriedCalls(reg, marks, n)
  {}

  lemma {:induction false} TurnsSnoc(reg: Registry, policy: Policy, turns: seq<Turn>, t: Turn, marks: seq<Mark>)
    ensures var r := Recoveries(turns);
            Recoveries(turns + [t]) == if t.Calls? then 0 else if t.CutAnswer? || (t.CutCalls? && t.noted) then r + 1 else r
    ensures Continuations(turns + [t]) == Continuations(turns) + if t.StopFeedback? then 1 else 0
    ensures |turns| < |marks| && Taken(reg, policy, turns, marks) && TurnFor(reg, policy, turns, t, ReplyOf(marks[|turns|].stream))
            ==> Taken(reg, policy, turns + [t], marks)
  {
    assert (turns + [t])[..|turns|] == turns;
  }

  lemma {:induction false} TakenStill(reg: Registry, policy: Policy, turns: seq<Turn>, marks: seq<Mark>, later: seq<Mark>)
    requires Taken(reg, policy, turns, marks) && marks <= later
    ensures Taken(reg, policy, turns, later)
    decreases |turns|
  {
    if turns != [] {
      TakenStill(reg, policy, turns[..|turns| - 1], marks, later);
    }
  }

  // ----- how far it goes -----

  lemma {:induction false} TakenFirst(reg: Registry, policy: Policy, turns: seq<Turn>, marks: seq<Mark>, i: nat)
    requires Taken(reg, policy, turns, marks) && i <= |turns|
    ensures Taken(reg, policy, turns[..i], marks)
    ensures i < |turns| ==> i < |marks| && TurnFor(reg, policy, turns[..i], turns[i], ReplyOf(marks[i].stream))
    decreases |turns|
  {
    var n := |turns| - 1;
    if i < n {
      TakenFirst(reg, policy, turns[..n], marks, i);
      assert turns[..n][..i] == turns[..i] && turns[..n][i] == turns[i];
    } else if i > n {
      assert turns[..i] == turns;
    }
  }

  /** At any point: at most two recoveries in a row, and three continuations in all. */
  lemma {:induction false} TurnsAreBounded(reg: Registry, policy: Policy, turns: seq<Turn>, marks: seq<Mark>)
    requires Taken(reg, policy, turns, marks)
    ensures Recoveries(turns) <= MAX_LENGTH_RECOVERIES && Continuations(turns) <= MAX_STOP_CONTINUATIONS
    decreases |turns|
  {
    if turns != [] {
      TurnsAreBounded(reg, policy, turns[..|turns| - 1], marks);
    }
  }

  /** The steps among the first `n` that made no call and were not cut off. */
  function WholeAnswers(marks: seq<Mark>, n: nat): nat
    requires n <= |marks|
  {
    if n == 0 then 0
    else
      var reply := ReplyOf(marks[n - 1].stream);
      WholeAnswers(marks, n - 1) + if reply.calls == [] && !Truncated(reply) then 1 else 0
  }

  /** Another step follows a whole answer at most three times in a run, and never
      without a stop hook. */
  lemma {:induction false} WholeAnswersGoOn(reg: Registry, policy: Policy, turns: seq<Turn>, marks: seq<Mark>)
    requires Taken(reg, policy, turns, marks)
    ensures |turns| <= |marks| && WholeAnswers(marks, |turns|) <= Continuations(turns) <= MAX_STOP_CONTINUATIONS
    ensures !policy.hooked ==> Continuations(turns) == 0
    decreases |turns|
  {
    if turns != [] {
      WholeAnswersGoOn(reg, policy, turns[..|turns| - 1], marks);
    }
  }

  /** Steps on end that make no call and still go on: at most five, or two without
      a stop hook. */
  lemma {:induction false} CallLessSteps(reg: Registry, policy: Policy, turns: seq<Turn>, marks: seq<Mark>, i: nat, j: nat)
    requires Taken(reg, policy, turns, marks) && i <= j <= |turns| <= |marks|
    requires forall k :: i <= k < j ==> marks[k].stream.calls == []
    ensures j - i <= MAX_LENGTH_RECOVERIES + if policy.hooked then MAX_STOP_CONTINUATIONS else 0
  {
    CallLessStepsCount(reg, policy, turns, marks, i, j);
    TakenFirst(reg, policy, turns, marks, j);
    TurnsAreBounded(reg, policy, turns[..j], marks);
    WholeAnswersGoOn(reg, policy, turns[..j], marks);
  }

  lemma {:induction false} CallLessStepsCount(reg: Registry, policy: Policy, turns: seq<Turn>, marks: seq<Mark>, i: nat, j: nat)
    requires Taken(reg, policy, turns, marks) && i <= j <= |turns| <= |marks|
    requires forall k :: i <= k < j ==> marks[k].stream.calls == []
    ensures j - i <= Recoveries(turns[..j]) + Continuations(turns[..j])
  {
    if i < j {
      CallLessStepsCount(reg, policy, turns, marks, i, j - 1);
      TakenFirst(reg, policy, turns, marks, j - 1);
      assert turns[..j] == turns[..j - 1] + [turns[j - 1]];
      TurnsSnoc(reg, policy, turns[..j - 1], turns[j - 1], marks);
    }
  }
}
