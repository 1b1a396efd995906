/** One model step: compacting, committing and streaming a request, retrying what
    may be retried, and recovering once from a prompt that is too long (the
    `'request` loop of `agent_loop`). */
module ModelStep {
  import opened Wrappers
  import opened Messages
  import opened Conversation
  import opened Trace
  import opened Usage
  import opened Retry
  import opened RunBudget
  import opened Window
  import opened Marks
  import opened Stages
  import opened Services
  import opened Compaction
  import Utf8

  /** What a completed step brings. */
  datatype Reply = Reply(content: string, reasoning: string, calls: seq<Call>, usage: Usage, finishReason: string)

  /** One attempt's reply as far as it came: `finished` when its usage was told. */
  datatype Attempt = Attempt(reply: Reply, finished: bool, failure: Option<Failure>)

  /** The reply a stream spells, delta by delta. */
  function ReplyOf(stream: Stream): Reply {
    var end := FinishOf(stream.events);
    Reply(ContentOf(stream.events), ReasoningOf(stream.events), stream.calls,
          if end.Some? then end.value.usage else NO_USAGE, FinishReason(stream))
  }

  /** A stream that broke off, or ended without telling its usage, has failed. */
  function AttemptOf(stream: Stream): Attempt {
    var finished := FinishOf(stream.events).Some?;
    Attempt(ReplyOf(stream), finished, if stream.failure.None? && !finished then Some(ENDED_EARLY) else stream.failure)
  }

  /** A reply that came whole is all its stream had. */
  lemma WholeReply(stream: Stream, reply: Reply)
    requires AttemptOf(stream) == Attempt(reply, true, None)
    ensures Complete(stream) && reply == ReplyOf(stream)
    ensures ResponseOf(stream) == Response(reply.content, reply.reasoning, reply.calls)
  {}

  datatype StepEnd =
    | Replied(reply: Reply, estimate: nat)
    | Overflowed
    | Ended

  function Lower(s: string): string {
    seq(|s|, i requires 0 <= i < |s| => if 'A' <= s[i] <= 'Z' then s[i] + 32 as char else s[i])
  }

  /** A finish reason that says the context window filled up. */
  predicate ContextOverflowFinish(reason: string) {
    Lower(reason) in ["model_context_window_exceeded", "context_window_exceeded", "context_length_exceeded"]
  }

  const OVERFLOW_NAMES: seq<string> := ["model_context_window_exceeded", "context_window_exceeded", "context_length_exceeded"]

  predicate SameButCase(s: string, lower: string) {
    |s| == |lower| && forall i :: 0 <= i < |s| ==> s[i] == lower[i] || ('A' <= s[i] <= 'Z' && s[i] as int + 32 == lower[i] as int)
  }

  /** The finish reason is one of these names, in whatever case. */
  lemma OverflowNamesIff(reason: string)
    ensures ContextOverflowFinish(reason) <==> exists k :: 0 <= k < |OVERFLOW_NAMES| && SameButCase(reason, OVERFLOW_NAMES[k])
  {
    forall k | 0 <= k < |OVERFLOW_NAMES| ensures Lower(reason) == OVERFLOW_NAMES[k] <==> SameButCase(reason, OVERFLOW_NAMES[k]) {
      LowerIff(reason, OVERFLOW_NAMES[k]);
    }
    assert ContextOverflowFinish(reason) <==> Lower(reason) in OVERFLOW_NAMES;
  }

  lemma LowerIff(s: string, name: string)
    requires forall i :: 0 <= i < |name| ==> !('A' <= name[i] <= 'Z')
    ensures Lower(s) == name <==> SameButCase(s, name)
  {}

  /** A stream whose prompt was too long: its failure says so, or it came to its
      end and its finish reason does. */
  predicate Overflows(s: Stream) {
    if s.failure.Some? then s.failure.value.overflow else Complete(s) && ContextOverflowFinish(FinishReason(s))
  }

  /** Some stream from the `from`-th on overflowed. */
  predicate SomeOverflows(streams: seq<Stream>, from: nat) { exists i :: from <= i < |streams| && Overflows(streams[i]) }

  lemma OneMoreStream(before: seq<Stream>, streams: seq<Stream>, from: nat)
    requires !SomeOverflows(before, from) && before <= streams && |streams| == |before| + 1 && from <= |before|
    ensures SomeOverflows(streams, from) <==> Overflows(streams[|before|])
  {
    assert forall i :: from <= i < |before| ==> streams[i] == before[i];
  }

  /** A run that ends with a report ends with the provider's last reply, in its own
      words, as the answer. */
  ghost predicate ReportStands(events: seq<Event>, last: Option<Outcome>) {
    var n := |events|;
    n > 0 && events[n - 1].Done? && events[n - 1].stoppedAtLimit ==>
      && n > 1 && events[n - 2].Answer? && last.Some? && AnsweredWithText(last.value)
      && Says(events[n - 2].message, TextContent(last.value.value.message), "")
  }

  /** The stream failed, or its prompt was too long. */
  predicate Broke(s: Stream) { AttemptOf(s).failure.Some? || Overflows(s) }

  /** A run ends for a cause: it fails because the outside said no right then or the
      last stream broke, and a limit ends it, with a report or without, only when one
      is reached (`limited`). */
  ghost predicate CauseStands(events: seq<Event>, outside: (Ask, seq<Event>) -> bool, streams: seq<Stream>, limited: bool) {
    var n := |events|;
    && n > 0
    && match events[n - 1]
       case Failed => SomeRefused(outside, events[..n - 1]) || (streams != [] && Broke(streams[|streams| - 1]))
       case Limited(_, _) => limited
       case Done(_, stoppedAtLimit, _) => stoppedAtLimit ==> limited
       case _ => true
  }

  lemma SaidNo(before: seq<Event>, outside: (Ask, seq<Event>) -> bool, ask: Ask, streams: seq<Stream>, limited: bool)
    requires outside(ask, before)
    ensures CauseStands(before + [Failed], outside, streams, limited)
  {
    assert (before + [Failed])[..|before|] == before;
    assert Refused(outside, ask, before);
  }

  lemma PlusMore(d: Display, c: string, r: string, more: string)
    ensures Plus(d, c + more, r) == Show(Plus(d, c, r), Token(more))
    ensures Plus(d, c, r + more) == Show(Plus(d, c, r), Reasoning(more))
  {
    assert d.content + (c + more) == (d.content + c) + more;
    assert d.reasoning + (r + more) == (d.reasoning + r) + more;
  }

  /** A retry takes back exactly what the failed attempt showed. */
  lemma {:induction false} RetryTakesBack(d: Display, c: string, r: string)
    ensures Show(Plus(d, c, r), ProviderRetry(Utf8.ByteLen(c), Utf8.ByteLen(r))) == d
  {
    DropAppended(d.content, c);
    DropAppended(d.reasoning, r);
  }

  class AgentRun {
    const journal: Journal
    const meter: Meter
    const provider: Provider
    const conversation: Conversation
    const window: ContextWindow
    const toolsChars: nat
    const backoff: nat

    constructor (
      messages: seq<Message>, limits: Limits, contextWindow: Option<nat>, toolsChars: nat, backoff: nat, now: nat,
      outside: (Ask, seq<Event>) -> bool)
      ensures journal.outside == outside
      ensures Valid() && Balanced() && journal.events == [] && journal.marks == []
      ensures provider.sent == [] && provider.responses == [] && meter.readings == []
      ensures conversation.edits == [] && conversation.origin == Talk(messages, LastUser(messages)) == conversation.Now()
      ensures fresh(journal) && fresh(meter) && fresh(meter.budget) && fresh(provider) && fresh(conversation) && fresh(window)
      ensures meter.budget.limits == limits
    {
      var events := new Journal(outside);
      var clock := new Meter(limits, now);
      journal, meter := events, clock;
      provider := new Provider(Talk(messages, LastUser(messages)), clock, events);
      conversation := new Conversation(messages);
      window := new ContextWindow(contextWindow);
      this.toolsChars, this.backoff := toolsChars, backoff;
    }

    ghost predicate Valid()
      reads journal, meter, meter.budget, provider`sent, provider`ledger, conversation
    {
      journal.Valid() && Supplied() && conversation.Linked() && provider.origin == conversation.origin
    }

    /** Whatever else ended, every request left as it should. */
    ghost predicate Supplied()
      reads meter, meter.budget, provider`sent, provider`ledger, journal`sentAt
    {
      provider.meter == meter && provider.journal == journal && provider.Valid() && meter.Valid()
    }

    /** Over, after `steps` completed steps, and for a cause; `spent` when no further
        step may be taken. */
    ghost predicate AtEnd(steps: nat, spent: bool)
      reads journal, meter, meter.budget, provider`sent, provider`ledger, provider`outcomes, provider`streams
    {
      && journal.Finished(steps) && Supplied() && ReportStands(journal.events, provider.LastOutcome())
      && CauseStands(journal.events, journal.outside, provider.streams, meter.LimitSeen() || spent)
    }

    /** A check of the limits; what left before it left behind an earlier one. */
    method CheckLimits() returns (reason: Option<Reason>)
      requires Supplied()
      modifies meter`now, meter`readings, meter.budget`clock
      ensures Supplied() && old(meter.now) <= meter.now && reason == meter.budget.Reason(meter.now)
      ensures meter.readings == old(meter.readings) + [meter.budget.ReadingAt(meter.now)]
      ensures meter.LimitSeen() == reason.Some? && meter.Clear() == reason.None? && (old(meter.LimitSeen()) ==> meter.LimitSeen())
    {
      ghost var readings := meter.readings;
      reason := meter.Check();
      ReadLater(provider.sent, readings, meter.readings);
    }

    /** The budget has recorded exactly the usage a consumer was told of. */
    ghost predicate Balanced()
      reads journal, meter, meter.budget
    {
      meter.budget.usages == Usages(journal.events)
    }

    /** Show one part of an attempt's stream, on top of the parts before it. */
    method ShowDelta(d: StreamEvent, content: string, reasoning: string, ghost shown: Display)
      returns (content': string, reasoning': string)
      requires d.Delta? && journal.Valid() && Replay(journal.events) == Plus(shown, content, reasoning)
      modifies journal`events
      ensures journal.Valid()
      ensures content' == content + if d.content.Some? then d.content.value else ""
      ensures reasoning' == reasoning + if d.reasoning.Some? then d.reasoning.value else ""
      ensures journal.Known() == old(journal.Known()).(shown := Plus(shown, content', reasoning'))
    {
      content', reasoning' := content, reasoning;
      if d.content.Some? {
        PlusMore(shown, content', reasoning', d.content.value);
        content' := content' + d.content.value;
        journal.Print(Token(d.content.value));
      }
      if d.reasoning.Some? {
        PlusMore(shown, content', reasoning', d.reasoning.value);
        reasoning' := reasoning' + d.reasoning.value;
        journal.Print(Event.Reasoning(d.reasoning.value));
      }
    }

    /** Read one stream to its end, showing it as it comes. */
    method Consume(stream: Stream) returns (attempt: Attempt)
      requires journal.Valid() && FinishesOnce(stream.events)
      modifies journal`events, journal`total
      ensures journal.Valid() && attempt == AttemptOf(stream)
      ensures journal.Known() == AfterAttempt(old(journal.Known()), attempt)
    {
      var content, reasoning, usage, finishReason, finished := "", "", NO_USAGE, "", false;
      ghost var before := journal.Known();
      Nothing(before.shown);
      for i := 0 to |stream.events|
        invariant journal.Valid() && ReadsUpTo(stream, i, content, reasoning, usage, finishReason, finished)
        invariant journal.Known() ==
                  AfterAttempt(before, Attempt(Reply(content, reasoning, stream.calls, usage, finishReason), finished, None))
      {
        var e := stream.events[i];
        ReadsOneMore(stream, i, content, reasoning, usage, finishReason, finished);
        match e {
          case Delta(_, _) => content, reasoning := ShowDelta(e, content, reasoning, before.shown);
          case Finished(u, reason) =>
            finished, usage, finishReason := true, u, reason;
            journal.Spend(u);
        }
      }
      assert stream.events[..|stream.events|] == stream.events;
      attempt := Attempt(Reply(content, reasoning, stream.calls, usage, finishReason), finished,
                         if stream.failure.None? && !finished then Some(ENDED_EARLY) else stream.failure);
    }

    /** Every call announced so far has its result. */
    ghost predicate Settled()
      reads journal
    {
      Answered(journal.events) == Announced(journal.events)
    }

    /** Between attempts: all is recorded, and a consumer holds exactly the text
        committed so far. */
    ghost predicate Ready()
      reads journal, meter, meter.budget, provider`sent, provider`ledger, conversation
    {
      Valid() && Balanced() && Settled() && Replay(journal.events) == journal.Committed()
    }

    /** Behind an attempt: it is what the provider streamed last, its text is shown
        and, once finished, its usage told. */
    ghost predicate Showing(attempt: Attempt)
      reads journal, meter, meter.budget, provider`sent, provider`ledger, provider`streams, conversation
    {
      && Valid() && Settled()
      && provider.streams != [] && attempt == AttemptOf(provider.streams[|provider.streams| - 1])
      && Replay(journal.events) == Plus(journal.Committed(), attempt.reply.content, attempt.reply.reasoning)
      && Usages(journal.events) == meter.budget.usages + if attempt.finished then [attempt.reply.usage] else []
    }

    /** How a step's request may end, when `steps` were completed before it. */
    ghost predicate EndsAs(end: StepEnd, steps: nat)
      reads journal, meter, meter.budget, provider`sent, provider`ledger, provider`streams, provider`outcomes, conversation
    {
      match end
      case Replied(reply, estimate) =>
        && Showing(Attempt(reply, true, None)) && !Overflows(provider.streams[|provider.streams| - 1])
        && estimate == Estimate(conversation.messages, toolsChars)
      case Overflowed => Ready() && provider.streams != [] && Overflows(provider.streams[|provider.streams| - 1])
      case Ended => AtEnd(steps, false)
    }

    /** Stream the committed request once. */
    method Ask(step: nat) returns (attempt: Attempt)
      requires Ready() && meter.Clear() && Commit(step, conversation.messages) in provider.ledger
      modifies journal`events, journal`total, journal`sentAt, provider`sent, provider`streams
      ensures Showing(attempt) && (attempt.failure.None? ==> attempt.finished)
      ensures |provider.streams| == |old(provider.streams)| + 1 && old(provider.streams) <= provider.streams
      ensures Dealt(journal.events) == old(Dealt(journal.events))
      ensures Within(old(TallyOf(provider.sent)), TallyOf(provider.sent), 1, 0, 0)
    {
      ghost var s := Sent(StepRequest(step), conversation.messages, conversation.Now(), conversation.edits, "", meter.Last());
      var stream := provider.Open(conversation.messages, s);
      attempt := Consume(stream);
    }

    method RecordFinished(attempt: Attempt)
      requires Showing(attempt)
      modifies meter.budget`tokens, meter.budget`cost, meter.budget`costUnknown, meter.budget`usages
      ensures Valid() && Settled() && Balanced()
      ensures meter.budget.usages == old(meter.budget.usages) + if attempt.finished then [attempt.reply.usage] else []
    {
      if attempt.finished {
        meter.Record(attempt.reply.usage);
      }
    }

    /** Tell the consumer to drop what the failed attempt showed. */
    method TakeBack(attempt: Attempt)
      requires Valid() && Settled() && Balanced()
      requires Replay(journal.events) == Plus(journal.Committed(), attempt.reply.content, attempt.reply.reasoning)
      modifies journal`events
      ensures Ready() && Dealt(journal.events) == old(Dealt(journal.events))
    {
      hide Journal.Valid, Provider.Valid, Meter.Valid, Conversation.Linked, Utf8.ByteLen, DropEnd, Contents;
      hide Replay, Usages, Announced, Answered, RanResults, Askings, Rulings;
      RetryTakesBack(journal.Committed(), attempt.reply.content, attempt.reply.reasoning);
      journal.Print(ProviderRetry(Utf8.ByteLen(attempt.reply.content), Utf8.ByteLen(attempt.reply.reasoning)));
    }

    /** A failed attempt: give up, or take it back for the next one. It is repeated
        exactly while attempts remain, the failure is worth one, the wait before it
        ends within the run time left (read `at` some moment), and no limit is seen. */
    method Retry(step: nat, attempts: nat, attempt: Attempt, random: nat) returns (again: bool, ghost at: nat)
      requires Showing(attempt) && attempt.failure.Some? && step > 0
      modifies journal`events, meter`now, meter`readings, meter.budget
      ensures if again then Ready() else AtEnd(step - 1, false)
      ensures old(meter.readings) <= meter.readings
      ensures Dealt(journal.events) == old(Dealt(journal.events))
      ensures old(meter.now) <= at <= meter.now
      ensures again ==> at + BackoffDelay(backoff, attempts, attempt.failure.value.retryAfter, random) <= meter.now
      ensures var f, left := attempt.failure.value, meter.budget.RemainingTime(at);
              again <==> attempts <= MAX_PROVIDER_RETRIES && f.retryable && !meter.LimitSeen()
                         && (left.Some? ==> BackoffDelay(backoff, attempts, f.retryAfter, random) < left.value)
    {
      hide Journal.Valid, Provider.Valid, Meter.Valid, Conversation.Linked, Concluded, Replay, Usages, RanResults, Askings;
      hide Rulings, Announced;
      hide Answered;
      var failure := attempt.failure.value;
      at := meter.now;
      if !(attempts <= MAX_PROVIDER_RETRIES && failure.retryable) {
        journal.End(Failed, step - 1);
        return false, at;
      }
      RecordFinished(attempt);
      var delay := BackoffDelay(backoff, attempts, failure.retryAfter, random);
      var left := meter.Remaining();
      at := meter.now;
      if left.Some? && delay >= left.value {
        journal.End(Failed, step - 1);
        return false, at;
      }
      again := Again(step, attempt, delay);
    }

    /** Take the attempt back, wait, and check the limits. */
    method Again(step: nat, attempt: Attempt, delay: nat) returns (again: bool)
      requires Valid() && Settled() && Balanced() && step > 0
      requires Replay(journal.events) == Plus(journal.Committed(), attempt.reply.content, attempt.reply.reasoning)
      modifies journal`events, meter`now, meter`readings, meter.budget`clock
      ensures if again then Ready() else AtEnd(step - 1, false)
      ensures again == meter.Clear() == !meter.LimitSeen() && old(meter.readings) <= meter.readings
      ensures old(meter.now) + delay <= meter.now
      ensures Dealt(journal.events) == old(Dealt(journal.events))
    {
      hide Journal.Valid, Provider.Valid, Meter.Valid, Conversation.Linked, RunBudget.Valid, Overflows, AttemptOf;
      hide Replay, Usages, Announced, Answered, RanResults, Askings, Rulings;
      TakeBack(attempt);
      meter.Sleep(delay);
      var reason := CheckLimits();
      if reason.Some? {
        journal.End(Limited(step - 1, journal.total), step - 1);
      }
      again := reason.None?;
    }

    /** A prompt too long for the window: give up the second time, and otherwise
        take the attempt as a measure of the window. */
    method Overflow(step: nat, attempt: Attempt, recovered: bool) returns (end: StepEnd)
      requires Showing(attempt) && step > 0 && Overflows(provider.streams[|provider.streams| - 1])
      modifies journal`events, meter.budget`tokens, meter.budget`cost, meter.budget`costUnknown, meter.budget`usages, window`tokens
      ensures EndsAs(end, step - 1) && end == if recovered then Ended else Overflowed
      ensures Dealt(journal.events) == old(Dealt(journal.events))
      ensures window.tokens == if recovered then old(window.tokens)
              else Lowered(old(window.tokens), old(window.EstimateFor(conversation.messages, toolsChars)))
    {
      hide Journal.Valid, Provider.Valid, Meter.Valid, Conversation.Linked, Overflows, Lowered, Concluded;
      hide Replay, Usages, Announced, Answered, RanResults, Askings, Rulings;
      if recovered {
        journal.End(Failed, step - 1);
        return Ended;
      }
      MeasureWindow(attempt);
      end := Overflowed;
    }

    method MeasureWindow(attempt: Attempt)
      requires Showing(attempt)
      modifies journal`events, meter.budget`tokens, meter.budget`cost, meter.budget`costUnknown, meter.budget`usages, window`tokens
      ensures Ready() && Dealt(journal.events) == old(Dealt(journal.events))
      ensures window.tokens == Lowered(old(window.tokens), old(window.EstimateFor(conversation.messages, toolsChars)))
    {
      hide Journal.Valid, Provider.Valid, Meter.Valid, Conversation.Linked;
      hide Replay, Usages, Announced, Answered, RanResults, Askings, Rulings, Lowered;
      RecordFinished(attempt);
      window.Lower(window.EstimateFor(conversation.messages, toolsChars));
      TakeBack(attempt);
    }

    /** One attempt at a committed request: it replies, its prompt is too long, or it
        fails, and then the run is over or (`end` is None) the attempt is repeated. */
    method TryOnce(step: nat, attempts: nat, recovered: bool, estimate: nat) returns (end: Option<StepEnd>)
      requires Ready() && meter.Clear() && step > 0 && Commit(step, conversation.messages) in provider.ledger
      requires estimate == Estimate(conversation.messages, toolsChars)
      modifies journal`events, journal`total, journal`sentAt, meter`now, meter`readings, meter.budget
      modifies provider`sent, provider`streams, window`tokens
      ensures |provider.streams| == |old(provider.streams)| + 1 && old(provider.streams) <= provider.streams
      ensures var overflowed := Overflows(provider.streams[|old(provider.streams)|]);
              match end
              case Some(e) =>
                EndsAs(e, step - 1) && (e.Overflowed? <==> overflowed && !recovered) && (e.Replied? ==> !overflowed)
              case None => Ready() && meter.Clear() && attempts <= MAX_PROVIDER_RETRIES && !overflowed
      ensures window.tokens == if end == Some(Overflowed)
              then Lowered(old(window.tokens), old(window.EstimateFor(conversation.messages, toolsChars))) else old(window.tokens)
      ensures old(meter.readings) <= meter.readings
      ensures Dealt(journal.events) == old(Dealt(journal.events))
      ensures Within(old(TallyOf(provider.sent)), TallyOf(provider.sent), 1, 0, 0)
    {
      hide Journal.Valid, Provider.Valid, Meter.Valid, Conversation.Linked, Concluded, Replay, Usages, RanResults, Askings;
      hide Rulings, Announced, Answered;
      hide TallyOf, AgentRun.AtEnd, Dealt;
      var attempt := Ask(step);
      var overflowed :=
        if attempt.failure.Some? then attempt.failure.value.overflow else ContextOverflowFinish(attempt.reply.finishReason);
      if overflowed {
        var o := Overflow(step, attempt, recovered);
        return Some(o);
      }
      if attempt.failure.None? {
        return Some(Replied(attempt.reply, estimate));
      }
      var random :| random >= 0;
      var again, _ := Retry(step, attempts, attempt, random);
      end := if again then None else Some(Ended);
    }

    /** Up to five attempts at one committed request. */
    method Attempts(step: nat, recovered: bool) returns (end: StepEnd)
      requires Ready() && meter.Clear() && step > 0
      requires Commit(step, conversation.messages) in provider.ledger
      modifies journal`events, journal`total, journal`sentAt, meter`now, meter`readings, meter.budget
      modifies provider`sent, provider`streams, window`tokens
      ensures EndsAs(end, step - 1) && old(provider.streams) <= provider.streams
      ensures var overflowed := SomeOverflows(provider.streams, |old(provider.streams)|);
              && (end.Overflowed? <==> overflowed && !recovered) && (end.Replied? ==> !overflowed)
      ensures window.tokens == if end.Overflowed?
              then Lowered(old(window.tokens), old(window.EstimateFor(conversation.messages, toolsChars))) else old(window.tokens)
      ensures old(meter.readings) <= meter.readings
      ensures Dealt(journal.events) == old(Dealt(journal.events))
      ensures Within(old(TallyOf(provider.sent)), TallyOf(provider.sent), 5, 0, 0)
    {
      hide Journal.Valid, Provider.Valid, Meter.Valid, Conversation.Linked, Concluded, Replay, Usages, RanResults, Askings;
      hide Rulings, Announced, Answered;
      var estimate := EstimateTokens(conversation.messages, toolsChars);
      var attempts: nat := 0;
      ghost var from := |provider.streams|;
      while true
        invariant Ready() && meter.Clear() && attempts <= MAX_PROVIDER_RETRIES && window.tokens == old(window.tokens)
        invariant old(provider.streams) <= provider.streams && !SomeOverflows(provider.streams, from)
        invariant old(meter.readings) <= meter.readings
        invariant Dealt(journal.events) == old(Dealt(journal.events))
        invariant Within(old(TallyOf(provider.sent)), TallyOf(provider.sent), attempts, 0, 0)
        decreases MAX_PROVIDER_RETRIES - attempts
      {
        attempts := attempts + 1;
        ghost var before := provider.streams;
        var tried := TryOnce(step, attempts, recovered, estimate);
        OneMoreStream(before, provider.streams, from);
        if tried.Some? {
          return tried.value;
        }
      }
    }

    /** Make the list fit, and tell what was done to it (`told`); after an overflow
        something must have been dropped. */
    method Compact(step: nat, forced: bool) returns (ok: bool, ghost made: Compaction.Pass, ghost told: Option<Compacted>)
      requires Ready() && step > 0
      requires forced ==> provider.streams != [] && Overflows(provider.streams[|provider.streams| - 1])
      modifies journal`events, journal`total, meter`now, meter`readings, meter.budget, provider`sent, provider`outcomes, journal`sentAt
      modifies conversation`messages, conversation`anchor, conversation`edits
      ensures if ok then Ready() else AtEnd(step - 1, false)
      ensures conversation.edits == old(conversation.edits) + EditsOf(made, RetentionFor(forced))
      ensures made.Untouched? <==>
              !forced && !Over(old(window.tokens), old(window.EstimateFor(conversation.messages, toolsChars)), PRUNE_THRESHOLD)
      ensures Describes(told, made, old(conversation.messages), RetentionFor(forced))
      ensures ok ==> IsTold(told, old(Usages(journal.events)), journal.events)
      ensures ok && forced ==> told.Some? && told.value.Shrank()
      ensures old(meter.readings) < meter.readings
      ensures made.Condensed? || made.PrunedAll?
              <==> !made.Untouched? && !Stops(meter.readings[|old(meter.readings)|])
                   && old(SummaryDue(conversation.Now(), window, toolsChars, forced))
      ensures ByReply(made, provider.LastOutcome(), conversation.messages)
      ensures Dealt(journal.events) == old(Dealt(journal.events))
      ensures Within(old(TallyOf(provider.sent)), TallyOf(provider.sent), 0, 10, 0)
    {
      hide Journal.Valid, Provider.Valid, Meter.Valid, Conversation.Linked, Concluded, Replay, Usages, RanResults, Askings;
      hide Rulings, Announced;
      hide Answered;
      hide SummaryDue, ByReply, TallyOf, Describes, IsTold, EditsOf, Over;
      var reason := CheckLimits();
      var compacted, pass := Fit(forced, reason.None?);
      made, told := pass, compacted;
      ok := Account(step, forced, compacted);
    }

    method Fit(forced: bool, summarizing: bool) returns (compacted: Option<Compacted>, ghost made: Compaction.Pass)
      requires Ready() && (summarizing ==> meter.Clear())
      modifies provider`sent, provider`outcomes, journal`sentAt, conversation`messages, conversation`anchor, conversation`edits
      ensures Ready()
      ensures conversation.edits == old(conversation.edits) + EditsOf(made, RetentionFor(forced))
      ensures made.Untouched? <==>
              !forced && !Over(old(window.tokens), old(window.EstimateFor(conversation.messages, toolsChars)), PRUNE_THRESHOLD)
      ensures Describes(compacted, made, old(conversation.messages), RetentionFor(forced))
      ensures made.Condensed? || made.PrunedAll?
              <==> !made.Untouched? && summarizing && old(SummaryDue(conversation.Now(), window, toolsChars, forced))
      ensures ByReply(made, provider.LastOutcome(), conversation.messages)
      ensures Within(old(TallyOf(provider.sent)), TallyOf(provider.sent), 0, 10, 0)
    {
      hide SummaryDue, ByReply, Describes, EditsOf, TallyOf, Over, AllSound, AllCommitted;
      hide Journal.Valid, Meter.Valid;
      compacted, made := CompactContext(provider, conversation, window, toolsChars, forced, summarizing);
    }

    /** Account for what compaction did; after an overflow it is over unless that
        dropped something. */
    method Account(step: nat, forced: bool, compacted: Option<Compacted>) returns (ok: bool)
      requires Ready() && step > 0
      requires forced ==> provider.streams != [] && Overflows(provider.streams[|provider.streams| - 1])
      modifies journal`events, journal`total, meter.budget`tokens, meter.budget`cost, meter.budget`costUnknown, meter.budget`usages
      ensures if ok then Ready() else AtEnd(step - 1, false)
      ensures Dealt(journal.events) == old(Dealt(journal.events))
      ensures ok ==> IsTold(compacted, old(Usages(journal.events)), journal.events)
      ensures ok && forced ==> compacted.Some? && compacted.value.Shrank()
    {
      hide Journal.Valid, Provider.Valid, Meter.Valid, Conversation.Linked, Concluded, Replay, Usages, RanResults, Askings;
      hide Rulings, Announced;
      hide Answered;
      ok := true;
      if compacted.Some? {
        ok := Report(step, compacted.value);
      }
      if ok && forced && !(compacted.Some? && compacted.value.Shrank()) {
        journal.End(Failed, step - 1);
        ok := false;
      }
    }

    /** Account for a summary and tell of the compaction. */
    method Report(step: nat, compacted: Compacted) returns (ok: bool)
      requires Ready() && step > 0
      modifies journal`events, journal`total, meter.budget`tokens, meter.budget`cost, meter.budget`costUnknown, meter.budget`usages
      ensures if ok then Ready() else AtEnd(step - 1, false)
      ensures Dealt(journal.events) == old(Dealt(journal.events))
      ensures ok ==> Usages(journal.events) == if compacted.usage.Some? then old(Usages(journal.events)) + [compacted.usage.value]
                                               else old(Usages(journal.events))
      ensures ok ==> EndsWith(journal.events, ContextCompacted(compacted.elided, compacted.summarized))
    {
      hide Journal.Valid, Provider.Valid, Meter.Valid, Conversation.Linked, Concluded, Replay, Usages, RanResults, Askings;
      hide Rulings, Announced;
      hide Answered;
      if compacted.usage.Some? {
        meter.Record(compacted.usage.value);
        journal.Spend(compacted.usage.value);
      }
      ok := !journal.Refuses(CompactionCommit);
      if ok {
        journal.Tell(ContextCompacted(compacted.elided, compacted.summarized));
      } else {
        SaidNo(journal.events, journal.outside, CompactionCommit, provider.streams, meter.LimitSeen());
        journal.End(Failed, step - 1);
      }
    }

    /** Commit the list as it is and attempt it, unless a limit is reached by now. */
    method CommitAndAttempt(step: nat, recovered: bool) returns (end: StepEnd)
      requires Ready() && step > 0
      modifies journal`events, journal`total, journal`sentAt, meter`now, meter`readings, meter.budget
      modifies provider`sent, provider`ledger, provider`streams, window`tokens
      ensures EndsAs(end, step - 1) && old(provider.streams) <= provider.streams
      ensures var overflowed := SomeOverflows(provider.streams, |old(provider.streams)|);
              && (end.Overflowed? <==> overflowed && !recovered) && (end.Replied? ==> !overflowed)
      ensures window.tokens == if end.Overflowed?
              then Lowered(old(window.tokens), old(window.EstimateFor(conversation.messages, toolsChars))) else old(window.tokens)
      ensures old(meter.readings) <= meter.readings
      ensures Dealt(journal.events) == old(Dealt(journal.events))
      ensures Within(old(TallyOf(provider.sent)), TallyOf(provider.sent), 5, 0, 0)
    {
      hide Journal.Valid, Provider.Valid, Meter.Valid, Conversation.Linked;
      hide Concluded, Replay, Usages, RanResults, Askings, Rulings, Announced, Answered, Dealt, TallyOf, Marks.Committed;
      hide Responses;
      var reason := CheckLimits();
      if reason.Some? {
        journal.End(Limited(step - 1, journal.total), step - 1);
        return Ended;
      }
      var committed := provider.CommitRequest(step, conversation.messages, RequestCommit);
      if !committed {
        SaidNo(journal.events, journal.outside, RequestCommit, provider.streams, meter.LimitSeen());
        journal.End(Failed, step - 1);
        return Ended;
      }
      end := Attempts(step, recovered);
    }

    /** One turn of the request loop: compact, commit, and attempt. `forced` is
        the second turn, after the prompt was too long. */
    method Pass(step: nat, forced: bool) returns (end: StepEnd, ghost made: Compaction.Pass)
      requires Ready() && step > 0
      requires forced ==> provider.streams != [] && Overflows(provider.streams[|provider.streams| - 1])
      modifies journal`events, journal`total, journal`sentAt, meter`now, meter`readings, meter.budget
      modifies provider`sent, provider`ledger, provider`streams, provider`outcomes, window`tokens
      modifies conversation`messages, conversation`anchor, conversation`edits
      ensures EndsAs(end, step - 1) && old(provider.streams) <= provider.streams
      ensures var overflowed := SomeOverflows(provider.streams, |old(provider.streams)|);
              && (end.Overflowed? <==> overflowed && !forced) && (end.Replied? ==> !overflowed)
      ensures window.tokens == if end.Overflowed?
              then Lowered(old(window.tokens), window.EstimateFor(conversation.messages, toolsChars)) else old(window.tokens)
      ensures conversation.edits == old(conversation.edits) + EditsOf(made, RetentionFor(forced))
      ensures made.Untouched? <==>
              !forced && !Over(old(window.tokens), old(window.EstimateFor(conversation.messages, toolsChars)), PRUNE_THRESHOLD)
      ensures forced && !end.Ended? ==> Drops(made, old(conversation.messages), RetentionFor(forced))
      ensures old(meter.readings) < meter.readings
      ensures made.Condensed? || made.PrunedAll?
              <==> !made.Untouched? && !Stops(meter.readings[|old(meter.readings)|])
                   && old(SummaryDue(conversation.Now(), window, toolsChars, forced))
      ensures ByReply(made, provider.LastOutcome(), conversation.messages)
      ensures Dealt(journal.events) == old(Dealt(journal.events))
      ensures Within(old(TallyOf(provider.sent)), TallyOf(provider.sent), 5, 10, 0)
    {
      hide Journal.Valid, Provider.Valid, Meter.Valid, Conversation.Linked, EditsOf, Over, Drops, SummaryDue, ByReply, IsTold;
      hide Concluded, Replay, Usages, RanResults, Askings, Rulings, Announced, Answered, Dealt, TallyOf, Marks.Committed;
      hide Responses;
      var ok;
      ghost var told;
      ok, made, told := Compact(step, forced);
      assert ok && forced ==> Drops(made, old(conversation.messages), RetentionFor(forced));
      end := Ended;
      if ok {
        end := CommitAndAttempt(step, forced);
      }
    }

    /** One model step: one pass, and a second, forced one exactly when a prompt of
        the first was too long. */
    method Request(step: nat) returns (end: StepEnd, ghost made: seq<Compaction.Pass>)
      requires Ready() && step > 0
      modifies journal`events, journal`total, journal`sentAt, meter`now, meter`readings, meter.budget
      modifies provider`sent, provider`ledger, provider`streams, provider`outcomes, window`tokens
      modifies conversation`messages, conversation`anchor, conversation`edits
      ensures EndsAs(end, step - 1) && !end.Overflowed?
      ensures old(provider.streams) <= provider.streams && 0 < |made| <= 2
      ensures |made| == 2 <==> SomeOverflows(provider.streams, |old(provider.streams)|)
      ensures conversation.edits == old(conversation.edits) + PassEdits(made)
      ensures end.Replied? ==> provider.streams != [] && !Overflows(provider.streams[|provider.streams| - 1])
      ensures old(meter.readings) <= meter.readings
      ensures Dealt(journal.events) == old(Dealt(journal.events))
      ensures Within(old(TallyOf(provider.sent)), TallyOf(provider.sent), 10, 20, 0)
    {
      hide Journal.Valid, Provider.Valid, Meter.Valid, Conversation.Linked, EditsOf, SummaryDue, ByReply, TallyOf, SomeOverflows, PassEdits;
      hide AgentRun.AtEnd, AgentRun.Ready, AgentRun.Valid, AgentRun.Settled, Drops, Over, Stops, Lowered, AttemptOf, Overflows;
      hide Announced, Answered, RanResults, Askings, Rulings, Replay, Concluded, Flowing;
      var recovered := false;
      ghost var from, edits, pass := |provider.streams|, conversation.edits, Compaction.Pass.Untouched;
      end, pass := Pass(step, recovered);
      made := [pass];
      OnePass(pass);
      while end.Overflowed?
        invariant EndsAs(end, step - 1) && (end.Overflowed? ==> !recovered)
        invariant old(provider.streams) <= provider.streams && old(meter.readings) <= meter.readings
        invariant |made| == if recovered then 2 else 1
        invariant SomeOverflows(provider.streams, from) <==> recovered || end.Overflowed?
        invariant conversation.edits == edits + PassEdits(made)
        invariant Dealt(journal.events) == old(Dealt(journal.events))
        invariant Within(old(TallyOf(provider.sent)), TallyOf(provider.sent), if recovered then 10 else 5, if recovered then 20 else 10, 0)
        decreases !recovered
      {
        recovered := true;
        ghost var streams := provider.streams;
        end, pass := Pass(step, recovered);
        OverflowsLater(streams, provider.streams, from);
        TwoPasses(made, pass, edits);
        made := made + [pass];
      }
    }
  }

  /** A consumer has been told of a compaction: of a summary's usage on top of the
      usages before, and of what was elided and folded. */
  predicate IsTold(told: Option<Compacted>, before: seq<Usage>, events: seq<Event>) {
    match told
    case None => Usages(events) == before
    case Some(c) =>
      && Usages(events) == (if c.usage.Some? then before + [c.usage.value] else before)
      && EndsWith(events, ContextCompacted(c.elided, c.summarized))
  }

  lemma OverflowsLater(streams: seq<Stream>, later: seq<Stream>, from: nat)
    requires SomeOverflows(streams, from) && streams <= later
    ensures SomeOverflows(later, from)
  {
    var i :| from <= i < |streams| && Overflows(streams[i]);
    assert later[i] == streams[i];
  }

  /** The edits of a step's passes, the first as usual and the second forced. */
  function PassEdits(made: seq<Compaction.Pass>): seq<Edit>
    requires 0 < |made| <= 2
  {
    EditsOf(made[0], RETAIN) + if |made| == 2 then EditsOf(made[1], RETAIN_FORCED) else []
  }

  lemma OnePass(pass: Compaction.Pass)
    ensures PassEdits([pass]) == EditsOf(pass, RETAIN)
  {
    assert EditsOf(pass, RETAIN) + [] == EditsOf(pass, RETAIN);
  }

  lemma TwoPasses(made: seq<Compaction.Pass>, second: Compaction.Pass, edits: seq<Edit>)
    requires |made| == 1
    ensures edits + PassEdits(made) + EditsOf(second, RETAIN_FORCED) == edits + PassEdits(made + [second])
  {
    assert EditsOf(made[0], RETAIN) + [] == EditsOf(made[0], RETAIN);
  }

  // ----- reading a stream -----

  /** What a consumer knows once an attempt has been read, on top of `before`. */
  function AfterAttempt(before: Told, attempt: Attempt): Told {
    before.(shown := Plus(before.shown, attempt.reply.content, attempt.reply.reasoning),
            usages := before.usages + if attempt.finished then [attempt.reply.usage] else [])
  }

  lemma Nothing(d: Display)
    ensures Plus(d, "", "") == d
  {
    assert d.content + "" == d.content && d.reasoning + "" == d.reasoning;
  }

  predicate ReadsUpTo(stream: Stream, i: nat, content: string, reasoning: string, usage: Usage, finishReason: string, finished: bool)
  {
    && i <= |stream.events|
    && content == ContentOf(stream.events[..i]) && reasoning == ReasoningOf(stream.events[..i])
    && var end := FinishOf(stream.events[..i]);
    && finished == end.Some?
    && (if finished then usage == end.value.usage && finishReason == end.value.finishReason
        else usage == NO_USAGE && finishReason == "")
  }

  lemma ReadsOneMore(stream: Stream, i: nat, content: string, reasoning: string, usage: Usage, finishReason: string, finished: bool)
    requires ReadsUpTo(stream, i, content, reasoning, usage, finishReason, finished) && i < |stream.events|
    requires FinishesOnce(stream.events)
    ensures var e := stream.events[i];
            if e.Finished? then
              !finished && ReadsUpTo(stream, i + 1, content, reasoning, e.usage, e.finishReason, true)
            else
              ReadsUpTo(stream, i + 1, content + (if e.content.Some? then e.content.value else ""),
                        reasoning + (if e.reasoning.Some? then e.reasoning.value else ""), usage, finishReason, finished)
  {
    var e := stream.events[i];
    StreamSnoc(stream.events[..i], e);
    assert stream.events[..i + 1] == stream.events[..i] + [e];
    assert content + "" == content && reasoning + "" == reasoning;
    if finished {
      var f := FinishOf(stream.events[..i]).value;
      var k :| 0 <= k < i && stream.events[..i][k] == f;
      assert stream.events[k].Finished?;
    }
  }

  /** A stream cut off before its completion event is worth another attempt. */
  const ENDED_EARLY: Failure := Failure(false, true, None)
}
