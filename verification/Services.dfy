/** What one run holds on to besides its conversation: the events it has yielded,
    the clock its budget is read against, and the provider with the ledger in
    front of it. Whatever the outside decides is arbitrary here. */
module Services {
  import opened Wrappers
  import opened Messages
  import opened Conversation
  import opened Trace
  import opened Usage
  import opened Retry
  import opened RunBudget
  import opened Marks
  import opened Stages

  // ----- the stream of events -----

  /** What a consumer knows from the events so far. */
  datatype Told = Told(shown: Display, usages: seq<Usage>, dealt: Dealings)

  function WithAsking(t: Told, asking: Asking): Told {
    t.(dealt := t.dealt.(asked := t.dealt.asked + [asking]))
  }

  function WithRuling(t: Told, ruling: Ruling): Told {
    t.(dealt := t.dealt.(rulings := t.dealt.rulings + [ruling]))
  }

  function WithRulings(t: Told, rulings: seq<Ruling>): Told { t.(dealt := t.dealt.(rulings := rulings)) }

  function WithResult(d: Dealings, call: Call, ran: bool): Dealings {
    d.(answered := d.answered + [call], ran := d.ran + if ran then [|d.answered|] else [])
  }

  /** What the loop asks of the ledger and the hooks, the last of them whether it may
      stop at a whole answer. */
  datatype Ask =
    | Catalog | Prompt | Prepare | RequestCommit | ReportCommit | CompactionCommit | ResponseCommit | ResultCommit | Stop

  predicate Refused(outside: (Ask, seq<Event>) -> bool, ask: Ask, events: seq<Event>) { outside(ask, events) }

  /** The outside says no to something right behind these events. */
  ghost predicate SomeRefused(outside: (Ask, seq<Event>) -> bool, events: seq<Event>) {
    exists ask :: Refused(outside, ask, events)
  }

  class Journal {
    /** What the outside answers, which may be anything and depend on all that has
        happened so far. */
    const outside: (Ask, seq<Event>) -> bool
    var events: seq<Event>
    var total: Usage
    /** One mark behind each committed response. */
    ghost var marks: seq<Mark>
    /** How many events had been yielded when each request left. */
    ghost var sentAt: seq<nat>

    /** The running total is the sum of the usage a consumer was told of, and the
        marks and requests stand where they were made. */
    ghost predicate Open()
      reads this
    {
      && Flowing(events) && total == Total(Usages(events)) && Marked(marks, events)
      && SentWhileWorking(sentAt, events)
    }

    /** Where the run stands. */
    ghost function Stage(): Stage
      reads `events
    {
      StageOf(events)
    }

    /** At work, or, once the user has been told, waiting to end for a decision. */
    ghost predicate At(awaiting: bool)
      reads this
    {
      Open() && if awaiting then Stage().Awaiting? else Stage().Working?
    }

    /** At work. */
    ghost predicate Valid()
      reads this
    {
      At(false)
    }

    ghost function Known(): Told
      reads this
    {
      Told(Replay(events), Usages(events), Dealt(events))
    }

    /** The text committed so far. */
    ghost function Committed(): Display
      reads `marks
    {
      Marks.Committed(marks)
    }

    /** Over, after `steps` completed steps. */
    ghost predicate Finished(steps: nat)
      reads this
    {
      Concluded(events, marks, steps) && SentWhileWorking(sentAt, events)
    }

    constructor (outside: (Ask, seq<Event>) -> bool)
      ensures events == [] && marks == [] && sentAt == [] && Valid() && this.outside == outside
    {
      this.outside := outside;
      events, total, marks, sentAt := [], NO_USAGE, [], [];
    }

    /** The outside says no, or, asked whether the run may stop, that it may not. */
    predicate Refuses(ask: Ask)
      reads `events
    {
      outside(ask, events)
    }

    /** A request leaves now. */
    ghost method Note()
      requires Valid()
      modifies `sentAt
      ensures Valid() && sentAt == old(sentAt) + [|events|]
    {
      SentNow(sentAt, events);
      sentAt := sentAt + [|events|];
    }

    /** Yield an event that neither shows text nor concerns usage or calls. */
    method Tell(e: Event)
      requires Valid() && (e.Start? || e.ContextCompacted?)
      modifies `events
      ensures Valid() && Known() == old(Known()) && events == old(events) + [e]
    {
      hide Flowing, Marked, SentWhileWorking, Replay, Usages, Announced, Answered, RanResults, Askings, Rulings;
      Yield(e);
    }

    /** Ask the user for an approval. */
    method Require(asking: Asking)
      requires Valid()
      modifies `events
      ensures Valid() && Known() == WithAsking(old(Known()), asking)
      ensures events == old(events) + [ToolApprovalRequired(asking.approvalId, asking.callId)]
    {
      hide Flowing, Marked, SentWhileWorking, Replay, Usages, Announced, Answered, RanResults, Askings, Rulings;
      Yield(ToolApprovalRequired(asking.approvalId, asking.callId));
    }

    /** Tell how it was decided. */
    method Rule(ruling: Ruling)
      requires Valid() && Asking(ruling.approvalId, ruling.callId) in Askings(events)
      modifies `events
      ensures Valid() && Known() == WithRuling(old(Known()), ruling)
      ensures events == old(events) + [ToolApprovalResolved(ruling.approvalId, ruling.callId, ruling.approved)]
    {
      hide Flowing, Marked, SentWhileWorking, Replay, Usages, Announced, Answered, RanResults, Askings, Rulings;
      Yield(ToolApprovalResolved(ruling.approvalId, ruling.callId, ruling.approved));
    }

    /** Tell the user that a result asks for a decision. */
    method AskUser(call: Call)
      requires Open() && Stage() == Deciding(call)
      modifies `events
      ensures At(true) && Known() == old(Known()) && events == old(events) + [UserDecisionRequested(call)]
    {
      hide Flowing, Marked, SentWhileWorking, StageOf, Replay, Usages;
      Yield(UserDecisionRequested(call));
    }

    /** The run's last words. */
    method Say(m: Message)
      requires Valid()
      modifies `events
      ensures Open() && Stage().Closing? && Known() == old(Known()) && events == old(events) + [Answer(m)]
    {
      Yield(Answer(m));
    }

    /** Yield an event that only changes what a consumer shows. */
    method Print(e: Event)
      requires Valid() && (e.Token? || e.Reasoning? || e.ProviderRetry?)
      modifies `events
      ensures Valid() && Known() == old(Known()).(shown := Show(old(Known()).shown, e))
    {
      hide Flowing, Marked, SentWhileWorking, Replay, Usages, Announced, Answered, RanResults, Askings, Rulings;
      Yield(e);
    }

    /** Announce one call. */
    method Announce(call: Call)
      requires Valid()
      modifies `events
      ensures Valid() && Replay(events) == old(Replay(events)) && Usages(events) == old(Usages(events))
      ensures Dealt(events) == old(Dealt(events)).(announced := old(Announced(events)) + [call])
    {
      hide Flowing, Marked, SentWhileWorking, Replay, Usages, Announced, Answered, RanResults, Askings, Rulings;
      Yield(ToolCall(call));
    }

    /** Tell the result of the earliest open call; `ran` when the tool produced it. */
    method Resolve(call: Call, ran: bool, proposal: bool, decision: bool, ghost awaiting: bool)
      requires At(awaiting) && Answered(events) + [call] <= Announced(events)
      modifies `events
      ensures Open() && events == old(events) + [ToolResult(call, ran, proposal, decision)]
      ensures if proposal then Stage().Closing? else if decision && !awaiting then Stage() == Deciding(call) else At(awaiting)
      ensures Replay(events) == old(Replay(events)) && Usages(events) == old(Usages(events))
      ensures Dealt(events) == WithResult(old(Dealt(events)), call, ran)
    {
      hide Flowing, Marked, SentWhileWorking, Replay, Usages, Announced, Answered, RanResults, Askings, Rulings;
      Yield(ToolResult(call, ran, proposal, decision));
    }

    method Yield(e: Event)
      requires Open() && !Ends(e) && !e.UsageDelta? && OnRequest(events, e)
      requires e.ToolResult? ==> Answered(events) + [e.call] <= Announced(events)
      modifies `events
      ensures Open() && events == old(events) + [e] && Stage() == NextStage(old(Stage()), e)
      ensures Replay(events) == Show(Replay(old(events)), e)
      ensures Usages(events) == Usages(old(events))
      ensures Announced(events) == Announced(old(events)) + if e.ToolCall? then [e.call] else []
      ensures Answered(events) == Answered(old(events)) + if e.ToolResult? then [e.call] else []
      ensures RanResults(events) == RanResults(old(events)) + if e.ToolResult? && e.ran then [|Answered(old(events))|] else []
      ensures Askings(events) == Askings(old(events)) + if e.ToolApprovalRequired? then [Asking(e.approvalId, e.callId)] else []
      ensures Rulings(events) ==
              Rulings(old(events)) + if e.ToolApprovalResolved? then [Ruling(e.approvalId, e.callId, e.approved)] else []
    {
      EventsSnoc(events, e);
      StageSnoc(events, e);
      SentLater(sentAt, events, e);
      StillAnswering(events, e);
      MarkedLater(marks, events, e);
      events := events + [e];
    }

    /** `add_usage`, and the event that tells of it. */
    method Spend(usage: Usage)
      requires Valid()
      modifies `events, `total
      ensures Valid() && events == old(events) + [UsageDelta(usage)]
      ensures Known() == old(Known()).(usages := old(Known()).usages + [usage])
    {
      hide Flowing, Marked, SentWhileWorking, Replay, Usages, Announced, Answered, RanResults, Askings, Rulings;
      EventsSnoc(events, UsageDelta(usage));
      StageSnoc(events, UsageDelta(usage));
      SentLater(sentAt, events, UsageDelta(usage));
      StillAnswering(events, UsageDelta(usage));
      UsagesSnoc(Usages(events), usage);
      MarkedLater(marks, events, UsageDelta(usage));
      total := AddUsage(total, usage);
      events := events + [UsageDelta(usage)];
    }

    /** Stand behind the response of a stream that has been shown in full. */
    ghost method Stand(stream: Stream, recorded: seq<Usage>)
      requires Valid() && Complete(stream) && recorded == Usages(events)
      requires Replay(events) == Plus(Committed(), ContentOf(stream.events), ReasoningOf(stream.events))
      modifies `marks
      ensures Valid() && marks == old(marks) + [Mark(events, stream, recorded)] && Replay(events) == Committed()
    {
      MarkedSnoc(marks, events, stream, recorded);
      CommittedSnoc(marks, Mark(events, stream, recorded));
      marks := marks + [Mark(events, stream, recorded)];
    }

    /** The end of a run at work: it failed or reached a limit. */
    method End(e: Event, ghost steps: nat)
      requires Valid() && (e.Limited? || e.Failed?) && Counts(e, steps)
      requires e.Limited? ==> e.total == total && Replay(events) == Committed()
      modifies `events
      ensures Finished(steps) && events == old(events) + [e] && Dealt(events) == old(Dealt(events))
    {
      EndAt(e, false, steps);
    }

    /** The same, or that of a run that waits for a decision. */
    method EndAt(e: Event, ghost awaiting: bool, ghost steps: nat)
      requires At(awaiting) && (e.Failed? || if awaiting then e.Done? && !e.stoppedAtLimit else e.Limited?) && Counts(e, steps)
      requires !e.Failed? ==> e.total == total && Replay(events) == Committed()
      modifies `events
      ensures Finished(steps) && events == old(events) + [e] && Dealt(events) == old(Dealt(events))
    {
      NoAnswerYet(events);
      Close(e, steps);
    }

    /** The terminal event, after which nothing is yielded. */
    method Close(e: Event, ghost steps: nat)
      requires Open() && Ends(e) && Counts(e, steps) && EndsFrom(Stage(), e) && AnswerStands(events, e, marks)
      requires !e.Failed? ==> e.total == total && Replay(events) == Committed()
      modifies `events
      ensures Finished(steps) && events == old(events) + [e] && Dealt(events) == old(Dealt(events))
    {
      ConcludedBy(events, marks, e, steps);
      SentLater(sentAt, events, e);
      events := events + [e];
    }
  }

  /** An event keeps the run going when it does not end it and answers, if it
      answers anything, the earliest open call. */
  lemma {:induction false} StillAnswering(events: seq<Event>, e: Event)
    requires Flowing(events) && !Ends(e) && OnRequest(events, e)
    requires e.ToolResult? ==> Answered(events) + [e.call] <= Announced(events)
    ensures Flowing(events + [e])
    ensures !e.UsageDelta? ==> Usages(events + [e]) == Usages(events)
  {
    EventsSnoc(events, e);
    assert Answered(events + [e]) == Answered(events) + (if e.ToolResult? then [e.call] else []);
    assert Answered(events) <= Announced(events);
    assert Announced(events) + [] == Announced(events) && Answered(events) + [] == Answered(events);
  }

  // ----- the budget and its clock -----

  /** A limit reached at one check is reached at every later one. */
  predicate Latched(readings: seq<Reading>)
    decreases |readings|
  {
    var n := |readings| - 1;
    readings == [] || (Latched(readings[..n]) && (n > 0 && Stops(readings[n - 1]) ==> Stops(readings[n])))
  }

  lemma {:induction false} LatchedSnoc(readings: seq<Reading>, r: Reading)
    requires Latched(readings) && (readings != [] && Stops(readings[|readings| - 1]) ==> Stops(r))
    ensures Latched(readings + [r])
  {
    assert (readings + [r])[..|readings|] == readings;
  }

  lemma {:induction false} LatchedAt(readings: seq<Reading>, i: nat, j: nat)
    requires Latched(readings) && i <= j < |readings| && Stops(readings[i])
    ensures Stops(readings[j])
    decreases |readings|, j
  {
    var n := |readings| - 1;
    if j < n {
      LatchedAt(readings[..n], i, j);
    } else if i < j {
      LatchedAt(readings[..n], i, j - 1);
    }
  }

  class Meter {
    const budget: RunBudget
    var now: nat
    /** What every check of the limits has read. */
    ghost var readings: seq<Reading>

    ghost predicate Valid()
      reads this, budget
    {
      && budget.Valid() && budget.clock == now && Latched(readings)
      && (LimitSeen() ==> budget.Reason(now).Some?)
    }

    /** The last check found a limit reached; every earlier limit is found again. */
    ghost predicate LimitSeen()
      reads `readings
    {
      readings != [] && Stops(readings[|readings| - 1])
    }

    /** The last check found none. */
    ghost predicate Clear()
      reads `readings
    {
      readings != [] && !Stops(readings[|readings| - 1])
    }

    ghost function Last(): (r: Reading)
      requires readings != []
      reads `readings
      ensures r in readings
    {
      readings[|readings| - 1]
    }

    constructor (limits: Limits, now: nat)
      ensures Valid() && fresh(budget) && readings == [] && budget.usages == [] && budget.limits == limits
    {
      this.now, readings := now, [];
      budget := new RunBudget(limits, now);
    }

    /** Time passes, arbitrarily much. */
    method Wait()
      requires Valid()
      modifies `now, budget`clock
      ensures Valid() && old(now) <= now
    {
      Sleep(0);
    }

    /** At least the delay passes. */
    method Sleep(delay: nat)
      requires Valid()
      modifies `now, budget`clock
      ensures Valid() && old(now) + delay <= now
    {
      var passed :| passed >= delay;
      budget.Tick(now + passed);
      now := now + passed;
    }

    /** `budget.reason()`: a limit seen once is seen at every later check. */
    method Check() returns (reason: Option<Reason>)
      requires Valid()
      modifies `now, `readings, budget`clock
      ensures Valid() && old(now) <= now && reason == budget.Reason(now)
      ensures readings == old(readings) + [budget.ReadingAt(now)]
      ensures LimitSeen() == reason.Some? && Clear() == reason.None? && (old(LimitSeen()) ==> LimitSeen())
    {
      hide RunBudget.Valid;
      Wait();
      reason := budget.Reason(now);
      LatchedSnoc(readings, budget.ReadingAt(now));
      readings := readings + [budget.ReadingAt(now)];
    }

    method Remaining() returns (left: Option<nat>)
      requires Valid()
      modifies `now, budget`clock
      ensures Valid() && old(now) <= now && left == budget.RemainingTime(now)
    {
      Wait();
      left := budget.RemainingTime(now);
    }

    method Record(usage: Usage)
      requires Valid()
      modifies budget`tokens, budget`cost, budget`costUnknown, budget`usages
      ensures Valid() && budget.usages == old(budget.usages) + [usage]
    {
      budget.Record(usage);
    }

    method Pause()
      requires Valid()
      modifies `now, budget`clock, budget`pausedSince
      ensures Valid() && old(now) <= now
      ensures budget.pausedSince == if old(budget.pausedSince).Some? then old(budget.pausedSince) else Some(now)
    {
      var passed :| passed >= 0;
      budget.PauseClock(now + passed);
      now := now + passed;
    }

    method Resume()
      requires Valid()
      modifies `now, budget`clock, budget`pausedSince, budget`paused, budget`pauses
      ensures Valid() && old(now) <= now && budget.pausedSince.None?
      ensures budget.pauses == if old(budget.pausedSince).Some? then old(budget.pauses) + [(old(budget.pausedSince).value, now)]
                               else old(budget.pauses)
    {
      var passed :| passed >= 0;
      budget.ResumeClock(now + passed);
      now := now + passed;
    }
  }

  // ----- the provider and the ledger -----

  datatype Completion = Completion(message: Message, usage: Usage)

  type Outcome = Result<Completion, Failure>

  /** The usage of every completion that came. */
  function Replies(outcomes: seq<Outcome>): seq<Usage> {
    if outcomes == [] then []
    else
      var last := outcomes[|outcomes| - 1];
      Replies(outcomes[..|outcomes| - 1]) + if last.Ok? then [last.value.usage] else []
  }

  lemma {:induction false} RepliesSnoc(outcomes: seq<Outcome>, o: Outcome)
    ensures Replies(outcomes + [o]) == Replies(outcomes) + if o.Ok? then [o.value.usage] else []
  {
    assert (outcomes + [o])[..|outcomes|] == outcomes;
  }

  function LastCame(outcomes: seq<Outcome>): Option<Outcome> {
    if outcomes == [] then None else Some(outcomes[|outcomes| - 1])
  }

  /** A failure after which the request is sent again. */
  predicate Passing(o: Outcome) { o.Err? && o.error.retryable }

  class Provider {
    ghost const origin: Talk
    ghost const meter: Meter
    /** Where it is noted when a request leaves. */
    const journal: Journal
    /** What the ledger holds: requests and the responses of completed steps. */
    var ledger: seq<Commit>
    var responses: seq<Response>
    /** Every request that left, with how the run came to it. */
    ghost var sent: seq<Sent>
    /** Everything that came back. */
    ghost var streams: seq<Stream>
    ghost var outcomes: seq<Outcome>

    ghost predicate Valid()
      reads `sent, `ledger, meter`readings, journal`sentAt
    {
      AllSound(origin, sent) && AllCommitted(ledger, sent) && AllRead(sent, meter.readings) && |journal.sentAt| == |sent|
    }

    /** What came back last, if anything did. */
    ghost function LastOutcome(): Option<Outcome>
      reads `outcomes
    {
      LastCame(outcomes)
    }

    constructor (ghost origin: Talk, ghost meter: Meter, journal: Journal)
      requires journal.sentAt == []
      ensures Valid() && sent == [] && ledger == [] && responses == [] && streams == [] && outcomes == []
      ensures this.origin == origin && this.meter == meter && this.journal == journal
    {
      this.origin, this.meter, this.journal := origin, meter, journal;
      ledger, responses, sent, streams, outcomes := [], [], [], [], [];
    }

    /** `commit_model_request`, for a step or for the final report. */
    method CommitRequest(step: nat, messages: seq<Message>, ask: Ask) returns (ok: bool)
      requires Valid()
      modifies `ledger
      ensures Valid() && ok == !journal.Refuses(ask)
      ensures ledger == if ok then old(ledger) + [Commit(step, messages)] else old(ledger)
    {
      ok := !journal.Refuses(ask);
      if ok {
        ledger := ledger + [Commit(step, messages)];
      }
    }

    /** `commit_model_response`. */
    method CommitResponse(r: Response) returns (ok: bool)
      modifies `responses
      ensures responses == (if ok then old(responses) + [r] else old(responses)) && ok == !journal.Refuses(ResponseCommit)
    {
      ok := !journal.Refuses(ResponseCommit);
      if ok {
        responses := responses + [r];
      }
    }

    /** The request is behind the last check of the limits. */
    ghost predicate IsNow(s: Sent)
      reads meter`readings
    {
      meter.readings != [] && s.reading == meter.Last()
    }

    ghost method Send(s: Sent)
      requires Valid() && journal.Valid() && Sound(origin, s) && IsNow(s)
      requires NeedsCommit(s.kind) ==> Commit(s.kind.step, s.messages) in ledger
      modifies `sent, journal`sentAt
      ensures Valid() && journal.Valid() && sent == old(sent) + [s]
      ensures TallyOf(sent) == Counted(old(TallyOf(sent)), s.kind, 1)
    {
      TallySnoc(sent, s);
      SoundSnoc(origin, sent, s);
      ReadSnoc(sent, s, meter.readings);
      journal.Note();
      sent := sent + [s];
    }

    method Open(messages: seq<Message>, ghost s: Sent) returns (stream: Stream)
      requires Valid() && journal.Valid() && Sound(origin, s) && IsNow(s) && s.messages == messages
      requires s.kind.StepRequest? && Commit(s.kind.step, s.messages) in ledger
      modifies `sent, `streams, journal`sentAt
      ensures Valid() && journal.Valid() && sent == old(sent) + [s] && streams == old(streams) + [stream]
      ensures TallyOf(sent) == Counted(old(TallyOf(sent)), s.kind, 1)
      ensures FinishesOnce(stream.events)
    {
      Send(s);
      assert FinishesOnce([]);
      var events: seq<StreamEvent> :| FinishesOnce(events);
      var calls: seq<Call>, failure: Option<Failure> := *, *;
      stream := Stream(events, calls, failure);
      streams := streams + [stream];
    }

    method Complete(messages: seq<Message>, ghost s: Sent) returns (out: Outcome)
      requires Valid() && journal.Valid() && Sound(origin, s) && IsNow(s) && s.messages == messages
      requires NeedsCommit(s.kind) ==> Commit(s.kind.step, s.messages) in ledger
      modifies `sent, `outcomes, journal`sentAt
      ensures Valid() && journal.Valid() && sent == old(sent) + [s] && outcomes == old(outcomes) + [out]
      ensures TallyOf(sent) == Counted(old(TallyOf(sent)), s.kind, 1)
    {
      Send(s);
      out := *;
      outcomes := outcomes + [out];
    }

    /** `complete_with_retry`: at most one attempt and four retries, each after a
        failure worth one, all of the same request. */
    method CompleteWithRetry(messages: seq<Message>, ghost s: Sent) returns (out: Outcome, ghost failed: seq<Outcome>)
      requires Valid() && journal.Valid() && Sound(origin, s) && IsNow(s) && s.messages == messages && !s.kind.StepRequest?
      requires NeedsCommit(s.kind) ==> Commit(s.kind.step, s.messages) in ledger
      modifies `sent, `outcomes, journal`sentAt
      ensures Valid() && journal.Valid() && old(sent) <= sent && forall i :: |old(sent)| <= i < |sent| ==> sent[i] == s
      ensures |sent| == |old(sent)| + |failed| + 1 && outcomes == old(outcomes) + failed + [out] && LastOutcome() == Some(out)
      ensures |failed| <= MAX_PROVIDER_RETRIES && forall f :: f in failed ==> Passing(f)
      ensures out.Err? ==> !out.error.retryable || |failed| == MAX_PROVIDER_RETRIES
      ensures Replies(outcomes) == old(Replies(outcomes)) + if out.Ok? then [out.value.usage] else []
      ensures var most := MAX_PROVIDER_RETRIES + 1;
              if s.kind.WrapUpRequest? then Within(old(TallyOf(sent)), TallyOf(sent), 0, 0, most)
              else Within(old(TallyOf(sent)), TallyOf(sent), 0, most, 0)
    {
      hide AllSound, AllCommitted, Sound, MadeFrom, Replies, Journal.Valid;
      var attempts: nat := 0;
      failed := [];
      while true
        invariant Valid() && journal.Valid() && attempts == |failed| <= MAX_PROVIDER_RETRIES
        invariant TallyOf(sent) == Counted(old(TallyOf(sent)), s.kind, attempts)
        invariant old(sent) <= sent && forall i :: |old(sent)| <= i < |sent| ==> sent[i] == s
        invariant |sent| == |old(sent)| + attempts && outcomes == old(outcomes) + failed
        invariant forall f :: f in failed ==> Passing(f)
        decreases MAX_PROVIDER_RETRIES - attempts
      {
        attempts := attempts + 1;
        out := Complete(messages, s);
        if out.Ok? || !(attempts <= MAX_PROVIDER_RETRIES && out.error.retryable) {
          RepliesAfter(old(outcomes), failed, out);
          return;
        }
        failed := failed + [out];
      }
    }
  }

  lemma {:induction false} RepliesAfter(outcomes: seq<Outcome>, failed: seq<Outcome>, out: Outcome)
    requires forall f :: f in failed ==> Passing(f)
    ensures Replies(outcomes + failed) == Replies(outcomes)
    ensures Replies(outcomes + failed + [out]) == Replies(outcomes) + if out.Ok? then [out.value.usage] else []
  {
    RepliesSnoc(outcomes + failed, out);
    if failed == [] {
      assert outcomes + failed == outcomes;
    } else {
      var front, last := failed[..|failed| - 1], failed[|failed| - 1];
      RepliesAfter(outcomes, front, last);
      assert last in failed && outcomes + failed == outcomes + front + [last];
      assert Replies(outcomes) + [] == Replies(outcomes);
    }
  }
}
