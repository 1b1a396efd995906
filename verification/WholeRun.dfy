/** Whole runs of the agent loop, and what holds of every one of them. */
module WholeRun {
  import opened Wrappers
  import opened Messages
  import opened Conversation
  import opened Folding
  import opened Trace
  import opened Usage
  import opened RunBudget
  import opened Marks
  import opened Stages
  import opened Services
  import opened ModelStep
  import opened ToolLog
  import opened Approvals
  import opened ToolSafety
  import opened ToolStep
  import opened Turns
  import opened AgentLoop
  import opened RepeatTracker
  import Compaction
  import B = ApprovalBroker

  /** What a run leaves: all it sent and got, yielded, committed and did, what its
      checks of the limits read, how many events came before each request, and what
      the outside had to say. */
  datatype Record = Record(
    origin: Talk, events: seq<Event>, sent: seq<Sent>, sentAt: seq<nat>, streams: seq<Stream>, outcomes: seq<Outcome>,
    ledger: seq<Commit>, responses: seq<Response>, marks: seq<Mark>, turns: seq<Turn>, log: Log, answers: seq<B.Answer>,
    readings: seq<Reading>, outside: (Ask, seq<Event>) -> bool)

  predicate LimitReached(readings: seq<Reading>) { readings != [] && Stops(readings[|readings| - 1]) }

  /** What every run keeps, in the terms the loop maintains it. */
  ghost predicate Kept(r: Record, registry: Registry, policy: Policy, maxIterations: nat, waiting: bool) {
    && AllSound(r.origin, r.sent) && AllCommitted(r.ledger, r.sent)
    && Within(Tally(0, 0, 0), TallyOf(r.sent), 10 * maxIterations, 20 * maxIterations, 5)
    && Held(r.marks, r.responses, r.streams) && |r.marks| <= maxIterations
    && Taken(registry, policy, r.turns, r.marks) && |r.turns| <= |r.marks| <= |r.turns| + 1
    && Lawful(registry, policy, r.log, r.answers) && B.ResolvedOnce(r.answers) && RanResults(r.events) <= RanNumbers(r.log)
    && Begun(r.log) == Announced(r.events) == CarriedCalls(registry, r.marks, |r.turns|)
    && Askings(r.events) == AskingsOf(r.log) && RuledBut(Askings(r.events), Rulings(r.events), r.answers, waiting)
    && AllRead(r.sent, r.readings) && AllRanRead(r.log, r.readings) && Latched(r.readings)
    && |r.sentAt| == |r.sent| && SentWhileWorking(r.sentAt, r.events)
    && if waiting then Flowing(r.events) && StageOf(r.events).Working? && Marked(r.marks, r.events)
       else Concluded(r.events, r.marks, |r.marks|) && ReportStands(r.events, LastCame(r.outcomes))
            && CauseStands(r.events, r.outside, r.streams, LimitReached(r.readings) || |r.marks| >= maxIterations)
  }

  /** A run from a message list, on a broker it may share with others. */
  method RunAgent(
    messages: seq<Message>, limits: Limits, contextWindow: Option<nat>, toolsChars: nat, backoff: nat, iterations: nat, wrapUp: bool,
    registry: Registry, policy: Policy, timesOut: bool, broker: B.ToolApprovalBroker, now: nat, outside: (Ask, seq<Event>) -> bool)
    returns (events: seq<Event>, waiting: bool, ghost r: Record)
    requires broker.Valid()
    modifies broker
    ensures broker.Valid() && r.answers == broker.log
    ensures r.events == events && r.origin == Talk(messages, LastUser(messages)) && r.outside == outside
    ensures Kept(r, registry, policy, if iterations > 1 then iterations else 1, waiting)
  {
    hide Kept, Loop.After;
    var run := new AgentRun(messages, limits, contextWindow, toolsChars, backoff, now, outside);
    var tools := new Tools(registry, policy, timesOut, broker);
    var loop := new Loop(run, tools, iterations, wrapUp);
    var next := loop.Execute();
    events, waiting := run.journal.events, next.Waiting?;
    r := RecordOf(loop);
    LoopKeeps(loop, next);
  }

  ghost function RecordOf(loop: Loop): Record
    reads loop, loop.run.journal, loop.run.meter, loop.run.provider, loop.tools, loop.tools.broker
  {
    var run := loop.run;
    Record(run.provider.origin, run.journal.events, run.provider.sent, run.journal.sentAt, run.provider.streams, run.provider.outcomes,
           run.provider.ledger, run.provider.responses, run.journal.marks, loop.turns, loop.tools.log, loop.tools.broker.log,
           run.meter.readings, run.journal.outside)
  }

  lemma LoopKeeps(loop: Loop, next: Next)
    requires !next.Onward? && loop.After(next)
    ensures Kept(RecordOf(loop), loop.tools.registry, loop.tools.policy, loop.maxIterations, next.Waiting?)
    ensures loop.tools.broker.Valid()
  {}

  // ----- requests -----

  /** Every request of any run answers every tool call in place, if its start did;
      every model step and final report holds the request that started the run,
      unchanged, and leaves exactly as the ledger has it; and unless it asks for the
      final report, the check of the limits before it found none reached. */
  lemma EveryRequest(r: Record, registry: Registry, policy: Policy, maxIterations: nat, waiting: bool, i: nat, request: Message)
    requires Kept(r, registry, policy, maxIterations, waiting) && i < |r.sent|
    ensures Paired(r.origin.messages) ==> Paired(r.sent[i].messages)
    ensures NeedsCommit(r.sent[i].kind) ==> Commit(r.sent[i].kind.step, r.sent[i].messages) in r.ledger
    ensures NeedsCommit(r.sent[i].kind) && Anchored(r.origin, request) ==> request in r.sent[i].messages
    ensures r.sent[i].kind.StepRequest? && SummariesDoNotStack(r.origin.messages) ==> SummariesDoNotStack(r.sent[i].messages)
    ensures r.sent[i].reading in r.readings && (!r.sent[i].kind.WrapUpRequest? ==> ReasonIn(r.sent[i].reading).None?)
  {
    hide Lawful, Taken, Held, Concluded, Marked;
    var s := r.sent[i];
    SoundAt(r.origin, r.sent, i);
    ReadAt(r.sent, r.readings, i);
    if Paired(r.origin.messages) {
      RequestIsPaired(r.origin, s);
    }
    if NeedsCommit(s.kind) {
      RequestHoldsOrigin(r.origin, s, request);
    }
  }

  /** Any run makes at most 30 provider calls a step and 5 more at the end. */
  lemma RunIsBounded(r: Record, registry: Registry, policy: Policy, maxIterations: nat, waiting: bool)
    requires Kept(r, registry, policy, maxIterations, waiting)
    ensures |r.sent| <= 30 * maxIterations + 5
  {
    TallyIsComplete(r.sent);
  }

  // ----- text and usage -----

  /** Behind every committed response: it is the whole of some finished stream; the
      text a consumer has collected by then is that of the responses so far; and the
      budget's tokens are those of the running total exactly while neither of its
      counters has wrapped. */
  lemma AccountsAgree(r: Record, registry: Registry, policy: Policy, maxIterations: nat, waiting: bool, i: nat)
    requires Kept(r, registry, policy, maxIterations, waiting) && i < |r.responses|
    ensures i < |r.marks| == |r.responses|
    ensures var m := r.marks[i];
            && m.events <= r.events && (i + 1 < |r.marks| ==> m.events <= r.marks[i + 1].events)
            && m.stream in r.streams && Complete(m.stream) && r.responses[i] == ResponseOf(m.stream)
            && Replay(m.events) == Shown(r.responses[..i + 1])
            && m.recorded == Usages(m.events)
            && (Total(Usages(m.events)).prompt + Total(Usages(m.events)).completion == Tokens(m.recorded)
                <==> PromptTokens(m.recorded) < 0x1_0000_0000 && CompletionTokens(m.recorded) < 0x1_0000_0000)
  {
    hide Taken, Lawful, AllSound, AllCommitted, Latched, AllRead, AllRanRead, TallyOf;
    ResponsesLength(r.marks);
    MarkedAt(r.marks, r.events, i);
    ResponseAt(r.marks, i);
    StreamedAt(r.marks, r.streams, i);
    TotalIsExactIff(r.marks[i].recorded);
    assert r.marks[..i + 1][i] == r.marks[i];
  }

  /** A run that ended without failing leaves a consumer with exactly the committed
      text, and its last event reports all the usage told of and every step. */
  lemma RunEndsInAgreement(r: Record, registry: Registry, policy: Policy, maxIterations: nat)
    requires Kept(r, registry, policy, maxIterations, false)
    ensures r.events != [] && Ends(r.events[|r.events| - 1])
    ensures var last := r.events[|r.events| - 1];
            !last.Failed? ==>
              && Replay(r.events) == Shown(r.responses) && last.total == Total(Usages(r.events))
              && last.iterations <= |r.responses| + if last.Done? && last.stoppedAtLimit then 1 else 0
  {
    ResponsesLength(r.marks);
  }

  // ----- how a run ends -----

  /** An answer is given once, as the run's last word before `Done`. It says what
      the response committed last does, its text and its reasoning, and that response
      makes no call; or it is the final report, in the words of the provider's last
      reply. */
  lemma TheAnswerIsTheReply(r: Record, registry: Registry, policy: Policy, maxIterations: nat, waiting: bool, k: nat)
    requires Kept(r, registry, policy, maxIterations, waiting) && k < |r.events| && r.events[k].Answer?
    ensures !waiting && k == |r.events| - 2 && r.events[k + 1].Done?
    ensures var m := r.events[k].message;
            if r.events[k + 1].stoppedAtLimit then
              var last := LastCame(r.outcomes);
              && last.Some? && Compaction.AnsweredWithText(last.value)
              && Says(m, TextContent(last.value.value.message), "")
            else
              && r.responses != []
              && var last := r.responses[|r.responses| - 1];
              && last.calls == [] && Says(m, last.content, last.reasoning)
  {
    hide Taken, Lawful, AllSound, AllCommitted, Latched, AllRead, AllRanRead, TallyOf, CarriedCalls, SentWhileWorking, Says;
    LastWordsEnd(r, registry, policy, maxIterations, waiting, k);
    ResponsesLength(r.marks);
    if r.marks != [] {
      ResponseAt(r.marks, |r.marks| - 1);
    }
  }

  /** Behind an answer, or a result that proposes a worker run, only `Done` follows,
      and no request leaves. */
  lemma LastWordsEnd(r: Record, registry: Registry, policy: Policy, maxIterations: nat, waiting: bool, k: nat)
    requires Kept(r, registry, policy, maxIterations, waiting) && k < |r.events| && LastWords(r.events[k])
    ensures !waiting && k == |r.events| - 2 && r.events[k + 1].Done?
    ensures forall i :: 0 <= i < |r.sentAt| ==> r.sentAt[i] <= k
  {
    hide Taken, Lawful, Held, Marked, AllSound, AllCommitted, Latched, AllRead, AllRanRead, TallyOf, CarriedCalls;
    hide SentWhileWorking, Begun, Announced, RanResults, Askings, Rulings, RanNumbers, CauseStands, ReportStands, Replay, Usages;
    if waiting {
      WorkingIsQuiet(r.events, k);
    } else {
      LastWordsAreLast(r.events[..|r.events| - 1], k);
    }
    forall i | 0 <= i < |r.sentAt| ensures r.sentAt[i] <= k {
      SentBefore(r.sentAt, r.events, i, k);
    }
  }

  /** No request leaves behind what a run ends or waits for. */
  lemma SentBefore(sentAt: seq<nat>, events: seq<Event>, i: nat, k: nat)
    requires SentWhileWorking(sentAt, events) && i < |sentAt| && k < |events|
    requires LastWords(events[k]) || AsksUser(events[k]) || events[k].UserDecisionRequested?
    ensures sentAt[i] <= k
  {
    assert WorkedAt(events, sentAt[i]);
    if k < sentAt[i] {
      WorkingIsQuiet(events[..sentAt[i]], k);
    }
  }

  /** The user is told of one decision in a run, right behind the first result that
      asks for one; then only the step's other results follow and the run ends, and
      no request leaves. */
  lemma DecisionsEndTheRun(r: Record, registry: Registry, policy: Policy, maxIterations: nat, waiting: bool, k: nat)
    requires Kept(r, registry, policy, maxIterations, waiting) && k < |r.events| && r.events[k].UserDecisionRequested?
    ensures !waiting && 0 < k < |r.events| - 1 && AsksUser(r.events[k - 1]) && r.events[k - 1].call == r.events[k].call
    ensures forall j :: 0 <= j < k - 1 ==> !AsksUser(r.events[j])
    ensures forall j :: k < j < |r.events| - 1 ==> r.events[j].ToolResult?
    ensures var last := r.events[|r.events| - 1]; last.Failed? || (last.Done? && !last.stoppedAtLimit)
    ensures forall i :: 0 <= i < |r.sentAt| ==> r.sentAt[i] < k
  {
    hide Taken, Lawful, Held, Marked, AllSound, AllCommitted, Latched, AllRead, AllRanRead, TallyOf, CarriedCalls;
    hide SentWhileWorking, Begun, Announced, RanResults, Askings, Rulings, RanNumbers, CauseStands, ReportStands, Replay, Usages;
    hide StageOf, AskingsOf, RuledBut, B.ResolvedOnce, Flowing;
    if waiting {
      WorkingIsQuiet(r.events, k);
    } else {
      ToldThenEnded(r.events, k);
    }
    forall i | 0 <= i < |r.sentAt| ensures r.sentAt[i] < k {
      SentBefore(r.sentAt, r.events, i, k - 1);
    }
  }

  /** Every result that asks for a decision has the user told of one, at the latest
      right behind it. */
  lemma DecisionsAreTold(r: Record, registry: Registry, policy: Policy, maxIterations: nat, waiting: bool, k: nat) returns (j: nat)
    requires Kept(r, registry, policy, maxIterations, waiting) && k < |r.events| && AsksUser(r.events[k])
    ensures 0 < j <= k + 1 && j < |r.events| && r.events[j].UserDecisionRequested?
  {
    hide Taken, Lawful, Held, Marked, AllSound, AllCommitted, Latched, AllRead, AllRanRead, TallyOf, CarriedCalls;
    hide SentWhileWorking, Begun, Announced, RanResults, Askings, Rulings, RanNumbers, CauseStands, ReportStands, Replay, Usages;
    if waiting {
      WorkingIsQuiet(r.events, k);
    } else {
      j := AskedIsTold(r.events[..|r.events| - 1], k);
    }
  }

  /** A run is done exactly when it gave an answer, or a result proposed a worker
      run, or the user was told that a decision is wanted and every result came in. */
  lemma DoneIff(r: Record, registry: Registry, policy: Policy, maxIterations: nat)
    requires Kept(r, registry, policy, maxIterations, false)
    ensures var n := |r.events|;
            && n > 0
            && (r.events[n - 1].Done? <==>
                  !r.events[n - 1].Failed? && n > 1
                  && (LastWords(r.events[n - 2]) || exists k :: 0 <= k < n && r.events[k].UserDecisionRequested?))
  {
    hide Taken, Lawful, Held, Marked, AllSound, AllCommitted, Latched, AllRead, AllRanRead, TallyOf, CarriedCalls;
    hide SentWhileWorking, Begun, Announced, RanResults, Askings, Rulings, RanNumbers, CauseStands, ReportStands, Replay, Usages;
    var front, last := r.events[..|r.events| - 1], r.events[|r.events| - 1];
    if last.Done? {
      if StageOf(front).Awaiting? {
        var j := AwaitingWasTold(front);
        assert r.events[j].UserDecisionRequested?;
      }
    } else if last.Limited? {
      forall k | 0 <= k < |front| ensures !LastWords(r.events[k]) && !r.events[k].UserDecisionRequested? {
        WorkingIsQuiet(front, k);
      }
    }
  }

  /** A run that failed did so because the ledger or a hook said no behind just what
      it had yielded, or the last stream failed, broke off, or had a prompt too long;
      and one that a limit ended, with a report or without, found one reached at its
      last check or had used all its steps. */
  lemma RunEndsForACause(r: Record, registry: Registry, policy: Policy, maxIterations: nat)
    requires Kept(r, registry, policy, maxIterations, false)
    ensures r.events != []
    ensures var front, last := r.events[..|r.events| - 1], r.events[|r.events| - 1];
            && (last.Failed? ==>
                  || SomeRefused(r.outside, front)
                  || (r.streams != [] && var s := r.streams[|r.streams| - 1]; s.failure.Some? || !Complete(s) || Overflows(s)))
            && (last.Limited? || (last.Done? && last.stoppedAtLimit) ==>
                  |r.marks| == maxIterations || (r.readings != [] && ReasonIn(r.readings[|r.readings| - 1]).Some?))
  {
    hide Taken, Lawful, Held, Marked, AllSound, AllCommitted, Latched, AllRead, AllRanRead, TallyOf, CarriedCalls;
    hide SentWhileWorking, Begun, Announced, RanResults, Askings, Rulings, RanNumbers, Replay, Usages;
  }

  // ----- steps that make no call -----

  /** However a run goes, another step follows a whole answer at most three times,
      and at most five steps on end make no call and are followed by another. */
  lemma FewStepsMakeNoCall(r: Record, registry: Registry, policy: Policy, maxIterations: nat, waiting: bool, i: nat, j: nat)
    requires Kept(r, registry, policy, maxIterations, waiting) && i <= j < |r.responses|
    requires forall k :: i <= k < j ==> r.responses[k].calls == []
    ensures |r.marks| == |r.responses| && j - i <= 5 && WholeAnswers(r.marks, |r.marks| - 1) <= 3
    ensures !policy.hooked ==> WholeAnswers(r.marks, |r.marks| - 1) == 0 && j - i <= 2
  {
    hide Lawful, AllSound, AllCommitted, Latched, AllRead, AllRanRead, TallyOf, Concluded, Marked;
    hide Begun, Announced, RanResults, Askings, Rulings, RanNumbers, CarriedCalls, Taken, WholeAnswers;
    ResponsesLength(r.marks);
    forall k | i <= k < j ensures r.marks[k].stream.calls == [] {
      ResponseAt(r.marks, k);
    }
    WholeAnswersGoOn(registry, policy, r.turns, r.marks);
    WholeAnswersGrow(r.marks, |r.marks| - 1, |r.turns|);
    CallLessSteps(registry, policy, r.turns, r.marks, i, j);
  }

  lemma {:induction false} WholeAnswersGrow(marks: seq<Mark>, m: nat, n: nat)
    requires m <= n <= |marks|
    ensures WholeAnswers(marks, m) <= WholeAnswers(marks, n)
  {
    if m < n {
      WholeAnswersGrow(marks, m, n - 1);
    }
  }

  /** A limit found reached at one check is found reached at every later one. */
  lemma LimitsStayReached(r: Record, registry: Registry, policy: Policy, maxIterations: nat, waiting: bool, i: nat, j: nat)
    requires Kept(r, registry, policy, maxIterations, waiting) && i <= j < |r.readings| && ReasonIn(r.readings[i]).Some?
    ensures ReasonIn(r.readings[j]).Some?
  {
    hide Lawful, Taken, Held, Concluded, Marked, AllSound, AllCommitted, ReasonIn;
    LatchedAt(r.readings, i, j);
  }

  // ----- tools -----

  /** The calls announced, and so heard about, asked about and run, are those of the
      committed replies the run followed, in order, each as the registry resolves it. */
  lemma {:induction false} CallsAreTheModels(r: Record, registry: Registry, policy: Policy, maxIterations: nat, waiting: bool, i: nat)
    requires Kept(r, registry, policy, maxIterations, waiting) && i < |r.log| && !r.log[i].Began?
    ensures |r.turns| <= |r.marks| && Announced(r.events) == CarriedCalls(registry, r.marks, |r.turns|)
    ensures r.log[i].n < |Announced(r.events)| && r.log[i].call == Announced(r.events)[r.log[i].n]
  {
    hide Taken, Held, Concluded, Marked, AllSound, AllCommitted, Lawful, Begun, NotedCount, FateOf, Undenied, Explains, Clears;
    LawfulAt(registry, policy, r.log, r.answers, i);
    LaterHasMore(r.log, i, |r.log|);
    assert r.log[..|r.log|] == r.log;
  }

  /** Every result a consumer is shown as a tool's own comes from a run of that very
      call, with valid arguments, behind a check that found no limit reached; and with
      a broker in place, unless the call is read-only, because for this call the
      interceptor said yes, or the user was asked and approved. */
  lemma ResultsWereApproved(r: Record, registry: Registry, policy: Policy, maxIterations: nat, waiting: bool, k: nat) returns (i: nat)
    requires Kept(r, registry, policy, maxIterations, waiting)
    requires k < |r.events| && r.events[k].ToolResult? && r.events[k].ran
    ensures i < |r.log| && r.log[i].Ran? && r.log[i].n == |Answered(r.events[..k])|
    ensures r.log[i].n < |Announced(r.events)| && r.log[i].call == Announced(r.events)[r.log[i].n] == r.events[k].call
    ensures Accepts(registry, r.log[i].call) && Undenied(registry, r.log[..i], r.log[i].call)
    ensures r.log[i].reading in r.readings && ReasonIn(r.log[i].reading).None?
    ensures policy.asks && !ReadOnly(registry, r.log[i].call) ==> ApprovedByHook(policy, r.log, i) || ApprovedByUser(r.log, r.answers, i)
  {
    hide Taken, Held, Marked, AllSound, AllCommitted, Lawful, Begun, NotedCount, FateOf, FirstDenial, Explains, Clears;
    hide RanResults, Askings, Rulings;
    hide Concluded, Flowing, Answered, Announced, Undenied, RanNumbers, AllRead, AllRanRead, Latched, CarriedCalls;
    var n := ResultAt(r.events, k);
    i := RunAt(r.log, n);
    LawfulAt(registry, policy, r.log, r.answers, i);
    RanReadAt(r.log, r.readings, i);
    ResultAnswers(r.events, k);
    AnswersInOrder(r.events, r.marks, waiting);
    CallsAreTheModels(r, registry, policy, maxIterations, waiting, i);
    if policy.asks && !ReadOnly(registry, r.log[i].call) {
      OnlyApprovedCallsRun(registry, policy, r.log, r.answers, i);
    }
  }

  /** Whenever the user is asked about a call, the request is told, under the call's
      own id. */
  lemma RequestsAreTold(r: Record, registry: Registry, policy: Policy, maxIterations: nat, waiting: bool, k: nat) returns (i: nat)
    requires Kept(r, registry, policy, maxIterations, waiting) && k < |r.log| && r.log[k].Asked?
    ensures i < |r.events| && r.events[i] == ToolApprovalRequired(r.log[k].id, r.log[k].call.id)
  {
    hide AskingsOf, Askings, Rulings, RuledBut, Lawful, Taken, Held, Concluded, CauseStands, ReportStands;
    AskedIsAsking(r.log, k);
    i := AskingIsTold(r.events, Asking(r.log[k].id, r.log[k].call.id));
  }

  /** A decision is told behind such a request and once for it, and as an approval
      exactly if the broker had the request resolved with one. */
  lemma RulingsAreTrue(r: Record, registry: Registry, policy: Policy, maxIterations: nat, waiting: bool, j: nat) returns (i: nat, k: nat)
    requires Kept(r, registry, policy, maxIterations, waiting) && j < |r.events| && r.events[j].ToolApprovalResolved?
    ensures var e := r.events[j];
            && i < j && r.events[i] == ToolApprovalRequired(e.approvalId, e.callId)
            && k < |r.log| && r.log[k].Asked? && r.log[k].id == e.approvalId && r.log[k].call.id == e.callId
            && (e.approved <==> B.WasResolved(r.answers, e.approvalId, true))
            && forall l :: 0 <= l < |r.events| && r.events[l].ToolApprovalResolved? && r.events[l].approvalId == e.approvalId ==> l == j
  {
    hide AskingsOf, Askings, Rulings, RuledBut, Lawful, Taken, Held, CauseStands, ReportStands, B.WasResolved, Marked, Flowing;
    hide Begun, Announced, CarriedCalls, AllSound, AllCommitted, TallyOf, RanResults, RanNumbers, AllRead, AllRanRead, Latched;
    hide SentWhileWorking, StageOf, AnswerStands, Counts, Replay, B.ResolvedOnce;
    var e := r.events[j];
    ToldIsRuling(r.events, j);
    RulingHolds(Askings(r.events), Rulings(r.events), r.answers, waiting, Ruling(e.approvalId, e.callId, e.approved));
    k := AskingWasAsked(r.log, Asking(e.approvalId, e.callId));
    var going := if waiting then r.events else r.events[..|r.events| - 1];
    assert Flowing(going) && j < |going| && going[j] == e;
    i := RulingFollows(going, j);
    forall l | 0 <= l < |r.events| && r.events[l].ToolApprovalResolved? && r.events[l].approvalId == e.approvalId ensures l == j {
      RuledOnce(r.events, r.answers, waiting, j, l);
    }
  }

  /** Unless the run is left waiting, the decision on every request is told. */
  lemma RequestsAreRuled(r: Record, registry: Registry, policy: Policy, maxIterations: nat, k: nat) returns (j: nat)
    requires Kept(r, registry, policy, maxIterations, false) && k < |r.log| && r.log[k].Asked?
    ensures j < |r.events|
    ensures r.events[j] == ToolApprovalResolved(r.log[k].id, r.log[k].call.id, B.WasResolved(r.answers, r.log[k].id, true))
  {
    hide AskingsOf, Askings, Rulings, Lawful, Taken, Held, Concluded, CauseStands, ReportStands, B.WasResolved;
    var asked, rulings := Askings(r.events), Rulings(r.events);
    AskedIsAsking(r.log, k);
    assert IsRuled(rulings, r.log[k].id);
    var q :| q in rulings && q.approvalId == r.log[k].id;
    assert RulingStands(asked, q, r.answers, {});
    var l := AskingWasAsked(r.log, Asking(q.approvalId, q.callId));
    if l < k {
      AskedOnce(registry, policy, r.log, r.answers, l, k);
    } else if k < l {
      AskedOnce(registry, policy, r.log, r.answers, k, l);
    }
    j := RulingIsTold(r.events, q);
  }

  /** One approval, one run: two runs the user approved answer to requests of their
      own, made for two different calls of the model. */
  lemma OneApprovalOneRun(r: Record, registry: Registry, policy: Policy, maxIterations: nat, waiting: bool, i: nat, j: nat)
    requires Kept(r, registry, policy, maxIterations, waiting) && i < j < |r.log|
    requires r.log[i].Ran? && r.log[j].Ran? && r.log[i].via.UserApproved? && r.log[j].via.UserApproved?
    ensures r.log[i].n != r.log[j].n && r.log[i].via.id != r.log[j].via.id
    ensures B.WasResolved(r.answers, r.log[i].via.id, true) && B.WasResolved(r.answers, r.log[j].via.id, true)
  {
    hide Taken, Held, Concluded, Marked, AllSound, AllCommitted, Lawful, B.WasResolved;
    ApprovalsAreNotShared(registry, policy, r.log, r.answers, i, j);
    var k := RequestOf(registry, policy, r.log, r.answers, i);
    var l := RequestOf(registry, policy, r.log, r.answers, j);
  }

  /** A refusal stands: the refused call never runs, and from the next step on no call
      with its key is heard about, asked about or run. */
  lemma RefusalsStand(
    r: Record, registry: Registry, policy: Policy, maxIterations: nat, waiting: bool, i: nat, k: nat, j: nat, reason: string)
    requires Kept(r, registry, policy, maxIterations, waiting) && i < |r.log| && j < |r.log| && Refuses(r.log[i], r.answers, reason)
    ensures r.log[j].Ran? ==> r.log[j].n != r.log[i].n
    ensures i < k < j && r.log[k].Began? && reason != APPROVAL_TIMEOUT_MESSAGE
            && (r.log[j].HookSaid? || r.log[j].Asked? || r.log[j].Ran?)
            ==> Key(registry, r.log[j].call) != Key(registry, r.log[i].call)
  {
    hide Taken, Held, Concluded, Marked, AllSound, AllCommitted, Lawful, Refuses;
    if r.log[j].Ran? {
      RefusedDoesNotRun(registry, policy, r.log, r.answers, i, j, reason);
    }
    if i < k < j && r.log[k].Began? && reason != APPROVAL_TIMEOUT_MESSAGE
       && (r.log[j].HookSaid? || r.log[j].Asked? || r.log[j].Ran?)
    {
      RefusedStaysRefused(registry, policy, r.log, r.answers, i, k, j, reason);
    }
  }

  lemma {:induction false} ResultAt(events: seq<Event>, k: nat) returns (n: nat)
    requires k < |events| && events[k].ToolResult? && events[k].ran
    ensures n < |RanResults(events)| && RanResults(events)[n] == |Answered(events[..k])|
  {
    if k < |events| - 1 {
      n := ResultAt(events[..|events| - 1], k);
      assert events[..|events| - 1][..k] == events[..k];
    } else {
      n := |RanResults(events[..k])|;
    }
  }

  lemma {:induction false} ResultAnswers(events: seq<Event>, k: nat)
    requires k < |events| && events[k].ToolResult?
    ensures |Answered(events[..k])| < |Answered(events)| && Answered(events)[|Answered(events[..k])|] == events[k].call
  {
    if k < |events| - 1 {
      ResultAnswers(events[..|events| - 1], k);
      assert events[..|events| - 1][..k] == events[..k];
    }
  }

  lemma {:induction false} AnswersInOrder(events: seq<Event>, marks: seq<Mark>, waiting: bool)
    requires if waiting then Flowing(events) else Concluded(events, marks, |marks|)
    ensures Answered(events) <= Announced(events)
  {
    if !waiting {
      var front, last := events[..|events| - 1], events[|events| - 1];
      assert events == front + [last];
      EventsSnoc(front, last);
      assert Answered(front) + [] == Answered(front) && Announced(front) + [] == Announced(front);
    }
  }

  lemma {:induction false} RunAt(log: Log, n: nat) returns (i: nat)
    requires n < |RanNumbers(log)|
    ensures i < |log| && log[i].Ran? && log[i].n == RanNumbers(log)[n]
  {
    var before := log[..|log| - 1];
    if n < |RanNumbers(before)| {
      i := RunAt(before, n);
    } else {
      i := |log| - 1;
    }
  }
}
