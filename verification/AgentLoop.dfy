/** The tool-use loop (`agent_loop`): step after step until the model answers, a
    limit or the iteration bound stops it, something fails, or it has to wait.
    Most methods only combine what they call; `hide` keeps the definitions they do
    not need out of their proofs. */
module AgentLoop {
  import opened Wrappers
  import opened Messages
  import opened Conversation
  import opened Trace
  import opened RunBudget
  import opened Usage
  import opened Marks
  import opened Stages
  import opened Services
  import opened ModelStep
  import opened ToolLog
  import opened ToolCalls
  import opened Approvals
  import opened ToolStep
  import opened Turns
  import opened Window
  import Compaction

  // ----- messages the loop adds -----

  function Reasons(reasoning: string): Option<string> { if reasoning == "" then None else Some(reasoning) }

  function AnswerMessage(reply: Reply): Message {
    Message(Assistant, Some(Text(reply.content)), None, None, Reasons(reply.reasoning))
  }

  function TurnMessage(reply: Reply): Message {
    Message(Assistant, if reply.content == "" then None else Some(Text(reply.content)), Some(reply.calls), None, Reasons(reply.reasoning))
  }

  /** A cut-off or continued answer stays in the list when there was any text. */
  function Continued(reply: Reply): seq<Message> { if reply.content == "" then [] else [AnswerMessage(reply)] }

  /** One note to the model more. */
  ghost predicate NoteAdded(before: seq<Message>, after: seq<Message>) {
    exists note :: after == before + [TextMessage(User, note)]
  }

  /** The answer so far is kept when it has any text: as an assistant message of the
      reply's own text and reasoning. */
  ghost predicate KeepsAnswer(before: seq<Message>, after: seq<Message>, reply: Reply) {
    if reply.content == "" then after == before
    else exists m :: after == before + [m] && Says(m, reply.content, reply.reasoning)
  }

  lemma ContinuedKeeps(before: seq<Message>, reply: Reply)
    ensures KeepsAnswer(before, before + Continued(reply), reply)
  {
    if reply.content == "" {
      assert before + [] == before;
    } else {
      assert before + Continued(reply) == before + [AnswerMessage(reply)];
    }
  }

  /** The turn of a step with calls: the reply's own text and reasoning, if any, and
      its calls as they were made. */
  predicate MakesTurn(m: Message, reply: Reply) {
    && m.role.Assistant? && m.toolCalls == Some(reply.calls)
    && m.content == (if reply.content == "" then None else Some(Text(reply.content)))
    && m.reasoning == if reply.reasoning == "" then None else Some(reply.reasoning)
  }

  lemma ContinuedIsNote(reply: Reply)
    ensures AllNotes(Continued(reply))
  {}

  lemma UserNoteIsNote(notes: seq<Message>, text: string)
    requires AllNotes(notes)
    ensures AllNotes(notes + [TextMessage(User, text)])
  {}

  /** The results of a step answer its calls. */
  lemma StepIsTurn(reply: Reply, executed: seq<Executed>, results: seq<Message>)
    requires AnswersIds(reply.calls, executed) && |results| == |executed| && ResultsFor(executed, results)
    ensures Legal(Edit.Turn(TurnMessage(reply), results)) && MakesTurn(TurnMessage(reply), reply)
  {}

  /** A step that ended while its results came in ended for a cause. */
  lemma StepHasCause(
    events: seq<Event>, outside: (Ask, seq<Event>) -> bool, proposal: bool, iteration: nat, total: Usage, streams: seq<Stream>,
    last: Option<Outcome>)
    requires EndsStep(events, outside, proposal, Done(iteration, false, total))
    ensures CauseStands(events, outside, streams, false) && ReportStands(events, last)
  {
    if events[|events| - 1] == Failed {
      assert Refused(outside, ResultCommit, events[..|events| - 1]);
    }
  }

  /** Whether the run takes another step, is over, or waits for the user still. */
  datatype Next = Onward | Over | Waiting

  class Loop {
    const run: AgentRun
    const tools: Tools
    const maxIterations: nat
    const wrapUp: bool
    var iteration: nat
    /** Notes for the next step, appended after it has been prepared. */
    var pendingNotes: seq<Message>
    var lengthRecoveries: nat
    var stopContinuations: nat
    /** Why the run went on behind each step so far. */
    ghost var turns: seq<Turn>

    constructor (run: AgentRun, tools: Tools, iterations: nat, wrapUp: bool)
      requires run.Ready() && run.journal.events == [] && run.journal.marks == []
      requires run.provider.sent == [] && run.provider.responses == []
      requires tools.Valid() && tools.log == [] && run.meter.readings == []
      ensures this.run == run && this.tools == tools && maxIterations == if iterations > 1 then iterations else 1
      ensures Going() && iteration == 0
    {
      this.run, this.tools, this.wrapUp := run, tools, wrapUp;
      maxIterations := if iterations > 1 then iterations else 1;
      iteration, pendingNotes, lengthRecoveries, stopContinuations := 0, [], 0, 0;
      turns := [];
    }

    /** The counters say how the run has gone on so far. */
    ghost predicate Counted()
      reads `turns, `lengthRecoveries, `stopContinuations, run.journal`marks
    {
      && Taken(tools.registry, tools.policy, turns, run.journal.marks)
      && lengthRecoveries == Recoveries(turns) && stopContinuations == Continuations(turns)
    }

    /** The ledger holds exactly the marked responses, each streamed by the provider. */
    ghost predicate OnLedger()
      reads run.journal`marks, run.provider`responses, run.provider`streams
    {
      Held(run.journal.marks, run.provider.responses, run.provider.streams)
    }

    /** A step has been completed, and what follows from its reply is still to come. */
    ghost predicate Following(reply: Reply)
      reads `iteration, `turns, run.journal`marks
    {
      && iteration == |run.journal.marks| <= maxIterations && |turns| == iteration - 1
      && reply == ReplyOf(run.journal.marks[|turns|].stream)
    }

    /** No more requests than so many steps and reports can take. */
    ghost predicate Spent(steps: nat, reports: nat)
      reads run.provider`sent
    {
      Within(Tally(0, 0, 0), TallyOf(run.provider.sent), 10 * steps, 20 * steps, reports)
    }

    /** The calls announced and acted on are those of the replies followed, in order. */
    ghost predicate Told()
      reads run.journal`events, run.journal`marks, tools`log, `turns
    {
      && |turns| <= |run.journal.marks|
      && Begun(tools.log) == Announced(run.journal.events) == CarriedCalls(tools.registry, run.journal.marks, |turns|)
    }

    /** Before a step. */
    ghost predicate Going()
      reads this, run.journal, run.meter, run.meter.budget, run.provider, run.conversation, tools, tools.broker, tools.repeats
    {
      && run.Ready() && tools.Valid() && AllNotes(pendingNotes)
      && Counted() && OnLedger() && Told() && tools.Even(run.journal) && tools.Watched(run.meter) && Spent(iteration, 0)
      && iteration == |run.journal.marks| == |turns| < maxIterations
    }

    /** However far it came. */
    ghost predicate Accounted(waiting: bool)
      reads this, run.journal, run.meter, run.meter.budget, run.provider, tools, tools.broker, tools.repeats
    {
      && run.Supplied() && tools.Valid() && Counted() && OnLedger() && Told() && tools.Watched(run.meter) && Spent(maxIterations, 5)
      && RanResults(run.journal.events) <= RanNumbers(tools.log) && tools.Tells(run.journal, waiting)
      && |run.journal.marks| <= maxIterations && |run.journal.marks| <= |turns| + 1
    }

    /** Behind a step: ready for the next one, or done with. */
    ghost predicate After(next: Next)
      reads this, run.journal, run.meter, run.meter.budget, run.provider, run.conversation, tools, tools.broker, tools.repeats
    {
      match next
      case Onward => Going()
      case Over => Accounted(false) && Ended(|run.journal.marks|)
      case Waiting => Accounted(true) && run.journal.Valid()
    }

    /** Over, after `steps` completed steps. */
    ghost predicate Ended(steps: nat)
      reads run.journal, run.meter, run.meter.budget, run.provider
    {
      run.AtEnd(steps, steps >= maxIterations)
    }

    // ----- stopping at a limit -----

    /** Commit and send the request for a final report. */
    method AskForReport() returns (reply: Option<Completion>)
      requires run.Supplied() && run.journal.Valid() && run.conversation.Linked() && run.provider.origin == run.conversation.origin
      requires run.meter.readings != []
      modifies run.provider`sent, run.provider`ledger, run.provider`outcomes, run.journal`sentAt
      ensures run.Supplied() && run.journal.Valid()
      ensures reply.Some? ==> run.provider.LastOutcome() == Some(Ok(reply.value))
      ensures if run.journal.Refuses(ReportCommit) then reply.None? && run.provider.outcomes == old(run.provider.outcomes)
              else |run.provider.outcomes| > |old(run.provider.outcomes)|
                   && (reply.None? ==> run.provider.LastOutcome().Some? && run.provider.LastOutcome().value.Err?)
      ensures Within(old(TallyOf(run.provider.sent)), TallyOf(run.provider.sent), 0, 0, 5)
    {
      hide Journal.Valid, EditedAll, AllLegal, RunBudget.Valid, AllCommitted, AllRead, Latched, TallyOf;
      hide Replay, Usages, Announced, Answered, RanResults, Askings, Rulings;
      var text: string := *;
      var messages := run.conversation.messages + [TextMessage(User, text)];
      var committed := run.provider.CommitRequest(iteration + 1, messages, ReportCommit);
      if !committed {
        return None;
      }
      ghost var s := SoundReport(run.conversation.origin, run.conversation.edits, iteration + 1, text, run.meter.Last());
      var out, _ := run.provider.CompleteWithRetry(messages, s);
      reply := if out.Ok? then Some(out.value) else None;
    }

    /** Account for a report that came; `reported` when it holds any text, which is
        then the run's answer, and the run is over. */
    method TellReport(reply: Completion) returns (reported: bool)
      requires run.journal.Valid() && Replay(run.journal.events) == run.journal.Committed()
      requires run.provider.LastOutcome() == Some(Ok(reply))
      modifies run.journal`events, run.journal`total
      ensures reported <==> Compaction.AnswersInText(reply.message)
      ensures if reported then run.journal.Finished(iteration) && ReportStands(run.journal.events, run.provider.LastOutcome())
              else run.journal.Valid() && Replay(run.journal.events) == run.journal.Committed()
      ensures Dealt(run.journal.events) == old(Dealt(run.journal.events))
      ensures reported ==> EndsWith(run.journal.events, Done(iteration + 1, true, run.journal.total))
    {
      hide Replay, Usages, Announced, Answered, RanResults, Askings, Rulings, SentWhileWorking, Flowing, StageOf, NextStage;
      run.journal.Spend(reply.usage);
      var report := Compaction.SummaryText(reply.message);
      Compaction.SummaryTextIff(reply.message);
      reported := report.Some?;
      if reported {
        run.journal.Say(TextMessage(Assistant, report.value));
        run.journal.Close(Done(iteration + 1, true, run.journal.total), iteration);
      }
    }

    /** The end of a run that a limit stopped: a final report when one is wanted
        and comes, and the limit itself otherwise. */
    method StopAtLimit()
      requires run.Ready() && run.meter.readings != [] && (run.meter.LimitSeen() || iteration >= maxIterations)
      modifies run.journal`events, run.journal`total, run.journal`sentAt, run.provider`sent, run.provider`ledger, run.provider`outcomes
      ensures Ended(iteration) && run.Supplied()
      ensures Dealt(run.journal.events) == old(Dealt(run.journal.events))
      ensures Within(old(TallyOf(run.provider.sent)), TallyOf(run.provider.sent), 0, 0, if wrapUp then 5 else 0)
      ensures var last := run.provider.LastOutcome();
              var reported := wrapUp && !old(run.journal.Refuses(ReportCommit)) && last.Some? && Compaction.AnsweredWithText(last.value);
              EndsWith(run.journal.events,
                       if reported then Done(iteration + 1, true, run.journal.total) else Limited(iteration, run.journal.total))
      ensures wrapUp && !old(run.journal.Refuses(ReportCommit)) ==> |run.provider.outcomes| > |old(run.provider.outcomes)|
    {
      hide Journal.Valid, Provider.Valid, Tools.Valid, Meter.Valid, Conversation.Linked;
      hide Concluded, Taken, Held, Replay, Responses, Usages, RanResults, Askings, Rulings, RanNumbers, Announced, Answered;
      hide Begun, AllRanRead;
      hide Stopped, NotedCount;
      hide Compaction.AnswersInText;
      var reported := false;
      if wrapUp {
        var reply := AskForReport();
        if reply.Some? {
          reported := TellReport(reply.value);
        }
      }
      if !reported {
        run.journal.End(Limited(iteration, run.journal.total), iteration);
      }
    }

    // ----- the response -----

    /** Put a whole reply on the ledger and stand behind it. */
    method CommitReply(r: Response, ghost stream: Stream) returns (ok: bool)
      requires run.Valid() && run.Settled() && run.Balanced() && OnLedger() && stream in run.provider.streams
      requires Complete(stream) && r == ResponseOf(stream)
      requires Replay(run.journal.events) == Plus(run.journal.Committed(), r.content, r.reasoning)
      modifies run.journal`events, run.journal`marks, run.provider`responses
      ensures OnLedger() && Dealt(run.journal.events) == old(Dealt(run.journal.events))
      ensures if ok then run.Ready() else Ended(|run.journal.marks|)
      ensures run.provider.responses == if ok then old(run.provider.responses) + [r] else old(run.provider.responses)
      ensures run.journal.marks == if ok then old(run.journal.marks) + [MarkBehind(stream)] else old(run.journal.marks)
      ensures ok == !old(run.journal.Refuses(ResponseCommit))
    {
      hide Journal.Valid, Provider.Valid, Tools.Valid, Meter.Valid, Conversation.Linked;
      hide Concluded, Taken, Held, Replay, Responses, Usages, RanResults, Askings, Rulings, RanNumbers, Announced, Answered;
      hide Begun, AllRanRead;
      hide Stopped, NotedCount;
      ok := run.provider.CommitResponse(r);
      if ok {
        ghost var m := MarkBehind(stream);
        HeldSnoc(run.journal.marks, m, old(run.provider.responses), run.provider.streams);
        run.journal.Stand(stream, run.meter.budget.usages);
      } else {
        SaidNo(run.journal.events, run.journal.outside, ResponseCommit, run.provider.streams,
               run.meter.LimitSeen() || |run.journal.marks| >= maxIterations);
        run.journal.End(Failed, |run.journal.marks|);
      }
    }

    /** Count the step, account for it, and put its response on the ledger. */
    method CompleteStep(reply: Reply, estimate: nat) returns (ok: bool)
      requires run.Showing(Attempt(reply, true, None)) && OnLedger()
      modifies `iteration, run.journal`events, run.journal`marks, run.provider`responses, run.window`calibration
      modifies run.meter.budget`tokens, run.meter.budget`cost, run.meter.budget`costUnknown, run.meter.budget`usages
      ensures OnLedger() && iteration == old(iteration) + 1
      ensures Dealt(run.journal.events) == old(Dealt(run.journal.events))
      ensures if ok then run.Ready() else Ended(|run.journal.marks|)
      ensures run.meter.budget.usages == old(run.meter.budget.usages) + [reply.usage]
      ensures run.provider.responses ==
              if ok then old(run.provider.responses) + [Response(reply.content, reply.reasoning, reply.calls)]
              else old(run.provider.responses)
      ensures run.provider.streams != [] && reply == ReplyOf(LastStream())
      ensures run.window.calibration == if reply.usage.prompt > 0 then Some((reply.usage.prompt, estimate)) else old(run.window.calibration)
      ensures run.journal.marks == if ok then old(run.journal.marks) + [MarkBehind(LastStream())] else old(run.journal.marks)
      ensures ok == !old(run.journal.Refuses(ResponseCommit))
    {
      hide Journal.Valid, Provider.Valid, Tools.Valid, Meter.Valid, Conversation.Linked;
      hide Concluded, Taken, Held, Replay, Responses, Usages, RanResults, Askings, Rulings, RanNumbers, Announced, Answered;
      hide Begun, AllRanRead;
      hide Stopped, NotedCount;
      iteration := iteration + 1;
      WholeReply(LastStream(), reply);
      run.RecordFinished(Attempt(reply, true, None));
      run.window.Calibrate(estimate, reply.usage.prompt);
      ok := CommitReply(Response(reply.content, reply.reasoning, reply.calls), LastStream());
    }

    ghost function LastStream(): (s: Stream)
      reads run.provider`streams
      requires run.provider.streams != []
      ensures s in run.provider.streams
    {
      run.provider.streams[|run.provider.streams| - 1]
    }

    /** The mark where the run stands now, behind a stream. */
    ghost function MarkBehind(stream: Stream): Mark
      reads run.journal`events, run.meter.budget`usages
    {
      Mark(run.journal.events, stream, run.meter.budget.usages)
    }

    /** The model's half of a step: its request, and its response on the ledger. */
    method AskModel() returns (ok: bool, reply: Reply)
      requires run.Ready() && Counted() && OnLedger() && iteration == |run.journal.marks| == |turns| < maxIterations
      modifies `iteration, run.journal`events, run.journal`total, run.journal`marks, run.journal`sentAt
      modifies run.meter`now, run.meter`readings, run.meter.budget
      modifies run.provider, run.window, run.conversation`messages, run.conversation`anchor, run.conversation`edits
      ensures Counted() && OnLedger() && old(run.journal.marks) <= run.journal.marks
      ensures old(run.meter.readings) <= run.meter.readings
      ensures Dealt(run.journal.events) == old(Dealt(run.journal.events))
      ensures if ok then run.Ready() && Following(reply)
              else Ended(|run.journal.marks|) && |run.journal.marks| == |turns|
      ensures ok && reply.usage.prompt > 0 ==>
                run.window.calibration == Some((reply.usage.prompt, Estimate(run.conversation.messages, run.toolsChars)))
      ensures Within(old(TallyOf(run.provider.sent)), TallyOf(run.provider.sent), 10, 20, 0)
    {
      hide Journal.Valid, Provider.Valid, Tools.Valid, Meter.Valid, Conversation.Linked;
      hide Concluded, Taken, Held, Replay, Responses, Usages, RanResults, Askings, Rulings, RanNumbers, Announced, Answered;
      hide Begun, AllRanRead;
      hide Stopped;
      hide NotedCount, TallyOf, Marks.Committed;
      reply := NO_REPLY;
      ghost var marks, streams := run.journal.marks, run.provider.streams;
      var end, _ := run.Request(iteration + 1);
      HeldLater(marks, run.provider.responses, streams, run.provider.streams);
      if end.Ended? {
        return false, reply;
      }
      reply := end.reply;
      ok := CompleteStep(end.reply, end.estimate);
      TakenStill(tools.registry, tools.policy, turns, marks, run.journal.marks);
    }

    /** Stop at a limit, or bring the list up to date for the next step. */
    method BeginStep() returns (live: bool)
      requires run.Ready() && AllNotes(pendingNotes)
      modifies `pendingNotes, run.journal`events, run.journal`total, run.journal`sentAt
      modifies run.meter`now, run.meter`readings, run.meter.budget`clock
      modifies run.provider`sent, run.provider`ledger, run.provider`outcomes
      modifies run.conversation`messages, run.conversation`edits
      ensures if live then run.Ready() && pendingNotes == [] else Ended(iteration)
      ensures live == (!run.meter.LimitSeen() && !old(run.journal.Refuses(Prepare)))
      ensures |run.meter.readings| == |old(run.meter.readings)| + 1
      ensures old(run.meter.readings) <= run.meter.readings
      ensures Dealt(run.journal.events) == old(Dealt(run.journal.events))
      ensures live ==> !run.meter.LimitSeen() && exists steering ::
                run.conversation.messages == old(run.conversation.messages) + steering + old(pendingNotes)
      ensures Within(old(TallyOf(run.provider.sent)), TallyOf(run.provider.sent), 0, 0, if live then 0 else 5)
    {
      hide Journal.Valid, Journal.Finished, Provider.Valid, Tools.Valid, Meter.Valid, Conversation.Linked;
      hide Concluded, Taken, Held, Replay, Responses, Usages, RanResults, Askings, Rulings, RanNumbers, Announced, Answered;
      hide Begun, AllRanRead, Stopped, NotedCount, Marked, Flowing, StageOf, EndsWith;
      var reason := run.CheckLimits();
      if reason.Some? {
        StopAtLimit();
        return false;
      }
      live := !run.journal.Refuses(Prepare);
      if !live {
        SaidNo(run.journal.events, run.journal.outside, Prepare, run.provider.streams, run.meter.LimitSeen() || iteration >= maxIterations);
        run.journal.End(Failed, iteration);
        return;
      }
      assert AllNotes([]);
      var steering: seq<Message> :| AllNotes(steering);
      run.conversation.Note(steering);
      run.conversation.Note(pendingNotes);
      pendingNotes := [];
    }

    /** The list brought up to date, and the model asked. */
    method AskNext() returns (ok: bool, reply: Reply)
      requires run.Ready() && AllNotes(pendingNotes) && Counted() && OnLedger() && Spent(iteration, 0)
      requires iteration == |run.journal.marks| == |turns| < maxIterations
      modifies `pendingNotes, `iteration, run.journal`events, run.journal`total, run.journal`marks, run.journal`sentAt
      modifies run.meter`now, run.meter`readings, run.meter.budget, run.provider, run.window
      modifies run.conversation`messages, run.conversation`anchor, run.conversation`edits
      ensures Counted() && OnLedger() && Dealt(run.journal.events) == old(Dealt(run.journal.events))
      ensures old(run.journal.marks) <= run.journal.marks && old(run.meter.readings) <= run.meter.readings
      ensures if ok then run.Ready() && Following(reply) && pendingNotes == [] && Spent(iteration, 0)
              else Ended(|run.journal.marks|) && |run.journal.marks| == |turns| && Spent(maxIterations, 5)
      ensures ok ==> iteration == old(iteration) + 1
    {
      hide Journal.Valid, Provider.Valid, Meter.Valid, Conversation.Linked;
      hide Concluded, Taken, Held, Replay, Responses, Usages, Dealt, Unparseable, Marks.Committed, TallyOf;
      reply := NO_REPLY;
      ok := BeginStep();
      if ok {
        ok, reply := AskModel();
      }
    }

    /** Everything up to the committed response. */
    method Lead() returns (ok: bool, reply: Reply)
      requires Going()
      modifies `pendingNotes, `iteration, run.journal`events, run.journal`total, run.journal`marks, run.journal`sentAt
      modifies run.meter`now, run.meter`readings, run.meter.budget, run.provider, run.window
      modifies run.conversation`messages, run.conversation`anchor, run.conversation`edits
      ensures Counted() && OnLedger() && Told() && tools.Even(run.journal) && tools.Watched(run.meter)
      ensures old(run.journal.marks) <= run.journal.marks
      ensures if ok then run.Ready() && Following(reply) && pendingNotes == [] && Spent(iteration, 0)
              else Ended(|run.journal.marks|) && |run.journal.marks| == |turns| && Spent(maxIterations, 5)
      ensures ok ==> iteration == old(iteration) + 1
    {
      hide Journal.Valid, Provider.Valid, Tools.Valid, Meter.Valid, Conversation.Linked;
      hide Concluded, Taken, Held, Replay, Responses, Usages, RanResults, Askings, Rulings, RanNumbers, Announced, Answered;
      hide Begun, AllRanRead;
      hide Stopped;
      hide Unparseable, NotedCount, TallyOf, Marks.Committed;
      ghost var readings, marks := run.meter.readings, run.journal.marks;
      ok, reply := AskNext();
      StillWatched(readings);
      CarriedStill(tools.registry, marks, run.journal.marks, |turns|);
    }

    // ----- a step without calls -----

    /** Enter what made the run go on. */
    ghost method GoesOn(t: Turn, reply: Reply)
      requires Taken(tools.registry, tools.policy, turns, run.journal.marks) && Following(reply)
      requires TurnFor(tools.registry, tools.policy, turns, t, reply)
      modifies `turns
      ensures turns == old(turns) + [t] && Taken(tools.registry, tools.policy, turns, run.journal.marks)
      ensures Recoveries(turns) ==
              if t.Calls? then 0 else old(Recoveries(turns)) + if t.CutAnswer? || (t.CutCalls? && t.noted) then 1 else 0
      ensures Continuations(turns) == old(Continuations(turns)) + if t.StopFeedback? then 1 else 0
    {
      TurnsSnoc(tools.registry, tools.policy, turns, t, run.journal.marks);
      turns := turns + [t];
    }

    /** The run's last words: the final answer, saying what the reply does, then `Done`. */
    ghost predicate EndsInAnswer(before: seq<Event>, reply: Reply)
      reads `iteration, run.journal`events, run.journal`total
    {
      exists m :: Says(m, reply.content, reply.reasoning)
                  && run.journal.events == before + [Answer(m)] + [Done(iteration, false, run.journal.total)]
    }

    /** Keep the answer so far and ask for more of it in the next step. */
    method GoOnFrom(reply: Reply)
      requires run.Ready() && AllNotes(pendingNotes)
      modifies `pendingNotes, run.conversation`messages, run.conversation`edits
      ensures run.Ready() && AllNotes(pendingNotes)
      ensures KeepsAnswer(old(run.conversation.messages), run.conversation.messages, reply)
      ensures NoteAdded(old(pendingNotes), pendingNotes)
    {
      var note: string := *;
      ContinuedIsNote(reply);
      ContinuedKeeps(run.conversation.messages, reply);
      run.conversation.Note(Continued(reply));
      UserNoteIsNote(pendingNotes, note);
      pendingNotes := pendingNotes + [TextMessage(User, note)];
    }

    /** A cut-off answer continues in another step. */
    method RecoverAnswer(reply: Reply)
      requires run.Ready() && AllNotes(pendingNotes) && Counted() && Following(reply)
      requires reply.calls == [] && Truncated(reply) && lengthRecoveries < MAX_LENGTH_RECOVERIES
      modifies `pendingNotes, `lengthRecoveries, `turns, run.conversation`messages, run.conversation`edits
      ensures run.Ready() && AllNotes(pendingNotes) && Counted() && turns == old(turns) + [CutAnswer]
      ensures NoteAdded(old(pendingNotes), pendingNotes)
      ensures KeepsAnswer(old(run.conversation.messages), run.conversation.messages, reply)
    {
      hide Journal.Valid, Provider.Valid, Tools.Valid, Meter.Valid, Conversation.Linked;
      hide Concluded, Taken, Held, Replay, Responses, Usages, RanResults, Askings, Rulings, RanNumbers, Announced, Answered;
      hide Begun, AllRanRead;
      hide Stopped, NotedCount;
      lengthRecoveries := lengthRecoveries + 1;
      GoesOn(CutAnswer, reply);
      GoOnFrom(reply);
    }

    /** The stop hook asks for more. */
    method ContinueStop(reply: Reply)
      requires run.Ready() && AllNotes(pendingNotes) && Counted() && Following(reply)
      requires TurnFor(tools.registry, tools.policy, turns, StopFeedback, reply)
      modifies `pendingNotes, `stopContinuations, `turns, run.conversation`messages, run.conversation`edits
      ensures run.Ready() && AllNotes(pendingNotes) && Counted() && turns == old(turns) + [StopFeedback]
      ensures NoteAdded(old(pendingNotes), pendingNotes)
      ensures KeepsAnswer(old(run.conversation.messages), run.conversation.messages, reply)
    {
      hide Journal.Valid, Provider.Valid, Tools.Valid, Meter.Valid, Conversation.Linked;
      hide Concluded, Taken, Held, Replay, Responses, Usages, RanResults, Askings, Rulings, RanNumbers, Announced, Answered;
      hide Begun, AllRanRead;
      hide Stopped, NotedCount;
      stopContinuations := stopContinuations + 1;
      GoesOn(StopFeedback, reply);
      GoOnFrom(reply);
    }

    /** The last reply's text is the run's answer. */
    method GiveAnswer(reply: Reply)
      requires run.Ready() && Following(reply) && reply.calls == []
      modifies run.journal`events
      ensures Ended(iteration) && EndsInAnswer(old(run.journal.events), reply)
      ensures Dealt(run.journal.events) == old(Dealt(run.journal.events))
    {
      hide Provider.Valid, Meter.Valid, Conversation.Linked;
      run.journal.Say(AnswerMessage(reply));
      run.journal.Close(Done(iteration, false, run.journal.total), iteration);
    }

    /** A whole answer: the stop hook may ask for more, and otherwise it is final. */
    method OfferStop(reply: Reply) returns (next: Next)
      requires run.Ready() && AllNotes(pendingNotes) && Counted() && Following(reply) && reply.calls == []
      requires Truncated(reply) ==> lengthRecoveries >= MAX_LENGTH_RECOVERIES || iteration >= maxIterations
      modifies `pendingNotes, `stopContinuations, `turns, run.journal`events, run.conversation`messages, run.conversation`edits
      ensures !next.Waiting? && Counted()
      ensures Dealt(run.journal.events) == old(Dealt(run.journal.events))
      ensures turns == if next.Onward? then old(turns) + [StopFeedback] else old(turns)
      ensures next.Onward? <==> tools.policy.hooked && old(run.journal.Refuses(Stop)) && old(stopContinuations) < MAX_STOP_CONTINUATIONS
                                && iteration < maxIterations
      ensures next.Onward? ==> run.Ready() && AllNotes(pendingNotes) && iteration < maxIterations
      ensures next.Onward? ==>
                KeepsAnswer(old(run.conversation.messages), run.conversation.messages, reply) && NoteAdded(old(pendingNotes), pendingNotes)
      ensures next.Over? ==> Ended(iteration) && EndsInAnswer(old(run.journal.events), reply)
    {
      hide Journal.Valid, Provider.Valid, Tools.Valid, Meter.Valid, Conversation.Linked;
      hide Concluded, Taken, Held, Replay, Responses, Usages, RanResults, Askings, Rulings, RanNumbers, Announced, Answered;
      hide Begun, AllRanRead;
      hide Stopped, NotedCount;
      var feedback := run.journal.Refuses(Stop);
      if tools.policy.hooked && feedback && stopContinuations < MAX_STOP_CONTINUATIONS && iteration < maxIterations {
        ContinueStop(reply);
        return Onward;
      }
      GiveAnswer(reply);
      next := Over;
    }

    /** A step without calls: stopped by a limit, continued after a cut-off or for
        the stop hook, or the final answer. */
    method AnswerStep(reply: Reply) returns (next: Next)
      requires run.Ready() && AllNotes(pendingNotes) && Counted() && Following(reply) && reply.calls == []
      modifies `pendingNotes, `lengthRecoveries, `stopContinuations, `turns
      modifies run.journal`events, run.meter`now, run.meter`readings, run.meter.budget`clock
      modifies run.conversation`messages, run.conversation`edits
      ensures !next.Waiting? && Counted()
      ensures Dealt(run.journal.events) == old(Dealt(run.journal.events))
      ensures var recover := Truncated(reply) && old(lengthRecoveries) < MAX_LENGTH_RECOVERIES && iteration < maxIterations;
              var more := tools.policy.hooked && old(run.journal.Refuses(Stop)) && old(stopContinuations) < MAX_STOP_CONTINUATIONS
                          && iteration < maxIterations;
              && (next.Onward? <==> !run.meter.LimitSeen() && (recover || more))
              && turns == if next.Over? then old(turns) else old(turns) + [if recover then CutAnswer else StopFeedback]
      ensures old(run.meter.readings) <= run.meter.readings && run.Supplied()
      ensures next.Onward? ==> run.Ready() && AllNotes(pendingNotes) && iteration < maxIterations && !run.meter.LimitSeen()
      ensures next.Onward? ==>
                KeepsAnswer(old(run.conversation.messages), run.conversation.messages, reply) && NoteAdded(old(pendingNotes), pendingNotes)
      ensures next.Over? ==> Ended(iteration)
      ensures next.Over? && !run.meter.LimitSeen() ==> EndsInAnswer(old(run.journal.events), reply)
      ensures run.meter.LimitSeen() ==> run.journal.events == old(run.journal.events) + [Limited(iteration, run.journal.total)]
    {
      hide Journal.Valid, Provider.Valid, Tools.Valid, Meter.Valid, Conversation.Linked;
      hide Concluded, Taken, Held, Replay, Responses, Usages, RanResults, Askings, Rulings, RanNumbers, Announced, Answered;
      hide Begun, AllRanRead;
      hide Stopped, NotedCount;
      var reason := run.CheckLimits();
      if reason.Some? {
        run.journal.End(Limited(iteration, run.journal.total), iteration);
        return Over;
      }
      if Truncated(reply) && lengthRecoveries < MAX_LENGTH_RECOVERIES && iteration < maxIterations {
        RecoverAnswer(reply);
        return Onward;
      }
      next := OfferStop(reply);
    }

    // ----- a step with calls -----

    /** The step has added its whole turn, with a result for every call, and then
        the images. */
    ghost predicate TurnTaken(before: seq<Edit>, reply: Reply)
      reads run.conversation
    {
      exists turn, results, images ::
        && MakesTurn(turn, reply) && Legal(Edit.Turn(turn, results))
        && run.conversation.edits == before + [Edit.Turn(turn, results)] + [Notes(images)]
    }

    /** The whole turn is in the list; the images follow it. */
    method CloseTurn(
      ghost before: seq<Message>, reply: Reply, ghost executed: seq<Executed>, ghost results: seq<Message>, images: seq<Message>)
      requires AnswersIds(reply.calls, executed) && |results| == |executed| && ResultsFor(executed, results) && AllNotes(images)
      requires run.conversation.messages == before + [TurnMessage(reply)] + results
      requires AllLegal(run.conversation.edits)
      requires Talk(before, run.conversation.anchor) == EditedAll(run.conversation.origin, run.conversation.edits)
      modifies run.conversation`messages, run.conversation`edits
      ensures run.conversation.Linked() && TurnTaken(old(run.conversation.edits), reply)
      ensures run.conversation.edits == old(run.conversation.edits) + [Edit.Turn(TurnMessage(reply), results)] + [Notes(images)]
    {
      StepIsTurn(reply, executed, results);
      Regrouped(before, TurnMessage(reply), results);
      run.conversation.Seal(before, TurnMessage(reply), results);
      run.conversation.Note(images);
    }

    /** The step's calls have been announced and run; their turn, on top of `before`,
        and a consumer still lack the results. */
    ghost predicate Executed(before: seq<Message>, reply: Reply, executed: seq<ToolCalls.Executed>)
      reads run.journal, run.conversation, tools, tools.broker, tools.repeats
    {
      && tools.Valid() && run.journal.Valid() && Replay(run.journal.events) == run.journal.Committed()
      && AnswersIds(reply.calls, executed) && Awaited(Announced(run.journal.events), Answered(run.journal.events), executed)
      && tools.Recording(tools.log, Dealt(run.journal.events), executed)
      && RanNumbers(tools.log) == RanResults(run.journal.events) + Attempted(|Answered(run.journal.events)|, executed)
      && run.conversation.messages == before + [TurnMessage(reply)] && AllLegal(run.conversation.edits)
      && Talk(before, run.conversation.anchor) == EditedAll(run.conversation.origin, run.conversation.edits)
      && tools.Tells(run.journal, false)
    }

    method CarryCalls(reply: Reply) returns (executed: seq<ToolCalls.Executed>, done: bool)
      requires run.Ready() && tools.Valid() && tools.Even(run.journal) && tools.Watched(run.meter) && !run.meter.LimitSeen()
      modifies run.journal`events, run.meter`now, run.meter`readings
      modifies run.meter.budget`clock, run.meter.budget`paused, run.meter.budget`pausedSince, run.meter.budget`pauses
      modifies run.conversation`messages, tools`log, tools.broker
      ensures tools.Valid() && run.journal.Valid() && run.Supplied() && run.Balanced() && tools.Watched(run.meter)
      ensures old(tools.log) <= tools.log && old(run.meter.readings) <= run.meter.readings
      ensures Begun(tools.log) == Announced(run.journal.events)
           == old(Announced(run.journal.events)) + AllProxied(tools.registry, reply.calls)
      ensures RanResults(run.journal.events) <= RanNumbers(tools.log) && tools.Tells(run.journal, !done)
      ensures done ==> Executed(old(run.conversation.messages), reply, executed)
    {
      hide Concluded, Marked, RanResults, Askings, Rulings, RanNumbers, Usages, Replay, Announced, Answered, Begun, NotedCount;
      hide AllRanRead;
      hide Stopped, AllAccount;
      hide Journal.Valid, Meter.Valid, Tools.Valid, AllSound, AllCommitted;
      ghost var before, readings := Announced(run.journal.events), run.meter.readings;
      run.conversation.Append([TurnMessage(reply)]);
      executed, done := tools.Carry(run.journal, run.meter, reply.calls);
      ReadLater(run.provider.sent, readings, run.meter.readings);
      if done {
        StepIsAwaited(tools.registry, reply.calls, before, executed);
      }
    }

    /** Every call answered, in the stream and in the list. */
    method AnswerCalls(ghost before: seq<Message>, reply: Reply, executed: seq<ToolCalls.Executed>) returns (live: bool, awaiting: bool)
      requires Executed(before, reply, executed) && tools.Watched(run.meter)
      modifies run.journal`events, run.conversation`messages, run.conversation`edits, tools`log, tools.repeats
      ensures tools.Valid() && old(tools.log) <= tools.log && tools.Watched(run.meter)
      ensures Begun(tools.log) == old(Begun(tools.log)) && Announced(run.journal.events) == old(Announced(run.journal.events))
      ensures live ==> run.journal.At(awaiting) && run.conversation.Linked() && TurnTaken(old(run.conversation.edits), reply)
      ensures live ==> awaiting == Decides(executed) && NoneProposes(executed, |executed|)
      ensures live ==> tools.Even(run.journal) && Replay(run.journal.events) == run.journal.Committed()
      ensures live ==> Usages(run.journal.events) == old(Usages(run.journal.events))
      ensures !live ==> run.journal.Finished(iteration) && RanResults(run.journal.events) <= RanNumbers(tools.log)
      ensures tools.Tells(run.journal, false)
      ensures !live ==> ReportStands(run.journal.events, run.provider.LastOutcome())
      ensures !live ==> CauseStands(run.journal.events, run.journal.outside, run.provider.streams, false)
    {
      hide Concluded, Marked, RanResults, Askings, Rulings, RanNumbers, Usages, Replay, Announced, Answered, Begun, NotedCount;
      hide AllRanRead, Stopped, AllAccount, AskingsOf, RuledBut, AllOver, EndsStep, CauseStands, ReportStands, NoneProposes, ImagesOf;
      hide TurnTaken, ResultsFor, NotesTold, AllNotes, AllLegal, Journal.At, Tools.Valid, NotesOf, Decides;
      var images;
      ghost var results, noted;
      ghost var start, base := tools.log, |Answered(run.journal.events)|;
      images, awaiting, live, results, noted := tools.Record(run.journal, run.conversation, iteration, executed);
      NotesKeep(start, base, executed, noted, 0, run.meter.readings);
      NotesAskNothing(start, base, executed, noted);
      if live {
        CloseTurn(before, reply, executed, results, images);
      } else {
        StepHasCause(run.journal.events, run.journal.outside, executed[noted - 1].proposal, iteration, run.journal.total,
                     run.provider.streams, run.provider.LastOutcome());
      }
    }

    /** How a step's calls may leave the run. */
    ghost predicate CallsEnd(next: Next)
      reads this, run.journal, run.meter, run.meter.budget, run.provider, run.conversation, tools, tools.broker, tools.repeats
    {
      && tools.Valid() && tools.Watched(run.meter) && run.Supplied() && RanResults(run.journal.events) <= RanNumbers(tools.log)
      && tools.Tells(run.journal, next.Waiting?)
      && match next
         case Onward => run.Ready() && tools.Even(run.journal)
         case Over => Ended(iteration)
         case Waiting => run.journal.Valid()
    }

    /** As long as a consumer knows no more of the calls, all stays even. */
    twostate lemma StillEven()
      requires old(tools.Even(run.journal)) && Dealt(run.journal.events) == old(Dealt(run.journal.events))
      requires unchanged(tools`log) && unchanged(tools.broker)
      ensures tools.Even(run.journal)
    {
      hide Begun, NotedCount, RanNumbers, AskingsOf, Announced, Answered, RanResults, Askings, Rulings, RuledBut, AllOver;
    }

    lemma CallsOver(next: Next)
      requires tools.Valid() && tools.Watched(run.meter) && run.Supplied() && tools.Even(run.journal) && !next.Waiting?
      requires if next.Onward? then run.Ready() else Ended(iteration)
      ensures CallsEnd(next)
    {
      hide Tools.Valid, Tools.Watched, AgentRun.Supplied, AgentRun.Ready, Ended, AskingsOf, RuledBut, AllOver;
    }

    /** The calls of one step, from announcing them to their results in the list. A
        decision for the user ends the run with every result in. */
    method RunCalls(reply: Reply) returns (next: Next)
      requires run.Ready() && tools.Valid() && tools.Even(run.journal) && tools.Watched(run.meter) && !run.meter.LimitSeen()
      modifies run.journal`events, run.meter`now, run.meter`readings
      modifies run.meter.budget`clock, run.meter.budget`paused, run.meter.budget`pausedSince, run.meter.budget`pauses
      modifies run.conversation`messages, run.conversation`edits, tools`log, tools.broker, tools.repeats
      ensures CallsEnd(next) && old(tools.log) <= tools.log && old(run.meter.readings) <= run.meter.readings
      ensures Begun(tools.log) == Announced(run.journal.events)
           == old(Announced(run.journal.events)) + AllProxied(tools.registry, reply.calls)
      ensures next.Onward? ==> TurnTaken(old(run.conversation.edits), reply)
    {
      hide Tools.Valid, Meter.Valid, Journal.At, Journal.Finished, Provider.Valid, Conversation.Linked, Tools.Watched, Executed;
      hide Concluded, Taken, Held, Replay, Responses, Usages, RanResults, Askings, Rulings, RanNumbers, Announced, Answered;
      hide Begun, NotedCount, TurnTaken, AskingsOf, RuledBut, AllOver, StageOf, NoneProposes, AllProxied, Decides;
      ghost var before := run.conversation.messages;
      var executed, done := CarryCalls(reply);
      if !done {
        return Waiting;
      }
      var live, awaiting := AnswerCalls(before, reply, executed);
      if !live {
        return Over;
      }
      if awaiting {
        label Told:
        run.journal.EndAt(Done(iteration, false, run.journal.total), true, iteration);
        StillEven@Told();
      }
      next := if awaiting then Over else Onward;
      CallsOver(next);
    }

    /** The model is to be told that a call was cut off. */
    method NoteCut(recover: bool)
      requires AllNotes(pendingNotes)
      modifies `pendingNotes
      ensures AllNotes(pendingNotes)
      ensures if recover then NoteAdded(old(pendingNotes), pendingNotes) else pendingNotes == old(pendingNotes)
    {
      if recover {
        var note: string := *;
        UserNoteIsNote(pendingNotes, note);
        pendingNotes := pendingNotes + [TextMessage(User, note)];
      }
    }

    /** The turn a step with calls is entered as. */
    ghost function CallTurn(reply: Reply): Turn
      reads `lengthRecoveries
    {
      if Unparseable(tools.registry, reply) then CutCalls(lengthRecoveries < MAX_LENGTH_RECOVERIES) else Calls
    }

    /** Count a step's calls as whole or cut off; `recover` when the model is to be
        told. */
    method EnterCalls(reply: Reply) returns (recover: bool)
      requires Counted() && Following(reply) && reply.calls != []
      modifies `lengthRecoveries, `turns
      ensures Counted() && turns == old(turns) + [old(CallTurn(reply))]
      ensures recover == (Unparseable(tools.registry, reply) && old(lengthRecoveries) < MAX_LENGTH_RECOVERIES)
    {
      var unparseable := Unparseable(tools.registry, reply);
      recover := unparseable && lengthRecoveries < MAX_LENGTH_RECOVERIES;
      GoesOn(if unparseable then CutCalls(recover) else Calls, reply);
      if recover {
        lengthRecoveries := lengthRecoveries + 1;
      } else if !unparseable {
        lengthRecoveries := 0;
      }
    }

    method CarryOut(reply: Reply) returns (next: Next)
      requires run.Ready() && tools.Valid() && AllNotes(pendingNotes) && Counted() && Following(reply) && reply.calls != []
      requires tools.Even(run.journal) && tools.Watched(run.meter) && !run.meter.LimitSeen()
      modifies `pendingNotes, `lengthRecoveries, `turns, run.journal`events, run.meter`now, run.meter`readings
      modifies run.meter.budget`clock, run.meter.budget`paused, run.meter.budget`pausedSince, run.meter.budget`pauses
      modifies run.conversation`messages, run.conversation`edits, tools`log, tools.broker, tools.repeats
      ensures CallsEnd(next) && old(tools.log) <= tools.log && old(run.meter.readings) <= run.meter.readings
      ensures Counted() && turns == old(turns) + [old(CallTurn(reply))]
      ensures Begun(tools.log) == Announced(run.journal.events)
           == old(Announced(run.journal.events)) + AllProxied(tools.registry, reply.calls)
      ensures next.Onward? ==> AllNotes(pendingNotes) && TurnTaken(old(run.conversation.edits), reply)
      ensures next.Onward? ==> if old(CallTurn(reply)) == CutCalls(true) then NoteAdded(old(pendingNotes), pendingNotes)
                               else pendingNotes == old(pendingNotes)
    {
      hide Journal.Valid, Provider.Valid, Tools.Valid, Meter.Valid, Conversation.Linked, Tools.Even, Tools.Watched, Tools.Tells;
      hide Concluded, Taken, Held, Replay, Responses, Usages, RanResults, Askings, Rulings, RanNumbers, Announced, Answered;
      hide Begun, AllRanRead, Stopped, Unparseable, NotedCount, TurnTaken, NoteAdded, Recoveries, Continuations, ReplyOf, OnLedger;
      var recover := EnterCalls(reply);
      next := RunCalls(reply);
      if next.Onward? {
        NoteCut(recover);
      }
    }

    /** A step with calls: stopped before any of them is announced or runs, or
        carried out. */
    method CallStep(reply: Reply) returns (next: Next, ghost stopped: bool)
      requires run.Ready() && tools.Valid() && AllNotes(pendingNotes) && Counted() && Following(reply) && reply.calls != []
      requires tools.Even(run.journal) && tools.Watched(run.meter)
      modifies `pendingNotes, `lengthRecoveries, `turns
      modifies run.journal`events, run.journal`total, run.meter`now, run.meter`readings
      modifies run.provider`sent, run.provider`ledger, run.provider`outcomes, run.journal`sentAt
      modifies run.meter.budget`clock, run.meter.budget`paused, run.meter.budget`pausedSince, run.meter.budget`pauses
      modifies run.conversation`messages, run.conversation`edits, tools`log, tools.broker, tools.repeats
      ensures CallsEnd(next) && Counted() && old(tools.log) <= tools.log && old(run.meter.readings) <= run.meter.readings
      ensures iteration >= maxIterations || old(run.meter.LimitSeen()) ==> stopped
      ensures stopped ==> next.Over? && tools.log == old(tools.log) && run.conversation.messages == old(run.conversation.messages)
      ensures turns == if stopped then old(turns) else old(turns) + [old(CallTurn(reply))]
      ensures Within(old(TallyOf(run.provider.sent)), TallyOf(run.provider.sent), 0, 0, if stopped then 5 else 0)
      ensures Begun(tools.log) == Announced(run.journal.events)
           == if stopped then old(Announced(run.journal.events))
              else old(Announced(run.journal.events)) + AllProxied(tools.registry, reply.calls)
      ensures next.Onward? ==> AllNotes(pendingNotes) && iteration < maxIterations && TurnTaken(old(run.conversation.edits), reply)
      ensures next.Onward? ==> if old(CallTurn(reply)) == CutCalls(true) then NoteAdded(old(pendingNotes), pendingNotes)
                               else pendingNotes == old(pendingNotes)
    {
      hide Journal.Valid, Provider.Valid, Tools.Valid, Meter.Valid, Conversation.Linked, Tools.Tells;
      hide Concluded, Taken, Held, Replay, Responses, Usages, RanResults, Askings, Rulings, RanNumbers, Announced, Answered;
      hide Begun, AllRanRead, Stopped, Unparseable, TurnFor, TallyOf, ReplyOf, TurnTaken, NoteAdded, CauseStands, ReportStands;
      hide Compaction.AnsweredWithText, Loop.CallsEnd, Loop.Ended, Marked, Flowing, StageOf, EndsWith;
      ghost var readings := run.meter.readings;
      var reason := run.CheckLimits();
      StillWatched(readings);
      if reason.Some? || iteration >= maxIterations {
        StopAtLimit();
        StillEven();
        CallsOver(Over);
        return Over, true;
      }
      stopped := false;
      next := CarryOut(reply);
    }

    /** More checks of the limits take nothing back. */
    lemma {:induction false} StillWatched(readings: seq<Reading>)
      requires AllRanRead(tools.log, readings) && readings <= run.meter.readings && run.meter.Valid()
      requires Stopped(tools.log) ==> readings != [] && Stops(readings[|readings| - 1])
      ensures tools.Watched(run.meter)
    {
      RanReadLater(tools.log, readings, run.meter.readings);
      if Stopped(tools.log) {
        LatchedAt(run.meter.readings, |readings| - 1, |run.meter.readings| - 1);
      }
    }

    // ----- whole steps -----

    lemma Conclude(next: Next)
      requires tools.Valid() && run.Supplied() && Counted() && OnLedger() && Told() && tools.Watched(run.meter)
      requires RanResults(run.journal.events) <= RanNumbers(tools.log) && tools.Tells(run.journal, next.Waiting?)
      requires |run.journal.marks| <= maxIterations && |run.journal.marks| <= |turns| + 1
      requires if next.Onward? then Spent(iteration, 0) else Spent(maxIterations, 5)
      requires next.Onward? ==> run.Ready() && tools.Even(run.journal) && AllNotes(pendingNotes)
      requires next.Onward? ==> iteration == |run.journal.marks| == |turns| < maxIterations
      requires next.Over? ==> Ended(|run.journal.marks|)
      requires next.Waiting? ==> run.journal.Valid()
      ensures After(next)
    {}

    /** What the rest of a step starts from. */
    ghost predicate Led(reply: Reply)
      reads this, run.journal, run.meter, run.meter.budget, run.provider, run.conversation, tools, tools.broker, tools.repeats
    {
      && run.Ready() && tools.Valid() && AllNotes(pendingNotes) && Counted() && OnLedger() && Told()
      && tools.Even(run.journal) && tools.Watched(run.meter) && Following(reply) && Spent(iteration, 0)
    }

    lemma ConcludeAnswer(next: Next)
      requires !next.Waiting? && tools.Valid() && tools.Even(run.journal) && tools.Watched(run.meter)
      requires run.Supplied() && Counted() && OnLedger() && Told() && Spent(iteration, 0)
      requires iteration == |run.journal.marks| <= maxIterations && |run.journal.marks| <= |turns| + 1
      requires next.Onward? ==> run.Ready() && AllNotes(pendingNotes) && iteration == |turns| < maxIterations
      requires next.Over? ==> Ended(iteration)
      ensures After(next)
    {
      hide Journal.Valid, Provider.Valid, Tools.Valid, Meter.Valid, Conversation.Linked, Tools.Watched, TallyOf;
      hide Concluded, Taken, Held, Replay, Responses, Usages, RanResults, Askings, Rulings, RanNumbers, Announced, Answered;
      hide Begun, AllRanRead, Stopped, NotedCount, CarriedCalls, AskingsOf, RuledBut, AllOver;
      Conclude(next);
    }

    method FollowAnswer(reply: Reply) returns (next: Next)
      requires Led(reply) && reply.calls == []
      modifies `pendingNotes, `lengthRecoveries, `stopContinuations, `turns
      modifies run.journal`events, run.meter`now, run.meter`readings, run.meter.budget`clock
      modifies run.conversation`messages, run.conversation`edits
      ensures After(next) && old(turns) <= turns
    {
      hide Journal.Valid, Provider.Valid, Tools.Valid, Meter.Valid, Conversation.Linked, Tools.Tells, Tools.Even;
      hide Concluded, Taken, Held, Replay, Responses, Usages, RanResults, Askings, Rulings, RanNumbers, Announced, Answered;
      hide Begun, AllRanRead, Stopped, TallyOf, Unparseable, NotedCount, Continued, Recoveries, Continuations, CarriedCalls;
      hide KeepsAnswer, NoteAdded, Truncated, AgentRun.Ready, Loop.After, Loop.Ended, Loop.OnLedger, Loop.EndsInAnswer, Loop.Counted;
      ghost var readings, n := run.meter.readings, |turns|;
      next := AnswerStep(reply);
      CarriedNone(tools.registry, run.journal.marks, n);
      StillWatched(readings);
      StillEven();
      ConcludeAnswer(next);
    }

    lemma ConcludeCalls(next: Next)
      requires CallsEnd(next) && Counted() && OnLedger() && Told() && iteration == |run.journal.marks| <= maxIterations
      requires |run.journal.marks| <= |turns| + 1
      requires if next.Onward? then Spent(iteration, 0) else Spent(maxIterations, 5)
      requires next.Onward? ==> AllNotes(pendingNotes) && iteration == |turns| < maxIterations
      ensures After(next)
    {
      hide Journal.Valid, Provider.Valid, Tools.Valid, Meter.Valid, Conversation.Linked, Tools.Even, Tools.Watched;
      hide Concluded, Taken, Held, Replay, Responses, Usages, RanResults, Askings, Rulings, RanNumbers, Announced, Answered;
      hide Begun, AllRanRead;
      hide Stopped;
      Conclude(next);
    }

    method FollowCalls(reply: Reply) returns (next: Next)
      requires Led(reply) && reply.calls != []
      modifies `pendingNotes, `lengthRecoveries, `turns
      modifies run.journal`events, run.journal`total, run.meter`now, run.meter`readings
      modifies run.provider`sent, run.provider`ledger, run.provider`outcomes, run.journal`sentAt
      modifies run.meter.budget`clock, run.meter.budget`paused, run.meter.budget`pausedSince, run.meter.budget`pauses
      modifies run.conversation`messages, run.conversation`edits, tools`log, tools.broker, tools.repeats
      ensures After(next) && old(turns) <= turns && old(tools.log) <= tools.log
    {
      hide Journal.Valid, Provider.Valid, Tools.Valid, Meter.Valid, Conversation.Linked, Tools.Even, Tools.Watched;
      hide Concluded, Taken, Held, Replay, Responses, Usages, RanResults, Askings, Rulings, RanNumbers, Announced, Answered;
      hide Begun, AllRanRead, Stopped;
      hide TallyOf, CarriedCalls, Unparseable, Loop.After, Loop.CallsEnd, Loop.Counted, Loop.OnLedger, Loop.TurnTaken;
      hide NoteAdded, Loop.CallTurn, ReplyOf, AllProxied, AgentRun.Ready;
      ghost var stopped;
      CarriedOne(tools.registry, run.journal.marks, |turns|, reply);
      next, stopped := CallStep(reply);
      ConcludeCalls(next);
    }

    /** One step. Whatever was committed, done and counted before stays as it was. */
    method Step() returns (next: Next)
      requires Going()
      modifies this, run.journal, run.meter, run.meter.budget, run.provider, run.window, run.conversation
      modifies tools, tools.broker, tools.repeats
      ensures After(next) && (next.Onward? ==> iteration == old(iteration) + 1)
      ensures old(run.journal.marks) <= run.journal.marks && old(turns) <= turns && old(tools.log) <= tools.log
    {
      hide Journal.Valid, Provider.Valid, Tools.Valid, Meter.Valid, Conversation.Linked, Tools.Watched;
      hide Concluded, Taken, Held, Replay, Responses, Usages, RanResults, Askings, Rulings, RanNumbers, Announced, Answered;
      hide Begun, AllRanRead;
      hide Stopped;
      hide TallyOf, CarriedCalls;
      var ok, reply := Lead();
      if !ok {
        Conclude(Over);
        next := Over;
      } else if reply.calls == [] {
        next := FollowAnswer(reply);
      } else {
        next := FollowCalls(reply);
      }
    }

    /** The tool catalog goes on the ledger, and the prompt hook may block the turn. */
    method Admit() returns (live: bool)
      requires run.Ready()
      modifies run.journal`events
      ensures if live then run.Ready() else Ended(0)
      ensures Dealt(run.journal.events) == old(Dealt(run.journal.events))
      ensures live <==> !old(run.journal.Refuses(Catalog))
                        && !(tools.policy.hooked && run.journal.outside(Prompt, old(run.journal.events) + [Start]))
      ensures live ==> run.journal.events == old(run.journal.events) + [Start]
    {
      hide Journal.Valid, Provider.Valid, Meter.Valid, Conversation.Linked, Concluded, Replay, Usages, RanResults, Askings;
      hide Rulings, Announced, Answered;
      hide CauseStands;
      var ask := Catalog;
      live := !run.journal.Refuses(Catalog);
      if live {
        run.journal.Tell(Start);
        ask := Prompt;
        live := !(tools.policy.hooked && run.journal.Refuses(Prompt));
      }
      if !live {
        SaidNo(run.journal.events, run.journal.outside, ask, run.provider.streams, run.meter.LimitSeen() || 0 >= maxIterations);
        run.journal.End(Failed, 0);
      }
    }

    /** What comes before the first step; the prompt hook may also add context. */
    method Begin() returns (live: bool)
      requires Going() && iteration == 0
      modifies `pendingNotes, run.journal`events
      ensures After(if live then Onward else Over)
      ensures live <==> !old(run.journal.Refuses(Catalog))
                        && !(tools.policy.hooked && run.journal.outside(Prompt, old(run.journal.events) + [Start]))
    {
      hide Journal.Valid, Provider.Valid, Tools.Valid, Meter.Valid, Conversation.Linked;
      hide Concluded, Taken, Held, Replay, Responses, Usages, RanResults, Askings, Rulings, RanNumbers, Announced, Answered;
      hide Begun, AllRanRead;
      hide Stopped, NotedCount;
      live := Admit();
      if !live {
        Conclude(Over);
      } else if tools.policy.hooked {
        assert AllNotes([]);
        var context: seq<Message> :| AllNotes(context);
        pendingNotes := context;
        Conclude(Onward);
      }
    }

    /** The whole run, or as much of it as there is while it waits for the user. */
    method Execute() returns (next: Next)
      requires Going() && iteration == 0
      modifies this, run.journal, run.meter, run.meter.budget, run.provider, run.window, run.conversation
      modifies tools, tools.broker, tools.repeats
      ensures !next.Onward? && After(next)
    {
      hide Journal.Valid, Provider.Valid, Tools.Valid, Meter.Valid, Conversation.Linked;
      hide Concluded, Taken, Held, Replay, Responses, Usages, RanResults, Askings, Rulings, RanNumbers, Announced, Answered;
      hide Begun, AllRanRead;
      hide Stopped, NotedCount;
      var live := Begin();
      next := if live then Onward else Over;
      while next.Onward?
        invariant After(next)
        decreases if next.Onward? then maxIterations - iteration else 0
      {
        next := Step();
      }
    }
  }

  const NO_REPLY: Reply := Reply("", "", [], NO_USAGE, "")

  lemma Regrouped(before: seq<Message>, turn: Message, results: seq<Message>)
    ensures before + [turn] + results == before + ([turn] + results)
  {}
}
