/** Keeping the message list inside the context window before a model step
    (`compact_context`, `summary_prefix`, `summarize_messages`). */
module Compaction {
  import opened Wrappers
  import opened Messages
  import opened Summaries
  import opened Conversation
  import opened Trace
  import opened Usage
  import opened Retry
  import opened RunBudget
  import opened Window
  import opened Services
  import Elision
  import Strings

  datatype Retention = Retention(toolResults: nat, turns: nat)

  const RETAIN: Retention := Retention(6, 4)
  const RETAIN_FORCED: Retention := Retention(0, 2)

  const PRUNE_THRESHOLD: real := 0.60
  const SUMMARIZE_THRESHOLD: real := 0.85

  function Share(tokens: nat, share: real): int { (tokens as real * share).Floor }

  predicate Over(tokens: Option<nat>, estimate: nat, share: real) {
    tokens.Some? && estimate > Share(tokens.value, share)
  }

  /** The reply's text, when it has some and calls no tool. */
  function SummaryText(m: Message): Option<string> {
    if Calls(m) != [] || Strings.Trim(TextContent(m), Strings.IsRustSpace) == [] then None else Some(TextContent(m))
  }

  /** A reply that calls no tool and has a character of text that is no space. */
  ghost predicate AnswersInText(m: Message) {
    Calls(m) == [] && exists i :: 0 <= i < |TextContent(m)| && !Strings.IsRustSpace(TextContent(m)[i])
  }

  lemma SummaryTextIff(m: Message)
    ensures SummaryText(m) == if AnswersInText(m) then Some(TextContent(m)) else None
  {
    Strings.TrimsAwayIff(TextContent(m), Strings.IsRustSpace);
  }

  datatype Compacted = Compacted(elided: nat, summarized: nat, before: nat, after: nat, usage: Option<Usage>, failed: bool) {
    predicate Shrank() { elided > 0 || summarized > 0 }
  }

  /** A prompt is over a share of the window exactly when it exceeds that share
      itself; rounding down loses nothing. */
  lemma OverIff(tokens: nat, estimate: nat, share: real)
    ensures Over(Some(tokens), estimate, share) <==> estimate as real > tokens as real * share
  {}

  // ----- what a summary is asked for with -----

  function Asked(ms: seq<Message>, end: nat, text: string): seq<Message>
    requires end <= |ms|
  {
    ms[..end] + [TextMessage(User, text)]
  }

  predicate Fits(ms: seq<Message>, window: ContextWindow, toolsChars: nat)
    reads window
  {
    !Over(window.tokens, window.EstimateFor(ms, toolsChars), SUMMARIZE_THRESHOLD)
  }

  /** The messages as last sent when those fit the window, else the elided ones
      when they do. */
  function SummaryPrefix(
    asSent: Option<seq<Message>>, compacted: seq<Message>, end: nat, text: string, window: ContextWindow, toolsChars: nat)
    : (prefix: Option<seq<Message>>)
    requires end <= |compacted| && (asSent.Some? ==> |asSent.value| == |compacted|)
    reads window
    ensures prefix.Some? ==> Fits(prefix.value, window, toolsChars)
    ensures asSent.Some? && Fits(Asked(asSent.value, end, text), window, toolsChars) ==> prefix == Some(Asked(asSent.value, end, text))
    ensures prefix.Some? ==> prefix.value == Asked(compacted, end, text) || (asSent.Some? && prefix.value == Asked(asSent.value, end, text))
    ensures prefix.None? && asSent.Some? ==> !Fits(Asked(asSent.value, end, text), window, toolsChars)
    ensures prefix.None? ==> !Fits(Asked(compacted, end, text), window, toolsChars)
  {
    if asSent.Some? && Fits(Asked(asSent.value, end, text), window, toolsChars) then Some(Asked(asSent.value, end, text))
    else if Fits(Asked(compacted, end, text), window, toolsChars) then Some(Asked(compacted, end, text))
    else None
  }

  // ----- asking -----

  /** What two answered requests cost together. */
  function Reported(replies: seq<Usage>): Usage
    requires 0 < |replies| <= 2
  {
    if |replies| == 1 || replies[0] == NO_USAGE then replies[|replies| - 1] else AddUsage(replies[1], replies[0])
  }

  /** The reported usage carries the tokens of every reply. */
  lemma {:induction false} ReportedTokens(replies: seq<Usage>)
    requires 0 < |replies| <= 2
    ensures Reported(replies).prompt == Wrap(PromptTokens(replies))
    ensures Reported(replies).completion == Wrap(CompletionTokens(replies))
  {
    assert PromptTokens(replies[..1]) == replies[0].prompt && CompletionTokens(replies[..1]) == replies[0].completion;
    if |replies| == 1 {
      assert replies[..1] == replies;
    }
  }

  /** A completion without text is no summary. */
  const BLANK: Failure := Failure(false, false, None)

  /** Whether the first request's outcome leaves the second to be made: it was not
      made, gave no summary, or failed in a way retries cannot fix. */
  predicate AsksAgain(first: Option<Outcome>) {
    match first
    case None => true
    case Some(Ok(reply)) => SummaryText(reply.message).None?
    case Some(Err(failure)) => !failure.retryable
  }

  /** What the outcomes of the requests that were made come to. */
  function SummaryFrom(first: Option<Outcome>, second: Option<Outcome>): Result<(string, Usage), Failure>
    requires second.Some? == AsksAgain(first)
  {
    match second
    case None =>
      if first.value.Ok? then Ok((SummaryText(first.value.value.message).value, first.value.value.usage)) else Err(first.value.error)
    case Some(Err(failure)) => Err(failure)
    case Some(Ok(reply)) =>
      if SummaryText(reply.message).None? then Err(BLANK)
      else Ok((SummaryText(reply.message).value, Reported(RepliesOf(first, second))))
  }

  /** The usages of the replies that came. */
  function RepliesOf(first: Option<Outcome>, second: Option<Outcome>): (r: seq<Usage>)
    ensures |r| <= 2 && (second.Some? && second.value.Ok? ==> r != [])
  {
    UsageIn(first) + UsageIn(second)
  }

  function UsageIn(o: Option<Outcome>): seq<Usage> { if o.Some? && o.value.Ok? then [o.value.value.usage] else [] }

  /** What a consumer is told a summary cost. */
  function ToldOf(summary: Result<(string, Usage), Failure>): seq<Usage> { if summary.Ok? then [summary.value.1] else [] }

  predicate SameTokens(told: seq<Usage>, replies: seq<Usage>) {
    && Wrap(PromptTokens(told)) == Wrap(PromptTokens(replies))
    && Wrap(CompletionTokens(told)) == Wrap(CompletionTokens(replies))
  }

  /** A request answered with text and no tool call. */
  ghost predicate AnsweredWithText(o: Outcome) { o.Ok? && AnswersInText(o.value.message) }

  /** The outcome of the request made last. */
  function LastOf(first: Option<Outcome>, second: Option<Outcome>): Option<Outcome> { if second.Some? then second else first }

  /** A summary comes exactly of an answer in text to the last request, and is it. */
  lemma SummaryIsTheReply(first: Option<Outcome>, second: Option<Outcome>)
    requires second.Some? == AsksAgain(first)
    ensures var last, summary := LastOf(first, second), SummaryFrom(first, second);
            && last.Some? && (summary.Ok? <==> AnsweredWithText(last.value))
            && (summary.Ok? ==> summary.value.0 == TextContent(last.value.value.message))
  {
    var last := LastOf(first, second).value;
    if last.Ok? {
      SummaryTextIff(last.value.message);
    }
  }

  /** The usage told of accounts for the tokens of every reply if and only if the
      request made last was answered with text and no tool call, or the replies took
      no tokens. */
  lemma RepliesAreToldIff(first: Option<Outcome>, second: Option<Outcome>)
    requires second.Some? == AsksAgain(first)
    ensures var last := LastOf(first, second).value;
            var told, replies := ToldOf(SummaryFrom(first, second)), RepliesOf(first, second);
            SameTokens(told, replies) <==> AnsweredWithText(last) || SameTokens([], replies)
    ensures RepliesOf(first, second) == [] ==> SameTokens([], RepliesOf(first, second))
  {
    SummaryIsTheReply(first, second);
    var summary, replies := SummaryFrom(first, second), RepliesOf(first, second);
    if summary.Ok? {
      assert ToldOf(summary) == [Reported(replies)];
      ReportedTokens(replies);
      OneUsage(Reported(replies));
    }
  }

  lemma OneUsage(u: Usage)
    ensures PromptTokens([u]) == u.prompt && CompletionTokens([u]) == u.completion
    ensures Wrap(u.prompt) == u.prompt && Wrap(u.completion) == u.completion
  {
    assert [u][..0] == [];
  }

  /** Two blank replies: both took tokens, and nothing tells of either. */
  lemma BlankRepliesAreNotTold()
    ensures var usage := Usage(100, 1, 101, None, None, None);
            var reply := Some(Ok(Completion(TextMessage(Assistant, ""), usage)));
            && AsksAgain(reply) && SummaryFrom(reply, reply) == Err(BLANK)
            && RepliesOf(reply, reply) == [usage, usage] && !SameTokens(ToldOf(SummaryFrom(reply, reply)), [usage, usage])
  {
    var usage := Usage(100, 1, 101, None, None, None);
    OneUsage(usage);
    assert [usage, usage][..1] == [usage];
    assert PromptTokens([usage, usage]) == PromptTokens([usage]) + usage.prompt;
    BlankIsNoSummary();
  }

  lemma BlankIsNoSummary()
    ensures SummaryText(TextMessage(Assistant, "")).None?
  {
    assert Strings.Trim("", Strings.IsRustSpace) == [];
  }

  /** One request behind the run's own prefix when there is one, and one with the
      rendered transcript when that gave no summary for a reason retries cannot
      fix. `from` and `then'` are how the two came out. */
  method SummarizeMessages(
    provider: Provider, prefix: Option<seq<Message>>, standalone: seq<Message>, ghost first: Sent, ghost second: Sent)
    returns (summary: Result<(string, Usage), Failure>, ghost from: Option<Outcome>, ghost then': Option<Outcome>)
    requires provider.Valid() && provider.journal.Valid()
    requires provider.IsNow(second) && provider.IsNow(first)
    requires Sound(provider.origin, second) && second.messages == standalone && second.kind.StandaloneRequest?
    requires prefix.Some? ==> Sound(provider.origin, first) && first.messages == prefix.value && first.kind.PrefixRequest?
    modifies provider`sent, provider`outcomes, provider.journal`sentAt
    ensures provider.Valid() && provider.journal.Valid()
    ensures Within(old(TallyOf(provider.sent)), TallyOf(provider.sent), 0, 10, 0)
    ensures from.Some? == prefix.Some? && then'.Some? == AsksAgain(from) && summary == SummaryFrom(from, then')
    ensures Replies(provider.outcomes) == old(Replies(provider.outcomes)) + RepliesOf(from, then')
    ensures provider.LastOutcome() == LastOf(from, then')
    ensures |old(provider.sent)| < |provider.sent| && provider.sent[|old(provider.sent)|] == if prefix.Some? then first else second
    ensures summary.Ok? ==> Strings.Trim(summary.value.0, Strings.IsRustSpace) != []
  {
    hide Sound, Replies, TallyOf, Journal.Valid;
    from, then' := None, None;
    var spent := NO_USAGE;
    if prefix.Some? {
      var out, _ := provider.CompleteWithRetry(prefix.value, first);
      from := Some(out);
      match out {
        case Ok(reply) =>
          var text := SummaryText(reply.message);
          if text.Some? {
            return Ok((text.value, reply.usage)), from, None;
          }
          spent := reply.usage;
        case Err(failure) =>
          if failure.retryable {
            return Err(failure), from, None;
          }
      }
    }
    summary, then' := AskStandalone(provider, standalone, second, from, spent);
  }

  /** The second request; `spent` is what the first one's reply took. */
  method AskStandalone(provider: Provider, standalone: seq<Message>, ghost second: Sent, ghost from: Option<Outcome>, spent: Usage)
    returns (summary: Result<(string, Usage), Failure>, ghost then': Option<Outcome>)
    requires provider.Valid() && provider.journal.Valid() && provider.IsNow(second)
    requires Sound(provider.origin, second) && second.messages == standalone && second.kind.StandaloneRequest?
    requires AsksAgain(from) && spent == if UsageIn(from) != [] then UsageIn(from)[0] else NO_USAGE
    modifies provider`sent, provider`outcomes, provider.journal`sentAt
    ensures provider.Valid() && provider.journal.Valid() && Within(old(TallyOf(provider.sent)), TallyOf(provider.sent), 0, 5, 0)
    ensures then'.Some? && summary == SummaryFrom(from, then')
    ensures old(provider.sent) + [second] <= provider.sent
    ensures Replies(provider.outcomes) == old(Replies(provider.outcomes)) + UsageIn(then') && provider.LastOutcome() == then'
    ensures summary.Ok? ==> Strings.Trim(summary.value.0, Strings.IsRustSpace) != []
  {
    hide Provider.Valid, Journal.Valid, Sound, Replies, TallyOf;
    var out, _ := provider.CompleteWithRetry(standalone, second);
    then' := Some(out);
    match out {
      case Err(failure) => summary := Err(failure);
      case Ok(reply) =>
        var text := SummaryText(reply.message);
        if text.None? {
          return Err(BLANK), then';
        }
        summary := Ok((text.value, if spent != NO_USAGE then AddUsage(reply.usage, spent) else reply.usage));
    }
  }

  // ----- compacting -----

  lemma NothingReplaced(ms: seq<Message>, keep: nat)
    requires |Elision.Replaced(ms, keep)| == 0
    ensures Elision.Elided(ms, keep) == ms
  {
    assert Elision.Replaced(ms, keep) == {};
    assert forall i: nat :: i < |ms| && Elision.Elides(ms, i, keep) ==> i in Elision.Replaced(ms, keep);
  }

  /** A summary always folds something: whatever makes a span worth one is folded. */
  lemma SummaryFolds(ms: seq<Message>, anchor: Option<nat>, keepTurns: nat)
    requires SummarySpan(ms, anchor, keepTurns).Some?
    ensures var plan := SummarySpan(ms, anchor, keepTurns).value; plan.Fits(|ms|) && Folded(ms, plan) > 0
  {
    SpanShape(ms, anchor, keepTurns);
    var plan := SummarySpan(ms, anchor, keepTurns).value;
    var i :| (plan.beforeStart <= i < plan.beforeEnd || plan.afterStart <= i < plan.afterEnd) && !ms[i].role.System?;
    FoldsOne(ms, plan, i, IsKept);
  }

  lemma FoldsOne(ms: seq<Message>, plan: SummaryPlan, i: nat, kept: Message -> bool)
    requires plan.Fits(|ms|) && i < |ms| && !kept(ms[i])
    requires plan.beforeStart <= i < plan.beforeEnd || plan.afterStart <= i < plan.afterEnd
    ensures FoldCount(ms, plan, kept) > 0
  {
    if i < plan.beforeEnd {
      FilterDrops(ms[plan.beforeStart..plan.beforeEnd], kept, i - plan.beforeStart);
    } else {
      FilterDrops(ms[plan.afterStart..plan.afterEnd], kept, i - plan.afterStart);
    }
  }

  lemma {:induction false} FilterDrops(ms: seq<Message>, kept: Message -> bool, i: nat)
    requires i < |ms| && !kept(ms[i])
    ensures |Filter(ms, kept)| < |ms|
  {
    if i > 0 {
      FilterDrops(ms[1..], kept, i - 1);
    }
  }

  /** What one pass did to the list. */
  datatype Pass =
    | Untouched
    | Pruned
    | Condensed(summary: string, replies: seq<Usage>) // `replies`: what asking for it cost
    | PrunedAll(replies: seq<Usage>)

  /** The edits of a pass, in order. */
  function EditsOf(pass: Pass, retain: Retention): seq<Edit> {
    match pass
    case Untouched => []
    case Pruned => [Elide(retain.toolResults)]
    case Condensed(summary, _) => [Elide(retain.toolResults), Summarize(retain.turns, summary)]
    case PrunedAll(_) => [Elide(retain.toolResults), Elide(0)]
  }

  /** The usages of the replies a pass got, and of what it tells. */
  function Spent(pass: Pass): seq<Usage> {
    match pass
    case Condensed(_, replies) => replies
    case PrunedAll(replies) => replies
    case _ => []
  }

  predicate Tells(pass: Pass, usage: Option<Usage>) {
    if pass.Condensed? then 0 < |pass.replies| <= 2 && usage == Some(Reported(pass.replies)) else usage == None
  }

  /** How many results a pass over `ms` elides. */
  function ElidedBy(pass: Pass, ms: seq<Message>, retain: Retention): nat {
    match pass
    case Untouched => 0
    case PrunedAll(_) =>
      |Elision.Replaced(ms, retain.toolResults)| + |Elision.Replaced(Elision.Elided(ms, retain.toolResults), 0)|
    case _ => |Elision.Replaced(ms, retain.toolResults)|
  }

  /** With tool results elided the list is still over the higher threshold, unless
      the pass is forced, and holds a span worth a summary. */
  ghost predicate SummaryDue(t: Talk, window: ContextWindow, toolsChars: nat, force: bool)
    reads window
  {
    var retain := RetentionFor(force);
    var u := Edited(t, Elide(retain.toolResults));
    && (force || Over(window.tokens, window.EstimateFor(u.messages, toolsChars), SUMMARIZE_THRESHOLD))
    && SummarySpan(u.messages, u.anchor, retain.turns).Some?
  }

  /** A pass condensed the list into the provider's last reply, whose text it now
      holds, or elided every older result because that reply was none in text. */
  ghost predicate ByReply(pass: Pass, last: Option<Outcome>, ms: seq<Message>) {
    match pass
    case Condensed(summary, _) =>
      && last.Some? && AnsweredWithText(last.value) && summary == TextContent(last.value.value.message)
      && TellsSummary(ms, summary)
    case PrunedAll(_) => last.Some? && !AnsweredWithText(last.value)
    case _ => true
  }

  /** The pass left something out. */
  predicate Drops(pass: Pass, ms: seq<Message>, retain: Retention) { pass.Condensed? || ElidedBy(pass, ms, retain) > 0 }

  /** What is told of a pass: nothing when it left nothing out and no summary failed,
      else how many results it elided, whether it folded anything, what the summary
      cost, and whether it failed. */
  predicate Describes(told: Option<Compacted>, pass: Pass, ms: seq<Message>, retain: Retention) {
    match told
    case None => (pass.Untouched? || pass.Pruned?) && !Drops(pass, ms, retain)
    case Some(c) =>
      && (c.Shrank() <==> Drops(pass, ms, retain)) && c.elided == ElidedBy(pass, ms, retain)
      && (c.summarized > 0 <==> pass.Condensed?) && c.failed == pass.PrunedAll? && Tells(pass, c.usage)
  }

  lemma {:induction false} SoundPrefix(
    origin: Talk, edits: seq<Edit>, retain: Retention, end: nat, messages: seq<Message>, text: string, reading: Reading)
    requires AllLegal(edits) && !Stops(reading)
    requires var t := Edited(EditedAll(origin, edits), Elide(retain.toolResults));
             && var plan := SummarySpan(t.messages, t.anchor, retain.turns);
             && plan.Some? && plan.value.End() == end <= |t.messages|
             && (messages == Asked(t.messages, end, text) || messages == Asked(EditedAll(origin, edits).messages, end, text))
    ensures Sound(origin, Sent(PrefixRequest(retain.toolResults, retain.turns), messages, EditedAll(origin, edits), edits, text, reading))
  {}

  /** The request asks for the summary behind the run's own prefix, as it was sent or
      else elided, if that fits the window, and otherwise for one of a transcript. */
  ghost predicate AsksBehind(s: Sent, asSent: Option<seq<Message>>, ms: seq<Message>, end: nat, window: ContextWindow, toolsChars: nat)
    reads window
  {
    if s.kind.PrefixRequest? then IsPrefix(Some(s.messages), asSent, ms, end, window, toolsChars)
    else s.kind.StandaloneRequest? && IsPrefix(None, asSent, ms, end, window, toolsChars)
  }

  ghost predicate IsPrefix(
    prefix: Option<seq<Message>>, asSent: Option<seq<Message>>, ms: seq<Message>, end: nat, window: ContextWindow, toolsChars: nat)
    reads window
  {
    && end <= |ms| && (asSent.Some? ==> |asSent.value| == |ms|)
    && exists note :: prefix == SummaryPrefix(asSent, ms, end, note, window, toolsChars)
  }

  /** The same for a pass over a list: the prefix as sent counts when the list was
      over the higher threshold before anything was elided, or the pass is forced. */
  ghost predicate AsksFirst(s: Sent, t: Talk, window: ContextWindow, toolsChars: nat, force: bool)
    reads window
  {
    var retain := RetentionFor(force);
    var u := Edited(t, Elide(retain.toolResults));
    var plan := SummarySpan(u.messages, u.anchor, retain.turns);
    var asSent := force || Over(window.tokens, window.EstimateFor(t.messages, toolsChars), SUMMARIZE_THRESHOLD);
    && plan.Some?
    && AsksBehind(s, if asSent then Some(t.messages) else None, u.messages, plan.value.End(), window, toolsChars)
  }

  /** The request a summary takes: behind the run's prefix if that fits. */
  method AskForSummary(
    provider: Provider, conversation: Conversation, window: ContextWindow, toolsChars: nat, asSent: Option<seq<Message>>,
    plan: SummaryPlan, retain: Retention, ghost edits: seq<Edit>)
    returns (summary: Result<(string, Usage), Failure>, ghost replies: seq<Usage>)
    requires provider.Valid() && provider.journal.Valid() && conversation.Linked() && AllLegal(edits) && provider.meter.Clear()
    requires var before := EditedAll(provider.origin, edits);
             && conversation.Now() == Edited(before, Elide(retain.toolResults))
             && (asSent.Some? ==> asSent.value == before.messages)
    requires SummarySpan(conversation.messages, conversation.anchor, retain.turns) == Some(plan) && plan.Fits(|conversation.messages|)
    modifies provider`sent, provider`outcomes, provider.journal`sentAt
    ensures provider.Valid() && provider.journal.Valid()
    ensures Within(old(TallyOf(provider.sent)), TallyOf(provider.sent), 0, 10, 0)
    ensures |replies| <= 2 && Replies(provider.outcomes) == old(Replies(provider.outcomes)) + replies
    ensures summary.Ok? ==> replies != [] && summary.value.1 == Reported(replies)
    ensures var last := provider.LastOutcome();
            && last.Some? && (summary.Ok? <==> AnsweredWithText(last.value))
            && (summary.Ok? ==> summary.value.0 == TextContent(last.value.value.message))
    ensures |old(provider.sent)| < |provider.sent|
            && AsksBehind(provider.sent[|old(provider.sent)|], asSent, conversation.messages, plan.End(), window, toolsChars)
  {
    hide Provider.Valid, Journal.Valid, Replies, TallyOf, Conversation.Linked, IsPrefix;
    var transcript: string, instructions: string := *, *;
    var standalone := [TextMessage(System, instructions), TextMessage(User, transcript)];
    ghost var second := Sent(StandaloneRequest, standalone, EditedAll(provider.origin, edits), edits, transcript, provider.meter.Last());
    var prefix;
    ghost var first;
    prefix, first := PrefixToAsk(conversation, window, toolsChars, asSent, plan, retain, provider.origin, edits, provider.meter.Last());
    ghost var from, then';
    summary, from, then' := SummarizeMessages(provider, prefix, standalone, first, second);
    replies := RepliesOf(from, then');
    SummaryIsTheReply(from, then');
  }

  method PrefixToAsk(
    conversation: Conversation, window: ContextWindow, toolsChars: nat, asSent: Option<seq<Message>>, plan: SummaryPlan,
    retain: Retention, ghost origin: Talk, ghost edits: seq<Edit>, ghost reading: Reading)
    returns (prefix: Option<seq<Message>>, ghost first: Sent)
    requires AllLegal(edits) && !Stops(reading)
    requires var before := EditedAll(origin, edits);
             && conversation.Now() == Edited(before, Elide(retain.toolResults))
             && (asSent.Some? ==> asSent.value == before.messages && |asSent.value| == |conversation.messages|)
    requires SummarySpan(conversation.messages, conversation.anchor, retain.turns) == Some(plan) && plan.Fits(|conversation.messages|)
    ensures first.reading == reading
    ensures IsPrefix(prefix, asSent, conversation.messages, plan.End(), window, toolsChars)
    ensures prefix.Some? ==> Sound(origin, first) && first.messages == prefix.value && first.kind.PrefixRequest?
  {
    hide Sound, MadeFrom, EditedAll, SummarySpan, Elision.Elided;
    var note: string := *;
    prefix := SummaryPrefix(asSent, conversation.messages, plan.End(), note, window, toolsChars);
    ghost var before := EditedAll(origin, edits);
    first := Sent(StandaloneRequest, [], before, edits, note, reading);
    if prefix.Some? {
      SoundPrefix(origin, edits, retain, plan.End(), prefix.value, note, reading);
      first := Sent(PrefixRequest(retain.toolResults, retain.turns), prefix.value, before, edits, note, reading);
    }
  }

  function RetentionFor(force: bool): Retention { if force then RETAIN_FORCED else RETAIN }

  lemma TwoEdits(edits: seq<Edit>, a: Edit, b: Edit)
    ensures edits + [a] + [b] == edits + [a, b]
  {}

  datatype Effect = Effect(elided: nat, folded: nat, usage: Option<Usage>, failed: bool)

  /** The second half of a pass, behind the first elision: older turns replaced by
      a summary when there are some, or every older result elided when that fails. */
  method CondenseOlder(
    provider: Provider, conversation: Conversation, window: ContextWindow, toolsChars: nat, asSent: Option<seq<Message>>,
    retain: Retention, ghost edits: seq<Edit>)
    returns (effect: Effect, ghost pass: Pass)
    requires provider.Valid() && provider.journal.Valid() && conversation.Linked() && AllLegal(edits) && provider.meter.Clear()
    requires conversation.edits == edits + EditsOf(Pruned, retain)
    requires var before := EditedAll(provider.origin, edits);
             && conversation.Now() == Edited(before, Elide(retain.toolResults))
             && (asSent.Some? ==> asSent.value == before.messages)
    modifies provider`sent, provider`outcomes, provider.journal`sentAt, conversation`messages, conversation`anchor, conversation`edits
    ensures provider.Valid() && provider.journal.Valid() && conversation.Linked()
    ensures Within(old(TallyOf(provider.sent)), TallyOf(provider.sent), 0, 10, 0)
    ensures conversation.edits == edits + EditsOf(pass, retain) && !pass.Untouched?
    ensures pass.Pruned? ==> conversation.Now() == old(conversation.Now()) && effect.elided == 0
    ensures pass.Condensed? <==> effect.folded > 0
    ensures pass.Pruned? <==> SummarySpan(old(conversation.messages), old(conversation.anchor), retain.turns).None?
    ensures var plan := SummarySpan(old(conversation.messages), old(conversation.anchor), retain.turns);
            plan.Some? ==>
              && |old(provider.sent)| < |provider.sent|
              && AsksBehind(provider.sent[|old(provider.sent)|], asSent, old(conversation.messages), plan.value.End(), window, toolsChars)
    ensures ByReply(pass, provider.LastOutcome(), conversation.messages)
    ensures Tells(pass, effect.usage) && (pass.PrunedAll? <==> effect.failed)
    ensures Replies(provider.outcomes) == old(Replies(provider.outcomes)) + Spent(pass)
    ensures effect.elided == if pass.PrunedAll? then |Elision.Replaced(old(conversation.messages), 0)| else 0
  {
    hide Provider.Valid, Journal.Valid, Sound, MadeFrom, AllLegal, Replies, TallyOf, SummarySpan;
    hide Elision.Elided, Elision.Replaced, TellsSummary, AnsweredWithText, AsksBehind;
    var plan := SummarySpan(conversation.messages, conversation.anchor, retain.turns);
    if plan.None? {
      return Effect(0, 0, None, false), Pruned;
    }
    SummaryFolds(conversation.messages, conversation.anchor, retain.turns);
    var summary, replies := AskForSummary(provider, conversation, window, toolsChars, asSent, plan.value, retain, edits);
    match summary {
      case Ok((text, spent)) =>
        var folded := conversation.Condense(retain.turns, plan.value, text);
        TwoEdits(edits, Elide(retain.toolResults), Summarize(retain.turns, text));
        effect, pass := Effect(0, folded, Some(spent), false), Condensed(text, replies);
      case Err(_) =>
        var elided := conversation.Prune(0);
        TwoEdits(edits, Elide(retain.toolResults), Elide(0));
        effect, pass := Effect(elided, 0, None, true), PrunedAll(replies);
    }
  }

  /** Prune first; still over the higher threshold, summarize. */
  method PruneAndCondense(
    provider: Provider, conversation: Conversation, window: ContextWindow, toolsChars: nat, force: bool, maySummarize: bool)
    returns (effect: Effect, ghost pass: Pass)
    requires provider.Valid() && provider.journal.Valid() && conversation.Linked() && conversation.origin == provider.origin
    requires maySummarize ==> provider.meter.Clear()
    modifies provider`sent, provider`outcomes, provider.journal`sentAt, conversation`messages, conversation`anchor, conversation`edits
    ensures provider.Valid() && provider.journal.Valid() && conversation.Linked()
    ensures Within(old(TallyOf(provider.sent)), TallyOf(provider.sent), 0, if maySummarize then 10 else 0, 0)
    ensures conversation.edits == old(conversation.edits) + EditsOf(pass, RetentionFor(force)) && !pass.Untouched?
    ensures pass.Pruned? && effect.elided == 0 ==> conversation.Now() == old(conversation.Now())
    ensures pass.Condensed? || pass.PrunedAll? <==> maySummarize && old(SummaryDue(conversation.Now(), window, toolsChars, force))
    ensures pass.Condensed? <==> effect.folded > 0
    ensures ByReply(pass, provider.LastOutcome(), conversation.messages)
    ensures pass.Condensed? || pass.PrunedAll? ==>
              && |old(provider.sent)| < |provider.sent|
              && AsksFirst(provider.sent[|old(provider.sent)|], old(conversation.Now()), window, toolsChars, force)
    ensures Tells(pass, effect.usage) && (pass.PrunedAll? <==> effect.failed)
    ensures Replies(provider.outcomes) == old(Replies(provider.outcomes)) + Spent(pass)
    ensures effect.elided == ElidedBy(pass, old(conversation.messages), RetentionFor(force))
  {
    hide Provider.Valid, Journal.Valid, Sound, MadeFrom, Replies, TallyOf, EditedAll, AllLegal, Estimate;
    hide Elision.Elided, Elision.Replaced, SummarySpan, TellsSummary, AnsweredWithText, AsksBehind;
    var retain := RetentionFor(force);
    var before := conversation.messages;
    ghost var edits := conversation.edits;
    var asSent :=
      if maySummarize && (force || Over(window.tokens, window.EstimateFor(before, toolsChars), SUMMARIZE_THRESHOLD))
      then Some(before) else None;
    var elided := conversation.Prune(retain.toolResults);
    pass := Pruned;
    if elided == 0 {
      NothingReplaced(before, retain.toolResults);
    }
    if maySummarize && (force || Over(window.tokens, window.EstimateFor(conversation.messages, toolsChars), SUMMARIZE_THRESHOLD)) {
      effect, pass := CondenseOlder(provider, conversation, window, toolsChars, asSent, retain, edits);
      effect := effect.(elided := elided + effect.elided);
    } else {
      effect := Effect(elided, 0, None, false);
    }
  }

  /** One pass over the exact messages about to be sent. `None` when nothing was
      done, and then nothing has changed; a failed summary is reported; and a
      summary that was applied reports what its replies cost. */
  method CompactContext(
    provider: Provider, conversation: Conversation, window: ContextWindow, toolsChars: nat, force: bool, maySummarize: bool)
    returns (compacted: Option<Compacted>, ghost pass: Pass)
    requires provider.Valid() && provider.journal.Valid() && conversation.Linked() && conversation.origin == provider.origin
    requires maySummarize ==> provider.meter.Clear()
    modifies provider`sent, provider`outcomes, provider.journal`sentAt, conversation`messages, conversation`anchor, conversation`edits
    ensures provider.Valid() && provider.journal.Valid() && conversation.Linked()
    ensures Within(old(TallyOf(provider.sent)), TallyOf(provider.sent), 0, if maySummarize then 10 else 0, 0)
    ensures conversation.edits == old(conversation.edits) + EditsOf(pass, RetentionFor(force))
    ensures pass.Untouched? <==>
            !force && !Over(window.tokens, old(window.EstimateFor(conversation.messages, toolsChars)), PRUNE_THRESHOLD)
    ensures pass.Condensed? || pass.PrunedAll?
            <==> !pass.Untouched? && maySummarize && old(SummaryDue(conversation.Now(), window, toolsChars, force))
    ensures ByReply(pass, provider.LastOutcome(), conversation.messages)
    ensures pass.Condensed? || pass.PrunedAll? ==>
              && |old(provider.sent)| < |provider.sent|
              && AsksFirst(provider.sent[|old(provider.sent)|], old(conversation.Now()), window, toolsChars, force)
    ensures compacted.None? ==> conversation.Now() == old(conversation.Now())
    ensures Describes(compacted, pass, old(conversation.messages), RetentionFor(force))
    ensures compacted.Some? ==>
              && compacted.value.before == old(window.EstimateFor(conversation.messages, toolsChars))
              && compacted.value.after == window.EstimateFor(conversation.messages, toolsChars)
    ensures Replies(provider.outcomes) == old(Replies(provider.outcomes)) + Spent(pass)
  {
    var before := window.EstimateFor(conversation.messages, toolsChars);
    if !force && !Over(window.tokens, before, PRUNE_THRESHOLD) {
      return None, Untouched;
    }
    var effect;
    effect, pass := PruneAndCondense(provider, conversation, window, toolsChars, force, maySummarize);
    if effect.elided > 0 || effect.folded > 0 || effect.failed {
      var after := window.EstimateFor(conversation.messages, toolsChars);
      compacted := Some(Compacted(effect.elided, effect.folded, before, after, effect.usage, effect.failed));
    } else {
      compacted := None;
    }
  }
}
