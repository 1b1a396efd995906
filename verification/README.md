# The agent runtime: model and proofs

A Dafny model of the milim agent runtime (`crates/milim-agents`) and of two
scanners of its desktop client. The loop that runs a model with tools is written
as the imperative program it is, in classes whose methods update the message
list, the budget, the broker and the ledger; whatever the provider, the hooks,
the tools, the user and the clock do is arbitrary. Specification functions say
what each piece means, lemmas say what that means for whole runs, and
`WholeRun` puts both together.

| modules | part of the runtime |
|---|---|
| `WholeRun`, `AgentLoop`, `Turns`, `ModelStep`, `Stages`, `ToolLog`, `ToolSafety`, `ToolCalls`, `Approvals`, `ToolStep`, `Services`, `Marks`, `Trace`, `Outcome`, `Retry` | the loop: steps, retries, overflow recovery, tool calls and approvals, limits, final report, collected outcome |
| `Messages`, `Elision`, `Summaries`, `Folding`, `Conversation`, `Compaction`, `Window` | the message list and in-run context compaction |
| `ApprovalBroker` | approval requests and their state machines |
| `Utf8`, `Truncation`, `StepBudget`, `StepReplay` | output budgets on UTF-8 text (section 3 of RFC 3629) |
| `CanonicalJson`, `RepeatTracker` | call identity and the history of repeated calls |
| `Usage`, `RunBudget` | token accounting and limits with a pausable clock |
| `ThreadStore` | thread forest and event cursors |
| `JsonScanner`, `SseReader`, `Strings` | brace matcher (sections 4, 5 and 7 of RFC 8259) and `data:` line reader |

## Where the code and its documentation part

- A text that ends in a newline keeps no tail when it is cut
  (`crates/milim-agents/src/tool_output.rs:206-222`): `Truncation.TailIsEmptyIff`.
- When only history is summarized, fewer turns than asked for may stay and the
  latest assistant message may go (`crates/milim-agents/src/context.rs:256-264`):
  `Summaries.SpanKeepsTurnsIff` and `Summaries.SpanKeepsLatestIff`.
- A denial is remembered for the run unless it is worded as the approval timeout,
  whoever worded it so (`crates/milim-agents/src/repeats.rs:75-83`):
  `ToolSafety.RefusalIsNoted`, and `ToolSafety.TimeoutWordingIsForgotten`.
- Eliding compares bytes and the estimate counts characters, so "eliding only
  shrinks" fails for the estimate: `Window.ElidingCanGrowEstimate`, and exactly
  when, `Window.ElidingShrinksEstimateIff`.
- Many results between the water level and the minimum cap are marked to be cut
  and are not, so a step can exceed its budget: `StepReplay.StepCanExceedItsBudget`;
  what the caps allow keeps it exactly under `StepBudget.BudgetKeptIff`.
- The reported total has 32-bit counters and the budget wider ones, so the two
  agree exactly until one wraps: `Usage.TotalIsExactIff`.
- Deleting a thread that is not top-level misses grandchildren:
  `ThreadStore.TreeIdsIsSubtreeIff`.
- When no summary comes of replies that took tokens, their usage is reported
  nowhere (`crates/milim-agents/src/lib.rs:2069-2095`):
  `Compaction.BlankRepliesAreNotTold`, and exactly when,
  `Compaction.RepliesAreToldIff`.

## Model

| member | source | states |
|---|---|---|
| WholeRun.RunAgent | crates/milim-agents/src/lib.rs:1087-1788 | from any messages, limits, tools and provider behaviour, on a shared broker, and whatever ledger and hooks answer: everything the run sent, streamed, yielded, committed, ran, checked and counted satisfies `Kept`, which ties the marks behind committed responses to the events, the streams and the ledger, the turns to the marks, the calls announced to the calls of the replies followed, each act on a call to what was done about that call before, each run and request to the check of the limits before it, and the end to what stands before it |
| WholeRun.EveryRequest | crates/milim-agents/src/lib.rs:1137-1266 | every step, summary and report request of any run answers each tool call in place if the start did; step and report requests left as committed and still hold the run's own user request; summaries never stack; at the last check before any request but the final report no limit was reached |
| WholeRun.RunIsBounded | crates/milim-agents/src/lib.rs:1137-1512 | with M iterations (at least 1) a run makes at most 30 M + 5 provider calls |
| WholeRun.AccountsAgree | crates/milim-agents/src/lib.rs:1299-1419 | each response on the ledger is the whole of a finished stream the provider sent; the events up to it lie on the way to all the run's events, replay to exactly the text of the responses so far, and the budget's tokens equal prompt plus completion of the reported total if and only if neither 32-bit counter has wrapped |
| WholeRun.RunEndsInAgreement | crates/milim-agents/src/lib.rs:1429-1512 | a run that ended without failing leaves a consumer with exactly the committed text, and its last event reports the sum of all usage told and no more steps than were committed, plus one for a final report |
| WholeRun.TheAnswerIsTheReply | crates/milim-agents/src/lib.rs:1476-1512 | an answer is given at most once, right before `Done`; it says the text and the reasoning of the response committed last, which makes no call, or as a final report the text of the provider's last reply |
| WholeRun.LastWordsEnd | crates/milim-agents/src/lib.rs:1743-1753 | behind an answer, or a result that proposes a worker run, nothing follows but `Done`, and no request leaves |
| WholeRun.DecisionsEndTheRun | crates/milim-agents/src/lib.rs:1755-1783 | the user is told of at most one decision in a run, right behind the first result that asks for one; then only the step's other results follow, no request leaves, and the run is done or a ledger failure ends it |
| WholeRun.DecisionsAreTold | crates/milim-agents/src/lib.rs:1755-1762 | whenever a result asks for a decision, the user is told of one, at the latest right behind it |
| WholeRun.DoneIff | crates/milim-agents/src/lib.rs:1476-1783 | a run ends with `Done` if and only if it did not fail and gave an answer or report, or a result proposed a worker run, or a decision was asked of the user |
| WholeRun.RunEndsForACause | crates/milim-agents/src/lib.rs:1112-1512 | a run fails only when the ledger or a hook says no behind just the events so far, or its last stream failed, broke off or had a prompt too long; a limit or a report ends it only when its last check found a limit or all steps are used |
| WholeRun.FewStepsMakeNoCall | crates/milim-agents/src/lib.rs:1429-1472 | in any run at most three whole answers are followed by another step, and at most five steps on end make no call and are followed by another; without a stop hook none and two |
| WholeRun.LimitsStayReached | crates/milim-agents/src/limits.rs:60-63 | over a whole run a limit found reached at one check is found reached at every later one |
| WholeRun.CallsAreTheModels | crates/milim-agents/src/lib.rs:1525-1555 | the calls announced are exactly the calls of the committed replies whose steps were carried out, in order, each as the registry resolves it under its own id; and every call heard about, asked about, run, skipped or noted is the announced call of its number |
| WholeRun.ResultsWereApproved | crates/milim-agents/src/lib.rs:1541-1720 | the n-th result, when shown as a tool's own, comes from a run of the n-th announced call, with valid arguments and no earlier denial, behind a check that found no limit reached; and with a broker, unless it is read-only, because for this call, and not an equal one, the interceptor said yes or the user was asked and that request was approved |
| WholeRun.OneApprovalOneRun | crates/milim-agents/src/lib.rs:1586-1682 | two runs the user approved are of two different calls and answer to two different requests, each resolved with an approval |
| WholeRun.RequestsAreTold | crates/milim-agents/src/lib.rs:1589-1598 | whenever the user is asked about a call, the request is told, under that call's own id |
| WholeRun.RulingsAreTrue | crates/milim-agents/src/lib.rs:1627-1649 | a decision is told once and behind its request, on a call the user was asked about, and as an approval if and only if the broker has that request resolved with one |
| WholeRun.RequestsAreRuled | crates/milim-agents/src/lib.rs:1604-1651 | unless the run is left waiting, the decision on every request is told, a timeout as a denial |
| WholeRun.RefusalsStand | crates/milim-agents/src/lib.rs:1556-1680 | over a whole run: a call the interceptor denied, or whose request was resolved as a denial, never runs; and once a later step has begun no call with its key is heard about, asked about or run, unless the denial is worded as the approval timeout |
| AgentLoop.Loop.Execute | crates/milim-agents/src/lib.rs:1103-1137 | a run stops or waits; it never ends onward, and what holds of every run holds however it ends |
| AgentLoop.Loop.Step | crates/milim-agents/src/lib.rs:1138-1787 | one turn of the loop keeps every earlier mark, turn and act, adds to them, and leaves the run ready for the next step with one more iteration counted, or over, or waiting for the user, with all accounts kept |
| AgentLoop.Loop.Admit | crates/milim-agents/src/lib.rs:1112-1133 | the run goes on to its first step if and only if the ledger takes the tool catalog and no hook blocks the prompt; otherwise it fails |
| AgentLoop.Loop.BeginStep | crates/milim-agents/src/lib.rs:1139-1169 | a seen limit or a failed preparation, and nothing else, ends the run; otherwise steering notes and then exactly the pending notes are appended |
| AgentLoop.Loop.CompleteStep | crates/milim-agents/src/lib.rs:1397-1419 | the ledger and the marks grow by exactly the reply of the stream read last, the budget by its usage, the window is calibrated by it, and the shown text is then the committed text; a refused commit, and nothing else, ends the run and adds nothing |
| AgentLoop.Loop.RecoverAnswer | crates/milim-agents/src/lib.rs:1436-1451 | a cut-off answer is kept when it has text, as an assistant message of that text and reasoning without calls, counted as one recovery and no continuation, and followed by a note |
| AgentLoop.Loop.AnswerStep | crates/milim-agents/src/lib.rs:1429-1485 | a limit ends the run with `Limited`; a cut-off answer with recoveries left goes on as exactly one cut-off turn; otherwise the run goes on if and only if a hook asks for more and may, and the events end with the reply's text and reasoning as the answer and `Done` |
| AgentLoop.Loop.OfferStop | crates/milim-agents/src/lib.rs:1452-1485 | the run goes on if and only if a hook asks for more, fewer than three continuations were made and an iteration is left; then the reply is kept and one note added; else its text and reasoning are the final answer |
| AgentLoop.Loop.CallStep | crates/milim-agents/src/lib.rs:1488-1531 | a limit or the iteration bound stops the run before any call of the step is announced, asked about or run: log, messages and turns stay as they were |
| AgentLoop.Loop.EnterCalls | crates/milim-agents/src/lib.rs:1513-1523 | recoveries are counted since the last step whose calls were whole |
| AgentLoop.Loop.RunCalls | crates/milim-agents/src/lib.rs:1525-1787 | the calls announced grow by exactly the reply's calls, proxies resolved, in order; a finished tool step has added exactly one turn, saying the reply's text, reasoning and calls, with a result for every call, in order, then the images; a decision for the user ends the run |
| AgentLoop.Loop.StopAtLimit | crates/milim-agents/src/lib.rs:1140-1161 | when a report is wanted and the ledger takes its request, the report is asked for, in at most five requests, and the run ends with it if and only if the last reply is text without calls; otherwise it ends with the limit |
| Turns.TruncatedIff | crates/milim-agents/src/lib.rs:1876-1882 | a reply counts as cut off for exactly four finish reasons |
| Turns.UnparseableIff | crates/milim-agents/src/lib.rs:1513-1517 | the calls of a reply count as cut off exactly when the reply was cut off and the arguments of some call are neither blank nor JSON |
| Turns.TurnsAreBounded | crates/milim-agents/src/lib.rs:1436-1523 | however a run went on so far, at most two recoveries in a row and three continuations in all |
| Turns.WholeAnswersGoOn | crates/milim-agents/src/lib.rs:1452-1472 | the steps that made no call, were not cut off and were followed by another are at most the continuations, so at most three, and none without a stop hook |
| Turns.CallLessSteps | crates/milim-agents/src/lib.rs:1429-1472 | any stretch of steps without calls that all go on is at most five long |
| ModelStep.AgentRun.Request | crates/milim-agents/src/lib.rs:1188-1396 | one step: one pass, and a second, forced one if and only if some prompt of the first was too long; at most 10 streamed attempts and 20 summary requests; it ends in a complete reply of a stream that did not overflow, shown exactly once on top of what was shown, or ends the run |
| ModelStep.AgentRun.Pass | crates/milim-agents/src/lib.rs:1191-1266 | compaction is made exactly as its pass says: none only below the threshold of an unforced pass, a summary asked for exactly when one is due and no limit was reached; a forced pass goes on only if results were elided or messages folded; an overflow is handed back exactly when a stream overflowed and the pass was not forced, with the window lowered to the prompt that did not fit |
| ModelStep.AgentRun.Account | crates/milim-agents/src/lib.rs:1206-1241 | a consumer is told of the usage and of the counts of a compaction; after an overflow that dropped nothing the run is over |
| ModelStep.AgentRun.Attempts | crates/milim-agents/src/lib.rs:1259-1396 | at most five attempts at one committed request; it overflows exactly when one of their streams did, and then at most once; between attempts a consumer holds what it held before the step |
| ModelStep.AgentRun.TryOnce | crates/milim-agents/src/lib.rs:1262-1394 | an attempt whose stream overflowed neither replies nor is repeated: the first lowers the window and is handed back, after that it ends the run |
| ModelStep.OverflowNamesIff | crates/milim-agents/src/retry.rs:111-116 | a finish reason says that the window is full exactly for three names, in any case of letters |
| ModelStep.AgentRun.Retry | crates/milim-agents/src/lib.rs:1355-1394 | an attempt is repeated if and only if attempts remain, the failure is worth one, the backoff ends within the run time left and no limit is seen; then it has been taken back and the delay has passed, otherwise the run is over |
| ModelStep.AgentRun.Overflow | crates/milim-agents/src/lib.rs:1320-1350 | a second overflow fails the run and leaves the window alone; the first lowers it to the estimate of the prompt that did not fit and takes back what was shown |
| ModelStep.AgentRun.Consume | crates/milim-agents/src/lib.rs:1272-1319 | content and reasoning are the deltas joined in order, usage and finish reason those of the completion event, told once; the failure is the stream's own, or that it ended without a completion event; and the shown text grows by exactly the attempt |
| ModelStep.RetryTakesBack | crates/milim-agents/src/lib.rs:1381-1387 | dropping the discarded bytes undoes exactly what the failed attempt showed |
| Trace.DropAppended | crates/milim-agents/src/lib.rs:1341-1347 | dropping as many bytes as a text has from behind it gives back what came before, for texts of any characters |
| Trace.RequestIsPaired | crates/milim-agents/src/lib.rs:2015-2032 | a request made from any legal sequence of edits is paired, whichever of the four kinds it is |
| Trace.RequestHoldsOrigin | crates/milim-agents/src/lib.rs:1101-1103 | step and report requests keep the original user request where the anchor points |
| Services.Provider.CompleteWithRetry | crates/milim-agents/src/lib.rs:2171-2194 | one attempt and at most four retries, all of the same request, each after a failure worth one; it gives up only on another failure or out of retries |
| Services.Meter.Check | crates/milim-agents/src/limits.rs:60-63 | the reason is that of the budget at the instant of the check, the reading behind it is kept, and a limit seen once is seen by every later check of the run |
| Services.Journal.Spend | crates/milim-agents/src/lib.rs:2196-2213 | the running total is always the sum of the usage events yielded so far |
| Retry.BackoffDelay | crates/milim-agents/src/retry.rs:111-129 | a hint up to 60 s is followed exactly and a longer one is 60 s; else the wait lies between half of the exponential delay and all of it, at most 30 s, and is zero for a zero base |
| Retry.ExponentialDoubles | crates/milim-agents/src/retry.rs:118-129 | the exponential delay starts at the base, doubles with every attempt up to the seventeenth, and is capped at 30 s |
| Retry.DelaysGrow | crates/milim-agents/src/retry.rs:111-129 | a later retry never waits less than half of what an earlier one waited |
| Outcome.Collect | crates/milim-agents/src/lib.rs:796-850 | collecting a finished run pairs every result with its own call's arguments, in order, returns the last answer yielded or none, and always finds the end |
| ToolStep.Tools.Prepare | crates/milim-agents/src/lib.rs:1539-1603 | every call is announced in order; each is approved, denied for a reason, or waits, at most one of these, and none only once a limit has been seen; every waiting call has a request of its own, shared with no other call; nothing runs meanwhile |
| ToolStep.Tools.Clear | crates/milim-agents/src/lib.rs:1574-1600 | the user is asked if and only if nothing stands in the way of a valid call that is not read-only, a broker is there and no hook approved it; hook approval needs the interceptor's recorded word on this call in this step |
| ToolStep.Tools.Vet | crates/milim-agents/src/lib.rs:1556-1577 | a call denied before is answered with the first denial; otherwise the interceptor, where there is one, is heard about a valid call unless a limit is seen, and its denial or approval is what counts |
| ToolStep.Tools.Settle | crates/milim-agents/src/lib.rs:1612-1650 | an approval takes effect only with a `resolve` that returned `Resolved` for this call's request; only the decided call changes, and a decision once there settles it |
| ToolStep.Tools.Await | crates/milim-agents/src/lib.rs:1604-1652 | decisions may come in any order with any use of the broker in between; in the end every call asked about is approved exactly if its own request, made for it alone, was resolved so; and all the waiting is one pause of the clock |
| ToolStep.Tools.ExecuteCall | crates/milim-agents/src/lib.rs:1663-1680 | a call runs exactly if it was approved, its arguments are valid and the check right before it finds no limit reached; otherwise it is skipped, denied with its own reason or the user's, or answered with an error |
| ToolStep.Tools.Carry | crates/milim-agents/src/lib.rs:1525-1682 | the step's calls are begun, announced and carried out exactly as made, in order; the calls that ran are those whose outcomes say so, under their numbers; and every outcome tells of its call's refusal, skip or run |
| ToolStep.Tools.RecordResult | crates/milim-agents/src/lib.rs:1690-1772 | a refused ledger entry fails the run; a result is told with what it asks of the user, a proposal ends the run right behind it with `Done`, and the first that asks for a decision has the user told |
| ToolStep.Tools.Record | crates/milim-agents/src/lib.rs:1690-1777 | results are answered, recorded and placed in the list in call order, one per call; the history grows by exactly the outcomes of the calls, each under its call's key and as the call's own result was; the images are those of the results in order, a decision is awaited exactly if some result asks for one, and a proposal ends the run at its result; what the model sees of a result ends with the loop note its call has earned by then, if any |
| ToolCalls.ImageIsShown | crates/milim-agents/src/lib.rs:1774-1777 | the message that follows shows the image under its tool's name and calls nothing |
| ToolSafety.OnlyApprovedCallsRun | crates/milim-agents/src/lib.rs:1541-1682 | with a broker a call that is not read-only ran only with valid arguments, no limit at the check before it, and either a configured interceptor's recorded approval of this very call, or an approval resolved for the request made for this very call |
| ToolSafety.EachRunsOnce | crates/milim-agents/src/lib.rs:1663-1682 | no call runs twice |
| ToolSafety.AskedOnce | crates/milim-agents/src/lib.rs:1586-1597 | no two requests share an id, and no call is asked about twice |
| ToolSafety.ApprovalsAreNotShared | crates/milim-agents/src/lib.rs:1586-1682 | an approval speaks for one call and one run: two runs the user approved had different requests, each made before for that very call |
| ToolSafety.RefusedDoesNotRun | crates/milim-agents/src/lib.rs:1604-1680 | a call that the interceptor denied, or whose request was resolved as a denial, does not run |
| ToolSafety.RefusalIsNoted | crates/milim-agents/src/repeats.rs:61-91 | before the next step begins a refusal stands in the history as a denial of the call's own key with its own reason, and as nothing if and only if it is worded as the approval timeout |
| ToolSafety.RefusedStaysRefused | crates/milim-agents/src/repeats.rs:61-91 | once the step after a refusal has begun, no call with the refused key is heard about, asked about or run, unless the refusal is worded as the approval timeout |
| ToolSafety.RefusalCoversSpellings | crates/milim-agents/src/repeats.rs:32-45 | the same in terms of arguments: no spelling with the same JSON meaning gets through |
| ToolSafety.TimeoutWordingIsForgotten | crates/milim-agents/src/repeats.rs:61-91 | a denial worded as the approval timeout, behind which the user is asked about the same call |
| Compaction.CompactContext | crates/milim-agents/src/lib.rs:1928-1998 | compaction does nothing exactly below the threshold; a summary is asked for exactly when that may be, the pass is forced or the elided list is over the higher threshold, and a span is worth one; the list then says the provider's last reply, or without a reply in text every older result is elided and the failure told; the request goes behind the run's own prefix as sent or elided if that fits; `None` means nothing changed; estimates, counts and usage are those of the pass made |
| Compaction.SummaryPrefix | crates/milim-agents/src/lib.rs:2015-2032 | the chosen prefix is the messages as they were sent where these fit the window, else the elided ones where those do, and none is chosen only if neither fits |
| Compaction.SummarizeMessages | crates/milim-agents/src/lib.rs:2043-2100 | at most ten requests; the second is made exactly when the first gave no summary for a reason retries cannot fix; the summary and its usage are those of the replies the provider gave, all of which are recorded; a summary is never blank |
| Compaction.SummaryIsTheReply | crates/milim-agents/src/lib.rs:2043-2117 | a summary comes exactly of a last reply without calls and with a character that is no space, and is its whole text |
| Compaction.RepliesAreToldIff | crates/milim-agents/src/lib.rs:2069-2095 | the usage told of carries the tokens of every reply if and only if the request made last was answered with text and no tool call, or the replies took no tokens |
| Compaction.BlankRepliesAreNotTold | crates/milim-agents/src/lib.rs:2069-2095 | two blank replies of 101 tokens each, of which nothing is told |
| Compaction.ReportedTokens | crates/milim-agents/src/lib.rs:2095-2099 | the reported usage has the prompt and completion tokens of all replies, wrapped to 32 bits |
| Compaction.SummaryFolds | crates/milim-agents/src/context.rs:258-264 | a span worth a summary always folds at least one message |
| Compaction.OverIff | crates/milim-agents/src/lib.rs:1941-1943 | a prompt is over a share of the window exactly when it exceeds that share |
| Conversation.EditsKeepTheTalk | crates/milim-agents/src/context.rs:145-313 | over any number of elisions, summaries, notes and turns: pairing, at most one summary, and the request at the anchor are kept |
| Conversation.Conversation.ElideOldToolResults | crates/milim-agents/src/context.rs:145-178 | the in-place pass replaces exactly the results that are stale and bulkier than their stub, and counts them |
| Conversation.Conversation.ApplySummary | crates/milim-agents/src/context.rs:276-313 | the two splices leave the list with both spans folded, the summary's text, less the spaces at its ends, in it behind the prefix, the anchor moved along, and report the number folded |
| Elision.PrunableAreStale | crates/milim-agents/src/context.rs:146-162 | the results the pass takes are those before the latest tool-calling turn with at least `keep` newer results |
| Elision.ElisionShortens | crates/milim-agents/src/context.rs:163-176 | only contents of old tool results change, and each change is strictly shorter in bytes |
| Elision.ElisionKeepsRecent | crates/milim-agents/src/context.rs:141-162 | the most recent results stay verbatim: those of the latest turn, or `keep` of them if that is more |
| Elision.ElisionIsIdempotent | crates/milim-agents/src/context.rs:145-178 | a second pass with the same `keep` replaces nothing |
| Elision.ElisionKeepsShapes | crates/milim-agents/src/context.rs:141-145 | roles, ids, calls and pairing are untouched |
| Elision.StubNamesTheTool | crates/milim-agents/src/context.rs:136-178 | what takes a result's place names the tool of the latest call before it with its id |
| Summaries.SpanCutsAtBoundaries | crates/milim-agents/src/context.rs:216-221 | every end of both spans is a place where a paired list may be cut |
| Summaries.SpanAvoidsRequest | crates/milim-agents/src/context.rs:217-220 | neither span holds the run's request, and the message behind the first span is the user's |
| Summaries.RecentIsLatest | crates/milim-agents/src/context.rs:236-249 | behind the cut just as many turns are left as asked for, unless it stops at the latest assistant message before that |
| Summaries.SpanCoversOlder | crates/milim-agents/src/context.rs:250-265 | the plan holds every message from the head up to the cut, except the request |
| Summaries.SpanKeepsTurnsIff | crates/milim-agents/src/context.rs:250-265 | with own turns to fold at least `keep_turns` turns stay; when only history is folded, if and only if the next user message is not past the last kept turn |
| Summaries.SpanKeepsLatestIff | crates/milim-agents/src/context.rs:250-265 | with own turns to fold the latest assistant message stays; when only history is folded, if and only if no user message follows the start of the kept turns, or the first that does comes before it |
| Summaries.HistoryCutKeepsFewerTurns | crates/milim-agents/src/context.rs:256-264 | a conversation where the history cut keeps one turn of the two asked for and folds the latest assistant message |
| Folding.SummarizingKeepsPairing | crates/milim-agents/src/context.rs:276-313 | folding a chosen span keeps every call answered in place |
| Folding.RequestSurvives | crates/milim-agents/src/context.rs:301-311 | after folding the moved anchor points at the unchanged request |
| Folding.SystemContextSurvives | crates/milim-agents/src/context.rs:270-275 | all system context that is no summary stays, in order, and the length drops by the folded count less one |
| Folding.PlanCoversSummary | crates/milim-agents/src/context.rs:223-265 | no earlier summary lies behind the span, so it is always folded |
| Folding.FoldingLeavesOneSummary | crates/milim-agents/src/context.rs:276-300 | after folding there is exactly one summary, with at most the request before it, and it says the text given, less the spaces at its ends, behind the prefix |
| Messages.PairedIff | crates/milim-agents/src/context.rs:141-145 | the left-to-right check accepts exactly the lists where each call is answered by the tool messages right behind it, and nothing else answers |
| Window.EstimateTokens | crates/milim-agents/src/context.rs:50-74 | the loop computes characters over four, rounded up, with the allowances per image and message |
| Window.ContextWindow.EstimateFor | crates/milim-agents/src/context.rs:110-117 | the larger of the raw estimate and the last real count plus the growth since |
| Window.ContextWindow.Lower | crates/milim-agents/src/context.rs:128-134 | the window becomes the smaller of itself and the prompt's size, and is never empty |
| Window.ElidingShrinksEstimateIff | crates/milim-agents/src/lib.rs:1953-1956 | eliding does not raise the estimate if and only if the characters the stubs add fit into the slack of rounding and the images dropped with the results; all of it computable beforehand |
| Window.ElidedCounts | crates/milim-agents/src/lib.rs:1953-1956 | eliding changes the counts of characters and images by exactly the sums over the results it replaces |
| Window.ElidingAsciiShrinksEstimate | crates/milim-agents/src/lib.rs:1953-1956 | in particular eliding ASCII results never raises the estimate |
| Window.ElidingCanGrowEstimate | crates/milim-agents/src/lib.rs:1953-1956 | for every tool name a result of four-byte characters whose elision raises the estimate |
| ApprovalBroker.ReachableStates | crates/milim-agents/src/lib.rs:321-613 | in every reachable state: a sender exactly while requested, metadata only for live requests, one resolution per id, recorded decisions stand, notices walk the state machine, dropped waiters leave nothing open |
| ApprovalBroker.RunAdvances | crates/milim-agents/src/lib.rs:551-579 | over any further calls states only move ahead, settled entries are frozen, decisions are written once, ids are never reused |
| ApprovalBroker.RequestKeeps | crates/milim-agents/src/lib.rs:322-367 | making room evicts settled entries only |
| ApprovalBroker.OpenRequestIsResolvable | crates/milim-agents/src/lib.rs:383-438 | `resolve` returns `Resolved` if and only if the request is open; with atomic calls the disconnected branch is not reachable |
| ApprovalBroker.SecondAnswer | crates/milim-agents/src/lib.rs:383-438 | whatever else happens behind a resolution, a second answer to the request changes nothing: the same decision in the same words is told so, and any other conflicts, or fails once the request has failed |
| ApprovalBroker.EndedTakesNone | crates/milim-agents/src/lib.rs:383-438 | a request that ended without a decision takes none any more |
| ApprovalBroker.ArrivedDecision | crates/milim-agents/src/lib.rs:627-641 | what a waiter receives is what the one successful `resolve` put there |
| ApprovalBroker.DropSettles | crates/milim-agents/src/lib.rs:672-691 | a dropped waiter leaves neither an open request nor an undelivered decision |
| ApprovalBroker.ToolApprovalBroker.Resolve | crates/milim-agents/src/lib.rs:383-438 | the method computes the result and the state of the `resolve` step, a rejection narrowed to once |
| ApprovalBroker.ToolApprovalBroker.MoveTo | crates/milim-agents/src/lib.rs:551-579 | the method makes exactly the transition, or none |
| ApprovalBroker.ToolApprovalBroker.NewRequest | crates/milim-agents/src/lib.rs:322-367 | the method adds an open request and evicts as the step says |
| ApprovalBroker.ToolApprovalBroker.NewExternalRequest | crates/milim-agents/src/lib.rs:440-472 | the same, with metadata and the first notice |
| ApprovalBroker.ToolApprovalBroker.Poll | crates/milim-agents/src/lib.rs:627-641 | a waiter is ready with the delivered decision, still waits while the sender lives, and is otherwise denied and failed |
| ApprovalBroker.ToolApprovalBroker.Drop | crates/milim-agents/src/lib.rs:672-691 | dropping cancels an open request, fails an undelivered decision, and touches nothing else |
| ApprovalBroker.ToolApprovalBroker.AcknowledgeRun | crates/milim-agents/src/lib.rs:524-534 | exactly the run's delivered entries are acknowledged |
| ApprovalBroker.ToolApprovalBroker.FailRun | crates/milim-agents/src/lib.rs:536-545 | exactly the run's unsettled entries fail |
| ApprovalBroker.ToolApprovalBroker.TakeDecision | crates/milim-agents/src/lib.rs:1612-1621 | an approval is taken if and only if one was resolved; it takes effect whether or not it could be delivered, and its entry is delivered and acknowledged exactly when it was still there and had not failed or been cancelled |
| Truncation.TruncateHeadTail | crates/milim-agents/src/tool_output.rs:175-239 | nothing is cut exactly when both budgets hold; otherwise the result has maximal head and tail cuts |
| Truncation.TruncationKeepsBothEnds | crates/milim-agents/src/tool_output.rs:175-239 | head, omitted middle and tail are whole characters that rebuild the text, each end within half of both budgets, with exact omitted counts |
| Truncation.TailIsEmptyIff | crates/milim-agents/src/tool_output.rs:206-222 | with two lines and eight bytes allowed, the kept tail is empty if and only if the text ends in a newline |
| Truncation.NewlineTerminatedTextLosesItsTail | crates/milim-agents/src/tool_output.rs:206-222 | a three-line text whose tail is lost |
| Truncation.FloorCharBoundary | crates/milim-agents/src/tool_output.rs:241-247 | the last boundary not after the index |
| Truncation.CeilCharBoundary | crates/milim-agents/src/tool_output.rs:249-255 | the first boundary not before the index |
| Utf8.BoundarySplits | crates/milim-agents/src/tool_output.rs:241-255 | a character boundary of an encoded text splits it between two characters |
| Utf8.SplitsAreBoundaries | crates/milim-agents/src/tool_output.rs:241-255 | and every split between two characters is a boundary |
| StepBudget.StepByteCaps | crates/milim-agents/src/tool_output.rs:294-327 | within budget nothing is cut; over budget exactly the results above the water level are, all to one cap, in place |
| StepBudget.CutCap | crates/milim-agents/src/tool_output.rs:313-318 | a cut result's cap is the most that leaves room for its note below the level, and never less than the minimum |
| StepBudget.WaterLevel | crates/milim-agents/src/tool_output.rs:304-313 | the loop stops at the level where the filled sizes fit the budget and one more does not |
| StepBudget.WaterLevelIsLargest | crates/milim-agents/src/tool_output.rs:304-313 | that level is the largest that fits, so there is only one |
| StepBudget.BudgetKeptIff | crates/milim-agents/src/tool_output.rs:314-327 | over budget, what the caps and their notes allow fits the budget if and only if the clipped lengths, filled to 2560 bytes each, fit it |
| StepReplay.ModelToolContents | crates/milim-agents/src/tool_output.rs:263-288 | each result is replayed in place, whole or cut, under the cap of the step's water level |
| StepReplay.StepTakes | crates/milim-agents/src/tool_output.rs:263-288 | what a step's results take in truth, whatever their lines: at most what the caps allow and one note more for each that is too long on its own |
| StepReplay.StepFits | crates/milim-agents/src/tool_output.rs:294-327 | a step stays within its budget when that pays for every result up to 2560 bytes and none left alone is too long on its own |
| StepReplay.SmallResultsStayWhole | crates/milim-agents/src/tool_output.rs:313-327 | results of at most 2048 bytes and 2000 lines are never cut, whatever the budget |
| StepReplay.StepCanExceedItsBudget | crates/milim-agents/src/tool_output.rs:313-327 | 64 results of 2000 bytes: the level is 1600 and the step takes 128000 of 102400 bytes |
| CanonicalJson.CanonicalIffSameMeaning | crates/milim-agents/src/repeats.rs:145-179 | two values print alike if and only if they are equal up to key order at every level |
| CanonicalJson.PrintPrefixFree | crates/milim-agents/src/repeats.rs:151-179 | no printed value is a proper start of another, so printing is injective in any context |
| CanonicalJson.WriteCanonical | crates/milim-agents/src/repeats.rs:151-179 | the recursive writer appends exactly the canonical text |
| RepeatTracker.SameKeyIff | crates/milim-agents/src/repeats.rs:32-45 | keys agree exactly for the same tool and JSON arguments of the same meaning, or the same trimmed text that is not JSON |
| RepeatTracker.RepeatTracker.Observe | crates/milim-agents/src/repeats.rs:71-113 | the maps keep refining the history, and a note is given exactly as the history calls for |
| RepeatTracker.RepeatTracker.PriorDenial | crates/milim-agents/src/repeats.rs:63-67 | the first reason this key was denied for |
| RepeatTracker.ObserveStep | crates/milim-agents/src/repeats.rs:71-113 | one observation moves failures since success, trailing equal reads and first denials as stated over the history |
| RepeatTracker.FailuresAreNoted | crates/milim-agents/src/repeats.rs:85-91 | from the third failure of a call in a row on, each is noted with the count since it last succeeded |
| RepeatTracker.ReadsAreNoted | crates/milim-agents/src/repeats.rs:96-111 | so is the third equal output of a read-only call in a row |
| RepeatTracker.SuccessForgives | crates/milim-agents/src/repeats.rs:91-102 | a call that may have changed something makes every count start anew when it succeeds, a read-only one only its own failures |
| RepeatTracker.SkippedIsIgnored | crates/milim-agents/src/repeats.rs:77-79 | a skipped call changes no count and earns no note |
| RepeatTracker.WordingTells | crates/milim-agents/src/repeats.rs:115-129 | two loop notes with the same text are the same note with the same count |
| RepeatTracker.TrailingRun | crates/milim-agents/src/repeats.rs:96-111 | the longest run of equal outputs at the end |
| RunBudget.RunBudget.Tick | crates/milim-agents/src/limits.rs:83-89 | counted time is the time the clock ran outside all pauses, it never falls, and a reached limit stays reached |
| RunBudget.RunBudget.StopsIff | crates/milim-agents/src/limits.rs:60-70 | a run is stopped exactly when the clock has run for the time limit outside all pauses, or the responses used the tokens allowed, or with a cost limit the cost of one is unknown or they cost that much, in this order; the time left is the rest |
| RunBudget.RunBudget.Record | crates/milim-agents/src/limits.rs:42-58 | tokens stay the sum of all recorded responses, an unknown cost sticks, and a reached limit stays reached |
| RunBudget.RunBudget.PauseClock | crates/milim-agents/src/limits.rs:72-74 | pausing twice keeps the first pause |
| RunBudget.RunBudget.ResumeClock | crates/milim-agents/src/limits.rs:76-81 | resuming closes the open pause and counts none of it |
| RunBudget.ClosingPause | crates/milim-agents/src/limits.rs:76-89 | an open pause and the same pause just closed stop the same instants |
| Usage.TotalIsExactIff | crates/milim-agents/src/lib.rs:2196-2213 | the running total is exact if and only if neither 32-bit counter has wrapped |
| Usage.CostsAdd | crates/milim-agents/src/lib.rs:2196-2213 | the total knows the summed cost when every response told one |
| Usage.UnknownCostStays | crates/milim-agents/src/lib.rs:2196-2213 | once a response has told no cost and tokens were counted, the total's cost is unknown for good, as long as no counter wraps |
| Usage.CacheAdds | crates/milim-agents/src/lib.rs:2196-2213 | cache counters are the wrapped sums of what was told, and unknown when nothing was |
| Usage.CostOf | crates/milim-agents/src/limits.rs:42-58 | a usable reported cost is the cost; otherwise it is unknown exactly for an empty response, without pricing or without usable prices for prompt and completion, and else an estimate; it is never negative |
| ThreadStore.InsertKeepsForest | crates/milim-agents/src/threads.rs:312-356 | a new worker keeps `root_id` the top ancestor of every thread |
| ThreadStore.RootIffDescends | crates/milim-agents/src/threads.rs:312-356 | a thread has a root if and only if it descends from it |
| ThreadStore.TreeIdsIsSubtreeIff | crates/milim-agents/src/threads.rs:910-927 | the ids of a tree are its whole subtree if and only if it was asked for a top-level id or for a node without grandchildren |
| ThreadStore.GrandchildIsMissed | crates/milim-agents/src/threads.rs:910-927 | any grandchild of a middle node is missed |
| ThreadStore.DeleteTreeIsExact | crates/milim-agents/src/threads.rs:929-961 | deleting from the top removes exactly the descendants and leaves no event without its thread |
| ThreadStore.PagingIsExact | crates/milim-agents/src/threads.rs:764-871 | in any history without deletes, paging by the last number seen, with any limits and appends in between, delivers each child event once and in order |
| ThreadStore.ThreadStore.CreateWorker | crates/milim-agents/src/threads.rs:312-356 | the row is inserted under its parent and the forest is kept |
| ThreadStore.ThreadStore.UpdateStatus | crates/milim-agents/src/threads.rs:696-762 | a live thread takes the status, keeps texts not given and is finished once terminal; a settled one never changes |
| ThreadStore.ThreadStore.AppendEvent | crates/milim-agents/src/threads.rs:764-807 | an existing thread gets one event with the next number; an unknown one gets none |
| ThreadStore.ThreadStore.ChildEventsAfter | crates/milim-agents/src/threads.rs:839-871 | exactly the parent's child events behind the cursor, which may be negative, oldest first, up to the limit, which is at least one and at most 5000; what is left out comes later |
| ThreadStore.ThreadStore.DeleteTree | crates/milim-agents/src/threads.rs:929-961 | threads, events and runs of the deleted ids go, and nothing else |
| ThreadStore.ThreadStore.RefreshWorkerRunStatus | crates/milim-agents/src/threads.rs:544-580 | the run takes the status its workers add up to, and is finished once it is not running |
| JsonScanner.ExtractFindsObject | apps/desktop/src/api.ts:3379-3415 | any JSON object text is returned whole from between a prefix without an opening brace and any suffix, with no fence in the whole |
| JsonScanner.ExtractFindsFenced | apps/desktop/src/api.ts:3382-3385 | and from a fenced block, untagged or tagged `json` in any case, whose opening and closing fences are the first ones; single backticks may stand anywhere |
| JsonScanner.ObjectCloses | apps/desktop/src/api.ts:3391-3413 | the scanner closes exactly at the last brace of the object, whatever strings and nesting it has |
| JsonScanner.MatchBraces | apps/desktop/src/api.ts:3386-3414 | the loop over depth, string and escape flags finds what the scan finds |
| SseReader.StreamJsonSse | apps/desktop/src/api.ts:3282-3311 | what is delivered depends only on the whole text, not on how it was split into chunks |
| SseReader.BatchExtends | apps/desktop/src/api.ts:3282-3311 | more text never changes what was delivered before |
| SseReader.BatchStep | apps/desktop/src/api.ts:3293-3309 | a complete line delivers its payload, or ends the stream |
| SseReader.DataIff | apps/desktop/src/api.ts:3293-3309 | a line's payload is what follows `data:`, without the spaces around either |

## Left out

- WholeRun.RunAgent: `prepare_model_step` is taken to append notes and leave the
  messages it finds unchanged; a hook that rebuilds them from the ledger is
  assumed to rebuild the same list.
- WholeRun.EveryRequest: the check of the limits before a request is the last one
  made; the retries of one summary or report request make no check of their own.
- WholeRun.RunAgent: while the user has not decided, the run is left waiting
  after any finite number of moves; nothing is said about when a decision comes.
- AgentLoop.Loop.BeginStep: steering notes, and the context a prompt hook adds
  before the first step, are taken to be messages without calls that do not start
  with the summary prefix.
- AgentLoop.Loop.TellReport: a final report is answered and counted; its own entry
  on the ledger, whose failure the program ignores, is not modelled.
- WholeRun.ResultsWereApproved: the marks on a result event, that the tool ran and
  what it asks of the user, are the model's own; the program's events carry the
  result itself, and a proposed worker run has an event of its own.
- WholeRun.RunEndsForACause: what the ledger and the hooks answer is a function of
  the question and of the events before it, and anything else about it is arbitrary.
- StepReplay.ModelToolContents: the notes of a cut result are lengths within the
  512 bytes the caps leave for them; a longer path in a note is not excluded by the
  program.
- ModelStep.AgentRun.Consume: a stream is taken to be finite with at most one
  completion event, as the adapters produce it.
- Compaction.CompactContext: the shares 0.60 and 0.85 are exact; the program
  computes them in binary floating point.
- ToolStep.Tools.Execute: calls run one after the other; the overlap of reads
  in up to four slots is not modelled. Tool bodies return arbitrary results.
- ApprovalBroker.ReachableStates: each public method is one step; notices, sent
  by the program after the lock is released, appear in step order here.
  `wait_for_delivery` only waits and is left out.
- RepeatTracker.RepeatTracker.Observe: the fingerprint of a result is an
  abstract number, so hash collisions are not excluded.
- CanonicalJson.CanonicalIffSameMeaning: a number is its text, so `-0.0` and
  `0.0`, or two spellings of one number, count as different.
- RunBudget.RunBudget.Record: costs are reals and the token count is unbounded;
  rounding and 64-bit overflow are not modelled.
- Usage.TotalIsExactIff: counters wrap as in release builds; a build with
  overflow checks stops instead.
- ThreadStore.PagingIsExact: histories with deletes are not covered; the program
  can reuse event numbers after a delete. Row timestamps and titles are left out.
- SseReader.StreamJsonSse: chunks are already decoded text; the byte-level
  decoder of the browser is not modelled.
- Wording of notes, stubs, prompts and error texts is arbitrary where no
  property depends on it.
- Rendering of tool results to text, schema validation, spilling to disk, path
  cleaning and the summary transcript are left out.
- Provider adapters, the tool registry, interceptors and step hooks are only
  their arbitrary answers; `classify_provider_error` is an arbitrary classifier.
- Worker, child-thread, memory and hook activity events are not yielded; they
  carry neither text, usage nor calls.
- Scheduling, configuration, process and path helpers, and all user interface
  code are not part of this model.
