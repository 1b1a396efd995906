/** Choosing the span one summary replaces (`summary_span`) and what replacing it
    leaves (`apply_summary`). */
module Summaries {
  import opened Wrappers
  import opened Messages
  import Strings

  const SUMMARY_PREFIX: string :=
    "Summary of the earlier conversation (older turns were condensed to save context; re-run tools if you need exact output):"

  function SummaryMessage(summary: string): Message {
    TextMessage(System, SUMMARY_PREFIX + "\n" + Strings.Trim(summary, Strings.IsRustSpace))
  }

  /** A message that says `summary`, less the spaces at its ends, behind the prefix. */
  ghost predicate HoldsSummary(m: Message, summary: string) {
    && m.role.System? && Plain(m)
    && exists t :: m.content == Some(Text(SUMMARY_PREFIX + "\n" + t)) && Strings.IsTrimOf(t, summary, Strings.IsRustSpace)
  }

  /** The list says `summary` in one of its messages. */
  ghost predicate TellsSummary(ms: seq<Message>, summary: string) {
    exists i :: 0 <= i < |ms| && HoldsSummary(ms[i], summary)
  }

  lemma SummaryMessageHolds(summary: string)
    ensures HoldsSummary(SummaryMessage(summary), summary)
  {
    Strings.TrimIs(summary, Strings.IsRustSpace);
    var t := Strings.Trim(summary, Strings.IsRustSpace);
    assert SummaryMessage(summary).content == Some(Text(SUMMARY_PREFIX + "\n" + t));
  }

  predicate IsSummary(m: Message) {
    m.role.System? && m.content.Some? && m.content.value.Text? && SUMMARY_PREFIX <= m.content.value.text
  }

  /** Context that stays verbatim even inside a summarized span. */
  predicate IsKept(m: Message) { m.role.System? && !IsSummary(m) }

  predicate IsTurnStart(m: Message) { m.role.Assistant? || m.role.User? }

  /** Two index ranges, one on each side of the run's request. */
  datatype SummaryPlan = SummaryPlan(beforeStart: nat, beforeEnd: nat, afterStart: nat, afterEnd: nat) {
    predicate AfterIsEmpty() { afterStart >= afterEnd }

    /** Where the summarized span ends. */
    function End(): nat { if AfterIsEmpty() then beforeEnd else afterEnd }

    predicate Fits(n: nat) { beforeStart <= beforeEnd <= afterStart <= afterEnd <= n }
  }

  // ----- positions -----

  /** The first message behind the leading system prompt, or the length. */
  function Head(ms: seq<Message>): (i: nat)
    ensures i <= |ms|
    ensures forall j :: 0 <= j < i ==> IsKept(ms[j])
    ensures i < |ms| ==> !IsKept(ms[i])
  {
    if ms == [] || !IsKept(ms[0]) then 0 else 1 + Head(ms[1..])
  }

  /** The first user message at or after `from`, or the length. */
  function FirstUser(ms: seq<Message>, from: nat): (i: nat)
    requires from <= |ms|
    ensures from <= i <= |ms|
    ensures i < |ms| ==> ms[i].role.User?
    ensures forall j :: from <= j < i ==> !ms[j].role.User?
    decreases |ms| - from
  {
    if from == |ms| || ms[from].role.User? then from else FirstUser(ms, from + 1)
  }

  /** The last assistant message, or the length. */
  function LatestAssistant(ms: seq<Message>): (i: nat)
    ensures i <= |ms|
    ensures i < |ms| ==> ms[i].role.Assistant?
    ensures i == |ms| ==> forall j :: 0 <= j < |ms| ==> !ms[j].role.Assistant?
  {
    if ms == [] then 0
    else if ms[|ms| - 1].role.Assistant? then |ms| - 1
    else
      var i := LatestAssistant(ms[..|ms| - 1]);
      if i == |ms| - 1 then |ms| else i
  }

  function TurnStarts(ms: seq<Message>, from: nat): (r: seq<nat>)
    requires from <= |ms|
    ensures forall k :: 0 <= k < |r| ==> from <= r[k] < |ms| && IsTurnStart(ms[r[k]])
    decreases |ms| - from
  {
    if from == |ms| then [] else (if IsTurnStart(ms[from]) then [from] else []) + TurnStarts(ms, from + 1)
  }

  function Max(a: nat, b: nat): nat { if a > b then a else b }

  function Min(a: nat, b: nat): nat { if a < b then a else b }

  // ----- the choice -----

  /** The user request that is kept: the run's own, or the first one there is. */
  function Request(ms: seq<Message>, anchor: Option<nat>): Option<nat> {
    var head := Head(ms);
    if anchor.Some? && head <= anchor.value < |ms| && ms[anchor.value].role.User? then anchor
    else if FirstUser(ms, head) < |ms| then Some(FirstUser(ms, head))
    else None
  }

  /** Where the turns kept verbatim begin. */
  function Recent(ms: seq<Message>, keepTurns: nat): nat
    requires |TurnStarts(ms, Head(ms))| > Max(keepTurns, 1)
  {
    var starts := TurnStarts(ms, Head(ms));
    Min(starts[|starts| - Max(keepTurns, 1)], LatestAssistant(ms))
  }

  function PlanFor(ms: seq<Message>, request: Option<nat>, recent: nat): SummaryPlan
    requires recent <= |ms|
  {
    if request.Some? && request.value < recent then
      SummaryPlan(Head(ms), request.value, request.value + 1, recent)
    else
      var end := if FirstUser(ms, recent) < |ms| then FirstUser(ms, recent) else recent;
      SummaryPlan(Head(ms), end, end, end)
  }

  predicate HasConversation(ms: seq<Message>, from: nat, to: nat) {
    exists i :: from <= i < to && i < |ms| && !ms[i].role.System?
  }

  function SummarySpan(ms: seq<Message>, anchor: Option<nat>, keepTurns: nat): Option<SummaryPlan> {
    if Head(ms) == |ms| || |TurnStarts(ms, Head(ms))| <= Max(keepTurns, 1) then None
    else
      var plan := PlanFor(ms, Request(ms, anchor), Recent(ms, keepTurns));
      if HasConversation(ms, plan.beforeStart, plan.beforeEnd) || HasConversation(ms, plan.afterStart, plan.afterEnd)
      then Some(plan) else None
  }

  // ----- the replacement -----

  /** The messages `kept` says to keep, in order. */
  function Filter(ms: seq<Message>, kept: Message -> bool): (r: seq<Message>)
    ensures |r| <= |ms|
  {
    if ms == [] then [] else (if kept(ms[0]) then [ms[0]] else []) + Filter(ms[1..], kept)
  }

  /** Both ranges reduced to what is kept of them, and `s` in place of the run's
      own older turns, or of the history when only that is folded. */
  function Fold(ms: seq<Message>, plan: SummaryPlan, s: Message, kept: Message -> bool): seq<Message>
    requires plan.Fits(|ms|)
  {
    var keptBefore, keptAfter := Filter(ms[plan.beforeStart..plan.beforeEnd], kept), Filter(ms[plan.afterStart..plan.afterEnd], kept);
    if plan.AfterIsEmpty() then
      ms[..plan.beforeStart] + [s] + keptBefore + ms[plan.beforeEnd..]
    else
      ms[..plan.beforeStart] + keptBefore + ms[plan.beforeEnd..plan.afterStart] + [s] + keptAfter + ms[plan.afterEnd..]
  }

  lemma FoldPlaces(ms: seq<Message>, plan: SummaryPlan, s: Message, kept: Message -> bool) returns (i: nat)
    requires plan.Fits(|ms|)
    ensures i < |Fold(ms, plan, s, kept)| && Fold(ms, plan, s, kept)[i] == s
  {
    var keptBefore := Filter(ms[plan.beforeStart..plan.beforeEnd], kept);
    i := if plan.AfterIsEmpty() then plan.beforeStart else plan.beforeStart + |keptBefore| + (plan.afterStart - plan.beforeEnd);
  }

  function FoldCount(ms: seq<Message>, plan: SummaryPlan, kept: Message -> bool): nat
    requires plan.Fits(|ms|)
  {
    (plan.beforeEnd - plan.beforeStart) - |Filter(ms[plan.beforeStart..plan.beforeEnd], kept)|
    + ((plan.afterEnd - plan.afterStart) - |Filter(ms[plan.afterStart..plan.afterEnd], kept)|)
  }

  function FoldAnchor(ms: seq<Message>, plan: SummaryPlan, anchor: Option<nat>, kept: Message -> bool): Option<nat>
    requires plan.Fits(|ms|)
  {
    if anchor.Some? && anchor.value >= plan.beforeEnd then
      var replacement := |Filter(ms[plan.beforeStart..plan.beforeEnd], kept)| + if plan.AfterIsEmpty() then 1 else 0;
      Some(anchor.value + replacement - (plan.beforeEnd - plan.beforeStart))
    else anchor
  }

  /** The non-summary system messages. */
  function Kept(ms: seq<Message>): seq<Message> { Filter(ms, IsKept) }

  function Summarized(ms: seq<Message>, plan: SummaryPlan, summary: string): seq<Message>
    requires plan.Fits(|ms|)
  {
    Fold(ms, plan, SummaryMessage(summary), IsKept)
  }

  /** Whatever is folded, the summary's text gets into the list. */
  lemma SummarizedTells(ms: seq<Message>, plan: SummaryPlan, summary: string)
    requires plan.Fits(|ms|)
    ensures TellsSummary(Summarized(ms, plan, summary), summary)
  {
    hide HoldsSummary, SummaryMessage, Fold;
    SummaryMessageHolds(summary);
    var i := FoldPlaces(ms, plan, SummaryMessage(summary), IsKept);
    assert HoldsSummary(Summarized(ms, plan, summary)[i], summary);
  }

  function Folded(ms: seq<Message>, plan: SummaryPlan): nat
    requires plan.Fits(|ms|)
  {
    FoldCount(ms, plan, IsKept)
  }

  function ShiftedAnchor(ms: seq<Message>, plan: SummaryPlan, anchor: Option<nat>): Option<nat>
    requires plan.Fits(|ms|)
  {
    FoldAnchor(ms, plan, anchor, IsKept)
  }

  // ----- where plans cut -----

  lemma {:induction false} RecentIsTurn(ms: seq<Message>, keepTurns: nat)
    requires |TurnStarts(ms, Head(ms))| > Max(keepTurns, 1)
    ensures Head(ms) <= Recent(ms, keepTurns) < |ms| && IsTurnStart(ms[Recent(ms, keepTurns)])
  {}

  ghost predicate PlanShape(ms: seq<Message>, plan: SummaryPlan) {
    && plan.Fits(|ms|) && plan.beforeStart == Head(ms)
    && plan.End() < |ms| && IsTurnStart(ms[plan.End()])
    && (plan.afterStart == plan.beforeEnd ==> plan.AfterIsEmpty())
    && (plan.afterStart != plan.beforeEnd ==>
          plan.beforeEnd < |ms| && ms[plan.beforeEnd].role.User? && plan.afterStart == plan.beforeEnd + 1)
  }

  lemma SpanShape(ms: seq<Message>, anchor: Option<nat>, keepTurns: nat)
    requires SummarySpan(ms, anchor, keepTurns).Some?
    ensures PlanShape(ms, SummarySpan(ms, anchor, keepTurns).value)
  {
    SpanIsPlan(ms, anchor, keepTurns);
    PlanHasShape(ms, Request(ms, anchor), Recent(ms, keepTurns));
  }

  lemma {:induction false} PlanHasShape(ms: seq<Message>, request: Option<nat>, recent: nat)
    requires Head(ms) <= recent < |ms| && IsTurnStart(ms[recent])
    requires request.Some? ==> Head(ms) <= request.value < |ms| && ms[request.value].role.User?
    ensures PlanShape(ms, PlanFor(ms, request, recent))
  {
    hide IsKept;
    if request.Some? && request.value < recent {
      assert PlanFor(ms, request, recent) == SummaryPlan(Head(ms), request.value, request.value + 1, recent);
    } else {
      var user := FirstUser(ms, recent);
      var end := if user < |ms| then user else recent;
      assert end < |ms| && IsTurnStart(ms[end]);
      assert PlanFor(ms, request, recent) == SummaryPlan(Head(ms), end, end, end);
    }
  }

  lemma {:induction false} SystemIsClosed(ms: seq<Message>, n: nat)
    requires Paired(ms) && n <= |ms| && forall i :: 0 <= i < n ==> IsKept(ms[i])
    ensures Boundary(ms, n)
  {
    if n > 0 {
      assert Boundary(ms, 1) by {
        NextIsBoundary(ms, 0);
      }
      PairedCut(ms, 1);
      SystemIsClosed(ms[1..], n - 1);
    }
  }

  /** Behind a paired prefix that ends in a message without calls, no tool result follows. */
  lemma NextIsBoundary(ms: seq<Message>, i: nat)
    requires Paired(ms) && i < |ms| && !ms[i].role.Tool? && !ms[i].role.Assistant?
    ensures Boundary(ms, i + 1)
  {
    PairedCut(ms, i);
    var rest := ms[i..];
    assert rest[0] == ms[i];
    assert Expect([], rest[0]) == Some([]) && After([], rest[1..]) == Some([]);
    if i + 1 < |ms| {
      assert rest[1..][0] == ms[i + 1];
    }
  }

  /** Every end of both ranges is a place where a paired list may be cut. */
  lemma SpanCutsAtBoundaries(ms: seq<Message>, anchor: Option<nat>, keepTurns: nat)
    requires Paired(ms) && SummarySpan(ms, anchor, keepTurns).Some?
    ensures var plan := SummarySpan(ms, anchor, keepTurns).value;
            && Boundary(ms, plan.beforeStart) && Boundary(ms, plan.beforeEnd)
            && Boundary(ms, plan.afterStart) && Boundary(ms, plan.afterEnd) && Boundary(ms, plan.End())
  {
    SpanShape(ms, anchor, keepTurns);
    SystemIsClosed(ms, Head(ms));
    var request := Request(ms, anchor);
    if request.Some? {
      NextIsBoundary(ms, request.value);
    }
  }

  // ----- the request survives -----

  /** Neither range holds the request; and when the run's own turns are left
      alone, what is kept opens with a user message. */
  lemma {:induction false} SpanAvoidsRequest(ms: seq<Message>, request: nat, keepTurns: nat)
    requires request < |ms| && ms[request].role.User?
    requires SummarySpan(ms, Some(request), keepTurns).Some?
    ensures var plan := SummarySpan(ms, Some(request), keepTurns).value;
            && (request < plan.beforeStart || plan.beforeEnd <= request)
            && (request < plan.afterStart || plan.afterEnd <= request)
            && plan.beforeEnd < |ms| && ms[plan.beforeEnd].role.User?
  {
    assert Head(ms) <= request;
  }

  // ----- how many turns stay -----

  lemma {:induction false} FewerTurnsLater(ms: seq<Message>, i: nat, j: nat)
    requires i <= j <= |ms|
    ensures |TurnStarts(ms, i)| >= |TurnStarts(ms, j)|
    decreases j - i
  {
    if i < j {
      FewerTurnsLater(ms, i + 1, j);
    }
  }

  lemma {:induction false} TurnsFromStart(ms: seq<Message>, from: nat, k: nat)
    requires from <= |ms| && k < |TurnStarts(ms, from)|
    ensures |TurnStarts(ms, TurnStarts(ms, from)[k])| == |TurnStarts(ms, from)| - k
    ensures |TurnStarts(ms, TurnStarts(ms, from)[k] + 1)| == |TurnStarts(ms, from)| - k - 1
    decreases |ms| - from
  {
    var rest := TurnStarts(ms, from + 1);
    if !IsTurnStart(ms[from]) {
      assert TurnStarts(ms, from) == rest;
      TurnsFromStart(ms, from + 1, k);
    } else if k > 0 {
      assert TurnStarts(ms, from)[k] == rest[k - 1];
      TurnsFromStart(ms, from + 1, k - 1);
    }
  }

  lemma {:induction false} TurnsKeptIff(ms: seq<Message>, from: nat, i: nat, k: nat)
    requires from <= i <= |ms| && 0 < k <= |TurnStarts(ms, from)|
    ensures |TurnStarts(ms, i)| >= k <==> i <= TurnStarts(ms, from)[|TurnStarts(ms, from)| - k]
  {
    var cut := TurnStarts(ms, from)[|TurnStarts(ms, from)| - k];
    TurnsFromStart(ms, from, |TurnStarts(ms, from)| - k);
    if i <= cut {
      FewerTurnsLater(ms, i, cut);
    } else {
      FewerTurnsLater(ms, cut + 1, i);
    }
  }

  /** As much is taken as may be: behind the cut exactly `keep` turns are left, unless
      it stops at the latest assistant message before that. */
  lemma {:induction false} RecentIsLatest(ms: seq<Message>, keepTurns: nat)
    requires |TurnStarts(ms, Head(ms))| > Max(keepTurns, 1)
    ensures Head(ms) <= Recent(ms, keepTurns) <= LatestAssistant(ms) <= |ms|
    ensures Recent(ms, keepTurns) == LatestAssistant(ms) || |TurnStarts(ms, Recent(ms, keepTurns))| == Max(keepTurns, 1)
  {
    hide IsKept, TurnStarts, Head, LatestAssistant;
    var starts, keep := TurnStarts(ms, Head(ms)), Max(keepTurns, 1);
    RecentIsTurn(ms, keepTurns);
    TurnsKeptIff(ms, Head(ms), Recent(ms, keepTurns), keep);
    TurnsKeptIff(ms, Head(ms), Recent(ms, keepTurns), keep + 1);
    StartsIncrease(ms, Head(ms), |starts| - keep - 1, |starts| - keep);
  }

  lemma {:induction false} StartsIncrease(ms: seq<Message>, from: nat, k: nat, l: nat)
    requires from <= |ms| && k < l < |TurnStarts(ms, from)|
    ensures TurnStarts(ms, from)[k] < TurnStarts(ms, from)[l]
    decreases |ms| - from
  {
    var rest := TurnStarts(ms, from + 1);
    if !IsTurnStart(ms[from]) {
      assert TurnStarts(ms, from) == rest;
      StartsIncrease(ms, from + 1, k, l);
    } else if k > 0 {
      assert TurnStarts(ms, from)[k] == rest[k - 1] && TurnStarts(ms, from)[l] == rest[l - 1];
      StartsIncrease(ms, from + 1, k - 1, l - 1);
    } else {
      assert TurnStarts(ms, from)[l] == rest[l - 1];
    }
  }

  /** Every message from the head up to the cut is in the plan, except the request
      when the run's own turns are folded; when only history is, the cut goes on to
      the next user message if there is one. */
  lemma {:induction false} SpanCoversOlder(ms: seq<Message>, anchor: Option<nat>, keepTurns: nat, i: nat)
    requires SummarySpan(ms, anchor, keepTurns).Some?
    ensures var plan, request, recent := SummarySpan(ms, anchor, keepTurns).value, Request(ms, anchor), Recent(ms, keepTurns);
            var own, user := FoldsOwnTurns(request, recent), FirstUser(ms, recent);
            plan.beforeStart <= i < plan.beforeEnd || plan.afterStart <= i < plan.afterEnd <==>
              Head(ms) <= i < (if own || user == |ms| then recent else user) && (own ==> i != request.value)
  {
    hide IsKept, TurnStarts, Head, FirstUser, LatestAssistant;
    SpanIsPlan(ms, anchor, keepTurns);
  }

  /** The request comes before the recent turns, so that the run's own turns are
      summarized too. */
  predicate FoldsOwnTurns(request: Option<nat>, recent: nat) { request.Some? && request.value < recent }

  /** When the run's own turns are summarized, at least `keep` turns stay. When
      only history is, the cut moves on to a user message, and `keep` turns stay
      exactly when that passes none of them: there is no user message from the
      recent turns on, or one stands no later than the `keep`-th turn from the end. */
  lemma {:induction false} SpanKeepsTurnsIff(ms: seq<Message>, anchor: Option<nat>, keepTurns: nat)
    requires SummarySpan(ms, anchor, keepTurns).Some?
    ensures var plan, keep, starts := SummarySpan(ms, anchor, keepTurns).value, Max(keepTurns, 1), TurnStarts(ms, Head(ms));
            var recent, user := Recent(ms, keepTurns), FirstUser(ms, Recent(ms, keepTurns));
            |TurnStarts(ms, plan.End())| >= keep
            <==> FoldsOwnTurns(Request(ms, anchor), recent) || user == |ms| || user <= starts[|starts| - keep]
  {
    hide IsKept, TurnStarts, Head, FirstUser, LatestAssistant;
    SpanIsPlan(ms, anchor, keepTurns);
    var keep, request, recent := Max(keepTurns, 1), Request(ms, anchor), Recent(ms, keepTurns);
    KeptTurns(ms, request, recent, keep);
    assert SummarySpan(ms, anchor, keepTurns).value == PlanFor(ms, request, recent);
  }

  /** The cut never passes the latest assistant message when the run's own turns are
      summarized. When only history is, it stays there exactly when no user message
      follows the recent turns' start, or the first that does comes before it. */
  lemma {:induction false} SpanKeepsLatestIff(ms: seq<Message>, anchor: Option<nat>, keepTurns: nat)
    requires SummarySpan(ms, anchor, keepTurns).Some?
    ensures var plan, recent := SummarySpan(ms, anchor, keepTurns).value, Recent(ms, keepTurns);
            var user := FirstUser(ms, recent);
            plan.End() <= LatestAssistant(ms)
            <==> FoldsOwnTurns(Request(ms, anchor), recent) || user == |ms| || user <= LatestAssistant(ms)
  {
    hide IsKept, TurnStarts, Head;
    SpanIsPlan(ms, anchor, keepTurns);
    LatestKept(ms, Request(ms, anchor), Recent(ms, keepTurns));
  }

  lemma {:induction false} LatestKept(ms: seq<Message>, request: Option<nat>, recent: nat)
    requires recent < |ms| && recent <= LatestAssistant(ms) && Head(ms) <= recent
    ensures var plan, user := PlanFor(ms, request, recent), FirstUser(ms, recent);
            plan.End() <= LatestAssistant(ms)
            <==> FoldsOwnTurns(request, recent) || user == |ms| || user <= LatestAssistant(ms)
  {
    hide IsKept, TurnStarts, Head, LatestAssistant;
  }

  lemma {:induction false} SpanIsPlan(ms: seq<Message>, anchor: Option<nat>, keepTurns: nat)
    requires SummarySpan(ms, anchor, keepTurns).Some?
    ensures |TurnStarts(ms, Head(ms))| > Max(keepTurns, 1)
    ensures Head(ms) <= Recent(ms, keepTurns) < |ms| && IsTurnStart(ms[Recent(ms, keepTurns)])
    ensures Recent(ms, keepTurns) <= LatestAssistant(ms)
    ensures Recent(ms, keepTurns) <= TurnStarts(ms, Head(ms))[|TurnStarts(ms, Head(ms))| - Max(keepTurns, 1)]
    ensures SummarySpan(ms, anchor, keepTurns).value == PlanFor(ms, Request(ms, anchor), Recent(ms, keepTurns))
    ensures Request(ms, anchor).Some? ==>
              Head(ms) <= Request(ms, anchor).value < |ms| && ms[Request(ms, anchor).value].role.User?
  {
    hide IsKept;
    RecentIsTurn(ms, keepTurns);
  }

  lemma {:induction false} KeptTurns(ms: seq<Message>, request: Option<nat>, recent: nat, keep: nat)
    requires Head(ms) <= recent < |ms| && 0 < keep < |TurnStarts(ms, Head(ms))|
    requires recent <= TurnStarts(ms, Head(ms))[|TurnStarts(ms, Head(ms))| - keep]
    requires request.Some? ==> Head(ms) <= request.value < |ms|
    ensures var plan, starts := PlanFor(ms, request, recent), TurnStarts(ms, Head(ms));
            var user := FirstUser(ms, recent);
            |TurnStarts(ms, plan.End())| >= keep
            <==> FoldsOwnTurns(request, recent) || user == |ms| || user <= starts[|starts| - keep]
  {
    hide IsKept, TurnStarts, Head, LatestAssistant;
    TurnsKeptIff(ms, Head(ms), recent, keep);
    TurnsKeptIff(ms, Head(ms), FirstUser(ms, recent), keep);
    if FoldsOwnTurns(request, recent) {
      TurnsKeptIff(ms, Head(ms), request.value, keep);
    }
  }

  /** Two turns are asked for, one stays, and the latest assistant message is cut off. */
  lemma HistoryCutKeepsFewerTurns()
    ensures var u, a := TextMessage(User, "u"), TextMessage(Assistant, "a");
            var ms := [u, a, a, a, u];
            SummarySpan(ms, Some(4), 2) == Some(SummaryPlan(0, 4, 4, 4)) && |TurnStarts(ms, 4)| == 1 && LatestAssistant(ms) == 3
  {
    var u, a := TextMessage(User, "u"), TextMessage(Assistant, "a");
    var ms := [u, a, a, a, u];
    assert Head(ms) == 0;
    SpelledOut(ms);
    assert FirstUser(ms, 3) == 4;
    assert Request(ms, Some(4)) == Some(4);
    assert !ms[0].role.System? && HasConversation(ms, 0, 4);
  }

  lemma {:induction false} SpelledOut(ms: seq<Message>)
    requires |ms| == 5 && ms[4].role.User? && ms[0].role.User?
    requires ms[1].role.Assistant? && ms[2].role.Assistant? && ms[3].role.Assistant?
    ensures TurnStarts(ms, 0) == [0, 1, 2, 3, 4] && |TurnStarts(ms, 4)| == 1 && LatestAssistant(ms) == 3
  {
    assert TurnStarts(ms, 5) == [];
    assert TurnStarts(ms, 4) == [4];
    assert TurnStarts(ms, 3) == [3, 4];
    assert TurnStarts(ms, 2) == [2, 3, 4];
    assert TurnStarts(ms, 1) == [1, 2, 3, 4];
    assert ms[..4][3] == ms[3];
  }
}
