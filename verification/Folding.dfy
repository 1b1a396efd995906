/** What folding a span into one summary keeps: pairing, the run's request, system
    context in order, and never more than one summary. */
module Folding {
  import opened Wrappers
  import opened Messages
  import opened Summaries

  // ----- system context -----

  lemma {:induction false} FilterElements(ms: seq<Message>, kept: Message -> bool)
    ensures forall i :: 0 <= i < |Filter(ms, kept)| ==> Filter(ms, kept)[i] in ms && kept(Filter(ms, kept)[i])
  {
    if ms != [] {
      FilterElements(ms[1..], kept);
      assert forall m :: m in ms[1..] ==> m in ms;
    }
  }

  lemma {:induction false} FilterAppend(a: seq<Message>, b: seq<Message>, kept: Message -> bool)
    ensures Filter(a + b, kept) == Filter(a, kept) + Filter(b, kept)
  {
    if a == [] {
      assert a + b == b;
    } else {
      assert (a + b)[0] == a[0] && (a + b)[1..] == a[1..] + b;
      FilterAppend(a[1..], b, kept);
      Shift(if kept(a[0]) then [a[0]] else [], Filter(a[1..], kept), Filter(b, kept));
    }
  }

  lemma Shift(a: seq<Message>, b: seq<Message>, c: seq<Message>)
    ensures a + (b + c) == a + b + c
  {}

  lemma {:induction false} FilterTwice(ms: seq<Message>, kept: Message -> bool)
    ensures Filter(Filter(ms, kept), kept) == Filter(ms, kept)
  {
    if ms != [] {
      FilterTwice(ms[1..], kept);
      var rest := Filter(ms[1..], kept);
      if kept(ms[0]) {
        assert Filter(ms, kept) == [ms[0]] + rest;
        assert ([ms[0]] + rest)[1..] == rest;
      } else {
        assert Filter(ms, kept) == rest;
      }
    }
  }

  lemma {:induction false} FilterAppend4(a: seq<Message>, b: seq<Message>, c: seq<Message>, d: seq<Message>, kept: Message -> bool)
    ensures Filter(a + b + c + d, kept) == Filter(a, kept) + Filter(b, kept) + Filter(c, kept) + Filter(d, kept)
  {
    FilterAppend(a, b, kept);
    FilterAppend(a + b, c, kept);
    FilterAppend(a + b + c, d, kept);
  }

  lemma {:induction false} FilterAppend6(
    a: seq<Message>, b: seq<Message>, c: seq<Message>, d: seq<Message>, e: seq<Message>, f: seq<Message>, kept: Message -> bool)
    ensures Filter(a + b + c + d + e + f, kept) ==
            Filter(a, kept) + Filter(b, kept) + Filter(c, kept) + Filter(d, kept) + Filter(e, kept) + Filter(f, kept)
  {
    FilterAppend4(a, b, c, d, kept);
    FilterAppend(a + b + c + d, e, kept);
    FilterAppend(a + b + c + d + e, f, kept);
  }

  /** The list cut at the plan's four ends. */
  lemma PlanParts(ms: seq<Message>, plan: SummaryPlan)
    requires plan.Fits(|ms|)
    ensures ms == ms[..plan.beforeStart] + ms[plan.beforeStart..plan.beforeEnd] + ms[plan.beforeEnd..plan.afterStart]
                  + ms[plan.afterStart..plan.afterEnd] + ms[plan.afterEnd..]
    ensures plan.AfterIsEmpty() ==>
              ms == ms[..plan.beforeStart] + ms[plan.beforeStart..plan.beforeEnd] + ms[plan.beforeEnd..]
  {}

  lemma {:induction false} FoldKeepsFiltered(ms: seq<Message>, plan: SummaryPlan, s: Message, kept: Message -> bool)
    requires plan.Fits(|ms|) && !kept(s)
    ensures Filter(Fold(ms, plan, s, kept), kept) == Filter(ms, kept)
  {
    var head, before, between := ms[..plan.beforeStart], ms[plan.beforeStart..plan.beforeEnd], ms[plan.beforeEnd..plan.afterStart];
    var after, rest := ms[plan.afterStart..plan.afterEnd], ms[plan.afterEnd..];
    PlanParts(ms, plan);
    FilterTwice(before, kept);
    FilterTwice(after, kept);
    assert Filter([s], kept) == [];
    if plan.AfterIsEmpty() {
      FilterAppend4(head, [s], Filter(before, kept), ms[plan.beforeEnd..], kept);
      FilterAppend(head, before, kept);
      FilterAppend(head + before, ms[plan.beforeEnd..], kept);
      DropEmpty(Filter(head, kept), Filter(before, kept), Filter(ms[plan.beforeEnd..], kept));
    } else {
      FilterAppend6(head, Filter(before, kept), between, [s], Filter(after, kept), rest, kept);
      FilterAppend4(head, before, between, after, kept);
      FilterAppend(head + before + between + after, rest, kept);
      DropEmpty(Filter(head, kept) + Filter(before, kept) + Filter(between, kept), Filter(after, kept), Filter(rest, kept));
    }
  }

  lemma DropEmpty(a: seq<Message>, b: seq<Message>, c: seq<Message>)
    ensures a + [] + b + c == a + b + c
  {}

  lemma FoldLength(ms: seq<Message>, plan: SummaryPlan, s: Message, kept: Message -> bool)
    requires plan.Fits(|ms|)
    ensures |Fold(ms, plan, s, kept)| == |ms| - FoldCount(ms, plan, kept) + 1
  {}

  lemma SummaryIsSummary(summary: string)
    ensures IsSummary(SummaryMessage(summary)) && Plain(SummaryMessage(summary)) && !IsKept(SummaryMessage(summary))
  {
    var rest := "\n" + Strings.Trim(summary, Strings.IsRustSpace);
    assert SUMMARY_PREFIX + "\n" + Strings.Trim(summary, Strings.IsRustSpace) == SUMMARY_PREFIX + rest;
  }

  /** Non-summary system messages survive, all of them and in order, and the list
      gets shorter by what was folded, plus the one summary. */
  lemma SystemContextSurvives(ms: seq<Message>, plan: SummaryPlan, summary: string)
    requires plan.Fits(|ms|)
    ensures Kept(Summarized(ms, plan, summary)) == Kept(ms)
    ensures |Summarized(ms, plan, summary)| == |ms| - Folded(ms, plan) + 1
  {
    SummaryIsSummary(summary);
    FoldKeepsFiltered(ms, plan, SummaryMessage(summary), IsKept);
    FoldLength(ms, plan, SummaryMessage(summary), IsKept);
  }

  // ----- pairing -----

  lemma {:induction false} FilterIsPaired(ms: seq<Message>, kept: Message -> bool)
    requires forall m :: m in ms && kept(m) ==> Plain(m)
    ensures Paired(Filter(ms, kept))
  {
    FilterElements(ms, kept);
    PlainIsPaired(Filter(ms, kept));
  }

  lemma FoldKeepsPairing(ms: seq<Message>, plan: SummaryPlan, s: Message, kept: Message -> bool)
    requires Paired(ms) && plan.Fits(|ms|) && Plain(s) && forall m :: m in ms && kept(m) ==> Plain(m)
    requires Boundary(ms, plan.beforeStart) && Boundary(ms, plan.beforeEnd)
    requires Boundary(ms, plan.afterStart) && Boundary(ms, plan.afterEnd)
    ensures Paired(Fold(ms, plan, s, kept))
  {
    var before, after := ms[plan.beforeStart..plan.beforeEnd], ms[plan.afterStart..plan.afterEnd];
    FilterIsPaired(before, kept);
    FilterIsPaired(after, kept);
    PlainIsPaired([s]);
    PairedCut(ms, plan.beforeStart);
    if plan.AfterIsEmpty() {
      PairedCut(ms, plan.beforeEnd);
      PairedAppend4(ms[..plan.beforeStart], [s], Filter(before, kept), ms[plan.beforeEnd..]);
    } else {
      PairedCut(ms, plan.afterEnd);
      PairedSlice(ms, plan.beforeEnd, plan.afterStart);
      var front := ms[..plan.beforeStart] + Filter(before, kept) + ms[plan.beforeEnd..plan.afterStart] + [s];
      PairedAppend4(ms[..plan.beforeStart], Filter(before, kept), ms[plan.beforeEnd..plan.afterStart], [s]);
      PairedAppend(front, Filter(after, kept));
      PairedAppend(front + Filter(after, kept), ms[plan.afterEnd..]);
    }
  }

  lemma PairedAppend4(a: seq<Message>, b: seq<Message>, c: seq<Message>, d: seq<Message>)
    requires Paired(a) && Paired(b) && Paired(c) && Paired(d)
    ensures Paired(a + b + c + d)
  {
    PairedAppend(a, b);
    PairedAppend(a + b, c);
    PairedAppend(a + b + c, d);
  }

  /** Replacing what a plan names by a summary leaves every call answered in place. */
  lemma SummarizingKeepsPairing(ms: seq<Message>, anchor: Option<nat>, keepTurns: nat, summary: string)
    requires Paired(ms) && SummarySpan(ms, anchor, keepTurns).Some?
    ensures var plan := SummarySpan(ms, anchor, keepTurns).value;
            plan.Fits(|ms|) && Paired(Summarized(ms, plan, summary))
  {
    SpanShape(ms, anchor, keepTurns);
    SpanCutsAtBoundaries(ms, anchor, keepTurns);
    SummaryIsSummary(summary);
    PairedIff(ms);
    FoldKeepsPairing(ms, SummarySpan(ms, anchor, keepTurns).value, SummaryMessage(summary), IsKept);
  }

  // ----- the request -----

  /** A message outside both ranges is found again where the shifted anchor points. */
  lemma FoldMovesAnchor(ms: seq<Message>, plan: SummaryPlan, s: Message, kept: Message -> bool, anchor: nat)
    requires plan.Fits(|ms|) && anchor < |ms|
    requires anchor < plan.beforeStart || plan.beforeEnd <= anchor
    requires !plan.AfterIsEmpty() ==> anchor < plan.afterStart
    ensures var a := FoldAnchor(ms, plan, Some(anchor), kept);
            a.Some? && a.value < |Fold(ms, plan, s, kept)| && Fold(ms, plan, s, kept)[a.value] == ms[anchor]
  {
    var keptBefore := Filter(ms[plan.beforeStart..plan.beforeEnd], kept);
    var all := Fold(ms, plan, s, kept);
    if plan.AfterIsEmpty() && anchor >= plan.beforeEnd {
      var front := ms[..plan.beforeStart] + [s] + keptBefore;
      assert all == front + ms[plan.beforeEnd..];
    } else if anchor >= plan.beforeEnd {
      var front := ms[..plan.beforeStart] + keptBefore;
      var between := ms[plan.beforeEnd..plan.afterStart];
      assert (front + between)[|front| + anchor - plan.beforeEnd] == ms[anchor];
      assert front + between <= all;
    } else {
      assert ms[..plan.beforeStart][anchor] == ms[anchor];
      assert ms[..plan.beforeStart] <= all;
    }
  }

  /** The run's request is where the anchor says, before and after. */
  lemma {:induction false} RequestSurvives(ms: seq<Message>, request: nat, keepTurns: nat, summary: string)
    requires request < |ms| && ms[request].role.User? && SummarySpan(ms, Some(request), keepTurns).Some?
    ensures var plan := SummarySpan(ms, Some(request), keepTurns).value;
            && plan.Fits(|ms|)
            && var a := ShiftedAnchor(ms, plan, Some(request));
               a.Some? && a.value < |Summarized(ms, plan, summary)| && Summarized(ms, plan, summary)[a.value] == ms[request]
  {
    SpanShape(ms, Some(request), keepTurns);
    SpanAvoidsRequest(ms, request, keepTurns);
    FoldMovesAnchor(ms, SummarySpan(ms, Some(request), keepTurns).value, SummaryMessage(summary), IsKept, request);
  }

  // ----- one summary at most -----

  /** At most one summary, at most one turn before it, and that one the user's. */
  ghost predicate SummariesDoNotStack(ms: seq<Message>) {
    forall s :: 0 <= s < |ms| && IsSummary(ms[s]) ==>
      && (forall i :: s < i < |ms| ==> !IsSummary(ms[i]))
      && (forall i :: 0 <= i < s && IsTurnStart(ms[i]) ==> ms[i].role.User?)
      && (forall i, j :: 0 <= i < j < s && IsTurnStart(ms[i]) ==> !IsTurnStart(ms[j]))
  }

  /** Whatever is kept verbatim behind the span is no summary: an existing summary
      is always folded into the new one. */
  lemma {:induction false} PlanCoversSummary(ms: seq<Message>, anchor: Option<nat>, keepTurns: nat, i: nat)
    requires SummariesDoNotStack(ms) && SummarySpan(ms, anchor, keepTurns).Some?
    requires SummarySpan(ms, anchor, keepTurns).value.End() <= i < |ms|
    ensures !IsSummary(ms[i])
  {
    hide IsKept, TurnStarts, Head, LatestAssistant, SummarySpan;
    SpanIsPlan(ms, anchor, keepTurns);
    SpanShape(ms, anchor, keepTurns);
    if IsSummary(ms[i]) {
      var starts := TurnStarts(ms, Head(ms));
      var cut := |starts| - Max(keepTurns, 1);
      StartsIncrease(ms, Head(ms), 0, cut);
      assert starts[0] < starts[cut];
      SummaryBeforeRecent(ms, i, keepTurns);
    }
  }

  lemma {:induction false} SummaryBeforeRecent(ms: seq<Message>, s: nat, keepTurns: nat)
    requires SummariesDoNotStack(ms) && s < |ms| && IsSummary(ms[s])
    requires |TurnStarts(ms, Head(ms))| > Max(keepTurns, 1)
    ensures s < Recent(ms, keepTurns)
  {
    RecentIsBehind(ms, s, keepTurns);
  }

  /** With at most one turn before it, and that one the user's, a message that
      starts no turn lies before the kept ones. */
  lemma {:induction false} RecentIsBehind(ms: seq<Message>, s: nat, keepTurns: nat)
    requires s < |ms| && !IsTurnStart(ms[s])
    requires forall i :: 0 <= i < s && IsTurnStart(ms[i]) ==> ms[i].role.User?
    requires forall i, j :: 0 <= i < j < s && IsTurnStart(ms[i]) ==> !IsTurnStart(ms[j])
    requires |TurnStarts(ms, Head(ms))| > Max(keepTurns, 1)
    ensures s < Recent(ms, keepTurns)
  {
    hide IsKept, TurnStarts, Head, LatestAssistant;
    var starts := TurnStarts(ms, Head(ms));
    var cut := |starts| - Max(keepTurns, 1);
    StartsIncrease(ms, Head(ms), 0, cut);
    var first, second := starts[0], starts[cut];
    assert IsTurnStart(ms[first]) && IsTurnStart(ms[second]);
    assert second > s;
    var latest := LatestAssistant(ms);
    assert latest < |ms| ==> IsTurnStart(ms[latest]);
  }

  /** Folding leaves exactly one summary, with at most the request before it, and
      that one holds the text it was folded into. */
  lemma FoldingLeavesOneSummary(ms: seq<Message>, anchor: Option<nat>, keepTurns: nat, summary: string)
    requires SummariesDoNotStack(ms) && SummarySpan(ms, anchor, keepTurns).Some?
    ensures var plan := SummarySpan(ms, anchor, keepTurns).value;
            && plan.Fits(|ms|)
            && SummariesDoNotStack(Summarized(ms, plan, summary))
            && exists s :: 0 <= s < |Summarized(ms, plan, summary)| && IsSummary(Summarized(ms, plan, summary)[s])
                           && HoldsSummary(Summarized(ms, plan, summary)[s], summary)
  {
    hide HoldsSummary;
    SpanShape(ms, anchor, keepTurns);
    var plan := SummarySpan(ms, anchor, keepTurns).value;
    forall i | plan.End() <= i < |ms| ensures !IsSummary(ms[i]) {
      PlanCoversSummary(ms, anchor, keepTurns, i);
    }
    SummaryIsSummary(summary);
    var front, back := FoldAround(ms, plan, SummaryMessage(summary), IsKept, IsSummary);
    OneSummary(front, SummaryMessage(summary), back);
    SummaryMessageHolds(summary);
    assert Summarized(ms, plan, summary)[|front|] == SummaryMessage(summary);
  }

  /** What stands before and behind the new summary. */
  lemma FoldAround(ms: seq<Message>, plan: SummaryPlan, s: Message, kept: Message -> bool, marked: Message -> bool)
    returns (front: seq<Message>, back: seq<Message>)
    requires plan.Fits(|ms|) && forall i :: 0 <= i < plan.beforeStart ==> kept(ms[i])
    requires !plan.AfterIsEmpty() ==> ms[plan.beforeEnd].role.User? && plan.afterStart == plan.beforeEnd + 1
    requires forall m :: kept(m) ==> !marked(m) && !IsTurnStart(m)
    requires forall i :: plan.End() <= i < |ms| ==> !marked(ms[i])
    ensures Fold(ms, plan, s, kept) == front + [s] + back
    ensures forall m :: m in front ==> kept(m) || m.role.User?
    ensures forall i, j :: 0 <= i < j < |front| && IsTurnStart(front[i]) ==> !IsTurnStart(front[j])
    ensures forall m :: m in back ==> !marked(m)
  {
    var before, after := ms[plan.beforeStart..plan.beforeEnd], ms[plan.afterStart..plan.afterEnd];
    FilterElements(before, kept);
    FilterElements(after, kept);
    if plan.AfterIsEmpty() {
      front, back := ms[..plan.beforeStart], Filter(before, kept) + ms[plan.beforeEnd..];
      assert Fold(ms, plan, s, kept) == front + [s] + back;
    } else {
      var system := ms[..plan.beforeStart] + Filter(before, kept);
      assert forall i :: 0 <= i < |system| ==> kept(system[i]);
      front, back := system + [ms[plan.beforeEnd]], Filter(after, kept) + ms[plan.afterEnd..];
      assert ms[plan.beforeEnd..plan.afterStart] == [ms[plan.beforeEnd]];
      assert Fold(ms, plan, s, kept) == front + [s] + back;
    }
  }

  lemma OneSummary(front: seq<Message>, s: Message, back: seq<Message>)
    requires IsSummary(s)
    requires forall m :: m in front ==> IsKept(m) || m.role.User?
    requires forall i, j :: 0 <= i < j < |front| && IsTurnStart(front[i]) ==> !IsTurnStart(front[j])
    requires forall m :: m in back ==> !IsSummary(m)
    ensures SummariesDoNotStack(front + [s] + back)
    ensures exists i :: 0 <= i < |front + [s] + back| && IsSummary((front + [s] + back)[i])
  {
    var all := front + [s] + back;
    assert all[|front|] == s;
    assert forall i :: 0 <= i < |front| ==> all[i] == front[i] && all[i] in front;
    assert forall i :: |front| < i < |all| ==> all[i] in back;
  }

  // ----- appending -----

  lemma AppendDoesNotStack(ms: seq<Message>, more: seq<Message>)
    requires SummariesDoNotStack(ms) && forall m :: m in more ==> !IsSummary(m)
    ensures SummariesDoNotStack(ms + more)
  {
    var all := ms + more;
    assert forall i :: 0 <= i < |ms| ==> all[i] == ms[i];
    assert forall i :: |ms| <= i < |all| ==> all[i] in more;
  }

  /** Edits that keep roles and keep system messages whole keep the summaries. */
  lemma SameSystemDoesNotStack(ms: seq<Message>, ns: seq<Message>)
    requires SummariesDoNotStack(ms) && |ns| == |ms|
    requires forall i :: 0 <= i < |ms| ==> ns[i].role == ms[i].role && (ms[i].role.System? ==> ns[i] == ms[i])
    ensures SummariesDoNotStack(ns)
  {}
}
