/** The message list of one run, edited in place by elision and summaries while an
    anchor follows the request that started the run. */
module Conversation {
  import opened Wrappers
  import opened Messages
  import opened Elision
  import opened Summaries
  import opened Folding
  import Utf8

  class Conversation {
    var messages: seq<Message>
    var anchor: Option<nat>
    /** How the run started, and everything done to the list since. */
    ghost const origin: Talk
    ghost var edits: seq<Edit>

    ghost function Now(): Talk
      reads this
    {
      Talk(messages, anchor)
    }

    ghost predicate Linked()
      reads this
    {
      AllLegal(edits) && Now() == EditedAll(origin, edits)
    }

    constructor (messages: seq<Message>)
      ensures this.messages == messages && anchor == LastUser(messages)
      ensures Linked() && edits == [] && origin == Now()
    {
      this.messages := messages;
      anchor := LastUser(messages);
      origin := Talk(messages, LastUser(messages));
      edits := [];
    }

    // The edits a run makes, one at a time.

    method Prune(keep: nat) returns (elided: nat)
      requires Linked()
      modifies `messages, `edits
      ensures Linked() && edits == old(edits) + [Elide(keep)]
      ensures Now() == Edited(old(Now()), Elide(keep))
      ensures elided == |Replaced(old(messages), keep)|
    {
      elided := ElideOldToolResults(keep);
      EditedAllSnoc(origin, edits, Elide(keep));
      edits := edits + [Elide(keep)];
    }

    method Condense(keepTurns: nat, plan: SummaryPlan, summary: string) returns (folded: nat)
      requires Linked() && SummarySpan(messages, anchor, keepTurns) == Some(plan) && plan.Fits(|messages|)
      modifies `messages, `anchor, `edits
      ensures Linked() && edits == old(edits) + [Summarize(keepTurns, summary)]
      ensures Now() == Edited(old(Now()), Summarize(keepTurns, summary))
      ensures folded == Folded(old(messages), plan) && TellsSummary(messages, summary)
    {
      ghost var before := Now();
      folded := ApplySummary(plan, summary);
      SummarizeFolds(before, keepTurns, plan, summary);
      EditedAllSnoc(origin, edits, Summarize(keepTurns, summary));
      edits := edits + [Summarize(keepTurns, summary)];
    }

    method Note(notes: seq<Message>)
      requires Linked() && AllNotes(notes)
      modifies `messages, `edits
      ensures Linked() && messages == old(messages) + notes && edits == old(edits) + [Notes(notes)]
    {
      Append(notes);
      EditedAllSnoc(origin, edits, Notes(notes));
      edits := edits + [Notes(notes)];
    }

    /** A turn whose results are all in counts as one edit. */
    ghost method Seal(before: seq<Message>, turn: Message, results: seq<Message>)
      requires messages == before + ([turn] + results) && Legal(Turn(turn, results))
      requires AllLegal(edits) && Talk(before, anchor) == EditedAll(origin, edits)
      modifies `edits
      ensures Linked() && edits == old(edits) + [Turn(turn, results)]
    {
      EditedAllSnoc(origin, edits, Turn(turn, results));
      edits := edits + [Turn(turn, results)];
    }

    // The operations themselves.

    /** Stub the contents of old tool results, oldest first. */
    method ElideOldToolResults(keep: nat) returns (elided: nat)
      modifies `messages
      ensures messages == Elided(old(messages), keep)
      ensures elided == |Replaced(old(messages), keep)|
    {
      var latest := LatestTurn(messages);
      var indexes := ToolIndexes(messages, latest);
      var recent := ToolsFrom(messages, latest);
      var spared := if keep > recent then keep - recent else 0;
      var prunable := if |indexes| > spared then |indexes| - spared else 0;
      PrunableListsStale(messages, keep);
      elided := ElideEach(indexes[..prunable], keep, messages);
    }

    method ElideEach(listed: seq<nat>, keep: nat, ghost ms: seq<Message>) returns (elided: nat)
      requires messages == ms && ListsStale(ms, keep, listed)
      modifies `messages
      ensures messages == Elided(ms, keep) && elided == |Replaced(ms, keep)|
    {
      hide ListsStale;
      NothingTreated(ms, keep);
      elided := 0;
      ghost var done: nat, count: nat := 0, 0;
      for j := 0 to |listed|
        invariant done == Behind(listed, j) && done <= |ms|
        invariant messages == ElidedUpTo(ms, keep, done)
        invariant count == CountBefore(Replaced(ms, keep), done)
        invariant elided == count
      {
        var hit;
        hit, done, count := ElideNext(listed, j, keep, ms, done, count);
        if hit {
          elided := elided + 1;
        }
      }
      SkipRest(ms, keep, listed, done);
    }

    method ElideNext(listed: seq<nat>, j: nat, keep: nat, ghost ms: seq<Message>, ghost done: nat, ghost count: nat)
      returns (hit: bool, ghost done': nat, ghost count': nat)
      requires ListsStale(ms, keep, listed) && j < |listed| && done == Behind(listed, j) <= |ms|
      requires messages == ElidedUpTo(ms, keep, done) && count == CountBefore(Replaced(ms, keep), done)
      modifies `messages
      ensures done' == Behind(listed, j + 1) <= |ms|
      ensures messages == ElidedUpTo(ms, keep, done')
      ensures count' == CountBefore(Replaced(ms, keep), done')
      ensures count' == count + if hit then 1 else 0
    {
      hide ElidedUpTo, CountBefore, Replaced, ListsStale;
      SkipGap(ms, keep, listed, j, done);
      var index := listed[j];
      hit := ElideAt(index, keep, ms);
      done' := index + 1;
      assert done' == Behind(listed, j + 1);
      count' := CountBefore(Replaced(ms, keep), done');
    }

    method ElideAt(index: nat, keep: nat, ghost ms: seq<Message>) returns (hit: bool)
      requires index < |ms| && Stale(ms, index, keep) && messages == ElidedUpTo(ms, keep, index)
      modifies `messages
      ensures messages == ElidedUpTo(ms, keep, index + 1)
      ensures CountBefore(Replaced(ms, keep), index + 1) == CountBefore(Replaced(ms, keep), index) + if hit then 1 else 0
    {
      ShapesSoFar(ms, keep, index);
      ToolNameSameShapes(ms, messages, index);
      TreatOne(ms, keep, index);
      var stub := ElidedStub(ToolName(messages, index));
      var current := TextContent(messages[index]);
      hit := !(STUB_START <= current || Utf8.ByteLen(current) <= Utf8.ByteLen(stub));
      if hit {
        messages := messages[index := messages[index].(content := Some(Text(stub)))];
      }
    }

    /** Replace the plan's messages with one summary and move the anchor along. */
    method ApplySummary(plan: SummaryPlan, summary: string) returns (folded: nat)
      requires plan.Fits(|messages|)
      modifies `messages, `anchor
      ensures messages == Summarized(old(messages), plan, summary)
      ensures anchor == ShiftedAnchor(old(messages), plan, old(anchor))
      ensures folded == Folded(old(messages), plan) && TellsSummary(messages, summary)
    {
      SummarizedTells(messages, plan, summary);
      var keptBefore := Filter(messages[plan.beforeStart..plan.beforeEnd], IsKept);
      var keptAfter := Filter(messages[plan.afterStart..plan.afterEnd], IsKept);
      folded := (plan.beforeEnd - plan.beforeStart) - |keptBefore| + ((plan.afterEnd - plan.afterStart) - |keptAfter|);
      var message := SummaryMessage(summary);
      var replacement;
      if plan.AfterIsEmpty() {
        replacement := |keptBefore| + 1;
        messages := Splice(messages, plan.beforeStart, plan.beforeEnd, [message] + keptBefore);
        Regroup(old(messages)[..plan.beforeStart], [message], keptBefore, old(messages)[plan.beforeEnd..]);
      } else {
        ghost var ms := messages;
        messages := Splice(messages, plan.afterStart, plan.afterEnd, [message] + keptAfter);
        replacement := |keptBefore|;
        SpliceBefore(ms, messages, plan, [message], keptAfter);
        messages := Splice(messages, plan.beforeStart, plan.beforeEnd, keptBefore);
        RegroupMore(ms[..plan.beforeStart] + keptBefore, ms[plan.beforeEnd..plan.afterStart], [message], keptAfter, ms[plan.afterEnd..]);
      }
      if anchor.Some? && anchor.value >= plan.beforeEnd {
        anchor := Some(anchor.value + replacement - (plan.beforeEnd - plan.beforeStart));
      }
    }

    method Append(more: seq<Message>)
      modifies `messages
      ensures messages == old(messages) + more
    {
      messages := messages + more;
    }
  }

  /** `rposition` of a user message. */
  function LastUser(ms: seq<Message>): (r: Option<nat>)
    ensures r.Some? ==> r.value < |ms| && ms[r.value].role.User?
    ensures r.Some? ==> forall j :: r.value < j < |ms| ==> !ms[j].role.User?
    ensures r.None? ==> forall j :: 0 <= j < |ms| ==> !ms[j].role.User?
  {
    if ms == [] then None
    else if ms[|ms| - 1].role.User? then Some(|ms| - 1)
    else LastUser(ms[..|ms| - 1])
  }

  /** `Vec::splice`. */
  function Splice(ms: seq<Message>, from: nat, to: nat, by': seq<Message>): seq<Message>
    requires from <= to <= |ms|
  {
    ms[..from] + by' + ms[to..]
  }

  lemma Regroup(a: seq<Message>, b: seq<Message>, c: seq<Message>, d: seq<Message>)
    ensures a + (b + c) + d == a + b + c + d
  {}

  lemma RegroupMore(a: seq<Message>, b: seq<Message>, c: seq<Message>, d: seq<Message>, e: seq<Message>)
    ensures a + (b + (c + d) + e) == a + b + c + d + e
  {}

  lemma SpliceBefore(ms: seq<Message>, spliced: seq<Message>, plan: SummaryPlan, s: seq<Message>, kept: seq<Message>)
    requires plan.Fits(|ms|) && spliced == Splice(ms, plan.afterStart, plan.afterEnd, s + kept)
    ensures spliced[..plan.beforeStart] == ms[..plan.beforeStart]
    ensures spliced[plan.beforeEnd..] == ms[plan.beforeEnd..plan.afterStart] + (s + kept) + ms[plan.afterEnd..]
  {}

  // ----- the elision loop -----

  /** Everything before `done` treated, everything from there on untouched. */
  function ElidedUpTo(ms: seq<Message>, keep: nat, done: nat): seq<Message>
    requires done <= |ms|
  {
    Mixed(Elided(ms, keep), ms, done)
  }

  /** The first `done` messages of `a`, the others of `b`. */
  function Mixed(a: seq<Message>, b: seq<Message>, done: nat): seq<Message>
    requires |a| == |b|
  {
    seq(|b|, i requires 0 <= i < |b| => if i < done then a[i] else b[i])
  }

  lemma MixedSkip(a: seq<Message>, b: seq<Message>, done: nat, next: nat)
    requires |a| == |b| && done <= next <= |a| && forall i :: done <= i < next ==> a[i] == b[i]
    ensures Mixed(a, b, done) == Mixed(a, b, next)
  {
    var m, n := Mixed(a, b, done), Mixed(a, b, next);
    assert forall i :: 0 <= i < |m| ==> m[i] == n[i];
  }

  lemma MixedStep(a: seq<Message>, b: seq<Message>, i: nat)
    requires i < |a| == |b|
    ensures Mixed(a, b, i)[i] == b[i] && Mixed(a, b, i + 1) == Mixed(a, b, i)[i := a[i]]
    ensures a[i] == b[i] ==> Mixed(a, b, i + 1) == Mixed(a, b, i)
  {
    var m, n := Mixed(a, b, i), Mixed(a, b, i + 1);
    assert forall j :: 0 <= j < |m| ==> n[j] == m[i := a[i]][j];
  }

  /** The index behind the `j`-th listed one's predecessor. */
  function Behind(listed: seq<nat>, j: nat): nat
    requires j <= |listed|
  {
    if j == 0 then 0 else listed[j - 1] + 1
  }

  function CountBefore(hits: set<nat>, n: nat): nat {
    if n == 0 then 0 else CountBefore(hits, n - 1) + if n - 1 in hits then 1 else 0
  }

  lemma {:induction false} CountIsSize(hits: set<nat>, n: nat)
    ensures CountBefore(hits, n) == |set i | i in hits && i < n|
  {
    if n == 0 {
      assert (set i | i in hits && i < 0) == {};
    } else {
      CountIsSize(hits, n - 1);
      var before, after := set i | i in hits && i < n - 1, set i | i in hits && i < n;
      assert after == if n - 1 in hits then before + {n - 1} else before;
    }
  }

  lemma {:induction false} NoHits(hits: set<nat>, done: nat, next: nat)
    requires done <= next && forall i: nat :: done <= i < next ==> i !in hits
    ensures CountBefore(hits, next) == CountBefore(hits, done)
  {
    if done < next {
      NoHits(hits, done, next - 1);
    }
  }

  /** The stale results, by index and in order. */
  ghost predicate ListsStale(ms: seq<Message>, keep: nat, listed: seq<nat>) {
    && (forall k, l :: 0 <= k < l < |listed| ==> listed[k] < listed[l])
    && (forall j :: 0 <= j < |listed| ==> listed[j] < |ms| && Stale(ms, listed[j], keep))
    && (forall i: nat {:trigger i in listed} :: i < |ms| && i !in listed ==> !Stale(ms, i, keep))
  }

  lemma {:induction false} PrunableListsStale(ms: seq<Message>, keep: nat)
    ensures Prunable(ms, keep) <= |ToolIndexes(ms, LatestTurn(ms))|
    ensures ListsStale(ms, keep, ToolIndexes(ms, LatestTurn(ms))[..Prunable(ms, keep)])
  {
    hide LatestTurn, ToolsFrom, ToolIndexes;
    var indexes := ToolIndexes(ms, LatestTurn(ms));
    var listed := indexes[..Prunable(ms, keep)];
    forall j | 0 <= j < |indexes| ensures Stale(ms, indexes[j], keep) <==> j < Prunable(ms, keep) {
      PrunableAreStale(ms, keep, j);
    }
    assert forall j :: 0 <= j < |listed| ==> listed[j] == indexes[j] && listed[j] in listed;
    forall i: nat | i < |ms| && i !in listed ensures !Stale(ms, i, keep) {
      if i < LatestTurn(ms) && ms[i].role.Tool? {
        ToolIndexesAll(ms, LatestTurn(ms), i);
        var j :| 0 <= j < |indexes| && indexes[j] == i;
      }
    }
  }

  /** Where nothing is stale, treating and leaving alone are the same. */
  lemma {:induction false} Skip(ms: seq<Message>, keep: nat, done: nat, next: nat)
    requires done <= next <= |ms| && forall i: nat :: done <= i < next ==> !Stale(ms, i, keep)
    ensures ElidedUpTo(ms, keep, done) == ElidedUpTo(ms, keep, next)
    ensures CountBefore(Replaced(ms, keep), next) == CountBefore(Replaced(ms, keep), done)
  {
    NoHits(Replaced(ms, keep), done, next);
    MixedSkip(Elided(ms, keep), ms, done, next);
  }

  lemma {:induction false} SkipGap(ms: seq<Message>, keep: nat, listed: seq<nat>, j: nat, done: nat)
    requires ListsStale(ms, keep, listed) && j < |listed|
    requires done == Behind(listed, j)
    ensures done <= listed[j] < |ms| && Stale(ms, listed[j], keep)
    ensures ElidedUpTo(ms, keep, done) == ElidedUpTo(ms, keep, listed[j])
    ensures CountBefore(Replaced(ms, keep), done) == CountBefore(Replaced(ms, keep), listed[j])
  {
    forall i: nat | done <= i < listed[j] ensures i !in listed && !Stale(ms, i, keep) {
      forall k | 0 <= k < |listed| ensures listed[k] != i {
        assert k < j ==> listed[k] <= listed[j - 1];
      }
    }
    Skip(ms, keep, done, listed[j]);
  }

  lemma {:induction false} SkipRest(ms: seq<Message>, keep: nat, listed: seq<nat>, done: nat)
    requires ListsStale(ms, keep, listed) && done <= |ms|
    requires done == Behind(listed, |listed|)
    ensures ElidedUpTo(ms, keep, done) == Elided(ms, keep) && CountBefore(Replaced(ms, keep), done) == |Replaced(ms, keep)|
  {
    hide Elides, ElidedStub, ToolsFrom, LatestTurn;
    forall i: nat | done <= i < |ms| ensures i !in listed && !Stale(ms, i, keep) {
      forall k | 0 <= k < |listed| ensures listed[k] != i {
        assert listed[k] <= listed[|listed| - 1];
      }
    }
    Skip(ms, keep, done, |ms|);
    CountIsSize(Replaced(ms, keep), |ms|);
    assert (set i | i in Replaced(ms, keep) && i < |ms|) == Replaced(ms, keep);
  }

  lemma NothingTreated(ms: seq<Message>, keep: nat)
    ensures ElidedUpTo(ms, keep, 0) == ms
  {}

  lemma TreatOne(ms: seq<Message>, keep: nat, index: nat)
    requires index < |ms|
    ensures ElidedUpTo(ms, keep, index)[index] == ms[index]
    ensures index in Replaced(ms, keep) ==>
              ElidedUpTo(ms, keep, index + 1) == ElidedUpTo(ms, keep, index)[index := Stubbed(ms, index)]
    ensures index !in Replaced(ms, keep) ==> ElidedUpTo(ms, keep, index + 1) == ElidedUpTo(ms, keep, index)
  {
    MixedStep(Elided(ms, keep), ms, index);
  }

  lemma ShapesSoFar(ms: seq<Message>, keep: nat, done: nat)
    requires done <= |ms|
    ensures SameShapes(ms, ElidedUpTo(ms, keep, done))
  {
    forall i | 0 <= i < |ms| ensures SameShape(ms[i], ElidedUpTo(ms, keep, done)[i]) {
      ElisionShortens(ms, keep, i);
    }
  }

  // ----- a run's worth of edits -----

  /** What the loop does to the list, in any order and any number: an elision
      pass, a summary when there is something to summarize, notes that neither
      call nor answer, or one whole turn with all its results. */
  datatype Edit =
    | Elide(keep: nat)
    | Summarize(keepTurns: nat, summary: string)
    | Notes(notes: seq<Message>)
    | Turn(turn: Message, results: seq<Message>)

  predicate IsNote(m: Message) { Plain(m) && !IsSummary(m) }

  predicate AllNotes(notes: seq<Message>) { forall m :: m in notes ==> IsNote(m) }

  predicate Legal(e: Edit) {
    match e
    case Notes(notes) => AllNotes(notes)
    case Turn(turn, results) => turn.role.Assistant? && Answers(Calls(turn), results)
    case _ => true
  }

  predicate AllLegal(edits: seq<Edit>) { forall e :: e in edits ==> Legal(e) }

  datatype Talk = Talk(messages: seq<Message>, anchor: Option<nat>)

  function Edited(t: Talk, e: Edit): Talk {
    match e
    case Elide(keep) => t.(messages := Elided(t.messages, keep))
    case Summarize(keepTurns, summary) =>
      var plan := SummarySpan(t.messages, t.anchor, keepTurns);
      if plan.None? || !plan.value.Fits(|t.messages|) then t
      else Talk(Summarized(t.messages, plan.value, summary), ShiftedAnchor(t.messages, plan.value, t.anchor))
    case Notes(notes) => t.(messages := t.messages + notes)
    case Turn(turn, results) => t.(messages := t.messages + ([turn] + results))
  }

  function EditedAll(t: Talk, edits: seq<Edit>): Talk
    decreases |edits|
  {
    if edits == [] then t else EditedAll(Edited(t, edits[0]), edits[1..])
  }

  lemma SummarizeFolds(t: Talk, keepTurns: nat, plan: SummaryPlan, summary: string)
    requires SummarySpan(t.messages, t.anchor, keepTurns) == Some(plan) && plan.Fits(|t.messages|)
    ensures Edited(t, Summarize(keepTurns, summary)) ==
            Talk(Summarized(t.messages, plan, summary), ShiftedAnchor(t.messages, plan, t.anchor))
  {}

  lemma {:induction false} EditedAllSnoc(t: Talk, edits: seq<Edit>, e: Edit)
    ensures EditedAll(t, edits + [e]) == Edited(EditedAll(t, edits), e)
    decreases |edits|
  {
    if edits == [] {
      assert EditedAll(t, [e]) == EditedAll(Edited(t, e), [e][1..]);
      assert [] + [e] == [e] && [e][1..] == [];
    } else {
      assert (edits + [e])[0] == edits[0] && (edits + [e])[1..] == edits[1..] + [e];
      EditedAllSnoc(Edited(t, edits[0]), edits[1..], e);
    }
  }

  /** The anchor points at the request, a user message. */
  predicate Anchored(t: Talk, request: Message) {
    t.anchor.Some? && t.anchor.value < |t.messages| && t.messages[t.anchor.value] == request && request.role.User?
  }

  lemma EditKeepsPairing(t: Talk, e: Edit)
    requires Paired(t.messages) && Legal(e)
    ensures Paired(Edited(t, e).messages)
  {
    match e {
      case Elide(keep) => ElisionKeepsShapes(t.messages, keep);
      case Summarize(keepTurns, summary) =>
        if SummarySpan(t.messages, t.anchor, keepTurns).Some? {
          SummarizingKeepsPairing(t.messages, t.anchor, keepTurns, summary);
        }
      case Notes(notes) =>
        PlainIsPaired(notes);
        PairedAppend(t.messages, notes);
      case Turn(turn, results) =>
        TurnIsPaired(turn, results);
        PairedAppend(t.messages, [turn] + results);
    }
  }

  lemma EditDoesNotStack(t: Talk, e: Edit)
    requires SummariesDoNotStack(t.messages) && Legal(e)
    ensures SummariesDoNotStack(Edited(t, e).messages)
  {
    match e {
      case Elide(keep) =>
        forall i | 0 <= i < |t.messages|
          ensures var m, m' := t.messages[i], Elided(t.messages, keep)[i]; m'.role == m.role && (m.role.System? ==> m' == m)
        {
          ElisionShortens(t.messages, keep, i);
        }
        SameSystemDoesNotStack(t.messages, Elided(t.messages, keep));
      case Summarize(keepTurns, summary) =>
        if SummarySpan(t.messages, t.anchor, keepTurns).Some? {
          FoldingLeavesOneSummary(t.messages, t.anchor, keepTurns, summary);
        }
      case Notes(notes) => AppendDoesNotStack(t.messages, notes);
      case Turn(turn, results) => AppendDoesNotStack(t.messages, [turn] + results);
    }
  }

  lemma EditKeepsRequest(t: Talk, e: Edit, request: Message)
    requires Anchored(t, request) && Legal(e)
    ensures Anchored(Edited(t, e), request)
  {
    match e {
      case Elide(keep) => ElisionShortens(t.messages, keep, t.anchor.value);
      case Summarize(keepTurns, summary) =>
        if SummarySpan(t.messages, t.anchor, keepTurns).Some? {
          RequestSurvives(t.messages, t.anchor.value, keepTurns, summary);
        }
      case Notes(_) =>
      case Turn(_, _) =>
    }
  }

  /** Over any number of elisions, summaries, notes, and turns, in any order: a
      paired list stays paired, summaries never stack, and the request that
      started the run stays in the list, unchanged, where the anchor points. */
  lemma {:induction false} EditsKeepTheTalk(t: Talk, edits: seq<Edit>, request: Message)
    requires AllLegal(edits)
    ensures Paired(t.messages) ==> Paired(EditedAll(t, edits).messages)
    ensures SummariesDoNotStack(t.messages) ==> SummariesDoNotStack(EditedAll(t, edits).messages)
    ensures Anchored(t, request) ==> Anchored(EditedAll(t, edits), request)
    decreases |edits|
  {
    if edits != [] {
      var e := edits[0];
      assert e in edits;
      if Paired(t.messages) { EditKeepsPairing(t, e); }
      if SummariesDoNotStack(t.messages) { EditDoesNotStack(t, e); }
      if Anchored(t, request) { EditKeepsRequest(t, e, request); }
      EditsKeepTheTalk(Edited(t, e), edits[1..], request);
    }
  }
}
