/** What the user is told of approvals: every request made for a call, and how each
    was decided. */
module Approvals {
  import opened Wrappers
  import opened Messages
  import opened Trace
  import opened RunBudget
  import opened ApprovalBroker
  import opened ToolLog
  import opened ToolCalls

  /** The requests in the log, each with the id of the call it is for. */
  function AskingsOf(log: Log): seq<Asking> {
    if log == [] then []
    else
      var last := log[|log| - 1];
      AskingsOf(log[..|log| - 1]) + if last.Asked? then [Asking(last.id, last.call.id)] else []
  }

  lemma {:induction false} AskingsSnoc(log: Log, act: Act)
    ensures AskingsOf(log + [act]) == if act.Asked? then AskingsOf(log) + [Asking(act.id, act.call.id)] else AskingsOf(log)
  {
    assert (log + [act])[..|log|] == log;
    assert AskingsOf(log) + [] == AskingsOf(log);
  }

  lemma {:induction false} AskingsHaveIds(log: Log, a: Asking)
    requires a in AskingsOf(log)
    ensures a.approvalId in AskedIds(log)
  {
    var front, last := log[..|log| - 1], log[|log| - 1];
    if a in AskingsOf(front) {
      AskingsHaveIds(front, a);
    }
  }

  lemma {:induction false} AskedIsAsking(log: Log, k: nat)
    requires k < |log| && log[k].Asked?
    ensures Asking(log[k].id, log[k].call.id) in AskingsOf(log)
  {
    if k < |log| - 1 {
      AskedIsAsking(log[..|log| - 1], k);
    }
  }

  lemma {:induction false} NotesAskNothing(log: Log, base: nat, executed: seq<Executed>, n: nat)
    requires n <= |executed|
    ensures AskingsOf(log + NotesOf(base, executed, n)) == AskingsOf(log)
    decreases n
  {
    hide AskingsOf;
    if n == 0 {
      assert log + [] == log;
    } else {
      NotesAskNothing(log, base, executed, n - 1);
      NextNote(log, base, executed, n - 1);
      AskingsSnoc(log + NotesOf(base, executed, n - 1), Noted(base + n - 1, executed[n - 1].call, executed[n - 1].visible));
    }
  }

  /** What is told of a request, and when. */
  lemma {:induction false} AskingIsTold(events: seq<Event>, a: Asking) returns (k: nat)
    requires a in Askings(events)
    ensures k < |events| && events[k] == ToolApprovalRequired(a.approvalId, a.callId)
  {
    k := |events| - 1;
    if events[k] != ToolApprovalRequired(a.approvalId, a.callId) {
      k := AskingIsTold(events[..k], a);
    }
  }

  lemma {:induction false} AskingWasAsked(log: Log, a: Asking) returns (k: nat)
    requires a in AskingsOf(log)
    ensures k < |log| && log[k].Asked? && Asking(log[k].id, log[k].call.id) == a
  {
    k := |log| - 1;
    if !log[k].Asked? || Asking(log[k].id, log[k].call.id) != a {
      k := AskingWasAsked(log[..k], a);
    }
  }

  lemma {:induction false} RulingIsTold(events: seq<Event>, r: Ruling) returns (k: nat)
    requires r in Rulings(events)
    ensures k < |events| && events[k] == ToolApprovalResolved(r.approvalId, r.callId, r.approved)
  {
    k := |events| - 1;
    if events[k] != ToolApprovalResolved(r.approvalId, r.callId, r.approved) {
      k := RulingIsTold(events[..k], r);
    }
  }

  lemma {:induction false} ToldIsRuling(events: seq<Event>, k: nat)
    requires k < |events| && events[k].ToolApprovalResolved?
    ensures Ruling(events[k].approvalId, events[k].callId, events[k].approved) in Rulings(events)
  {
    if k < |events| - 1 {
      ToldIsRuling(events[..|events| - 1], k);
    }
  }

  lemma {:induction false} ToldIsAsking(events: seq<Event>, k: nat)
    requires k < |events| && events[k].ToolApprovalRequired?
    ensures Asking(events[k].approvalId, events[k].callId) in Askings(events)
  {
    if k < |events| - 1 {
      ToldIsAsking(events[..|events| - 1], k);
    }
  }

  /** Two decisions told in turn are two of the list. */
  lemma {:induction false} RulingsInTurn(events: seq<Event>, j: nat, k: nat)
    requires j < k < |events| && events[j].ToolApprovalResolved? && events[k].ToolApprovalResolved?
    requires events[j].approvalId == events[k].approvalId
    ensures exists i, l :: 0 <= i < l < |Rulings(events)| && Rulings(events)[i].approvalId == Rulings(events)[l].approvalId
  {
    var front := events[..|events| - 1];
    if k < |events| - 1 {
      RulingsInTurn(front, j, k);
      var i, l :| 0 <= i < l < |Rulings(front)| && Rulings(front)[i].approvalId == Rulings(front)[l].approvalId;
      assert Rulings(events)[i] == Rulings(front)[i] && Rulings(events)[l] == Rulings(front)[l];
    } else {
      ToldIsRuling(front, j);
      var i :| 0 <= i < |Rulings(front)| && Rulings(front)[i].approvalId == events[j].approvalId;
      assert Rulings(events)[i] == Rulings(front)[i];
      assert Rulings(events)[|Rulings(front)|].approvalId == events[k].approvalId;
    }
  }

  /** A decision is told only behind its request. */
  lemma {:induction false} RulingFollows(events: seq<Event>, k: nat) returns (j: nat)
    requires Flowing(events) && k < |events| && events[k].ToolApprovalResolved?
    ensures j < k && events[j] == ToolApprovalRequired(events[k].approvalId, events[k].callId)
  {
    if k == |events| - 1 {
      j := AskingIsTold(events[..k], Asking(events[k].approvalId, events[k].callId));
    } else {
      j := RulingFollows(events[..|events| - 1], k);
    }
  }

  // ----- decisions told -----

  predicate IsRuled(rulings: seq<Ruling>, id: Id) { exists r :: r in rulings && r.approvalId == id }

  /** A decision told is on a request told, no longer open, and an approval exactly
      if the request was resolved so. */
  predicate RulingStands(asked: seq<Asking>, r: Ruling, answers: seq<Answer>, open: set<Id>) {
    && Asking(r.approvalId, r.callId) in asked && r.approvalId !in open
    && (r.approved <==> WasResolved(answers, r.approvalId, true))
  }

  /** The decisions told stand, one for each request but the open ones. */
  predicate Ruled(asked: seq<Asking>, rulings: seq<Ruling>, answers: seq<Answer>, open: set<Id>) {
    && (forall r :: r in rulings ==> RulingStands(asked, r, answers, open))
    && (forall i, j :: 0 <= i < j < |rulings| ==> rulings[i].approvalId != rulings[j].approvalId)
    && (forall a :: a in asked ==> a.approvalId in open || IsRuled(rulings, a.approvalId))
  }

  /** None is open any more, unless the run waits for the user. */
  ghost predicate RuledBut(asked: seq<Asking>, rulings: seq<Ruling>, answers: seq<Answer>, waiting: bool) {
    if waiting then exists open :: Ruled(asked, rulings, answers, open) else Ruled(asked, rulings, answers, {})
  }

  lemma RulingHolds(asked: seq<Asking>, rulings: seq<Ruling>, answers: seq<Answer>, waiting: bool, r: Ruling)
    requires RuledBut(asked, rulings, answers, waiting) && r in rulings
    ensures Asking(r.approvalId, r.callId) in asked && (r.approved <==> WasResolved(answers, r.approvalId, true))
  {
    var open :| Ruled(asked, rulings, answers, open);
    assert Ruled(asked, rulings, answers, open);
    assert RulingStands(asked, r, answers, open);
  }

  lemma {:induction false} RuledOnce(events: seq<Event>, answers: seq<Answer>, waiting: bool, j: nat, k: nat)
    requires RuledBut(Askings(events), Rulings(events), answers, waiting) && j < |events| && k < |events|
    requires events[j].ToolApprovalResolved? && events[k].ToolApprovalResolved? && events[j].approvalId == events[k].approvalId
    ensures j == k
  {
    hide Askings, Rulings;
    var open :| Ruled(Askings(events), Rulings(events), answers, open);
    if j < k {
      RulingsInTurn(events, j, k);
    } else if k < j {
      RulingsInTurn(events, k, j);
    }
  }

  predicate AllOver(rulings: seq<Ruling>, over: set<Id>) { forall r :: r in rulings ==> r.approvalId in over }

  function OpenIds(open: seq<Open>): set<Id> { set o | o in open :: o.id }

  /** The waiting calls' requests have been told. */
  predicate AllAsked(asked: seq<Asking>, prepared: seq<Prepared>, open: seq<Open>) {
    forall k :: 0 <= k < |open| ==>
      open[k].index < |prepared| && Asking(open[k].id, prepared[open[k].index].call.id) in asked
  }

  function AskingFor(call: Call, id: Option<Id>): seq<Asking> { if id.Some? then [Asking(id.value, call.id)] else [] }

  lemma {:induction false} OneMoreAsked(
    log: Log, rulings: seq<Ruling>, answers: seq<Answer>, prepared: seq<Prepared>, open: seq<Open>, p: Prepared, id: Option<Id>)
    requires Ruled(AskingsOf(log), rulings, answers, OpenIds(open)) && AllAsked(AskingsOf(log), prepared, open)
    requires id.Some? ==> id.value !in AskedIds(log)
    ensures var asked, open' := AskingsOf(log) + AskingFor(p.call, id), open + Opened(|prepared|, id);
            Ruled(asked, rulings, answers, OpenIds(open')) && AllAsked(asked, prepared + [p], open')
  {
    hide AskedIds, IsRuled;
    var asked, open' := AskingsOf(log) + AskingFor(p.call, id), open + Opened(|prepared|, id);
    forall r | r in rulings ensures RulingStands(asked, r, answers, OpenIds(open')) {
      AskingsHaveIds(log, Asking(r.approvalId, r.callId));
    }
    assert OpenIds(open) <= OpenIds(open');
    if id.Some? {
      assert open'[|open|].id == id.value;
    }
  }

  /** One decision told, its request no longer open. */
  lemma OneMoreRuled(asked: seq<Asking>, rulings: seq<Ruling>, answers: seq<Answer>, open: set<Id>, r: Ruling)
    requires Ruled(asked, rulings, answers, open) && Asking(r.approvalId, r.callId) in asked && r.approvalId in open
    requires r.approved <==> WasResolved(answers, r.approvalId, true)
    ensures Ruled(asked, rulings + [r], answers, open - {r.approvalId})
  {
    hide WasResolved;
    var left := open - {r.approvalId};
    forall q | q in rulings + [r] ensures RulingStands(asked, q, answers, left) {
      assert q in rulings ==> RulingStands(asked, q, answers, open);
    }
    forall a | a in asked ensures a.approvalId in left || IsRuled(rulings + [r], a.approvalId) {
      if a.approvalId == r.approvalId {
        assert r in rulings + [r];
      } else if a.approvalId !in open {
        var q :| q in rulings && q.approvalId == a.approvalId;
        assert q in rulings + [r];
      }
    }
    forall i, j | 0 <= i < j < |rulings + [r]| ensures (rulings + [r])[i].approvalId != (rulings + [r])[j].approvalId {
      assert rulings[i] in rulings && RulingStands(asked, rulings[i], answers, open);
    }
  }

  /** A list less one of its entries holds the others. */
  lemma LessOne(open: seq<Open>, k: nat, o: Open)
    requires k < |open|
    ensures o in open[..k] + open[k + 1..] ==> exists i :: 0 <= i < |open| && i != k && open[i] == o
    ensures (exists i :: 0 <= i < |open| && i != k && open[i] == o) ==> o in open[..k] + open[k + 1..]
  {
    var left := open[..k] + open[k + 1..];
    if o in left {
      var j :| 0 <= j < |left| && left[j] == o;
      assert open[if j < k then j else j + 1] == o;
    }
    if i :| 0 <= i < |open| && i != k && open[i] == o {
      assert left[if i < k then i else i - 1] == o;
    }
  }

  lemma OneLessOpen(log: Log, base: nat, prepared: seq<Prepared>, open: seq<Open>, k: nat)
    requires AllWait(log, base, prepared, open) && k < |open|
    ensures OpenIds(open[..k] + open[k + 1..]) == OpenIds(open) - {open[k].id}
  {
    hide FateOf;
    var left := open[..k] + open[k + 1..];
    forall o: Open ensures o in left <==> o in open && o.id != open[k].id {
      LessOne(open, k, o);
    }
  }

  lemma {:induction false} StillAsked(asked: seq<Asking>, prepared: seq<Prepared>, later: seq<Prepared>, open: seq<Open>, k: nat)
    requires AllAsked(asked, prepared, open) && PreparedCalls(later) == PreparedCalls(prepared) && k < |open|
    ensures AllAsked(asked, later, open[..k] + open[k + 1..])
  {
    var left := open[..k] + open[k + 1..];
    forall i | 0 <= i < |left|
      ensures left[i].index < |later| && Asking(left[i].id, later[left[i].index].call.id) in asked
    {
      var o := open[if i < k then i else i + 1];
      assert left[i] == o && PreparedCalls(later)[o.index] == PreparedCalls(prepared)[o.index];
    }
  }

  /** What was told stays so whatever else the broker is used for. */
  lemma RuledLater(
    asked: seq<Asking>, rulings: seq<Ruling>, answers: seq<Answer>, later: seq<Answer>, over: set<Id>, ended: set<Id>, open: set<Id>)
    requires Ruled(asked, rulings, answers, open) && AllOver(rulings, over)
    requires answers <= later && over <= ended && NoNews(over, answers, later)
    ensures Ruled(asked, rulings, later, open) && AllOver(rulings, ended)
  {
    forall r | r in rulings ensures RulingStands(asked, r, later, open) {
      assert RulingStands(asked, r, answers, open);
    }
  }
}
