/** Eliding old tool outputs from a conversation (`elide_old_tool_results`):
    which results, with what, and what that leaves alone. */
module Elision {
  import opened Wrappers
  import opened Messages
  import Utf8

  const STUB_START: string := "[output of "

  function ElidedStub(tool: string): string {
    STUB_START + tool + " elided to save context; re-run the tool if you need it]"
  }

  /** The last assistant message that calls tools, or the length. */
  function LatestTurn(ms: seq<Message>): (i: nat)
    ensures i <= |ms|
    ensures i < |ms| ==> ms[i].role.Assistant? && ms[i].toolCalls.Some?
    ensures forall j :: (if i < |ms| then i < j else 0 <= j) && j < |ms| ==> !(ms[j].role.Assistant? && ms[j].toolCalls.Some?)
  {
    LatestTurnBefore(ms, |ms|)
  }

  function LatestTurnBefore(ms: seq<Message>, n: nat): (i: nat)
    requires n <= |ms|
    ensures i < n || i == |ms|
    ensures i < |ms| ==> ms[i].role.Assistant? && ms[i].toolCalls.Some?
    ensures forall j :: (if i < |ms| then i < j else 0 <= j) && j < n ==> !(ms[j].role.Assistant? && ms[j].toolCalls.Some?)
  {
    if n == 0 then |ms|
    else if ms[n - 1].role.Assistant? && ms[n - 1].toolCalls.Some? then n - 1
    else LatestTurnBefore(ms, n - 1)
  }

  /** How many tool results stand at or after `i`. */
  function ToolsFrom(ms: seq<Message>, i: nat): (n: nat)
    requires i <= |ms|
    ensures n <= |ms| - i
    decreases |ms| - i
  {
    if i == |ms| then 0 else (if ms[i].role.Tool? then 1 else 0) + ToolsFrom(ms, i + 1)
  }

  // ----- the name of the tool behind a result -----

  function FindCall(calls: seq<Call>, id: string): Option<string> {
    if calls == [] then None
    else if calls[0].id == Some(id) then Some(calls[0].name)
    else FindCall(calls[1..], id)
  }

  function NameBefore(ms: seq<Message>, i: nat, id: string): Option<string>
    requires i <= |ms|
  {
    if i == 0 then None
    else
      var name := FindCall(Calls(ms[i - 1]), id);
      if name.Some? then name else NameBefore(ms, i - 1, id)
  }

  function ToolName(ms: seq<Message>, i: nat): string
    requires i < |ms|
  {
    var name := if ms[i].toolCallId.Some? then NameBefore(ms, i, ms[i].toolCallId.value) else None;
    if name.Some? then name.value else "tool"
  }

  predicate CallsFor(m: Message, id: string, name: string) {
    exists k :: 0 <= k < |Calls(m)| && Calls(m)[k].id == Some(id) && Calls(m)[k].name == name
  }

  predicate NoCallFor(ms: seq<Message>, from: nat, to: nat, id: string) {
    forall j, k :: from <= j < to && j < |ms| && 0 <= k < |Calls(ms[j])| ==> Calls(ms[j])[k].id != Some(id)
  }

  lemma {:induction false} FindCallFinds(calls: seq<Call>, id: string)
    ensures var name := FindCall(calls, id);
            if name.Some? then exists k :: 0 <= k < |calls| && calls[k].id == Some(id) && calls[k].name == name.value
            else forall k :: 0 <= k < |calls| ==> calls[k].id != Some(id)
  {
    if calls != [] && calls[0].id != Some(id) {
      FindCallFinds(calls[1..], id);
      if FindCall(calls, id).Some? {
        var k :| 0 <= k < |calls[1..]| && calls[1..][k].id == Some(id) && calls[1..][k].name == FindCall(calls, id).value;
        assert calls[k + 1] == calls[1..][k];
      } else {
        assert forall k :: 1 <= k < |calls| ==> calls[k] == calls[1..][k - 1];
      }
    }
  }

  /** A result's tool is that of the latest call before it with its id. */
  lemma {:induction false} NameIsTheCalls(ms: seq<Message>, i: nat, id: string) returns (j: nat)
    requires i <= |ms|
    ensures var name := NameBefore(ms, i, id);
            if name.Some? then j < i && CallsFor(ms[j], id, name.value) && NoCallFor(ms, j + 1, i, id)
            else NoCallFor(ms, 0, i, id)
  {
    hide FindCall, Calls;
    j := 0;
    if i > 0 {
      FindCallFinds(Calls(ms[i - 1]), id);
      if FindCall(Calls(ms[i - 1]), id).Some? {
        j := i - 1;
      } else {
        j := NameIsTheCalls(ms, i - 1, id);
      }
    }
  }

  // ----- what is elided -----

  /** A result from before the latest tool-calling turn with at least `keep`
      newer results behind it. */
  predicate Stale(ms: seq<Message>, i: nat, keep: nat)
    requires i < |ms|
  {
    ms[i].role.Tool? && i < LatestTurn(ms) && ToolsFrom(ms, i + 1) >= keep
  }

  /** Worth replacing: not a stub already and longer, in bytes, than its stub. */
  predicate Bulky(m: Message, stub: string) {
    !(STUB_START <= TextContent(m)) && Utf8.ByteLen(TextContent(m)) > Utf8.ByteLen(stub)
  }

  predicate Elides(ms: seq<Message>, i: nat, keep: nat)
    requires i < |ms|
  {
    Stale(ms, i, keep) && Bulky(ms[i], ElidedStub(ToolName(ms, i)))
  }

  function Stubbed(ms: seq<Message>, i: nat): Message
    requires i < |ms|
  {
    ms[i].(content := Some(Text(ElidedStub(ToolName(ms, i)))))
  }

  function Elided(ms: seq<Message>, keep: nat): seq<Message> {
    seq(|ms|, i requires 0 <= i < |ms| => if Elides(ms, i, keep) then Stubbed(ms, i) else ms[i])
  }

  /** Which results one pass replaces. */
  function Replaced(ms: seq<Message>, keep: nat): set<nat> {
    set i: nat | i < |ms| && Elides(ms, i, keep)
  }

  // ----- the source's own way of choosing them -----

  function ToolIndexes(ms: seq<Message>, n: nat): (r: seq<nat>)
    requires n <= |ms|
    ensures forall j :: 0 <= j < |r| ==> r[j] < n && ms[r[j]].role.Tool?
    ensures forall j, k :: 0 <= j < k < |r| ==> r[j] < r[k]
  {
    if n == 0 then [] else ToolIndexes(ms, n - 1) + if ms[n - 1].role.Tool? then [n - 1] else []
  }

  lemma {:induction false} ToolIndexesAll(ms: seq<Message>, n: nat, i: nat)
    requires i < n <= |ms| && ms[i].role.Tool?
    ensures exists j :: 0 <= j < |ToolIndexes(ms, n)| && ToolIndexes(ms, n)[j] == i
  {
    var before := ToolIndexes(ms, n - 1);
    var all := before + if ms[n - 1].role.Tool? then [n - 1] else [];
    assert ToolIndexes(ms, n) == all;
    if i == n - 1 {
      assert all[|before|] == i;
    } else {
      ToolIndexesAll(ms, n - 1, i);
      var j :| 0 <= j < |before| && before[j] == i;
      assert all[j] == i;
    }
  }

  lemma {:induction false} ToolsBehind(ms: seq<Message>, n: nat, j: nat)
    requires n <= |ms| && j < |ToolIndexes(ms, n)|
    ensures ToolsFrom(ms, ToolIndexes(ms, n)[j] + 1) == ToolsFrom(ms, n) + |ToolIndexes(ms, n)| - 1 - j
  {
    if j < |ToolIndexes(ms, n - 1)| {
      ToolsBehind(ms, n - 1, j);
    }
  }

  function Prunable(ms: seq<Message>, keep: nat): nat {
    var old', recent := |ToolIndexes(ms, LatestTurn(ms))|, ToolsFrom(ms, LatestTurn(ms));
    var spared := if keep > recent then keep - recent else 0;
    if old' > spared then old' - spared else 0
  }

  /** The first `Prunable` old results are exactly the stale ones. */
  lemma {:induction false} PrunableAreStale(ms: seq<Message>, keep: nat, j: nat)
    requires j < |ToolIndexes(ms, LatestTurn(ms))|
    ensures Stale(ms, ToolIndexes(ms, LatestTurn(ms))[j], keep) <==> j < Prunable(ms, keep)
  {
    ToolsBehind(ms, LatestTurn(ms), j);
  }

  // ----- what a pass guarantees -----

  lemma {:induction false} ToolsFromSameShapes(ms: seq<Message>, ns: seq<Message>, i: nat)
    requires SameShapes(ms, ns) && i <= |ms|
    ensures ToolsFrom(ms, i) == ToolsFrom(ns, i)
    decreases |ms| - i
  {
    if i < |ms| {
      assert SameShape(ms[i], ns[i]);
      ToolsFromSameShapes(ms, ns, i + 1);
    }
  }

  lemma {:induction false} NameSameShapes(ms: seq<Message>, ns: seq<Message>, i: nat, id: string)
    requires SameShapes(ms, ns) && i <= |ms|
    ensures NameBefore(ms, i, id) == NameBefore(ns, i, id)
  {
    if i > 0 {
      assert SameShape(ms[i - 1], ns[i - 1]);
      NameSameShapes(ms, ns, i - 1, id);
    }
  }

  lemma ToolNameSameShapes(ms: seq<Message>, ns: seq<Message>, i: nat)
    requires SameShapes(ms, ns) && i < |ms|
    ensures ToolName(ms, i) == ToolName(ns, i)
  {
    assert SameShape(ms[i], ns[i]);
    if ms[i].toolCallId.Some? {
      NameSameShapes(ms, ns, i, ms[i].toolCallId.value);
    }
  }

  lemma {:induction false} LatestTurnSameShapes(ms: seq<Message>, ns: seq<Message>, n: nat)
    requires SameShapes(ms, ns) && n <= |ms|
    ensures LatestTurnBefore(ms, n) == LatestTurnBefore(ns, n)
  {
    if n > 0 {
      assert SameShape(ms[n - 1], ns[n - 1]);
      LatestTurnSameShapes(ms, ns, n - 1);
    }
  }

  lemma StaleSameShapes(ms: seq<Message>, ns: seq<Message>, i: nat, keep: nat)
    requires SameShapes(ms, ns) && i < |ms|
    ensures Stale(ms, i, keep) == Stale(ns, i, keep)
  {
    assert SameShape(ms[i], ns[i]);
    LatestTurnSameShapes(ms, ns, |ms|);
    ToolsFromSameShapes(ms, ns, i + 1);
  }

  lemma ElisionKeepsShapes(ms: seq<Message>, keep: nat)
    ensures SameShapes(ms, Elided(ms, keep))
    ensures Paired(Elided(ms, keep)) == Paired(ms)
  {
    SameShapesPair([], ms, Elided(ms, keep));
  }

  function Larger(a: nat, b: nat): nat { if a > b then a else b }

  function Smaller(a: nat, b: nat): nat { if a < b then a else b }

  /** Only tool results from before the latest tool-calling turn change, only in
      their content, and every replaced one gets strictly shorter. */
  lemma {:induction false} ElisionShortens(ms: seq<Message>, keep: nat, i: nat)
    requires i < |ms|
    ensures var m, m' := ms[i], Elided(ms, keep)[i];
            && (i in Replaced(ms, keep) <==> m' != m)
            && m' == m.(content := m'.content)
            && (m' != m ==> m.role.Tool? && i < LatestTurn(ms)
                            && Utf8.ByteLen(TextContent(m')) < Utf8.ByteLen(TextContent(m)))
  {}

  /** What takes a result's place names its tool. */
  lemma StubNamesTheTool(ms: seq<Message>, keep: nat, i: nat)
    requires i in Replaced(ms, keep)
    ensures STUB_START + ToolName(ms, i) <= TextContent(Elided(ms, keep)[i])
    ensures ms[i].toolCallId.Some? ==>
              var id := ms[i].toolCallId.value;
              if NoCallFor(ms, 0, i, id) then ToolName(ms, i) == "tool"
              else exists j :: 0 <= j < i && CallsFor(ms[j], id, ToolName(ms, i)) && NoCallFor(ms, j + 1, i, id)
  {
    assert Elided(ms, keep)[i] == Stubbed(ms, i);
    if ms[i].toolCallId.Some? {
      var j := NameIsTheCalls(ms, i, ms[i].toolCallId.value);
      if NameBefore(ms, i, ms[i].toolCallId.value).Some? {
        assert !NoCallFor(ms, 0, i, ms[i].toolCallId.value);
      }
    }
  }

  /** The most recent results stay as they are: all of the latest turn's, and at
      least `keep` in all when there are that many. */
  lemma {:induction false} ElisionKeepsRecent(ms: seq<Message>, keep: nat, i: nat)
    requires i < |ms| && ms[i].role.Tool?
    requires ToolsFrom(ms, i + 1) < Larger(ToolsFrom(ms, LatestTurn(ms)), Smaller(keep, ToolsFrom(ms, 0)))
    ensures Elided(ms, keep)[i] == ms[i]
  {
    if i < LatestTurn(ms) {
      ToolsFromMonotone(ms, i + 1, LatestTurn(ms));
    }
  }

  lemma {:induction false} ToolsFromMonotone(ms: seq<Message>, i: nat, j: nat)
    requires i <= j <= |ms|
    ensures ToolsFrom(ms, i) >= ToolsFrom(ms, j)
    decreases j - i
  {
    if i < j {
      ToolsFromMonotone(ms, i + 1, j);
    }
  }

  /** A second pass with the same `keep` finds nothing to do. */
  lemma ElisionIsIdempotent(ms: seq<Message>, keep: nat)
    ensures Replaced(Elided(ms, keep), keep) == {}
    ensures Elided(Elided(ms, keep), keep) == Elided(ms, keep)
  {
    var ns := Elided(ms, keep);
    ElisionKeepsShapes(ms, keep);
    forall i: nat | i < |ns| ensures !Elides(ns, i, keep) {
      StaleSameShapes(ms, ns, i, keep);
      ToolNameSameShapes(ms, ns, i);
      if Elides(ms, i, keep) {
        assert TextContent(ns[i]) == ElidedStub(ToolName(ms, i));
        assert STUB_START <= ElidedStub(ToolName(ms, i));
      }
    }
  }
}
