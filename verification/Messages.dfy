/** Chat messages and what makes a list of them well-formed for a provider:
    every tool call is answered at once, in order, and nothing else is. */
module Messages {
  import opened Wrappers

  datatype Role = System | User | Assistant | Tool | Other(name: string)

  datatype Part = TextPart(text: string) | ImagePart(url: string) | OtherPart

  datatype Content = Text(text: string) | Parts(parts: seq<Part>)

  datatype Call = Call(id: Option<string>, name: string, arguments: string)

  datatype Message = Message(
    role: Role, content: Option<Content>, toolCalls: Option<seq<Call>>, toolCallId: Option<string>, reasoning: Option<string>)

  function TextMessage(role: Role, text: string): Message { Message(role, Some(Text(text)), None, None, None) }

  /** `tool_calls.iter().flatten()`. */
  function Calls(m: Message): seq<Call> { if m.toolCalls.Some? then m.toolCalls.value else [] }

  function PartsText(parts: seq<Part>): string {
    if parts == [] then "" else (if parts[0].TextPart? then parts[0].text else "") + PartsText(parts[1..])
  }

  function TextContent(m: Message): string {
    match m.content
    case None => ""
    case Some(Text(text)) => text
    case Some(Parts(parts)) => PartsText(parts)
  }

  // ----- pairing -----

  type Ids = seq<Option<string>>

  function CallIds(calls: seq<Call>): (ids: Ids)
    ensures |ids| == |calls| && forall i :: 0 <= i < |calls| ==> ids[i] == calls[i].id
  {
    seq(|calls|, i requires 0 <= i < |calls| => calls[i].id)
  }

  /** One message, with the calls still to be answered before it; `None` when it
      may not stand there. */
  function Expect(open: Ids, m: Message): Option<Ids> {
    if m.role.Tool? then
      if open != [] && m.toolCallId == open[0] && Calls(m) == [] then Some(open[1..]) else None
    else if open != [] then None
    else if m.role.Assistant? then Some(CallIds(Calls(m)))
    else if Calls(m) == [] then Some([])
    else None
  }

  function After(open: Ids, ms: seq<Message>): Option<Ids>
    decreases |ms|
  {
    if ms == [] then Some(open)
    else match Expect(open, ms[0])
         case None => None
         case Some(next) => After(next, ms[1..])
  }

  predicate Paired(ms: seq<Message>) { After([], ms) == Some([]) }

  /** What pairing means, index by index: the n calls of an assistant message are
      answered by exactly the n tool messages right behind it, ids in order, and
      every tool message is such an answer. */
  ghost predicate AnsweredInPlace(ms: seq<Message>) {
    OnlyAssistantsCall(ms) && EveryCallIsAnswered(ms) && EveryResultAnswers(ms)
  }

  predicate OnlyAssistantsCall(ms: seq<Message>) {
    forall i :: 0 <= i < |ms| && !ms[i].role.Assistant? ==> Calls(ms[i]) == []
  }

  predicate EveryCallIsAnswered(ms: seq<Message>) {
    forall i :: 0 <= i < |ms| && ms[i].role.Assistant? ==> AnsweredAt(ms, i)
  }

  ghost predicate EveryResultAnswers(ms: seq<Message>) {
    forall j :: 0 <= j < |ms| && ms[j].role.Tool? ==> exists i :: IsAnswer(ms, i, j)
  }

  predicate AnsweredAt(ms: seq<Message>, i: nat)
    requires i < |ms|
  {
    var calls := Calls(ms[i]);
    && i + |calls| < |ms|
    && (forall j :: i < j <= i + |calls| ==> ms[j].role.Tool? && ms[j].toolCallId == calls[j - i - 1].id)
    && (i + |calls| + 1 < |ms| ==> !ms[i + |calls| + 1].role.Tool?)
  }

  predicate IsAnswer(ms: seq<Message>, i: int, j: int) {
    0 <= i < j < |ms| && ms[i].role.Assistant? && j <= i + |Calls(ms[i])|
  }

  /** A place where the list may be cut: not in front of a tool result. */
  predicate Boundary(ms: seq<Message>, i: nat) { i == |ms| || (i < |ms| && !ms[i].role.Tool?) }

  /** A message that neither calls tools nor answers a call. */
  predicate Plain(m: Message) { !m.role.Tool? && Calls(m) == [] }

  lemma {:induction false} AfterAppend(open: Ids, a: seq<Message>, b: seq<Message>)
    ensures After(open, a + b) == match After(open, a) case None => None case Some(next) => After(next, b)
    decreases |a|
  {
    if a == [] {
      assert a + b == b;
    } else {
      assert (a + b)[0] == a[0] && (a + b)[1..] == a[1..] + b;
      if Expect(open, a[0]).Some? {
        AfterAppend(Expect(open, a[0]).value, a[1..], b);
      }
    }
  }

  lemma PairedAppend(a: seq<Message>, b: seq<Message>)
    requires Paired(a) && Paired(b)
    ensures Paired(a + b)
  {
    AfterAppend([], a, b);
  }

  /** A paired list may be cut wherever no tool result follows. */
  lemma PairedCut(ms: seq<Message>, i: nat)
    requires Paired(ms) && Boundary(ms, i)
    ensures Paired(ms[..i]) && Paired(ms[i..])
  {
    assert ms == ms[..i] + ms[i..];
    AfterAppend([], ms[..i], ms[i..]);
    if i < |ms| {
      assert ms[i..][0] == ms[i];
    }
  }

  lemma PairedSlice(ms: seq<Message>, i: nat, j: nat)
    requires Paired(ms) && i <= j <= |ms| && Boundary(ms, i) && Boundary(ms, j)
    ensures Paired(ms[i..j])
  {
    PairedCut(ms, j);
    PairedCut(ms[..j], i);
    assert ms[..j][i..] == ms[i..j];
  }

  lemma {:induction false} PlainIsPaired(ms: seq<Message>)
    requires forall m :: m in ms ==> Plain(m)
    ensures Paired(ms)
  {
    if ms != [] {
      assert ms[0] in ms;
      PlainIsPaired(ms[1..]);
    }
  }

  /** The tool messages that answer `calls`, in call order. */
  predicate Answers(calls: seq<Call>, results: seq<Message>) {
    && |results| == |calls|
    && forall i :: 0 <= i < |calls| ==> results[i].role.Tool? && results[i].toolCallId == calls[i].id && Calls(results[i]) == []
  }

  lemma {:induction false} AfterAnswers(calls: seq<Call>, results: seq<Message>)
    requires Answers(calls, results)
    ensures After(CallIds(calls), results) == Some([])
    decreases |calls|
  {
    if calls != [] {
      assert CallIds(calls)[1..] == CallIds(calls[1..]);
      AfterAnswers(calls[1..], results[1..]);
    } else {
      assert CallIds(calls) == [];
    }
  }

  lemma TurnIsPaired(turn: Message, results: seq<Message>)
    requires turn.role.Assistant? && Answers(Calls(turn), results)
    ensures Paired([turn] + results)
  {
    AfterAnswers(Calls(turn), results);
    assert ([turn] + results)[1..] == results;
  }

  // ----- pairing, index by index -----

  lemma {:induction false} OpenCallsFollow(open: Ids, ms: seq<Message>)
    requires After(open, ms) == Some([])
    ensures |open| <= |ms|
    ensures forall k :: 0 <= k < |open| ==> ms[k].role.Tool? && ms[k].toolCallId == open[k] && Calls(ms[k]) == []
    ensures Boundary(ms, |open|) && Paired(ms[|open|..])
    decreases |ms|
  {
    if open == [] {
      assert ms[0..] == ms;
    } else {
      OpenCallsFollow(open[1..], ms[1..]);
      assert ms[1..][|open| - 1..] == ms[|open|..];
      forall k | 0 <= k < |open| ensures ms[k].role.Tool? && ms[k].toolCallId == open[k] && Calls(ms[k]) == [] {
        if k > 0 {
          assert ms[k] == ms[1..][k - 1] && open[k] == open[1..][k - 1];
        }
      }
    }
  }

  /** The first message with its answers, then the rest. */
  ghost predicate StartsWithTurn(ms: seq<Message>, n: nat) {
    && n < |ms| && n == |Calls(ms[0])| && !ms[0].role.Tool?
    && (!ms[0].role.Assistant? ==> n == 0)
    && (forall j :: 0 < j <= n ==> ms[j].role.Tool? && ms[j].toolCallId == Calls(ms[0])[j - 1].id && Calls(ms[j]) == [])
    && (n + 1 < |ms| ==> !ms[n + 1].role.Tool?)
  }

  lemma {:induction false} PairedIsAnswered(ms: seq<Message>)
    requires Paired(ms)
    ensures AnsweredInPlace(ms)
    decreases |ms|
  {
    if ms != [] {
      var open := Expect([], ms[0]).value;
      var n := |open|;
      OpenCallsFollow(open, ms[1..]);
      assert ms[1..][n..] == ms[1 + n..];
      assert forall j :: 0 < j < |ms| ==> ms[j] == ms[1..][j - 1];
      PairedIsAnswered(ms[1 + n..]);
      TurnThenAnswered(ms, n);
      TurnThenAnswers(ms, n);
    }
  }

  lemma TurnThenAnswered(ms: seq<Message>, n: nat)
    requires ms != [] && StartsWithTurn(ms, n) && AnsweredInPlace(ms[1 + n..])
    ensures OnlyAssistantsCall(ms) && EveryCallIsAnswered(ms)
  {
    var rest := ms[1 + n..];
    assert forall i :: 1 + n <= i < |ms| ==> ms[i] == rest[i - 1 - n];
    forall i | 0 <= i < |ms| && ms[i].role.Assistant? ensures AnsweredAt(ms, i) {
      if i > n {
        AnsweredShift(ms, 1 + n, i);
      }
    }
  }

  lemma TurnThenAnswers(ms: seq<Message>, n: nat)
    requires ms != [] && StartsWithTurn(ms, n)
    requires EveryResultAnswers(ms[1 + n..])
    ensures EveryResultAnswers(ms)
  {
    var rest := ms[1 + n..];
    forall j | 0 <= j < |ms| && ms[j].role.Tool? ensures exists i :: IsAnswer(ms, i, j) {
      if j <= n {
        assert IsAnswer(ms, 0, j);
      } else {
        assert rest[j - 1 - n] == ms[j];
        var i :| IsAnswer(rest, i, j - 1 - n);
        AnswerShift(ms, 1 + n, i, j - 1 - n);
      }
    }
  }

  lemma AnswerShift(ms: seq<Message>, from: nat, i: int, j: int)
    requires from <= |ms| && 0 <= i
    ensures IsAnswer(ms[from..], i, j) <==> IsAnswer(ms, i + from, j + from)
  {}

  lemma AnsweredShift(ms: seq<Message>, from: nat, i: nat)
    requires from <= i < |ms|
    ensures AnsweredAt(ms[from..], i - from) <==> AnsweredAt(ms, i)
  {
    var rest, calls := ms[from..], Calls(ms[i]);
    assert forall k :: from <= k < |ms| ==> rest[k - from] == ms[k];
    if AnsweredAt(rest, i - from) {
      forall j | i < j <= i + |calls| ensures ms[j].role.Tool? && ms[j].toolCallId == calls[j - i - 1].id {
        assert rest[j - from] == ms[j];
      }
    }
  }

  lemma {:induction false} AnsweredIsPaired(ms: seq<Message>)
    requires AnsweredInPlace(ms)
    ensures Paired(ms)
    decreases |ms|
  {
    if ms != [] {
      var n := |Calls(ms[0])|;
      FirstTurn(ms);
      RestAnsweredAt(ms, n);
      RestAnswers(ms, n);
      AnsweredIsPaired(ms[1 + n..]);
      JoinTurn(ms, n);
    }
  }

  lemma FirstTurn(ms: seq<Message>)
    requires AnsweredInPlace(ms) && ms != []
    ensures StartsWithTurn(ms, |Calls(ms[0])|)
  {
    assert forall i :: !IsAnswer(ms, i, 0);
    if ms[0].role.Assistant? {
      assert AnsweredAt(ms, 0);
    }
    assert |ms| > 1 && ms[1].role.Tool? ==> exists i :: IsAnswer(ms, i, 1);
  }

  lemma JoinTurn(ms: seq<Message>, n: nat)
    requires ms != [] && StartsWithTurn(ms, n) && Paired(ms[1 + n..])
    ensures Paired(ms)
  {
    var results, rest := ms[1..1 + n], ms[1 + n..];
    if ms[0].role.Assistant? {
      assert forall k :: 0 <= k < n ==> results[k] == ms[k + 1];
      TurnIsPaired(ms[0], results);
      PairedAppend([ms[0]] + results, rest);
      assert ms == [ms[0]] + results + rest;
    }
  }

  lemma RestAnsweredAt(ms: seq<Message>, n: nat)
    requires AnsweredInPlace(ms) && ms != [] && StartsWithTurn(ms, n)
    ensures OnlyAssistantsCall(ms[1 + n..]) && EveryCallIsAnswered(ms[1 + n..])
  {
    var rest := ms[1 + n..];
    assert forall k :: 0 <= k < |rest| ==> rest[k] == ms[k + 1 + n];
    forall i | 0 <= i < |rest| && rest[i].role.Assistant? ensures AnsweredAt(rest, i) {
      AnsweredShift(ms, 1 + n, i + 1 + n);
    }
  }

  /** Behind one answered turn, the rest is answered by itself. */
  lemma RestAnswers(ms: seq<Message>, n: nat)
    requires AnsweredInPlace(ms) && ms != [] && StartsWithTurn(ms, n)
    ensures EveryResultAnswers(ms[1 + n..])
  {
    var rest := ms[1 + n..];
    forall j | 0 <= j < |rest| && rest[j].role.Tool? ensures exists i :: IsAnswer(rest, i, j) {
      assert rest[j] == ms[j + 1 + n];
      var i :| IsAnswer(ms, i, j + 1 + n);
      AnswerShift(ms, 1 + n, i - 1 - n, j);
    }
  }

  /** The one-pass check and the index-by-index statement say the same. */
  lemma PairedIff(ms: seq<Message>)
    ensures Paired(ms) <==> AnsweredInPlace(ms)
  {
    if Paired(ms) {
      PairedIsAnswered(ms);
    }
    if AnsweredInPlace(ms) {
      AnsweredIsPaired(ms);
    }
  }

  // ----- edits that keep the shape -----

  predicate SameShape(m: Message, n: Message) {
    m.role == n.role && m.toolCalls == n.toolCalls && m.toolCallId == n.toolCallId
  }

  predicate SameShapes(ms: seq<Message>, ns: seq<Message>) {
    |ms| == |ns| && forall i :: 0 <= i < |ms| ==> SameShape(ms[i], ns[i])
  }

  lemma {:induction false} SameShapesPair(open: Ids, ms: seq<Message>, ns: seq<Message>)
    requires SameShapes(ms, ns)
    ensures After(open, ms) == After(open, ns)
    decreases |ms|
  {
    if ms != [] {
      assert SameShape(ms[0], ns[0]);
      if Expect(open, ms[0]).Some? {
        SameShapesPair(Expect(open, ms[0]).value, ms[1..], ns[1..]);
      }
    }
  }
}
