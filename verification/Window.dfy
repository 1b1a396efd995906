/** The run's view of its context window and the prompt-size estimate
    (`ContextWindow`, `estimate_tokens`). */
module Window {
  import opened Wrappers
  import opened Messages
  import Elision
  import Utf8

  const IMAGE_TOKENS: nat := 1000
  const MESSAGE_OVERHEAD_TOKENS: nat := 4

  // ----- the estimate -----

  function Images(parts: seq<Part>): nat {
    if parts == [] then 0 else (if parts[0].ImagePart? then 1 else 0) + Images(parts[1..])
  }

  function CallsChars(calls: seq<Call>): nat {
    if calls == [] then 0 else Utf8.ByteLen(calls[0].name) + |calls[0].arguments| + CallsChars(calls[1..])
  }

  function MessageChars(m: Message): nat {
    |TextContent(m)| + (if m.reasoning.Some? then |m.reasoning.value| else 0) + CallsChars(Calls(m))
  }

  function MessageImages(m: Message): nat {
    if m.content.Some? && m.content.value.Parts? then Images(m.content.value.parts) else 0
  }

  function Chars(ms: seq<Message>): nat {
    if ms == [] then 0 else Chars(ms[..|ms| - 1]) + MessageChars(ms[|ms| - 1])
  }

  function ImageCount(ms: seq<Message>): nat {
    if ms == [] then 0 else ImageCount(ms[..|ms| - 1]) + MessageImages(ms[|ms| - 1])
  }

  /** Characters / 4, rounded up, plus allowances per image and per message;
      `toolsChars` is the length of the encoded tool list. */
  function Estimate(ms: seq<Message>, toolsChars: nat): nat {
    (Chars(ms) + toolsChars + 3) / 4 + ImageCount(ms) * IMAGE_TOKENS + |ms| * MESSAGE_OVERHEAD_TOKENS
  }

  method EstimateTokens(ms: seq<Message>, toolsChars: nat) returns (tokens: nat)
    ensures tokens == Estimate(ms, toolsChars)
  {
    var chars, images := 0, 0;
    for i := 0 to |ms|
      invariant chars == Chars(ms[..i]) && images == ImageCount(ms[..i])
    {
      assert ms[..i + 1][..i] == ms[..i];
      var m := ms[i];
      match m.content {
        case None =>
        case Some(Text(text)) => chars := chars + |text|;
        case Some(Parts(parts)) =>
          var c, n := CountParts(parts);
          chars, images := chars + c, images + n;
      }
      if m.reasoning.Some? {
        chars := chars + |m.reasoning.value|;
      }
      var c := CountCalls(Calls(m));
      chars := chars + c;
    }
    assert ms[..|ms|] == ms;
    tokens := (chars + toolsChars + 3) / 4 + images * IMAGE_TOKENS + |ms| * MESSAGE_OVERHEAD_TOKENS;
  }

  method CountParts(parts: seq<Part>) returns (chars: nat, images: nat)
    ensures chars == |PartsText(parts)| && images == Images(parts)
  {
    chars, images := 0, 0;
    for i := 0 to |parts|
      invariant chars + |PartsText(parts[i..])| == |PartsText(parts)|
      invariant images + Images(parts[i..]) == Images(parts)
    {
      assert parts[i..][1..] == parts[i + 1..];
      match parts[i] {
        case TextPart(text) => chars := chars + |text|;
        case ImagePart(_) => images := images + 1;
        case OtherPart =>
      }
    }
  }

  method CountCalls(calls: seq<Call>) returns (chars: nat)
    ensures chars == CallsChars(calls)
  {
    chars := 0;
    for i := 0 to |calls|
      invariant chars + CallsChars(calls[i..]) == CallsChars(calls)
    {
      assert calls[i..][1..] == calls[i + 1..];
      chars := chars + Utf8.ByteLen(calls[i].name) + |calls[i].arguments|;
    }
  }

  // ----- eliding and the estimate -----

  /** The characters that stubs add over what they replace in the first `n`
      messages; negative when the stubs are the shorter ones. */
  function CharsAdded(ms: seq<Message>, keep: nat, n: nat): int
    requires n <= |ms|
  {
    if n == 0 then 0
    else
      CharsAdded(ms, keep, n - 1)
      + if Elision.Elides(ms, n - 1, keep) then |Elision.ElidedStub(Elision.ToolName(ms, n - 1))| - |TextContent(ms[n - 1])| else 0
  }

  /** The images lost with the replaced results of the first `n` messages. */
  function ImagesLost(ms: seq<Message>, keep: nat, n: nat): nat
    requires n <= |ms|
  {
    if n == 0 then 0
    else ImagesLost(ms, keep, n - 1) + if Elision.Elides(ms, n - 1, keep) then MessageImages(ms[n - 1]) else 0
  }

  lemma ElidedMessage(ms: seq<Message>, keep: nat, i: nat)
    requires i < |ms|
    ensures var m, m' := ms[i], Elision.Elided(ms, keep)[i];
            if Elision.Elides(ms, i, keep) then
              && MessageChars(m') == MessageChars(m) + |Elision.ElidedStub(Elision.ToolName(ms, i))| - |TextContent(m)|
              && MessageImages(m') == 0
            else m' == m
  {}

  lemma CountsSnoc(ms: seq<Message>, n: nat)
    requires 0 < n <= |ms|
    ensures Chars(ms[..n]) == Chars(ms[..n - 1]) + MessageChars(ms[n - 1])
    ensures ImageCount(ms[..n]) == ImageCount(ms[..n - 1]) + MessageImages(ms[n - 1])
  {
    assert ms[..n][..n - 1] == ms[..n - 1];
  }

  /** Eliding changes the two counts by exactly these sums. */
  lemma {:induction false} ElidedCounts(ms: seq<Message>, keep: nat, ns: seq<Message>, n: nat)
    requires n <= |ms| && ns == Elision.Elided(ms, keep)
    ensures Chars(ns[..n]) == Chars(ms[..n]) + CharsAdded(ms, keep, n)
    ensures ImageCount(ns[..n]) + ImagesLost(ms, keep, n) == ImageCount(ms[..n])
  {
    if n > 0 {
      ElidedCounts(ms, keep, ns, n - 1);
      CountsSnoc(ms, n);
      CountsSnoc(ns, n);
      ElidedMessage(ms, keep, n - 1);
    }
  }

  /** What rounding up to whole tokens leaves unused of the last one. */
  function Slack(chars: nat): nat { (4 - chars % 4) % 4 }

  lemma RoundedIff(a: nat, b: nat, images: nat, lost: nat, n: nat)
    ensures (a + 3) / 4 + images * IMAGE_TOKENS + n <= (b + 3) / 4 + (images + lost) * IMAGE_TOKENS + n
            <==> a <= b + Slack(b) + 4 * IMAGE_TOKENS * lost
  {
    var rounded := (b + 3) / 4;
    assert 4 * rounded == b + Slack(b);
  }

  lemma {:induction false} EstimateIff(ms: seq<Message>, ns: seq<Message>, added: int, lost: nat, toolsChars: nat)
    requires |ns| == |ms| && Chars(ns) == Chars(ms) + added && ImageCount(ns) + lost == ImageCount(ms)
    ensures Estimate(ns, toolsChars) <= Estimate(ms, toolsChars)
            <==> added <= Slack(Chars(ms) + toolsChars) + 4 * IMAGE_TOKENS * lost
  {
    hide Chars, ImageCount;
    RoundedIff(Chars(ns) + toolsChars, Chars(ms) + toolsChars, ImageCount(ns), lost, |ms| * MESSAGE_OVERHEAD_TOKENS);
  }

  /** The loop takes it that eliding only shrinks the prompt. Bytes do shrink; the
      estimate, which counts characters and images, does not grow exactly when the
      characters the stubs add fit into the rounding and the images dropped. */
  lemma {:induction false} ElidingShrinksEstimateIff(ms: seq<Message>, keep: nat, toolsChars: nat)
    ensures Estimate(Elision.Elided(ms, keep), toolsChars) <= Estimate(ms, toolsChars)
            <==> CharsAdded(ms, keep, |ms|) <= Slack(Chars(ms) + toolsChars) + 4 * IMAGE_TOKENS * ImagesLost(ms, keep, |ms|)
  {
    var ns := Elision.Elided(ms, keep);
    ElidedCounts(ms, keep, ns, |ms|);
    assert ns[..|ms|] == ns && ms[..|ms|] == ms;
    EstimateIff(ms, ns, CharsAdded(ms, keep, |ms|), ImagesLost(ms, keep, |ms|), toolsChars);
  }

  /** So it does not grow when every stub is at most as long as what it replaces. */
  lemma {:induction false} ShortStubsAddNothing(ms: seq<Message>, keep: nat, n: nat)
    requires n <= |ms|
    requires forall i: nat :: i < n && Elision.Elides(ms, i, keep) ==>
               |Elision.ElidedStub(Elision.ToolName(ms, i))| <= |TextContent(ms[i])|
    ensures CharsAdded(ms, keep, n) <= 0
  {
    if n > 0 {
      ShortStubsAddNothing(ms, keep, n - 1);
    }
  }

  /** In particular it does not grow when what is elided is ASCII. */
  lemma ElidingAsciiShrinksEstimate(ms: seq<Message>, keep: nat, toolsChars: nat)
    requires forall i: nat :: i < |ms| && Elision.Elides(ms, i, keep) ==> Utf8.IsAscii(TextContent(ms[i]))
    ensures Estimate(Elision.Elided(ms, keep), toolsChars) <= Estimate(ms, toolsChars)
  {
    forall i: nat | i < |ms| && Elision.Elides(ms, i, keep)
      ensures |Elision.ElidedStub(Elision.ToolName(ms, i))| <= |TextContent(ms[i])|
    {
      Utf8.ByteLenBounds(TextContent(ms[i]));
      Utf8.ByteLenBounds(Elision.ElidedStub(Elision.ToolName(ms, i)));
    }
    ShortStubsAddNothing(ms, keep, |ms|);
    ElidingShrinksEstimateIff(ms, keep, toolsChars);
  }

  lemma {:induction false} WideBytes(n: nat)
    ensures Utf8.ByteLen(seq(n, _ => '\U{1f600}')) == 4 * n
  {
    if n > 0 {
      var s := seq(n, _ => '\U{1f600}');
      WideBytes(n - 1);
      assert s[1..] == seq(n - 1, _ => '\U{1f600}');
    }
  }

  lemma AsciiStart()
    ensures Utf8.ByteLen("[outpu") == 6
  {
    assert Utf8.IsAscii("[outpu");
    Utf8.ByteLenBounds("[outpu");
  }

  lemma {:induction false} StubBytes(stub: string)
    requires Elision.STUB_START <= stub
    ensures |stub| >= 6 && Utf8.ByteLen(stub) <= 4 * |stub| - 18
  {
    hide Utf8.ByteLen, Utf8.IsAscii;
    var start, rest := stub[..6], stub[6..];
    assert stub == start + rest && start == "[outpu";
    AsciiStart();
    Utf8.ByteLenAppend(start, rest);
    Utf8.ByteLenBounds(rest);
  }

  /** A result of four-byte characters, a little shorter than its stub in
      characters but longer in bytes: it is replaced and the estimate grows. */
  lemma ElidingCanGrowEstimate(tool: string)
    ensures var stub := Elision.ElidedStub(tool);
            |stub| >= 4
            && var ms := [Message(Assistant, None, Some([Call(Some("c"), tool, "")]), None, None),
                          Message(Tool, Some(Text(seq(|stub| - 4, _ => '\U{1f600}'))), None, Some("c"), None),
                          Message(Assistant, None, Some([]), None, None)];
               1 in Elision.Replaced(ms, 0) && Estimate(Elision.Elided(ms, 0), 0) > Estimate(ms, 0)
  {
    var stub := Elision.ElidedStub(tool);
    StubBytes(stub);
    var text := seq(|stub| - 4, _ => '\U{1f600}');
    WideBytes(|stub| - 4);
    var call := Call(Some("c"), tool, "");
    var ms := [Message(Assistant, None, Some([call]), None, None),
               Message(Tool, Some(Text(text)), None, Some("c"), None),
               Message(Assistant, None, Some([]), None, None)];
    assert Elision.LatestTurn(ms) == 2;
    assert Elision.NameBefore(ms, 1, "c") == Some(tool);
    assert Elision.ToolName(ms, 1) == tool;
    assert Elision.STUB_START[0] == '[' && text[0] != '[';
    assert Elision.Elides(ms, 1, 0);
    var ns := Elision.Elided(ms, 0);
    assert TextContent(ns[1]) == stub && ns[0] == ms[0] && ns[2] == ms[2];
    ThreeChars(ms);
    ThreeChars(ns);
  }

  lemma {:induction false} ThreeChars(ms: seq<Message>)
    requires |ms| == 3
    ensures Chars(ms) == MessageChars(ms[0]) + MessageChars(ms[1]) + MessageChars(ms[2])
    ensures ImageCount(ms) == MessageImages(ms[0]) + MessageImages(ms[1]) + MessageImages(ms[2])
  {
    var two, one := ms[..2], ms[..1];
    assert two[..1] == one && one[..0] == [];
    assert Chars(one) == MessageChars(ms[0]) && ImageCount(one) == MessageImages(ms[0]);
    assert Chars(two) == Chars(one) + MessageChars(ms[1]) && ImageCount(two) == ImageCount(one) + MessageImages(ms[1]);
  }

  // ----- the window -----

  class ContextWindow {
    var tokens: Option<nat>
    /** The real prompt size and the raw estimate of the last answered request. */
    var calibration: Option<(nat, nat)>

    constructor (configured: Option<nat>)
      ensures tokens == (if configured.Some? && configured.value > 0 then configured else None) && calibration == None
    {
      tokens := if configured.Some? && configured.value > 0 then configured else None;
      calibration := None;
    }

    /** The last real count plus the growth since, and never below the raw estimate. */
    function EstimateFor(ms: seq<Message>, toolsChars: nat): (n: nat)
      reads this
      ensures n >= Estimate(ms, toolsChars)
      ensures calibration.Some? ==> n as int >= calibration.value.0 + Estimate(ms, toolsChars) - calibration.value.1
      ensures n == Estimate(ms, toolsChars)
              || (calibration.Some? && n as int == calibration.value.0 + Estimate(ms, toolsChars) - calibration.value.1)
    {
      var raw := Estimate(ms, toolsChars);
      match calibration
      case Some((real', estimated)) =>
        var grown := if real' + raw > estimated then real' + raw - estimated else 0;
        if raw > grown then raw else grown
      case None => raw
    }

    method Calibrate(rawEstimate: nat, promptTokens: nat)
      modifies `calibration
      ensures calibration == if promptTokens > 0 then Some((promptTokens, rawEstimate)) else old(calibration)
    {
      if promptTokens > 0 {
        calibration := Some((promptTokens, rawEstimate));
      }
    }

    /** A prompt that overflowed bounds the window for the rest of the run: the
        window only ever gets smaller, and never empty. */
    method Lower(overflowing: nat)
      modifies `tokens
      ensures tokens == Lowered(old(tokens), overflowing)
      ensures tokens.Some? && (old(tokens).Some? ==> tokens.value <= old(tokens).value)
      ensures old(tokens).None? || old(tokens).value > 0 ==> 0 < tokens.value
    {
      var size: nat := if overflowing > 1 then overflowing else 1;
      tokens := Some(if tokens.Some? && tokens.value < size then tokens.value else size);
    }
  }

  /** The smaller of a window and the size of a prompt that did not fit it. */
  function Lowered(tokens: Option<nat>, overflowing: nat): (r: Option<nat>)
    ensures r.Some? && (tokens.Some? ==> r.value <= tokens.value)
    ensures r == tokens || r.value == overflowing || (overflowing == 0 && r.value == 1)
    ensures r.value <= overflowing || (overflowing == 0 && r.value == 1)
  {
    var size := if overflowing > 1 then overflowing else 1;
    Some(if tokens.Some? && tokens.value < size then tokens.value else size)
  }
}
