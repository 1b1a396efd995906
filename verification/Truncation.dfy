/** Head-and-tail truncation of one oversized tool output
    (`truncate_head_tail` and its character-boundary helpers). */
module Truncation {
  import opened Utf8
  import opened Wrappers

  /** What is kept of a cut text and what was left out between the two ends.
      The model sees `head` (without a final newline), a marker naming the two
      counts, and `tail`. */
  datatype Truncated = Truncated(head: seq<Byte>, tail: seq<Byte>, omittedLines: nat, omittedBytes: nat)

  // ----- lines -----

  function Newlines(text: seq<Byte>): (n: nat)
    ensures n <= |text|
  {
    if text == [] then 0 else (if text[0] == NEWLINE then 1 else 0) + Newlines(text[1..])
  }

  function Lines(text: seq<Byte>): nat { Newlines(text) + 1 }

  predicate EndsWithNewline(text: seq<Byte>) { text != [] && text[|text| - 1] == NEWLINE }

  /** A line starts at `i`: the text begins there or a newline stands before. */
  predicate IsLineStart(text: seq<Byte>, i: nat) { i == 0 || (i <= |text| && text[i - 1] == NEWLINE) }

  lemma {:induction false} NewlinesAppend(a: seq<Byte>, b: seq<Byte>)
    ensures Newlines(a + b) == Newlines(a) + Newlines(b)
  {
    if a == [] {
      assert a + b == b;
    } else {
      assert (a + b)[1..] == a[1..] + b;
      NewlinesAppend(a[1..], b);
    }
  }

  lemma {:induction false} NewlinesSplit(text: seq<Byte>, i: nat)
    requires i <= |text|
    ensures Newlines(text) == Newlines(text[..i]) + Newlines(text[i..])
  {
    hide Newlines;
    NewlinesAppend(text[..i], text[i..]);
    assert text == text[..i] + text[i..];
  }

  lemma NewlinesBetween(text: seq<Byte>, i: nat, j: nat)
    requires i <= j <= |text|
    ensures Newlines(text[..j]) == Newlines(text[..i]) + Newlines(text[i..j])
    ensures Newlines(text[i..]) == Newlines(text[i..j]) + Newlines(text[j..])
  {
    hide Newlines;
    NewlinesSplit(text[..j], i);
    NewlinesSplit(text[i..], j - i);
    assert text[..j][..i] == text[..i] && text[..j][i..] == text[i..j];
    assert text[i..][..j - i] == text[i..j] && text[i..][j - i..] == text[j..];
  }

  lemma {:induction false} NoNewlines(text: seq<Byte>)
    ensures Newlines(text) == 0 <==> NEWLINE !in text
  {
    if text != [] {
      NoNewlines(text[1..]);
      assert text == [text[0]] + text[1..];
    }
  }

  /** Where the first newline at or after `from` stands, or the length. */
  function FindNewline(text: seq<Byte>, from: nat): (i: nat)
    requires from <= |text|
    ensures from <= i <= |text|
    ensures i < |text| ==> text[i] == NEWLINE
    ensures forall j :: from <= j < i ==> text[j] != NEWLINE
    decreases |text| - from
  {
    if from == |text| || text[from] == NEWLINE then from else FindNewline(text, from + 1)
  }

  /** Where the line that reaches up to `end` starts. */
  function LineStartBefore(text: seq<Byte>, end: nat): (i: nat)
    requires end <= |text|
    ensures i <= end && IsLineStart(text, i)
    ensures forall j :: i <= j < end ==> text[j] != NEWLINE
  {
    if end == 0 || text[end - 1] == NEWLINE then end else LineStartBefore(text, end - 1)
  }

  // ----- character boundaries -----

  predicate IsFloor(text: seq<Byte>, index: nat, i: nat) {
    && i <= index && i <= |text| && IsCharBoundary(text, i)
    && forall j: nat :: i < j <= index && j <= |text| ==> !IsCharBoundary(text, j)
  }

  predicate IsCeil(text: seq<Byte>, index: nat, i: nat) {
    && i <= |text| && (index <= i || i == |text|) && IsCharBoundary(text, i)
    && forall j: nat :: index <= j < i ==> !IsCharBoundary(text, j)
  }

  method FloorCharBoundary(text: seq<Byte>, index: nat) returns (i: nat)
    ensures IsFloor(text, index, i)
  {
    i := if index < |text| then index else |text|;
    while !IsCharBoundary(text, i)
      invariant i <= index && i <= |text|
      invariant forall j: nat :: i < j <= index && j <= |text| ==> !IsCharBoundary(text, j)
      decreases i
    {
      i := i - 1;
    }
  }

  method CeilCharBoundary(text: seq<Byte>, index: nat) returns (i: nat)
    ensures IsCeil(text, index, i)
  {
    i := if index < |text| then index else |text|;
    while !IsCharBoundary(text, i)
      invariant i <= |text| && (index <= i || i == |text|)
      invariant forall j: nat :: index <= j < i ==> !IsCharBoundary(text, j)
      decreases |text| - i
    {
      i := i + 1;
    }
  }

  // ----- the two cuts, stated by what they maximise -----

  function Half(max: nat): nat { if max / 2 > 1 then max / 2 else 1 }

  /** Whole lines `text[..end]` fit the head's half of both budgets. */
  predicate FitsHead(text: seq<Byte>, end: nat, lines: nat, bytes: nat) {
    0 < end <= |text| && IsLineStart(text, end) && end <= bytes && Newlines(text[..end]) <= lines
  }

  /** The longest run of whole lines that fits; else as many characters of the
      first line as fit. */
  ghost predicate IsHeadCut(text: seq<Byte>, end: nat, lines: nat, bytes: nat) {
    if exists e: nat :: FitsHead(text, e, lines, bytes)
    then FitsHead(text, end, lines, bytes) && forall e: nat :: FitsHead(text, e, lines, bytes) ==> e <= end
    else IsFloor(text, bytes, end)
  }

  /** Whole lines `text[start..]` fit the tail's half and stay clear of the head. */
  predicate FitsTail(text: seq<Byte>, start: nat, head: nat, lines: nat, bytes: nat) {
    head <= start < |text| && IsLineStart(text, start) && |text| - start <= bytes && Lines(text[start..]) <= lines
  }

  /** The longest run of whole lines that fits; else as many characters of the
      last line as fit beside the head. A text that ends in a newline keeps no
      tail at all: the scan for the last line never leaves the text's end. */
  ghost predicate IsTailCut(text: seq<Byte>, start: nat, head: nat, lines: nat, bytes: nat) {
    if text == [] || EndsWithNewline(text) then start == |text|
    else if exists s: nat :: FitsTail(text, s, head, lines, bytes)
    then FitsTail(text, start, head, lines, bytes) && forall s: nat :: FitsTail(text, s, head, lines, bytes) ==> start <= s
    else
      var low := if |text| < bytes then 0 else |text| - bytes;
      exists c: nat :: IsCeil(text, low, c) && start == if c < head then head else c
  }

  ghost predicate IsTruncation(text: seq<Byte>, maxLines: nat, maxBytes: nat, t: Truncated) {
    var head, tail := |t.head|, |text| - |t.tail|;
    && head <= tail
    && t.head == text[..head] && t.tail == text[tail..]
    && t.omittedBytes == tail - head && t.omittedLines == Newlines(text[head..tail])
    && IsHeadCut(text, head, Half(maxLines), Half(maxBytes))
    && IsTailCut(text, tail, head, Half(maxLines), Half(maxBytes))
  }

  // ----- the algorithm -----

  method CutHead(text: seq<Byte>, lines: nat, bytes: nat) returns (end: nat)
    requires lines > 0
    ensures end <= |text| && IsHeadCut(text, end, lines, bytes)
  {
    end := 0;
    var kept := 0;
    var next := 0;
    while kept < lines
      invariant kept <= lines && kept <= end <= |text| && (kept == 0 <==> end == 0)
      invariant IsLineStart(text, end) && Newlines(text[..end]) == kept
      invariant end > 0 ==> end <= bytes
    {
      var offset := FindNewline(text, end);
      if offset == |text| { break; }
      next := offset + 1;
      if next > bytes { break; }
      NewlinesBetween(text, end, next);
      OneLine(text[end..next]);
      end := next;
      kept := kept + 1;
    }
    forall e: nat | FitsHead(text, e, lines, bytes) ensures e <= end {
      if e > end {
        LaterLineEnd(text, end, e);
      }
    }
    if kept == 0 {
      end := FloorCharBoundary(text, bytes);
    } else {
      assert FitsHead(text, end, lines, bytes);
    }
  }

  lemma {:induction false} OneLine(line: seq<Byte>)
    requires line != [] && line[|line| - 1] == NEWLINE
    requires forall i :: 0 <= i < |line| - 1 ==> line[i] != NEWLINE
    ensures Newlines(line) == 1
  {
    NewlinesSplit(line, |line| - 1);
    NoNewlines(line[..|line| - 1]);
  }

  /** A later line end holds at least one newline more and lies behind the next one. */
  lemma {:induction false} LaterLineEnd(text: seq<Byte>, i: nat, j: nat)
    requires i < j <= |text| && IsLineStart(text, j)
    ensures FindNewline(text, i) < j
    ensures Newlines(text[..j]) > Newlines(text[..i])
    ensures Newlines(text[i..]) > Newlines(text[j..])
  {
    NewlinesBetween(text, i, j);
    NoNewlines(text[i..j]);
    assert text[i..j][j - 1 - i] == NEWLINE;
  }

  method CutTail(text: seq<Byte>, head: nat, lines: nat, bytes: nat) returns (start: nat)
    requires lines > 0 && head <= |text|
    requires IsFloor(text, bytes, head) || IsLineStart(text, head)
    ensures head <= start <= |text| && IsTailCut(text, start, head, lines, bytes)
  {
    start := |text|;
    var kept := 0;
    var atEnd := text == [] || EndsWithNewline(text);
    while kept < lines && start > head
      invariant kept <= lines && head <= start <= |text|
      invariant atEnd ==> start == |text|
      invariant !atEnd ==> (kept == 0 <==> start == |text|)
      invariant !atEnd && kept > 0 ==> FitsTail(text, start, head, lines, bytes) && Lines(text[start..]) == kept
      decreases lines - kept
    {
      var searchEnd := if start == |text| then start else start - 1;
      var lineStart := LineStartBefore(text, searchEnd);
      if |text| - lineStart > bytes || lineStart < head {
        break;
      }
      if !atEnd {
        LineAdded(text, lineStart, start);
      }
      start := lineStart;
      kept := kept + 1;
    }
    if !atEnd {
      forall s: nat | FitsTail(text, s, head, lines, bytes) ensures start <= s {
        if s < start {
          EarlierLineStart(text, s, start);
        }
      }
    }
    if kept == 0 {
      start := CeilCharBoundary(text, if |text| < bytes then 0 else |text| - bytes);
      if start < head {
        start := head;
      }
    }
  }

  /** Moving the tail to the start of the line before it adds one line. */
  lemma {:induction false} LineAdded(text: seq<Byte>, lineStart: nat, start: nat)
    requires text != [] && !EndsWithNewline(text) && start <= |text|
    requires start < |text| ==> 0 < start && IsLineStart(text, start)
    requires lineStart == LineStartBefore(text, if start == |text| then start else start - 1)
    ensures lineStart < start
    ensures Lines(text[lineStart..]) == (if start == |text| then 1 else Lines(text[start..]) + 1)
  {
    if start == |text| {
      NoNewlines(text[lineStart..]);
    } else {
      NewlinesBetween(text, lineStart, start);
      OneLine(text[lineStart..start]);
    }
  }

  lemma {:induction false} EarlierLineStart(text: seq<Byte>, s: nat, start: nat)
    requires text != [] && !EndsWithNewline(text) && s < start <= |text|
    requires start < |text| ==> IsLineStart(text, start)
    requires IsLineStart(text, s)
    ensures s <= LineStartBefore(text, if start == |text| then start else start - 1)
    ensures start < |text| ==> Lines(text[s..]) > Lines(text[start..])
  {
    if start < |text| {
      LaterLineEnd(text, s, start);
    }
  }

  method TruncateHeadTail(text: seq<Byte>, maxLines: nat, maxBytes: nat) returns (r: Option<Truncated>)
    ensures r.None? <==> Lines(text) <= maxLines && |text| <= maxBytes
    ensures r.Some? ==> IsTruncation(text, maxLines, maxBytes, r.value)
  {
    if Lines(text) <= maxLines && |text| <= maxBytes {
      return None;
    }
    var head := CutHead(text, Half(maxLines), Half(maxBytes));
    var tail := CutTail(text, head, Half(maxLines), Half(maxBytes));
    var omitted := text[head..tail];
    var cut := Truncated(text[..head], text[tail..], Newlines(omitted), |omitted|);
    CutsAreTruncation(text, maxLines, maxBytes, head, tail, cut);
    r := Some(cut);
  }

  lemma CutsAreTruncation(text: seq<Byte>, maxLines: nat, maxBytes: nat, head: nat, tail: nat, t: Truncated)
    requires head <= tail <= |text|
    requires IsHeadCut(text, head, Half(maxLines), Half(maxBytes))
    requires IsTailCut(text, tail, head, Half(maxLines), Half(maxBytes))
    requires t == Truncated(text[..head], text[tail..], Newlines(text[head..tail]), |text[head..tail]|)
    ensures IsTruncation(text, maxLines, maxBytes, t)
  {
    assert |text[..head]| == head && |text| - |text[tail..]| == tail;
  }

  // ----- what a truncation guarantees -----

  /** Both ends of the cut text stay inside their half of both budgets, nothing
      between them is miscounted, and both cuts fall between characters: head,
      omitted middle, and tail are texts of their own. */
  lemma TruncationKeepsBothEnds(text: seq<Byte>, maxLines: nat, maxBytes: nat, t: Truncated)
    requires IsText(text) && maxBytes >= 2
    requires IsTruncation(text, maxLines, maxBytes, t)
    ensures var omitted := text[|t.head|..|text| - |t.tail|];
            && text == t.head + omitted + t.tail
            && |omitted| == t.omittedBytes && Newlines(omitted) == t.omittedLines
            && IsText(t.head) && IsText(omitted) && IsText(t.tail)
    ensures |t.head| <= maxBytes / 2 && |t.tail| <= maxBytes / 2
    ensures Newlines(t.head) <= Half(maxLines)
    ensures t.tail != [] ==> Lines(t.tail) <= Half(maxLines)
    ensures Newlines(text) == Newlines(t.head) + t.omittedLines + Newlines(t.tail)
  {
    hide IsText, Newlines, IsHeadCut, IsTailCut;
    var head, tail := |t.head|, |text| - |t.tail|;
    CutBounds(text, maxLines, maxBytes, head, tail);
    CutsAreTexts(text, head, tail);
    ThreeParts(text, head, tail);
  }

  lemma {:induction false} ThreeParts(text: seq<Byte>, head: nat, tail: nat)
    requires head <= tail <= |text|
    ensures text == text[..head] + text[head..tail] + text[tail..]
    ensures Newlines(text) == Newlines(text[..head]) + Newlines(text[head..tail]) + Newlines(text[tail..])
  {
    assert text == text[..tail] + text[tail..];
    assert text[..tail] == text[..head] + text[head..tail];
    NewlinesAppend(text[..tail], text[tail..]);
    NewlinesAppend(text[..head], text[head..tail]);
  }

  lemma CutBounds(text: seq<Byte>, maxLines: nat, maxBytes: nat, head: nat, tail: nat)
    requires IsText(text) && maxBytes >= 2 && head <= tail <= |text|
    requires IsHeadCut(text, head, Half(maxLines), Half(maxBytes))
    requires IsTailCut(text, tail, head, Half(maxLines), Half(maxBytes))
    ensures head <= maxBytes / 2 && |text| - tail <= maxBytes / 2
    ensures IsCharBoundary(text, head) && IsCharBoundary(text, tail)
    ensures Newlines(text[..head]) <= Half(maxLines)
    ensures tail < |text| ==> Lines(text[tail..]) <= Half(maxLines)
  {
    HalfOf(maxBytes);
    HeadCutBounds(text, head, Half(maxLines), maxBytes / 2);
    TailCutBounds(text, tail, head, Half(maxLines), maxBytes / 2);
  }

  lemma HalfOf(max: nat)
    requires max >= 2
    ensures Half(max) == max / 2
  {}

  lemma HeadCutBounds(text: seq<Byte>, head: nat, lines: nat, bytes: nat)
    requires IsText(text) && lines > 0 && head <= |text| && IsHeadCut(text, head, lines, bytes)
    ensures head <= bytes && IsCharBoundary(text, head)
    ensures Newlines(text[..head]) <= lines
  {
    if exists e: nat :: FitsHead(text, e, lines, bytes) {
      AfterNewline(text, head);
    } else {
      var e := FindNewline(text, 0) + 1;
      if e <= head {
        NewlinesBetween(text, 0, e);
        OneLine(text[..e]);
        assert text[0..e] == text[..e];
        assert FitsHead(text, e, lines, bytes);
      }
      NoNewlines(text[..head]);
    }
  }

  lemma TailCutBounds(text: seq<Byte>, tail: nat, head: nat, lines: nat, bytes: nat)
    requires IsText(text) && lines > 0 && head <= tail <= |text|
    requires IsCharBoundary(text, head) && IsTailCut(text, tail, head, lines, bytes)
    ensures |text| - tail <= bytes && IsCharBoundary(text, tail)
    ensures tail < |text| ==> Lines(text[tail..]) <= lines
  {
    if text == [] || EndsWithNewline(text) {
    } else if exists s: nat :: FitsTail(text, s, head, lines, bytes) {
      AfterNewline(text, tail);
    } else {
      var low := if |text| < bytes then 0 else |text| - bytes;
      var c: nat :| IsCeil(text, low, c) && tail == if c < head then head else c;
      assert IsCeil(text, low, c);
      var s := LineStartBefore(text, |text|);
      NoNewlines(text[s..]);
      assert s >= tail && s < |text| ==> FitsTail(text, s, head, lines, bytes);
      if tail < |text| {
        NoNewlines(text[tail..]);
      }
    }
  }

  /** A newline is a character of its own, so a line starts at a boundary. */
  lemma AfterNewline(text: seq<Byte>, i: nat)
    requires IsText(text) && i <= |text| && IsLineStart(text, i)
    ensures IsCharBoundary(text, i)
  {
    if 0 < i < |text| {
      var s :| Encode(s) == text;
      var k := BoundarySplits(s, i - 1);
      assert Encode(s[k..])[0] == NEWLINE;
      assert |EncodeChar(s[k])| == 1;
      RestStartsChar(s[k..][1..]);
      assert text[i] == Encode(s[k..])[1];
    }
  }

  lemma CutsAreTexts(text: seq<Byte>, head: nat, tail: nat)
    requires IsText(text) && head <= tail <= |text|
    requires IsCharBoundary(text, head) && IsCharBoundary(text, tail)
    ensures IsText(text[..head]) && IsText(text[head..tail]) && IsText(text[tail..])
  {
    var s :| Encode(s) == text;
    var k := BoundarySplits(s, tail);
    var left := Encode(s[..k]);
    assert left == text[..tail];
    assert IsCharBoundary(left, head);
    var j := BoundarySplits(s[..k], head);
    assert left[..head] == text[..head] && left[head..] == text[head..tail];
  }

  /** The doc comment promises both ends of an oversized text. With two or more
      lines allowed and room for one character in half the byte budget, that
      holds exactly when the text does not end in a newline. */
  lemma TailIsEmptyIff(text: seq<Byte>, maxLines: nat, maxBytes: nat, t: Truncated)
    requires IsText(text) && maxLines >= 2 && maxBytes >= 8
    requires Lines(text) > maxLines || |text| > maxBytes
    requires IsTruncation(text, maxLines, maxBytes, t)
    ensures t.tail == [] <==> EndsWithNewline(text)
  {
    var head, tail := |t.head|, |text| - |t.tail|;
    HalfOf(maxBytes);
    HeadCutBounds(text, head, Half(maxLines), maxBytes / 2);
    HeadLeavesText(text, maxLines, maxBytes, head);
    if !EndsWithNewline(text) && !exists s: nat :: FitsTail(text, s, head, Half(maxLines), maxBytes / 2) {
      CharactersAreLeft(text, tail, head, Half(maxLines), maxBytes / 2);
    }
  }

  /** Of a text over its budget the head cut takes only a part. */
  lemma HeadLeavesText(text: seq<Byte>, maxLines: nat, maxBytes: nat, head: nat)
    requires maxLines >= 2 && (Lines(text) > maxLines || |text| > maxBytes)
    requires head <= |text| && head <= maxBytes / 2 && Newlines(text[..head]) <= Half(maxLines)
    ensures head < |text| && text != []
  {
    assert text[..|text|] == text;
  }

  /** With no whole line to keep, the last characters are kept. */
  lemma CharactersAreLeft(text: seq<Byte>, tail: nat, head: nat, lines: nat, bytes: nat)
    requires IsText(text) && head < |text| && !EndsWithNewline(text) && bytes >= 4 && tail <= |text|
    requires IsTailCut(text, tail, head, lines, bytes) && !exists s: nat :: FitsTail(text, s, head, lines, bytes)
    ensures tail < |text|
  {
    var low := if |text| < bytes then 0 else |text| - bytes;
    var c: nat :| IsCeil(text, low, c) && tail == if c < head then head else c;
    BoundaryWithinThree(text, low);
    var j: nat :| low <= j <= |text| && j - low < 4 && IsCharBoundary(text, j);
    assert IsCharBoundary(text, 0);
    assert IsCeil(text, low, c);
  }

  /** One short line followed by a newline, cut to two lines: nothing of the
      second line survives. */
  lemma NewlineTerminatedTextLosesItsTail()
    ensures var text: seq<Byte> := [97, NEWLINE, 98, NEWLINE, 99, NEWLINE];
            IsTruncation(text, 2, 8, Truncated([97, NEWLINE], [], 2, 4))
  {
    var text: seq<Byte> := [97, NEWLINE, 98, NEWLINE, 99, NEWLINE];
    assert text[..2] == [97, NEWLINE] && text[2..6] == [98, NEWLINE, 99, NEWLINE];
    OneLine([97, NEWLINE]);
    OneLine([98, NEWLINE]);
    OneLine([99, NEWLINE]);
    NewlinesAppend([98, NEWLINE], [99, NEWLINE]);
    assert [98, NEWLINE] + [99, NEWLINE] == text[2..6];
    assert FitsHead(text, 2, 1, 4);
    forall e: nat | FitsHead(text, e, 1, 4) ensures e <= 2 {
      if e > 2 {
        LaterLineEnd(text, 2, e);
      }
    }
  }
}
