/** One step's tool results as the model sees them: each cut to its cap, all within
    the step's budget where that is possible (`model_tool_contents`). */
module StepReplay {
  import opened Utf8
  import opened Truncation
  import opened StepBudget

  const TOOL_REPLAY_MAX_LINES: nat := 2000
  const STEP_REPLAY_MAX_BYTES: nat := 100 * 1024

  /** A result in whole, or cut, with so many bytes of notes that say so. */
  datatype Replayed = Whole(text: seq<Byte>) | Cut(cut: Truncated, note: nat)

  function Size(r: Replayed): nat {
    match r
    case Whole(text) => |text|
    case Cut(cut, note) => |cut.head| + |cut.tail| + note
  }

  function TotalSize(rs: seq<Replayed>): nat {
    if rs == [] then 0 else Size(rs[0]) + TotalSize(rs[1..])
  }

  function Lengths(texts: seq<seq<Byte>>): (r: seq<nat>)
    ensures |r| == |texts| && forall i :: 0 <= i < |texts| ==> r[i] == |texts[i]|
  {
    seq(|texts|, i requires 0 <= i < |texts| => |texts[i]|)
  }

  /** A result is cut exactly when it has too many lines or bytes. */
  ghost predicate ReplayOf(text: seq<Byte>, maxBytes: nat, r: Replayed) {
    if Lines(text) <= TOOL_REPLAY_MAX_LINES && |text| <= maxBytes then r == Whole(text)
    else r.Cut? && IsTruncation(text, TOOL_REPLAY_MAX_LINES, maxBytes, r.cut) && r.note <= TRUNCATION_NOTE_BYTES
  }

  function Cap(length: nat, level: nat): nat {
    if Min(length, TOOL_REPLAY_MAX_BYTES) > level then CutCap(level) else TOOL_REPLAY_MAX_BYTES
  }

  /** Each result replayed in its own place, under its own cap. */
  ghost predicate Replays(texts: seq<seq<Byte>>, level: nat, rs: seq<Replayed>) {
    |rs| == |texts| && forall i :: 0 <= i < |texts| ==> ReplayOf(texts[i], Cap(|texts[i]|, level), rs[i])
  }

  /** The water level, or no level at all when everything fits. */
  ghost predicate IsStepLevel(lengths: seq<nat>, budget: nat, level: nat) {
    if Sum(Clipped(lengths)) <= budget then level == TOOL_REPLAY_MAX_BYTES else IsWaterLevel(Clipped(lengths), budget, level)
  }

  ghost predicate AllTexts(texts: seq<seq<Byte>>) { forall i :: 0 <= i < |texts| ==> IsText(texts[i]) }

  method ReplayText(text: seq<Byte>, maxBytes: nat, note: nat) returns (r: Replayed)
    requires note <= TRUNCATION_NOTE_BYTES
    ensures ReplayOf(text, maxBytes, r)
  {
    var cut := TruncateHeadTail(text, TOOL_REPLAY_MAX_LINES, maxBytes);
    r := if cut.Some? then Cut(cut.value, note) else Whole(text);
  }

  /** `notes` are the lengths of the notes the cut results carry, within the room
      the caps leave for them. */
  method ModelToolContents(texts: seq<seq<Byte>>, notes: seq<nat>) returns (rs: seq<Replayed>)
    requires |notes| == |texts| && forall i :: 0 <= i < |notes| ==> notes[i] <= TRUNCATION_NOTE_BYTES
    ensures exists level :: IsStepLevel(Lengths(texts), STEP_REPLAY_MAX_BYTES, level) && Replays(texts, level, rs)
  {
    var caps := StepByteCaps(Lengths(texts), STEP_REPLAY_MAX_BYTES);
    ghost var level := CapsComeFromLevel(Lengths(texts), STEP_REPLAY_MAX_BYTES, caps);
    rs := [];
    for i := 0 to |texts|
      invariant |rs| == i && forall k :: 0 <= k < i ==> ReplayOf(texts[k], caps[k], rs[k])
    {
      var r := ReplayText(texts[i], caps[i], notes[i]);
      rs := rs + [r];
    }
    assert Replays(texts, level, rs);
  }

  lemma CapsComeFromLevel(lengths: seq<nat>, budget: nat, caps: seq<nat>) returns (level: nat)
    requires |caps| == |lengths|
    requires Sum(Clipped(lengths)) <= budget ==> caps == seq(|lengths|, _ => TOOL_REPLAY_MAX_BYTES)
    requires Sum(Clipped(lengths)) > budget ==>
               exists l :: IsWaterLevel(Clipped(lengths), budget, l) && CutsAbove(Clipped(lengths), l, caps)
    ensures IsStepLevel(lengths, budget, level)
    ensures forall i :: 0 <= i < |lengths| ==> caps[i] == Cap(lengths[i], level)
  {
    if Sum(Clipped(lengths)) <= budget {
      level := TOOL_REPLAY_MAX_BYTES;
    } else {
      level :| IsWaterLevel(Clipped(lengths), budget, level) && CutsAbove(Clipped(lengths), level, caps);
      assert CutsAbove(Clipped(lengths), level, caps);
    }
  }

  // ----- what a step takes -----

  /** A result the step does not cut and that is too long on its own all the same. */
  predicate Overlong(text: seq<Byte>, level: nat) {
    Min(|text|, TOOL_REPLAY_MAX_BYTES) <= level && (Lines(text) > TOOL_REPLAY_MAX_LINES || |text| > TOOL_REPLAY_MAX_BYTES)
  }

  function OverlongCount(texts: seq<seq<Byte>>, level: nat): nat {
    if texts == [] then 0 else (if Overlong(texts[0], level) then 1 else 0) + OverlongCount(texts[1..], level)
  }

  /** A cut result takes at most its cap, or its own length, and the note. */
  lemma CutSize(text: seq<Byte>, maxBytes: nat, r: Replayed)
    requires IsText(text) && maxBytes >= 2 && ReplayOf(text, maxBytes, r)
    ensures Size(r) <= |text| + TRUNCATION_NOTE_BYTES
    ensures Size(r) <= maxBytes + TRUNCATION_NOTE_BYTES
  {
    if r.Cut? {
      TruncationKeepsBothEnds(text, TOOL_REPLAY_MAX_LINES, maxBytes, r.cut);
    }
  }

  lemma OneTakes(text: seq<Byte>, level: nat, r: Replayed)
    requires IsText(text) && ReplayOf(text, Cap(|text|, level), r)
    ensures var size := Min(|text|, TOOL_REPLAY_MAX_BYTES);
            Size(r) <= (if size > level then CutCap(level) + TRUNCATION_NOTE_BYTES else size)
                       + if Overlong(text, level) then TRUNCATION_NOTE_BYTES else 0
  {
    CutSize(text, Cap(|text|, level), r);
  }

  /** A step's results take at most what the caps allow, and one more note for each
      that is too long on its own. */
  lemma {:induction false} StepTakes(texts: seq<seq<Byte>>, level: nat, rs: seq<Replayed>)
    requires AllTexts(texts) && Replays(texts, level, rs)
    ensures TotalSize(rs) <= Charge(Clipped(Lengths(texts)), level) + TRUNCATION_NOTE_BYTES * OverlongCount(texts, level)
  {
    hide IsTruncation, IsText, Lines, Overlong, ReplayOf, Cap;
    if texts != [] {
      var rest := texts[1..];
      OneTakes(texts[0], level, rs[0]);
      assert forall i :: 0 <= i < |rest| ==> rest[i] == texts[i + 1] && rs[1..][i] == rs[i + 1];
      StepTakes(rest, level, rs[1..]);
      assert Clipped(Lengths(texts))[1..] == Clipped(Lengths(rest));
    }
  }

  lemma {:induction false} ChargeWithoutCuts(sizes: seq<nat>, level: nat)
    requires forall i :: 0 <= i < |sizes| ==> sizes[i] <= level
    ensures Charge(sizes, level) == Sum(sizes)
  {
    if sizes != [] {
      ChargeWithoutCuts(sizes[1..], level);
    }
  }

  /** The step stays within its budget when that pays for every result up to the
      minimum cap and its note, and nothing left alone is too long on its own. */
  lemma {:induction false} StepFits(texts: seq<seq<Byte>>, budget: nat, level: nat, rs: seq<Replayed>)
    requires AllTexts(texts) && IsStepLevel(Lengths(texts), budget, level) && Replays(texts, level, rs)
    requires Fill(Clipped(Lengths(texts)), STEP_REPLAY_MIN_BYTES + TRUNCATION_NOTE_BYTES) <= budget
    ensures TotalSize(rs) <= budget + TRUNCATION_NOTE_BYTES * OverlongCount(texts, level)
    ensures OverlongCount(texts, level) == 0 ==> TotalSize(rs) <= budget
  {
    StepTakes(texts, level, rs);
    if Sum(Clipped(Lengths(texts))) > budget {
      BudgetKeptIff(Lengths(texts), budget, level);
    } else {
      ChargeWithoutCuts(Clipped(Lengths(texts)), level);
    }
  }

  /** Results within the minimum cap are never cut, whatever the budget: then the
      step takes all of them, and exceeds the budget when they do. */
  lemma {:induction false} SmallResultsStayWhole(texts: seq<seq<Byte>>, level: nat, rs: seq<Replayed>)
    requires Replays(texts, level, rs)
    requires forall i :: 0 <= i < |texts| ==> |texts[i]| <= STEP_REPLAY_MIN_BYTES && Lines(texts[i]) <= TOOL_REPLAY_MAX_LINES
    ensures TotalSize(rs) == Sum(Lengths(texts))
  {
    if texts != [] {
      var rest := texts[1..];
      assert rs[0] == Whole(texts[0]);
      assert forall i :: 0 <= i < |rest| ==> rest[i] == texts[i + 1] && rs[1..][i] == rs[i + 1];
      SmallResultsStayWhole(rest, level, rs[1..]);
      assert Lengths(texts)[1..] == Lengths(rest);
    }
  }

  const LETTER_A: Byte := 97

  function Letters(n: nat): (r: seq<Byte>)
    ensures |r| == n && NEWLINE !in r
  {
    seq(n, _ => LETTER_A)
  }

  lemma {:induction false} SumOfEqual(sizes: seq<nat>, size: nat)
    requires forall i :: 0 <= i < |sizes| ==> sizes[i] == size
    ensures Sum(sizes) == |sizes| * size
  {
    if sizes != [] {
      SumOfEqual(sizes[1..], size);
    }
  }

  /** 64 results of 2000 bytes: the level is 1600, all are marked to be cut, none
      is, and the step takes 128000 bytes of its 102400. */
  lemma {:induction false} StepCanExceedItsBudget(rs: seq<Replayed>, level: nat)
    requires IsStepLevel(Lengths(seq(64, _ => Letters(2000))), STEP_REPLAY_MAX_BYTES, level)
    requires Replays(seq(64, _ => Letters(2000)), level, rs)
    ensures level == 1600 && Fill(Clipped(Lengths(seq(64, _ => Letters(2000)))), 2560) > STEP_REPLAY_MAX_BYTES
    ensures TotalSize(rs) == 128000 > STEP_REPLAY_MAX_BYTES
  {
    var texts := seq(64, _ => Letters(2000));
    var sizes := Clipped(Lengths(texts));
    NoNewlines(Letters(2000));
    SmallResultsStayWhole(texts, level, rs);
    SumOfEqual(Lengths(texts), 2000);
    SumOfEqual(sizes, 2000);
    FillUncut(sizes, 2560);
    FillCut(sizes, 1600);
    FillCut(sizes, 1601);
    WaterLevelIsLargest(sizes, STEP_REPLAY_MAX_BYTES, level, 1600);
    WaterLevelIsLargest(sizes, STEP_REPLAY_MAX_BYTES, level, 1601);
  }
}
