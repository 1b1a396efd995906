/** Sharing one step's output budget among its tool results
    (`step_byte_caps`): an integer water level. */
module StepBudget {
  const TOOL_REPLAY_MAX_BYTES: nat := 50 * 1024
  const STEP_REPLAY_MIN_BYTES: nat := 2 * 1024
  const TRUNCATION_NOTE_BYTES: nat := 512

  function Min(a: nat, b: nat): nat { if a < b then a else b }

  function Clipped(lengths: seq<nat>): seq<nat> {
    seq(|lengths|, i requires 0 <= i < |lengths| => Min(lengths[i], TOOL_REPLAY_MAX_BYTES))
  }

  /** What the results take when each is filled up to `level`. */
  function Fill(sizes: seq<nat>, level: nat): nat {
    if sizes == [] then 0 else Min(sizes[0], level) + Fill(sizes[1..], level)
  }

  function Sum(sizes: seq<nat>): nat {
    if sizes == [] then 0 else sizes[0] + Sum(sizes[1..])
  }

  /** The highest level the budget can pay for. */
  ghost predicate IsWaterLevel(sizes: seq<nat>, budget: nat, level: nat) {
    Fill(sizes, level) <= budget < Fill(sizes, level + 1)
  }

  /** A cut result's cap: the most that leaves room for its note below the level,
      and never less than the minimum. */
  function CutCap(level: nat): (cap: nat)
    ensures cap >= STEP_REPLAY_MIN_BYTES && (cap > STEP_REPLAY_MIN_BYTES ==> cap + TRUNCATION_NOTE_BYTES <= level)
    ensures cap + 1 + TRUNCATION_NOTE_BYTES > level
  {
    var room := if level > TRUNCATION_NOTE_BYTES then level - TRUNCATION_NOTE_BYTES else 0;
    if room > STEP_REPLAY_MIN_BYTES then room else STEP_REPLAY_MIN_BYTES
  }

  /** Exactly the results above the level are cut, each in its own place. */
  ghost predicate CutsAbove(sizes: seq<nat>, level: nat, caps: seq<nat>) {
    && |caps| == |sizes|
    && forall i :: 0 <= i < |sizes| ==> caps[i] == if sizes[i] > level then CutCap(level) else TOOL_REPLAY_MAX_BYTES
  }

  /** What the caps allow a step's results: a result that is not cut its size, a
      cut one its cap and the note that says so. */
  function Charge(sizes: seq<nat>, level: nat): nat {
    if sizes == [] then 0
    else (if sizes[0] > level then CutCap(level) + TRUNCATION_NOTE_BYTES else sizes[0]) + Charge(sizes[1..], level)
  }

  // ----- sorting (the standard library's `sort_unstable`) -----

  predicate Ascending(sizes: seq<nat>) { forall i, j :: 0 <= i < j < |sizes| ==> sizes[i] <= sizes[j] }

  function Insert(x: nat, sizes: seq<nat>): seq<nat> {
    if sizes == [] || x <= sizes[0] then [x] + sizes else [sizes[0]] + Insert(x, sizes[1..])
  }

  function Sorted(sizes: seq<nat>): seq<nat> {
    if sizes == [] then [] else Insert(sizes[0], Sorted(sizes[1..]))
  }

  lemma {:induction false} InsertElements(x: nat, sizes: seq<nat>)
    ensures multiset(Insert(x, sizes)) == multiset(sizes) + multiset{x}
    ensures |Insert(x, sizes)| == |sizes| + 1
  {
    if sizes != [] && x > sizes[0] {
      InsertElements(x, sizes[1..]);
      assert sizes == [sizes[0]] + sizes[1..];
    }
  }

  lemma {:induction false} InsertAscends(x: nat, sizes: seq<nat>)
    requires Ascending(sizes)
    ensures Ascending(Insert(x, sizes))
  {
    if sizes != [] && x > sizes[0] {
      var rest := Insert(x, sizes[1..]);
      InsertAscends(x, sizes[1..]);
      InsertElements(x, sizes[1..]);
      forall i | 0 <= i < |rest| ensures sizes[0] <= rest[i] {
        assert rest[i] in multiset(rest);
        assert rest[i] == x || rest[i] in sizes[1..];
      }
    }
  }

  lemma {:induction false} SortedSorts(sizes: seq<nat>)
    ensures Ascending(Sorted(sizes)) && multiset(Sorted(sizes)) == multiset(sizes) && |Sorted(sizes)| == |sizes|
  {
    if sizes != [] {
      SortedSorts(sizes[1..]);
      InsertElements(sizes[0], Sorted(sizes[1..]));
      InsertAscends(sizes[0], Sorted(sizes[1..]));
      assert sizes == [sizes[0]] + sizes[1..];
    }
  }

  lemma {:induction false} InsertFill(x: nat, sizes: seq<nat>, level: nat)
    ensures Fill(Insert(x, sizes), level) == Min(x, level) + Fill(sizes, level)
  {
    if sizes == [] || x <= sizes[0] {
      assert ([x] + sizes)[1..] == sizes;
    } else {
      InsertFill(x, sizes[1..], level);
      assert Insert(x, sizes)[1..] == Insert(x, sizes[1..]);
    }
  }

  lemma {:induction false} SortedFill(sizes: seq<nat>, level: nat)
    ensures Fill(Sorted(sizes), level) == Fill(sizes, level)
  {
    if sizes != [] {
      SortedFill(sizes[1..], level);
      InsertFill(sizes[0], Sorted(sizes[1..]), level);
    }
  }

  // ----- filling -----

  lemma {:induction false} FillMonotone(sizes: seq<nat>, low: nat, high: nat)
    requires low <= high
    ensures Fill(sizes, low) <= Fill(sizes, high) <= Sum(sizes)
  {
    if sizes != [] {
      FillMonotone(sizes[1..], low, high);
    }
  }

  lemma {:induction false} FillUncut(sizes: seq<nat>, level: nat)
    requires forall i :: 0 <= i < |sizes| ==> sizes[i] <= level
    ensures Fill(sizes, level) == Sum(sizes)
  {
    if sizes != [] {
      FillUncut(sizes[1..], level);
    }
  }

  lemma {:induction false} FillCut(sizes: seq<nat>, level: nat)
    requires forall i :: 0 <= i < |sizes| ==> sizes[i] >= level
    ensures Fill(sizes, level) == level * |sizes|
  {
    if sizes != [] {
      FillCut(sizes[1..], level);
    }
  }

  lemma {:induction false} FillAppend(a: seq<nat>, b: seq<nat>, level: nat)
    ensures Fill(a + b, level) == Fill(a, level) + Fill(b, level)
  {
    if a == [] {
      assert a + b == b;
    } else {
      assert (a + b)[1..] == a[1..] + b;
      FillAppend(a[1..], b, level);
    }
  }

  lemma {:induction false} SumAppend(a: seq<nat>, b: seq<nat>)
    ensures Sum(a + b) == Sum(a) + Sum(b)
  {
    if a == [] {
      assert a + b == b;
    } else {
      assert (a + b)[1..] == a[1..] + b;
      SumAppend(a[1..], b);
    }
  }

  /** The level is the largest one the budget pays for, so there is only one. */
  lemma {:induction false} WaterLevelIsLargest(sizes: seq<nat>, budget: nat, level: nat, other: nat)
    requires IsWaterLevel(sizes, budget, level)
    ensures Fill(sizes, other) <= budget <==> other <= level
  {
    if other <= level {
      FillMonotone(sizes, other, level);
    } else {
      FillMonotone(sizes, level + 1, other);
    }
  }

  // ----- the algorithm -----

  lemma ProductMonotone(a: nat, b: nat, d: nat)
    requires a <= b
    ensures a * d <= b * d
  {}

  /** What each gets when `remaining` is split evenly. */
  function Even(remaining: nat, people: nat): nat
    requires people > 0
  {
    remaining / people
  }

  lemma ShareBounds(remaining: nat, people: nat)
    requires people > 0
    ensures remaining / people * people <= remaining < (remaining / people + 1) * people
  {}

  /** Splitting what is left evenly never lowers the share. */
  lemma ShareGrows(remaining: nat, people: nat, size: nat)
    requires people > 0 && size <= Even(remaining, people)
    ensures remaining >= size
    ensures people > 1 ==> Even(remaining - size, people - 1) >= Even(remaining, people)
  {
    if people == 1 {
      return;
    }
    var share := remaining / people;
    ShareBounds(remaining, people);
    assert share * people == share * (people - 1) + share;
    ProductMonotone(0, share, people - 1);
    var next := (remaining - size) / (people - 1);
    ShareBounds(remaining - size, people - 1);
    assert share * (people - 1) < (next + 1) * (people - 1);
    if next + 1 <= share {
      ProductMonotone(next + 1, share, people - 1);
    }
  }

  /** Where the fill stops is the water level. */
  lemma {:induction false} BreakIsWaterLevel(below: seq<nat>, above: seq<nat>, budget: nat, share: nat)
    requires share * |above| <= budget - Sum(below) < (share + 1) * |above|
    requires forall i :: 0 <= i < |below| ==> below[i] <= share
    requires forall i :: 0 <= i < |above| ==> above[i] > share
    ensures IsWaterLevel(below + above, budget, share)
  {
    FillAppend(below, above, share);
    FillAppend(below, above, share + 1);
    FillUncut(below, share);
    FillUncut(below, share + 1);
    FillCut(above, share);
    FillCut(above, share + 1);
  }

  /** One size paid for in full, at a share that covers all before it. */
  lemma NextShare(ascending: seq<nat>, budget: nat, position: nat, remaining: nat, share: nat)
    requires position < |ascending| && remaining == budget - Sum(ascending[..position])
    requires ascending[position] <= share == Even(remaining, |ascending| - position)
    ensures ascending[position] <= remaining
    ensures remaining - ascending[position] == budget - Sum(ascending[..position + 1])
    ensures position + 1 < |ascending| ==> share <= Even(remaining - ascending[position], |ascending| - position - 1)
  {
    ShareGrows(remaining, |ascending| - position, ascending[position]);
    SumStep(ascending, position);
  }

  method WaterLevel(sizes: seq<nat>, budget: nat) returns (share: nat)
    requires Sum(sizes) > budget
    ensures IsWaterLevel(sizes, budget, share)
  {
    var ascending := Sorted(sizes);
    SortedSorts(sizes);
    SortedSum(sizes);
    var remaining: nat := budget;
    share := 0;
    var position := 0;
    while position < |ascending|
      invariant position <= |ascending|
      invariant remaining == budget - Sum(ascending[..position])
      invariant forall i :: 0 <= i < position ==> ascending[i] <= share
      invariant 0 < position < |ascending| ==> share <= Even(remaining, |ascending| - position)
    {
      share := Even(remaining, |ascending| - position);
      var size := ascending[position];
      if size > share {
        break;
      }
      NextShare(ascending, budget, position, remaining, share);
      remaining := remaining - size;
      position := position + 1;
    }
    FillStops(sizes, ascending, budget, position, share);
  }

  lemma {:induction false} FillStops(sizes: seq<nat>, ascending: seq<nat>, budget: nat, position: nat, share: nat)
    requires ascending == Sorted(sizes) && Ascending(ascending) && Sum(ascending) > budget
    requires position <= |ascending| && Sum(ascending[..position]) <= budget
    requires forall i :: 0 <= i < position ==> ascending[i] <= share
    requires position < |ascending| ==>
               share == Even(budget - Sum(ascending[..position]), |ascending| - position) < ascending[position]
    ensures IsWaterLevel(sizes, budget, share)
  {
    hide Sum, Fill, Sorted;
    var below, above := ascending[..position], ascending[position..];
    assert ascending == below + above;
    assert position == |ascending| ==> below == ascending;
    ShareBounds(budget - Sum(below), |above|);
    BreakIsWaterLevel(below, above, budget, share);
    assert IsWaterLevel(ascending, budget, share);
    SortedLevel(sizes, budget, share);
  }

  lemma {:induction false} SortedLevel(sizes: seq<nat>, budget: nat, share: nat)
    ensures IsWaterLevel(Sorted(sizes), budget, share) <==> IsWaterLevel(sizes, budget, share)
  {
    SortedFill(sizes, share);
    SortedFill(sizes, share + 1);
  }

  lemma SumStep(sizes: seq<nat>, i: nat)
    requires i < |sizes|
    ensures Sum(sizes[..i + 1]) == Sum(sizes[..i]) + sizes[i]
  {
    SumAppend(sizes[..i], [sizes[i]]);
    assert sizes[..i + 1] == sizes[..i] + [sizes[i]];
  }

  lemma {:induction false} SortedSum(sizes: seq<nat>)
    ensures Sum(Sorted(sizes)) == Sum(sizes)
  {
    var top := Sum(sizes) + Sum(Sorted(sizes));
    SumBounds(sizes);
    SumBounds(Sorted(sizes));
    SortedFill(sizes, top);
    FillUncut(sizes, top);
    FillUncut(Sorted(sizes), top);
  }

  lemma {:induction false} SumBounds(sizes: seq<nat>)
    ensures forall i :: 0 <= i < |sizes| ==> sizes[i] <= Sum(sizes)
  {
    if sizes != [] {
      SumBounds(sizes[1..]);
    }
  }

  method StepByteCaps(lengths: seq<nat>, budget: nat) returns (caps: seq<nat>)
    ensures |caps| == |lengths|
    ensures Sum(Clipped(lengths)) <= budget ==> caps == seq(|lengths|, _ => TOOL_REPLAY_MAX_BYTES)
    ensures Sum(Clipped(lengths)) > budget ==>
              exists level :: IsWaterLevel(Clipped(lengths), budget, level) && CutsAbove(Clipped(lengths), level, caps)
  {
    var sizes := Clipped(lengths);
    if Sum(sizes) <= budget {
      return seq(|lengths|, _ => TOOL_REPLAY_MAX_BYTES);
    }
    var share := WaterLevel(sizes, budget);
    var cap := CutCap(share);
    caps := seq(|sizes|, i requires 0 <= i < |sizes| => if sizes[i] > share then cap else TOOL_REPLAY_MAX_BYTES);
    assert CutsAbove(sizes, share, caps);
  }

  // ----- what the caps guarantee -----

  /** What the caps allow fits the step budget exactly when the budget can pay for
      the results filled up to a minimum cap and its note; otherwise the minimum wins. */
  lemma {:induction false} BudgetKeptIff(lengths: seq<nat>, budget: nat, level: nat)
    requires Sum(Clipped(lengths)) > budget && IsWaterLevel(Clipped(lengths), budget, level)
    ensures Charge(Clipped(lengths), level) <= budget
            <==> Fill(Clipped(lengths), STEP_REPLAY_MIN_BYTES + TRUNCATION_NOTE_BYTES) <= budget
  {
    var sizes, least := Clipped(lengths), STEP_REPLAY_MIN_BYTES + TRUNCATION_NOTE_BYTES;
    WaterLevelIsLargest(sizes, budget, level, least);
    if level >= least {
      ChargeIsFill(sizes, level);
    } else {
      ChargeAboveFill(sizes, level);
    }
  }

  lemma {:induction false} ChargeIsFill(sizes: seq<nat>, level: nat)
    requires level >= STEP_REPLAY_MIN_BYTES + TRUNCATION_NOTE_BYTES
    ensures Charge(sizes, level) == Fill(sizes, level)
  {
    if sizes != [] {
      ChargeIsFill(sizes[1..], level);
    }
  }

  lemma {:induction false} ChargeAboveFill(sizes: seq<nat>, level: nat)
    requires level < STEP_REPLAY_MIN_BYTES + TRUNCATION_NOTE_BYTES
    ensures Charge(sizes, level) >= Fill(sizes, level + 1)
  {
    if sizes != [] {
      ChargeAboveFill(sizes[1..], level);
    }
  }
}
