/** Trimming and prefixes, for Rust's `str::trim` and JavaScript's `String.trim`.
    They differ in one character each. */
module Strings {
  /** Characters both languages trim. */
  predicate IsCommonSpace(c: char) {
    || '\t' <= c <= '\r' || c == ' ' || c == '\U{a0}' || c == '\U{1680}' || '\U{2000}' <= c <= '\U{200a}'
    || c == '\U{2028}' || c == '\U{2029}' || c == '\U{202f}' || c == '\U{205f}' || c == '\U{3000}'
  }

  predicate IsRustSpace(c: char) { IsCommonSpace(c) || c == '\U{85}' }

  predicate IsJsSpace(c: char) { IsCommonSpace(c) || c == '\U{feff}' }

  function TrimStart(s: string, space: char -> bool): (r: string)
    ensures |r| <= |s|
  {
    if s == [] || !space(s[0]) then s else TrimStart(s[1..], space)
  }

  function TrimEnd(s: string, space: char -> bool): (r: string)
    ensures |r| <= |s|
  {
    if s == [] || !space(s[|s| - 1]) then s else TrimEnd(s[..|s| - 1], space)
  }

  /** Trimming takes spaces off one end, and all of them. */
  lemma {:induction false} TrimStartIs(s: string, space: char -> bool)
    ensures var r := TrimStart(s, space);
            && r == s[|s| - |r|..] && (r == [] || !space(r[0]))
            && forall i :: 0 <= i < |s| - |r| ==> space(s[i])
  {
    if s != [] && space(s[0]) {
      TrimStartIs(s[1..], space);
    }
  }

  lemma {:induction false} TrimEndIs(s: string, space: char -> bool)
    ensures var r := TrimEnd(s, space);
            && r == s[..|r|] && (r == [] || !space(r[|r| - 1]))
            && forall i :: |r| <= i < |s| ==> space(s[i])
  {
    if s != [] && space(s[|s| - 1]) {
      TrimEndIs(s[..|s| - 1], space);
    }
  }

  function Trim(s: string, space: char -> bool): string { TrimEnd(TrimStart(s, space), space) }

  /** Everything outside `s[i..j]` is space, and `s[i..j]` neither starts nor ends
      with one. */
  predicate IsCore(s: string, i: nat, j: nat, space: char -> bool) {
    && i <= j <= |s|
    && (forall k :: 0 <= k < i ==> space(s[k])) && (forall k :: j <= k < |s| ==> space(s[k]))
    && (i < j ==> !space(s[i]) && !space(s[j - 1]))
  }

  /** `t` is `s` without the spaces at both ends, and with all else. */
  ghost predicate IsTrimOf(t: string, s: string, space: char -> bool) {
    exists i: nat, j: nat :: IsCore(s, i, j, space) && t == s[i..j]
  }

  lemma TrimIs(s: string, space: char -> bool)
    ensures IsTrimOf(Trim(s, space), s, space)
  {
    hide TrimStart, TrimEnd;
    var t := TrimStart(s, space);
    TrimStartIs(s, space);
    TrimEndIs(t, space);
    CoreOf(s, |s| - |t|, |TrimEnd(t, space)|, space);
  }

  lemma CoreOf(s: string, i: nat, n: nat, space: char -> bool)
    requires i + n <= |s| && forall k :: 0 <= k < i ==> space(s[k])
    requires var t := s[i..]; (forall k :: n <= k < |t| ==> space(t[k])) && (n > 0 ==> !space(t[n - 1]))
    requires i < |s| ==> !space(s[i])
    ensures IsCore(s, i, i + n, space) && s[i..][..n] == s[i..i + n]
  {
    forall k | i + n <= k < |s| ensures space(s[k]) {
      assert s[i..][k - i] == s[k];
    }
  }

  /** A text has one core. */
  lemma TrimIsOne(t: string, u: string, s: string, space: char -> bool)
    requires IsTrimOf(t, s, space) && IsTrimOf(u, s, space)
    ensures t == u
  {
    var i: nat, j: nat :| IsCore(s, i, j, space) && t == s[i..j];
    var k: nat, l: nat :| IsCore(s, k, l, space) && u == s[k..l];
    if i < j {
      assert !space(s[i]) && !space(s[j - 1]);
      assert k <= i && j <= l;
    }
    if k < l {
      assert !space(s[k]) && !space(s[l - 1]);
      assert i <= k && l <= j;
    }
  }

  /** Nothing is left exactly of a text of spaces. */
  lemma TrimsAwayIff(s: string, space: char -> bool)
    ensures Trim(s, space) == [] <==> forall i :: 0 <= i < |s| ==> space(s[i])
  {
    TrimIs(s, space);
    var i: nat, j: nat :| IsCore(s, i, j, space) && Trim(s, space) == s[i..j];
    if i < j {
      assert !space(s[i]);
    }
  }

  predicate StartsWith(s: string, prefix: string) { prefix <= s }

  lemma {:induction false} TrimStartStops(before: string, rest: string, space: char -> bool) returns (i: nat)
    requires rest != [] && !space(rest[0])
    ensures i <= |before| && TrimStart(before + rest, space) == before[i..] + rest
  {
    var s := before + rest;
    if before == [] {
      assert s == rest;
      i := 0;
    } else {
      assert s[0] == before[0] && s[1..] == before[1..] + rest;
      if space(before[0]) {
        var k := TrimStartStops(before[1..], rest, space);
        i := k + 1;
        assert before[1..][k..] == before[i..];
      } else {
        i := 0;
      }
    }
  }

  lemma {:induction false} TrimEndStops(rest: string, after: string, space: char -> bool) returns (j: nat)
    requires rest != [] && !space(rest[|rest| - 1])
    ensures j <= |after| && TrimEnd(rest + after, space) == rest + after[..j]
  {
    var s := rest + after;
    j := |after|;
    if after == [] {
      assert s == rest;
    } else {
      assert s[|s| - 1] == after[|after| - 1] && s[..|s| - 1] == rest + after[..|after| - 1];
      if space(after[|after| - 1]) {
        j := TrimEndStops(rest, after[..|after| - 1], space);
        assert after[..|after| - 1][..j] == after[..j];
      }
    }
  }

  lemma Shift(a: string, b: string, c: string)
    ensures a + (b + c) == a + b + c
  {}

  /** Trimming around a core that neither starts nor ends with a space keeps the core. */
  lemma TrimKeepsCore(before: string, core: string, after: string, space: char -> bool) returns (i: nat, j: nat)
    requires core != [] && !space(core[0]) && !space(core[|core| - 1])
    ensures i <= |before| && j <= |after|
    ensures Trim(before + core + after, space) == before[i..] + core + after[..j]
  {
    i := TrimStartStops(before, core + after, space);
    Shift(before, core, after);
    Shift(before[i..], core, after);
    j := TrimEndStops(before[i..] + core, after, space);
  }
}
