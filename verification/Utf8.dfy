/** UTF-8 (RFC 3629, section 3): how a string of characters is laid out in
    bytes, and what Rust's `str::is_char_boundary` means on that layout. */
module Utf8 {
  type Byte = b: int | 0 <= b < 256

  const NEWLINE: Byte := 10

  function CharLen(c: char): (n: nat)
    ensures 1 <= n <= 4
  {
    if c as int < 0x80 then 1 else if c as int < 0x800 then 2 else if c as int < 0x1_0000 then 3 else 4
  }

  function EncodeChar(c: char): (bytes: seq<Byte>)
    ensures |bytes| == CharLen(c)
    ensures !IsContinuation(bytes[0])
    ensures forall i :: 1 <= i < |bytes| ==> IsContinuation(bytes[i])
  {
    var n := c as int;
    if n < 0x80 then [n]
    else if n < 0x800 then [0xC0 + n / 64, 0x80 + n % 64]
    else if n < 0x1_0000 then [0xE0 + n / 4096, 0x80 + n / 64 % 64, 0x80 + n % 64]
    else [0xF0 + n / 262144, 0x80 + n / 4096 % 64, 0x80 + n / 64 % 64, 0x80 + n % 64]
  }

  function Encode(s: string): (bytes: seq<Byte>) {
    if s == [] then [] else EncodeChar(s[0]) + Encode(s[1..])
  }

  /** Rust's `str::len`. */
  function ByteLen(s: string): nat {
    if s == [] then 0 else CharLen(s[0]) + ByteLen(s[1..])
  }

  lemma {:induction false} ByteLenIsEncoded(s: string)
    ensures ByteLen(s) == |Encode(s)|
  {
    if s != [] {
      ByteLenIsEncoded(s[1..]);
    }
  }

  lemma {:induction false} ByteLenAppend(a: string, b: string)
    ensures ByteLen(a + b) == ByteLen(a) + ByteLen(b)
  {
    EncodeAppend(a, b);
    ByteLenIsEncoded(a);
    ByteLenIsEncoded(b);
    ByteLenIsEncoded(a + b);
  }

  predicate IsContinuation(b: Byte) { 0x80 <= b < 0xC0 }

  /** A byte sequence that a Rust `&str` can hold. */
  ghost predicate IsText(bytes: seq<Byte>) { exists s: string :: Encode(s) == bytes }

  predicate IsCharBoundary(text: seq<Byte>, i: nat) {
    i == 0 || i == |text| || (i < |text| && !IsContinuation(text[i]))
  }

  predicate IsAscii(s: string) { forall c :: c in s ==> c as int < 0x80 }

  lemma {:induction false} EncodeAppend(a: string, b: string)
    ensures Encode(a + b) == Encode(a) + Encode(b)
  {
    if a == [] {
      assert a + b == b;
    } else {
      assert (a + b)[0] == a[0] && (a + b)[1..] == a[1..] + b;
      EncodeAppend(a[1..], b);
    }
  }

  lemma {:induction false} ByteLenBounds(s: string)
    ensures |s| <= ByteLen(s) <= 4 * |s|
    ensures IsAscii(s) ==> ByteLen(s) == |s|
  {
    if s != [] {
      ByteLenBounds(s[1..]);
      assert s[0] in s && forall c :: c in s[1..] ==> c in s;
    }
  }

  /** Cutting a text at a byte boundary of characters cuts the characters:
      both halves are texts again. */
  lemma {:induction false} BoundarySplits(s: string, i: nat) returns (k: nat)
    requires i <= |Encode(s)| && IsCharBoundary(Encode(s), i)
    ensures k <= |s|
    ensures Encode(s)[..i] == Encode(s[..k]) && Encode(s)[i..] == Encode(s[k..])
  {
    var text := Encode(s);
    if i == 0 {
      k := 0;
    } else {
      var first, rest := EncodeChar(s[0]), Encode(s[1..]);
      assert text == first + rest;
      assert i >= |first|;
      assert rest[i - |first|..] == text[i..];
      var j := BoundarySplits(s[1..], i - |first|);
      k := j + 1;
      assert s[..k] == [s[0]] + s[1..][..j] && s[k..] == s[1..][j..];
      assert text[..i] == first + rest[..i - |first|];
    }
  }

  /** Conversely, every cut between characters is a character boundary. */
  lemma {:induction false} SplitsAreBoundaries(s: string, k: nat)
    requires k <= |s|
    ensures ByteLen(s[..k]) <= |Encode(s)| && IsCharBoundary(Encode(s), ByteLen(s[..k]))
  {
    EncodeAppend(s[..k], s[k..]);
    ByteLenIsEncoded(s[..k]);
    assert s == s[..k] + s[k..];
    if k < |s| {
      assert Encode(s[k..]) == EncodeChar(s[k]) + Encode(s[k..][1..]);
      assert Encode(s)[|Encode(s[..k])|] == EncodeChar(s[k])[0];
    }
  }

  /** No four bytes in a row of a text are inside one character. */
  lemma {:induction false} BoundaryWithinThree(text: seq<Byte>, i: nat)
    requires IsText(text) && i <= |text|
    ensures exists j :: 0 <= j <= i && i - j < 4 && IsCharBoundary(text, j)
    ensures exists j :: i <= j <= |text| && j - i < 4 && IsCharBoundary(text, j)
  {
    var s :| Encode(s) == text;
    BoundaryNear(s, i);
  }

  lemma {:induction false} BoundaryNear(s: string, i: nat)
    requires i <= |Encode(s)|
    ensures exists j :: 0 <= j <= i && i - j < 4 && IsCharBoundary(Encode(s), j)
    ensures exists j :: i <= j <= |Encode(s)| && j - i < 4 && IsCharBoundary(Encode(s), j)
  {
    if i == 0 || i == |Encode(s)| {
      assert IsCharBoundary(Encode(s), i);
    } else {
      var first, rest := EncodeChar(s[0]), Encode(s[1..]);
      var text := Encode(s);
      assert text == first + rest;
      if i < |first| {
        assert IsCharBoundary(text, 0);
        RestStartsChar(s[1..]);
        assert IsCharBoundary(text, |first|);
      } else {
        BoundaryNear(s[1..], i - |first|);
        RestStartsChar(s[1..]);
        var a :| 0 <= a <= i - |first| && i - |first| - a < 4 && IsCharBoundary(rest, a);
        var b :| i - |first| <= b <= |rest| && b - (i - |first|) < 4 && IsCharBoundary(rest, b);
        assert IsCharBoundary(text, a + |first|);
        assert IsCharBoundary(text, b + |first|);
      }
    }
  }

  lemma {:induction false} RestStartsChar(s: string)
    ensures Encode(s) == [] || !IsContinuation(Encode(s)[0])
  {}
}
