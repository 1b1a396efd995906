/** Finding the JSON object in a model's reply (`extractJsonObject`): a brace
    matcher that knows strings, checked against the JSON grammar (RFC 8259,
    sections 2 to 7). */
module JsonScanner {
  import opened Wrappers
  import Strings

  // ----- the grammar -----

  /** One item of a string: a plain character, a two-character escape, or a
      `\u` escape with its four hexadecimal digits. */
  datatype Piece = Plain(c: char) | Escape(c: char) | Unicode(hex: string)

  /** A JSON text as written: `Word` is a number or one of the three literal
      names, `space` fills an empty array or object, and every value and name may
      stand between whitespace. */
  datatype Value =
    | Word(text: string)
    | Str(pieces: seq<Piece>)
    | Arr(space: string, items: seq<Padded>)
    | Obj(space: string, members: seq<Member>)

  datatype Padded = Padded(before: string, value: Value, after: string)

  datatype Member = Member(before: string, name: seq<Piece>, after: string, value: Padded)

  predicate IsWhitespace(s: string) { forall c :: c in s ==> c in " \t\n\r" }

  /** Numbers and literal names hold nothing that the scanner looks at. */
  predicate IsWord(s: string) { s != [] && forall c :: c in s ==> c !in "\"\\{}" }

  predicate IsPiece(p: Piece) {
    match p
    case Plain(c) => c != '\"' && c != '\\' && c >= ' '
    case Escape(c) => c in "\"\\/bfnrt"
    case Unicode(hex) => |hex| == 4 && forall c :: c in hex ==> '0' <= c <= '9' || 'a' <= c <= 'f' || 'A' <= c <= 'F'
  }

  predicate ArePieces(pieces: seq<Piece>) { forall p :: p in pieces ==> IsPiece(p) }

  predicate IsValue(v: Value) {
    match v
    case Word(text) => IsWord(text)
    case Str(pieces) => ArePieces(pieces)
    case Arr(space, items) => IsWhitespace(space) && forall i :: 0 <= i < |items| ==> IsPadded(items[i])
    case Obj(space, members) => IsWhitespace(space) && forall i :: 0 <= i < |members| ==> IsMember(members[i])
  }

  predicate IsPadded(p: Padded) { IsWhitespace(p.before) && IsWhitespace(p.after) && IsValue(p.value) }

  predicate IsMember(m: Member) {
    IsWhitespace(m.before) && ArePieces(m.name) && IsWhitespace(m.after) && IsPadded(m.value)
  }

  function PieceText(p: Piece): string {
    match p
    case Plain(c) => [c]
    case Escape(c) => ['\\', c]
    case Unicode(hex) => "\\u" + hex
  }

  function PiecesText(pieces: seq<Piece>): string {
    if pieces == [] then "" else PieceText(pieces[0]) + PiecesText(pieces[1..])
  }

  function StringText(pieces: seq<Piece>): string { "\"" + (PiecesText(pieces) + "\"") }

  function Text(v: Value): string
    decreases v, 1
  {
    match v
    case Word(text) => text
    case Str(pieces) => StringText(pieces)
    case Arr(space, items) => "[" + ((if items == [] then space else ItemsText(items)) + "]")
    case Obj(space, members) => "{" + (Body(v) + "}")
  }

  /** What stands between the braces of an object. */
  function Body(v: Value): string
    requires v.Obj?
    decreases v, 0
  {
    if v.members == [] then v.space else MembersText(v.members)
  }

  function PaddedText(p: Padded): string
    decreases p, 2
  {
    p.before + (Text(p.value) + p.after)
  }

  function ItemsText(items: seq<Padded>): string
    decreases items, 0
  {
    if items == [] then ""
    else PaddedText(items[0]) + ((if |items| > 1 then "," else "") + ItemsText(items[1..]))
  }

  function MemberText(m: Member): string
    decreases m, 3
  {
    m.before + (StringText(m.name) + (m.after + (":" + PaddedText(m.value))))
  }

  function MembersText(members: seq<Member>): string
    decreases members, 0
  {
    if members == [] then ""
    else MemberText(members[0]) + ((if |members| > 1 then "," else "") + MembersText(members[1..]))
  }

  // ----- the scanner -----

  datatype State = State(depth: nat, inString: bool, escaped: bool)

  /** One character; `None` once it closes the outermost brace. */
  function Step(s: State, c: char): Option<State> {
    if s.inString then
      if s.escaped then Some(s.(escaped := false))
      else if c == '\\' then Some(s.(escaped := true))
      else if c == '\"' then Some(s.(inString := false))
      else Some(s)
    else if c == '\"' then Some(s.(inString := true))
    else if c == '{' then Some(s.(depth := s.depth + 1))
    else if c == '}' then if s.depth <= 1 then None else Some(s.(depth := s.depth - 1))
    else Some(s)
  }

  function Scan(s: State, text: string): Option<State>
    decreases |text|
  {
    if text == [] then Some(s)
    else match Step(s, text[0])
         case None => None
         case Some(t) => Scan(t, text[1..])
  }

  /** Where the outermost brace closes, if it does. */
  function Close(s: State, text: string): (r: Option<nat>)
    ensures r.Some? ==> r.value < |text|
    decreases |text|
  {
    if text == [] then None
    else match Step(s, text[0])
         case None => Some(0)
         case Some(t) =>
           var i := Close(t, text[1..]);
           if i.Some? then Some(i.value + 1) else None
  }

  lemma {:induction false} ScanAppend(s: State, a: string, b: string)
    requires Scan(s, a).Some?
    ensures Scan(s, a + b) == Scan(Scan(s, a).value, b)
    ensures Close(s, a + b) == match Close(Scan(s, a).value, b) case None => None case Some(i) => Some(|a| + i)
    decreases |a|
  {
    if a == [] {
      assert a + b == b;
    } else {
      assert (a + b)[0] == a[0] && (a + b)[1..] == a[1..] + b;
      ScanAppend(Step(s, a[0]).value, a[1..], b);
    }
  }

  /** Scanning `text` leaves the scanner where it was. */
  ghost predicate Passes(s: State, text: string) { Scan(s, text) == Some(s) }

  lemma PassBoth(s: State, a: string, b: string)
    requires Passes(s, a) && Passes(s, b)
    ensures Passes(s, a + b)
  {
    ScanAppend(s, a, b);
  }

  lemma {:induction false} PassPlain(s: State, text: string)
    requires !s.inString && forall c :: c in text ==> c !in "\"{}"
    ensures Passes(s, text)
  {
    if text != [] {
      assert text[0] in text && forall c :: c in text[1..] ==> c in text;
      PassPlain(s, text[1..]);
    }
  }

  lemma PassPiece(s: State, p: Piece)
    requires s.inString && !s.escaped && IsPiece(p)
    ensures Passes(s, PieceText(p))
  {
    var text := PieceText(p);
    match p {
      case Plain(c) =>
        assert text[1..] == [];
      case Escape(c) =>
        assert text[1..] == [c] && [c][1..] == [];
        assert Scan(s.(escaped := true), [c]) == Scan(s, []);
      case Unicode(hex) =>
        assert text[0] == '\\' && text[1] == 'u' && text[1..][1..] == hex;
        PassHex(s, hex);
    }
  }

  lemma {:induction false} PassHex(s: State, hex: string)
    requires s.inString && !s.escaped && forall c :: c in hex ==> c != '\"' && c != '\\'
    ensures Passes(s, hex)
  {
    if hex != [] {
      assert hex[0] in hex && forall c :: c in hex[1..] ==> c in hex;
      PassHex(s, hex[1..]);
    }
  }

  lemma {:induction false} PassPieces(s: State, pieces: seq<Piece>)
    requires s.inString && !s.escaped && ArePieces(pieces)
    ensures Passes(s, PiecesText(pieces))
  {
    if pieces != [] {
      assert pieces[0] in pieces && forall p :: p in pieces[1..] ==> p in pieces;
      PassPiece(s, pieces[0]);
      PassPieces(s, pieces[1..]);
      PassBoth(s, PieceText(pieces[0]), PiecesText(pieces[1..]));
    }
  }

  lemma PassString(s: State, pieces: seq<Piece>)
    requires !s.inString && !s.escaped && ArePieces(pieces)
    ensures Passes(s, StringText(pieces))
  {
    var inside := s.(inString := true);
    var rest := PiecesText(pieces) + "\"";
    PassPieces(inside, pieces);
    ScanAppend(inside, PiecesText(pieces), "\"");
    assert "\""[1..] == [];
    assert StringText(pieces)[1..] == rest;
  }

  /** Every JSON value inside an object passes: its braces balance and those in
      strings do not count. */
  lemma {:induction false} PassValue(s: State, v: Value)
    requires s.depth > 0 && !s.inString && !s.escaped && IsValue(v)
    ensures Passes(s, Text(v))
    decreases v, 1
  {
    match v {
      case Word(text) => PassPlain(s, text);
      case Str(pieces) => PassString(s, pieces);
      case Arr(space, items) =>
        PassPlain(s, "[");
        PassPlain(s, "]");
        if items == [] {
          PassPlain(s, space);
          PassBoth(s, space, "]");
          PassBoth(s, "[", space + "]");
        } else {
          PassItems(s, items);
          PassBoth(s, ItemsText(items), "]");
          PassBoth(s, "[", ItemsText(items) + "]");
        }
      case Obj(_, _) =>
        var inner := s.(depth := s.depth + 1);
        PassBody(inner, v);
        ScanAppend(inner, Body(v), "}");
        assert "}"[1..] == [] && Text(v)[1..] == Body(v) + "}";
    }
  }

  lemma {:induction false} PassBody(s: State, v: Value)
    requires s.depth > 0 && !s.inString && !s.escaped && IsValue(v) && v.Obj?
    ensures Passes(s, Body(v))
    decreases v, 0
  {
    if v.members == [] {
      PassPlain(s, v.space);
    } else {
      PassMembers(s, v.members);
    }
  }

  lemma {:induction false} PassPadded(s: State, p: Padded)
    requires s.depth > 0 && !s.inString && !s.escaped && IsPadded(p)
    ensures Passes(s, PaddedText(p))
    decreases p, 2
  {
    PassPlain(s, p.before);
    PassPlain(s, p.after);
    PassValue(s, p.value);
    PassBoth(s, Text(p.value), p.after);
    PassBoth(s, p.before, Text(p.value) + p.after);
  }

  lemma {:induction false} PassItems(s: State, items: seq<Padded>)
    requires s.depth > 0 && !s.inString && !s.escaped
    requires forall i :: 0 <= i < |items| ==> IsPadded(items[i])
    ensures Passes(s, ItemsText(items))
    decreases items, 0
  {
    if items != [] {
      var comma := if |items| > 1 then "," else "";
      PassPadded(s, items[0]);
      PassItems(s, items[1..]);
      PassPlain(s, comma);
      PassBoth(s, comma, ItemsText(items[1..]));
      PassBoth(s, PaddedText(items[0]), comma + ItemsText(items[1..]));
    }
  }

  lemma {:induction false} PassMember(s: State, m: Member)
    requires s.depth > 0 && !s.inString && !s.escaped && IsMember(m)
    ensures Passes(s, MemberText(m))
    decreases m, 3
  {
    PassPlain(s, m.before);
    PassString(s, m.name);
    PassPlain(s, m.after);
    PassPlain(s, ":");
    PassPadded(s, m.value);
    PassBoth(s, ":", PaddedText(m.value));
    PassBoth(s, m.after, ":" + PaddedText(m.value));
    PassBoth(s, StringText(m.name), m.after + (":" + PaddedText(m.value)));
    PassBoth(s, m.before, StringText(m.name) + (m.after + (":" + PaddedText(m.value))));
  }

  lemma {:induction false} PassMembers(s: State, members: seq<Member>)
    requires s.depth > 0 && !s.inString && !s.escaped
    requires forall i :: 0 <= i < |members| ==> IsMember(members[i])
    ensures Passes(s, MembersText(members))
    decreases members, 0
  {
    if members != [] {
      var comma := if |members| > 1 then "," else "";
      PassMember(s, members[0]);
      PassMembers(s, members[1..]);
      PassPlain(s, comma);
      PassBoth(s, comma, MembersText(members[1..]));
      PassBoth(s, MemberText(members[0]), comma + MembersText(members[1..]));
    }
  }

  const START: State := State(0, false, false)

  /** An object's text closes at its last character, whatever follows. */
  lemma {:induction false} ObjectCloses(v: Value, rest: string)
    requires IsValue(v) && v.Obj?
    ensures Close(START, Text(v) + rest) == Some(|Text(v)| - 1)
  {
    var one := State(1, false, false);
    var tail := "}" + rest;
    PassBody(one, v);
    ScanAppend(one, Body(v), tail);
    assert Text(v) + rest == "{" + (Body(v) + tail);
    assert ("{" + (Body(v) + tail))[1..] == Body(v) + tail;
    assert tail[0] == '}';
  }

  // ----- extraction -----

  datatype Error = EmptyDraft | NoObject | Incomplete

  const FENCE: string := "```"

  function TrimJs(s: string): string { Strings.Trim(s, Strings.IsJsSpace) }

  predicate OccursAt(s: string, word: string, i: nat) { i + |word| <= |s| && s[i..i + |word|] == word }

  /** Where `word` first stands in `s`. */
  function IndexOf(s: string, word: string): (r: Option<nat>)
    ensures r.Some? ==> OccursAt(s, word, r.value)
    decreases |s|
  {
    if word <= s then Some(0)
    else if s == [] then None
    else
      var i := IndexOf(s[1..], word);
      if i.Some? then Some(i.value + 1) else None
  }

  /** The optional language tag after an opening fence, in any case. */
  function SkipTag(s: string): string {
    if |s| >= 4 && s[0] in "jJ" && s[1] in "sS" && s[2] in "oO" && s[3] in "nN" then s[4..] else s
  }

  /** The inside of the first fenced block: `/```(?:json)?\s*([\s\S]*?)```/i`. */
  function Fenced(s: string): (r: Option<string>)
    ensures r.Some? ==> |r.value| < |s|
  {
    var open := IndexOf(s, FENCE);
    if open.None? then None
    else
      var inside := Strings.TrimStart(SkipTag(s[open.value + 3..]), Strings.IsJsSpace);
      var close := IndexOf(inside, FENCE);
      if close.None? then None else Some(inside[..close.value])
  }

  function Extract(text: string): Result<string, Error>
    decreases |text|
  {
    var trimmed := TrimJs(text);
    if trimmed == [] then Err(EmptyDraft)
    else if Fenced(trimmed).Some? then Extract(Fenced(trimmed).value)
    else FromBrace(trimmed)
  }

  function FromBrace(trimmed: string): Result<string, Error> {
    match IndexOf(trimmed, "{")
    case None => Err(NoObject)
    case Some(start) =>
      match Close(START, trimmed[start..])
      case None => Err(Incomplete)
      case Some(i) => Ok(trimmed[start..start + i + 1])
  }

  method ExtractJsonObject(text: string) returns (r: Result<string, Error>)
    ensures r == Extract(text)
    decreases |text|
  {
    var trimmed := TrimJs(text);
    if trimmed == [] {
      return Err(EmptyDraft);
    }
    var fence := Fenced(trimmed);
    if fence.Some? {
      r := ExtractJsonObject(fence.value);
      return;
    }
    r := MatchBraces(trimmed);
  }

  /** Scanning on from `i` in state `s` closes where scanning from the start does. */
  predicate ClosesAlike(s: State, text: string, start: nat, i: nat)
    requires start <= i <= |text|
  {
    match Close(s, text[i..])
    case None => Close(START, text[start..]) == None
    case Some(k) => Close(START, text[start..]) == Some(i - start + k)
  }

  lemma ClosesAlikeStep(s: State, text: string, start: nat, i: nat)
    requires start <= i < |text| && ClosesAlike(s, text, start, i)
    ensures match Step(s, text[i])
            case None => Close(START, text[start..]) == Some(i - start)
            case Some(t) => ClosesAlike(t, text, start, i + 1)
  {
    assert text[i..][0] == text[i] && text[i..][1..] == text[i + 1..];
  }

  lemma NeverCloses(s: State, text: string, start: nat)
    requires start <= |text| && ClosesAlike(s, text, start, |text|)
    ensures Close(START, text[start..]) == None
  {}

  method MatchBraces(text: string) returns (r: Result<string, Error>)
    ensures r == FromBrace(text)
  {
    var brace := IndexOf(text, "{");
    if brace.None? {
      return Err(NoObject);
    }
    var start := brace.value;
    assert text[start] == text[start..start + 1][0];
    var depth: int := 0;
    var inString, escaped := false, false;
    var i := start;
    while i < |text|
      invariant start <= i <= |text|
      invariant if i == start then depth == 0 && !inString && !escaped else depth >= 1
      invariant ClosesAlike(State(depth, inString, escaped), text, start, i)
    {
      ClosesAlikeStep(State(depth, inString, escaped), text, start, i);
      depth, inString, escaped := Advance(depth, inString, escaped, text[i]);
      if depth == 0 {
        return Ok(text[start..i + 1]);
      }
      i := i + 1;
    }
    NeverCloses(State(depth, inString, escaped), text, start);
    r := Err(Incomplete);
  }

  /** One character's worth of bookkeeping; the outermost brace has closed once the
      depth is back at zero. */
  method Advance(depth: int, inString: bool, escaped: bool, ch: char) returns (depth': int, inString': bool, escaped': bool)
    requires depth >= 1 || (depth == 0 && !inString && ch == '{')
    ensures depth' >= 0 && (depth' == 0 <==> Step(State(depth, inString, escaped), ch) == None)
    ensures depth' > 0 ==> Step(State(depth, inString, escaped), ch) == Some(State(depth', inString', escaped'))
  {
    depth', inString', escaped' := depth, inString, escaped;
    if inString {
      if escaped {
        escaped' := false;
      } else if ch == '\\' {
        escaped' := true;
      } else if ch == '\"' {
        inString' := false;
      }
    } else if ch == '\"' {
      inString' := true;
    } else if ch == '{' {
      depth' := depth + 1;
    } else if ch == '}' {
      depth' := depth - 1;
    }
  }

  ghost predicate Contains(s: string, word: string) { exists i: nat :: OccursAt(s, word, i) }

  lemma PartContains(before: string, part: string, after: string, word: string)
    requires Contains(part, word)
    ensures Contains(before + part + after, word)
  {
    var k: nat :| OccursAt(part, word, k);
    assert (before + part + after)[|before| + k..|before| + k + |word|] == part[k..k + |word|];
    assert OccursAt(before + part + after, word, |before| + k);
  }

  /** The first occurrence is not inside text without the word's first character. */
  lemma {:induction false} IndexAfter(before: string, word: string, rest: string)
    requires word != [] && word[0] !in before
    ensures IndexOf(before + (word + rest), word) == Some(|before|)
  {
    var s := before + (word + rest);
    if before == [] {
      assert s == word + rest;
      assert word <= s;
    } else {
      assert s[0] == before[0] && before[0] in before;
      assert s[1..] == before[1..] + (word + rest);
      IndexAfter(before[1..], word, rest);
    }
  }

  lemma {:induction false} ObjectText(v: Value)
    requires v.Obj?
    ensures |Text(v)| >= 2 && Text(v)[0] == '{' && Text(v)[|Text(v)| - 1] == '}'
    ensures Text(v) == "{" + Text(v)[1..]
  {}

  lemma {:induction false} FromBraceFinds(before: string, v: Value, after: string)
    requires IsValue(v) && v.Obj? && '{' !in before
    ensures FromBrace(before + Text(v) + after) == Ok(Text(v))
  {
    var s, start := before + Text(v) + after, |before|;
    ObjectText(v);
    ObjectCloses(v, after);
    assert s == before + ("{" + (Text(v)[1..] + after));
    IndexAfter(before, "{", Text(v)[1..] + after);
    assert s[start..] == Text(v) + after;
    assert s[start..start + |Text(v)|] == Text(v);
  }

  /** A JSON object in a reply without code fences is found whole, whatever stands
      before it (short of another brace) and after it. */
  lemma {:induction false} ExtractFindsObject(before: string, v: Value, after: string)
    requires IsValue(v) && v.Obj? && '{' !in before
    requires !Contains(before + Text(v) + after, FENCE)
    ensures Extract(before + Text(v) + after) == Ok(Text(v))
  {
    ObjectText(v);
    var b, a := TrimUnfenced(before, Text(v), after);
    FromBraceFinds(b, v, a);
    ExtractUnfenced(before + Text(v) + after, b + Text(v) + a);
  }

  lemma TrimUnfenced(before: string, core: string, after: string) returns (b: string, a: string)
    requires core != [] && !Strings.IsJsSpace(core[0]) && !Strings.IsJsSpace(core[|core| - 1])
    requires !Contains(before + core + after, FENCE)
    ensures TrimJs(before + core + after) == b + core + a && Fenced(b + core + a).None?
    ensures forall c :: c in b ==> c in before
  {
    var i, j := Strings.TrimKeepsCore(before, core, after, Strings.IsJsSpace);
    b, a := before[i..], after[..j];
    Trimmings(before, i, core, after, j);
    NoFence(before[..i], b + core + a, after[j..]);
  }

  lemma Trimmings(before: string, i: nat, core: string, after: string, j: nat)
    requires i <= |before| && j <= |after|
    ensures before[..i] + (before[i..] + core + after[..j]) + after[j..] == before + core + after
    ensures forall c :: c in before[i..] ==> c in before
  {}

  lemma NoFence(before: string, part: string, after: string)
    requires !Contains(before + part + after, FENCE)
    ensures Fenced(part).None?
  {
    if IndexOf(part, FENCE).Some? {
      PartContains(before, part, after, FENCE);
    }
    UnfencedWithout(part);
  }

  lemma {:induction false} UnfencedWithout(s: string)
    requires IndexOf(s, FENCE).None?
    ensures Fenced(s).None?
  {}

  lemma {:induction false} ExtractUnfenced(text: string, trimmed: string)
    requires trimmed == TrimJs(text) && trimmed != [] && Fenced(trimmed).None?
    ensures Extract(text) == FromBrace(trimmed)
  {}

  lemma {:induction false} ExtractInside(text: string, trimmed: string)
    requires trimmed == TrimJs(text) && Fenced(trimmed).Some?
    ensures Extract(text) == Extract(Fenced(trimmed).value)
  {}

  /** No tag, or `json` in any case. */
  predicate IsTag(tag: string) { tag == "" || (|tag| == 4 && SkipTag(tag) == "") }

  /** Put right before a fence, the text leaves that the first one. */
  ghost predicate Unfenced(text: string) { !Contains(text + "``", FENCE) }

  /** A JSON object alone in a fenced block, tagged `json` or not, is found whole,
      whatever follows the block. */
  lemma {:induction false} ExtractFindsFenced(before: string, tag: string, pad: string, v: Value, tail: string, after: string)
    requires IsValue(v) && v.Obj? && '{' !in pad && IsTag(tag)
    requires Unfenced(before) && Unfenced(pad + Text(v) + tail)
    ensures Extract(before + (FENCE + (tag + (pad + Text(v) + tail) + FENCE)) + after) == Ok(Text(v))
  {
    var core := FENCE + (tag + (pad + Text(v) + tail) + FENCE);
    assert core[0] == '`' && core[|core| - 1] == '`';
    var i, j := Strings.TrimKeepsCore(before, core, after, Strings.IsJsSpace);
    ObjectText(v);
    LaterUnfenced(before, i);
    var k := FenceFinds(before[i..], tag, pad, Text(v), tail, after[..j]);
    ExtractInside(before + core + after, before[i..] + core + after[..j]);
    assert forall c :: c in pad[k..] ==> c in pad;
    NotContained(pad[k..] + Text(v) + tail, "``");
    ExtractFindsObject(pad[k..], v, tail);
  }

  lemma LaterUnfenced(text: string, i: nat)
    requires Unfenced(text) && i <= |text|
    ensures Unfenced(text[i..])
  {
    assert text[..i] + (text[i..] + "``") + "" == text + "``";
    if Contains(text[i..] + "``", FENCE) {
      PartContains(text[..i], text[i..] + "``", "", FENCE);
    }
  }

  lemma NotContained(text: string, after: string)
    requires !Contains(text + after, FENCE)
    ensures !Contains(text, FENCE)
  {
    assert "" + text + after == text + after;
    if Contains(text, FENCE) {
      PartContains("", text, after, FENCE);
    }
  }

  lemma {:induction false} FirstFence(before: string, rest: string)
    requires Unfenced(before)
    ensures IndexOf(before + (FENCE + rest), FENCE) == Some(|before|)
  {
    var s := before + (FENCE + rest);
    if before == [] {
      assert s == FENCE + rest;
      assert FENCE <= s;
    } else {
      assert (before + "``")[0..3] == s[0..3];
      assert !OccursAt(before + "``", FENCE, 0);
      assert s[1..] == before[1..] + (FENCE + rest);
      LaterUnfenced(before, 1);
      FirstFence(before[1..], rest);
    }
  }

  lemma FenceFinds(before: string, tag: string, pad: string, object': string, tail: string, after: string) returns (k: nat)
    requires object' != [] && object'[0] == '{' && IsTag(tag)
    requires Unfenced(before) && Unfenced(pad + object' + tail)
    ensures k <= |pad| && Unfenced(pad[k..] + object' + tail)
    ensures Fenced(before + (FENCE + (tag + (pad + object' + tail) + FENCE)) + after) == Some(pad[k..] + object' + tail)
  {
    var rest := object' + tail + (FENCE + after);
    var m := SkipTagStops(tag, pad, rest);
    var n := TrimStops(pad[m..], rest, Strings.IsJsSpace);
    k := m + n;
    assert pad[m..][n..] == pad[k..];
    LaterUnfenced(pad + object' + tail, k);
    assert (pad + object' + tail)[k..] == pad[k..] + object' + tail;
    Regroup(before, tag, pad, object', tail, after);
    Regroup2(pad[k..], object', tail, after);
    FencedBy(before, tag + (pad + rest), pad[k..] + object' + tail, after);
  }

  lemma Regroup(before: string, tag: string, pad: string, object': string, tail: string, after: string)
    ensures before + (FENCE + (tag + (pad + object' + tail) + FENCE)) + after
            == before + (FENCE + (tag + (pad + (object' + tail + (FENCE + after)))))
  {}

  lemma Regroup2(pad: string, object': string, tail: string, after: string)
    ensures pad + (object' + tail + (FENCE + after)) == (pad + object' + tail) + (FENCE + after)
  {}

  lemma FencedBy(before: string, rest: string, content: string, after: string)
    requires Unfenced(before) && Unfenced(content)
    requires Strings.TrimStart(SkipTag(rest), Strings.IsJsSpace) == content + (FENCE + after)
    ensures Fenced(before + (FENCE + rest)) == Some(content)
  {
    FirstFence(before, rest);
    FirstFence(content, after);
    assert (before + (FENCE + rest))[|before| + 3..] == rest;
    FencedAt(before + (FENCE + rest), |before|, content + (FENCE + after), |content|);
    assert (content + (FENCE + after))[..|content|] == content;
  }

  lemma {:induction false} FencedAt(s: string, open: nat, inside: string, close: nat)
    requires IndexOf(s, FENCE) == Some(open) && IndexOf(inside, FENCE) == Some(close)
    requires open + 3 <= |s| && Strings.TrimStart(SkipTag(s[open + 3..]), Strings.IsJsSpace) == inside
    ensures Fenced(s) == Some(inside[..close])
  {
    hide IndexOf, SkipTag, Strings.TrimStart;
  }

  /** Neither the tag nor the trimming reaches past the opening brace. */
  lemma SkipTagStops(tag: string, pad: string, rest: string) returns (m: nat)
    requires rest != [] && rest[0] == '{' && IsTag(tag)
    ensures m <= |pad| && SkipTag(tag + (pad + rest)) == pad[m..] + rest
  {
    var s := pad + rest;
    assert s[|pad|] == '{';
    if tag != "" {
      m := 0;
      assert forall i :: 0 <= i < 4 ==> (tag + s)[i] == tag[i];
      assert (tag + s)[4..] == s;
    } else {
      assert tag + s == s;
      m := |s| - |SkipTag(s)|;
      assert s[m..] == pad[m..] + rest;
    }
  }

  lemma {:induction false} TrimStops(pad: string, rest: string, space: char -> bool) returns (n: nat)
    requires rest != [] && !space(rest[0])
    ensures n <= |pad| && Strings.TrimStart(pad + rest, space) == pad[n..] + rest
  {
    if pad == [] || !space(pad[0]) {
      n := 0;
      assert (pad + rest)[0] == if pad == [] then rest[0] else pad[0];
    } else {
      assert (pad + rest)[1..] == pad[1..] + rest;
      var k := TrimStops(pad[1..], rest, space);
      n := k + 1;
      assert pad[1..][k..] == pad[n..];
    }
  }
}
