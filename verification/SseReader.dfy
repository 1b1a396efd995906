/** The chunked `data:` line reader of the desktop client (`streamJsonSse`; the
    same loop stands in `streamChat` and `streamAgentRun`). */
module SseReader {
  import opened Wrappers
  import Strings

  const DONE: string := "[DONE]"

  function TrimJs(s: string): string { Strings.Trim(s, Strings.IsJsSpace) }

  /** Where the first newline stands, or the length. */
  function IndexOfNewline(s: string): (i: nat)
    ensures i <= |s| && (i < |s| ==> s[i] == '\n')
    ensures forall j :: 0 <= j < i ==> s[j] != '\n'
  {
    if s == [] || s[0] == '\n' then 0 else 1 + IndexOfNewline(s[1..])
  }

  // ----- the batch parse -----

  /** The newline-terminated lines of a text; what follows the last newline is
      not a line yet. */
  function Lines(text: string): seq<string> { LinesFrom("", text) }

  /** The same, with the start of the first line already read. */
  function LinesFrom(line: string, text: string): seq<string>
    decreases |text|
  {
    if text == [] then []
    else if text[0] == '\n' then [line] + LinesFrom("", text[1..])
    else LinesFrom(line + [text[0]], text[1..])
  }

  /** The payload of a `data:` line, trimmed. */
  function Data(line: string): Option<string> {
    var trimmed := TrimJs(line);
    if Strings.StartsWith(trimmed, "data:") then Some(TrimJs(trimmed[5..])) else None
  }

  /** A line is `data:` and a payload, with any spaces before, between and behind. */
  ghost predicate IsDataLine(line: string, payload: string) {
    exists rest :: Strings.IsTrimOf("data:" + rest, line, Strings.IsJsSpace) && Strings.IsTrimOf(payload, rest, Strings.IsJsSpace)
  }

  lemma DataIff(line: string, payload: string)
    ensures Data(line) == Some(payload) <==> IsDataLine(line, payload)
  {
    var trimmed := TrimJs(line);
    Strings.TrimIs(line, Strings.IsJsSpace);
    if Strings.StartsWith(trimmed, "data:") {
      assert "data:" + trimmed[5..] == trimmed;
      Strings.TrimIs(trimmed[5..], Strings.IsJsSpace);
    }
    if IsDataLine(line, payload) {
      var rest :| Strings.IsTrimOf("data:" + rest, line, Strings.IsJsSpace) && Strings.IsTrimOf(payload, rest, Strings.IsJsSpace);
      Strings.TrimIsOne("data:" + rest, trimmed, line, Strings.IsJsSpace);
      assert trimmed[5..] == rest;
      Strings.TrimIsOne(payload, TrimJs(rest), rest, Strings.IsJsSpace);
    }
  }

  function UntilDone(lines: seq<string>): seq<string> {
    if lines == [] || Data(lines[0]) == Some(DONE) then [] else [lines[0]] + UntilDone(lines[1..])
  }

  /** What the lines deliver: every payload that parses, in order. */
  function Payloads<T>(lines: seq<string>, parse: string -> Option<T>): seq<T> {
    if lines == [] then [] else Payload(lines[0], parse) + Payloads(lines[1..], parse)
  }

  /** One line's payload, when it has one that parses. */
  function Payload<T>(line: string, parse: string -> Option<T>): seq<T> {
    var data := Data(line);
    if data.Some? && parse(data.value).Some? then [parse(data.value).value] else []
  }

  function Batch<T>(text: string, parse: string -> Option<T>): seq<T> {
    Payloads(UntilDone(Lines(text)), parse)
  }

  function Concat(chunks: seq<string>): string {
    if chunks == [] then "" else chunks[0] + Concat(chunks[1..])
  }

  // ----- lines of a growing text -----

  /** Text without a newline only lengthens the line being read. */
  lemma {:induction false} ReadOn(line: string, part: string, rest: string)
    requires '\n' !in part
    ensures LinesFrom(line, part + rest) == LinesFrom(line + part, rest)
    decreases |part|
  {
    if part == [] {
      assert part + rest == rest && line + part == line;
    } else {
      assert part == [part[0]] + part[1..];
      assert (part + rest)[0] == part[0] && (part + rest)[1..] == part[1..] + rest;
      ReadOn(line + [part[0]], part[1..], rest);
      assert line + [part[0]] + part[1..] == line + part;
    }
  }

  /** A complete line stays what it is, whatever text follows. */
  lemma FirstLine(line: string, rest: string)
    requires '\n' !in line
    ensures Lines(line + ("\n" + rest)) == [line] + Lines(rest)
  {
    ReadOn("", line, "\n" + rest);
    assert "" + line == line;
    assert ("\n" + rest)[1..] == rest;
  }

  lemma {:induction false} LinesExtend(line: string, a: string, b: string)
    ensures LinesFrom(line, a) <= LinesFrom(line, a + b)
    decreases |a|
  {
    if a != [] {
      assert (a + b)[0] == a[0] && (a + b)[1..] == a[1..] + b;
      LinesExtend(if a[0] == '\n' then "" else line + [a[0]], a[1..], b);
    }
  }

  lemma {:induction false} UntilDoneExtends(a: seq<string>, b: seq<string>)
    requires a <= b
    ensures UntilDone(a) <= UntilDone(b)
  {
    if a != [] {
      assert a[0] == b[0] && a[1..] <= b[1..];
      UntilDoneExtends(a[1..], b[1..]);
      PrefixUnder([a[0]], UntilDone(a[1..]), UntilDone(b[1..]));
    }
  }

  lemma {:induction false} PayloadsExtend<T>(a: seq<string>, b: seq<string>, parse: string -> Option<T>)
    requires a <= b
    ensures Payloads(a, parse) <= Payloads(b, parse)
  {
    if a != [] {
      PayloadsExtend(a[1..], b[1..], parse);
      PrefixUnder(Payload(a[0], parse), Payloads(a[1..], parse), Payloads(b[1..], parse));
    }
  }

  lemma PrefixUnder<T>(x: seq<T>, a: seq<T>, b: seq<T>)
    requires a <= b
    ensures x + a <= x + b
  {}

  /** A complete line at the front delivers its payload and then the rest, unless
      it ends the stream. */
  lemma BatchStep<T>(line: string, rest: string, parse: string -> Option<T>)
    requires '\n' !in line
    ensures Batch(line + ("\n" + rest), parse) ==
            if Data(line) == Some(DONE) then [] else Payload(line, parse) + Batch(rest, parse)
  {
    FirstLine(line, rest);
    ListStep(line, Lines(rest), parse);
  }

  lemma {:induction false} ListStep<T>(line: string, lines: seq<string>, parse: string -> Option<T>)
    ensures Payloads(UntilDone([line] + lines), parse) ==
            if Data(line) == Some(DONE) then [] else Payload(line, parse) + Payloads(UntilDone(lines), parse)
  {
    var all, rest := [line] + lines, UntilDone(lines);
    assert all[0] == line && all[1..] == lines;
    if Data(line) != Some(DONE) {
      assert UntilDone(all) == [line] + rest;
      assert ([line] + rest)[1..] == rest;
    }
  }

  /** More text never takes back or reorders what was delivered. */
  lemma BatchExtends<T>(a: string, b: string, parse: string -> Option<T>)
    ensures Batch(a, parse) <= Batch(a + b, parse)
  {
    LinesExtend("", a, b);
    UntilDoneExtends(Lines(a), Lines(a + b));
    PayloadsExtend(UntilDone(Lines(a)), UntilDone(Lines(a + b)), parse);
  }

  lemma SplitAtNewline(buffer: string, nl: nat, later: string)
    requires nl < |buffer| && buffer[nl] == '\n'
    ensures buffer + later == buffer[..nl] + ("\n" + (buffer[nl + 1..] + later))
  {}

  /** Without a newline there is nothing to deliver yet. */
  lemma NoLine<T>(buffer: string, parse: string -> Option<T>)
    requires '\n' !in buffer
    ensures Batch(buffer, parse) == []
  {
    ReadOn("", buffer, "");
    assert buffer + "" == buffer;
  }

  // ----- the reader -----

  /** What is delivered is the batch parse of all the text, so it does not depend
      on how the text was cut into chunks. */
  method StreamJsonSse<T>(chunks: seq<string>, parse: string -> Option<T>) returns (events: seq<T>)
    ensures events == Batch(Concat(chunks), parse)
  {
    events := [];
    var buffer := "";
    var i := 0;
    ghost var all := Batch(Concat(chunks), parse);
    ghost var later := Concat(chunks);
    assert chunks[0..] == chunks && buffer + later == later;
    while i < |chunks|
      invariant i <= |chunks| && later == Concat(chunks[i..])
      invariant '\n' !in buffer
      invariant events + Batch(buffer + later, parse) == all
    {
      ConcatStep(buffer, chunks, i);
      later := Concat(chunks[i + 1..]);
      var done;
      events, buffer, done := ReadLines(events, buffer + chunks[i], later, all, parse);
      if done {
        return;
      }
      i := i + 1;
    }
    assert buffer + later == buffer;
    NoLine(buffer, parse);
  }

  lemma ConcatStep(buffer: string, chunks: seq<string>, i: nat)
    requires i < |chunks|
    ensures buffer + Concat(chunks[i..]) == (buffer + chunks[i]) + Concat(chunks[i + 1..])
  {
    assert chunks[i..][1..] == chunks[i + 1..];
  }

  /** The inner loop: every complete line of the buffer. */
  method ReadLines<T>(events: seq<T>, buffer: string, ghost later: string, ghost all: seq<T>, parse: string -> Option<T>)
    returns (events': seq<T>, buffer': string, done: bool)
    requires events + Batch(buffer + later, parse) == all
    ensures done ==> events' == all
    ensures !done ==> events' + Batch(buffer' + later, parse) == all && '\n' !in buffer'
  {
    events', buffer', done := events, buffer, false;
    ghost var left := Batch(buffer + later, parse);
    var nl := IndexOfNewline(buffer');
    while nl < |buffer'|
      invariant nl == IndexOfNewline(buffer')
      invariant left == Batch(buffer' + later, parse) && events' + left == all
      decreases |buffer'|
    {
      var line := buffer'[..nl];
      SplitAtNewline(buffer', nl, later);
      buffer' := buffer'[nl + 1..];
      nl := IndexOfNewline(buffer');
      BatchStep(line, buffer' + later, parse);
      var data := Data(line);
      if data == Some(DONE) {
        done := true;
        return;
      }
      left := Batch(buffer' + later, parse);
      Regroup(events', Payload(line, parse), left);
      if data.Some? {
        var parsed := parse(data.value);
        if parsed.Some? {
          events' := events' + [parsed.value];
        }
      }
    }
  }

  lemma Regroup<T>(a: seq<T>, b: seq<T>, c: seq<T>)
    ensures a + (b + c) == (a + b) + c && a + ([] + c) == a + c
  {}
}
