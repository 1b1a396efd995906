/** JSON values and their canonical text: object keys sorted at every level, no
    whitespace (`canonical_json`, `write_canonical`), and the identity of a tool
    call built from it (`CallKey`). */
module CanonicalJson {

  /** A parsed JSON value. A number is the text it prints as; an object keeps
      its entries in the order the parser met them. */
  datatype Json =
    | Null
    | Bool(b: bool)
    | Num(text: string)
    | Str(s: string)
    | Arr(items: seq<Json>)
    | Obj(entries: seq<Entry>)

  datatype Entry = Entry(key: string, value: Json)

  /** What a JSON value means once the order of object keys is forgotten. */
  datatype Value =
    | NullValue
    | BoolValue(b: bool)
    | NumValue(text: string)
    | StrValue(s: string)
    | ArrValue(items: seq<Value>)
    | ObjValue(fields: map<string, Value>)

  predicate IsNumberChar(c: char) { '0' <= c <= '9' || c in "+-.eE" }

  predicate DistinctKeys(entries: seq<Entry>) {
    forall i, j :: 0 <= i < j < |entries| ==> entries[i].key != entries[j].key
  }

  /** Numbers print as number tokens and no object repeats a key. */
  predicate Valid(v: Json) {
    match v
    case Num(text) => text != [] && forall c :: c in text ==> IsNumberChar(c)
    case Arr(items) => forall i :: 0 <= i < |items| ==> Valid(items[i])
    case Obj(entries) => DistinctKeys(entries) && forall i :: 0 <= i < |entries| ==> Valid(entries[i].value)
    case _ => true
  }

  function Meaning(v: Json): Value
    decreases v, 1
  {
    match v
    case Null => NullValue
    case Bool(b) => BoolValue(b)
    case Num(text) => NumValue(text)
    case Str(s) => StrValue(s)
    case Arr(items) => ArrValue(Meanings(items))
    case Obj(entries) => ObjValue(Fields(entries))
  }

  function Meanings(items: seq<Json>): seq<Value>
    decreases items, 0
  {
    if items == [] then [] else [Meaning(items[0])] + Meanings(items[1..])
  }

  function Fields(entries: seq<Entry>): map<string, Value>
    decreases entries, 0
  {
    if entries == [] then map[] else Fields(entries[1..])[entries[0].key := Meaning(entries[0].value)]
  }

  // ----- key order -----

  predicate KeyBefore(a: string, b: string) {
    b != [] && (a == [] || a[0] < b[0] || (a[0] == b[0] && KeyBefore(a[1..], b[1..])))
  }

  lemma {:induction false} KeysAreOrdered(a: string, b: string)
    ensures KeyBefore(a, b) || a == b || KeyBefore(b, a)
    ensures !(KeyBefore(a, b) && KeyBefore(b, a))
    ensures !KeyBefore(a, a)
  {
    if a != [] && b != [] {
      KeysAreOrdered(a[1..], b[1..]);
      KeysAreOrdered(a[1..], a[1..]);
      assert a == [a[0]] + a[1..] && b == [b[0]] + b[1..];
    } else if a != [] {
      KeysAreOrdered(a[1..], []);
    }
  }

  lemma {:induction false} KeyBeforeTransitive(a: string, b: string, c: string)
    requires KeyBefore(a, b) && KeyBefore(b, c)
    ensures KeyBefore(a, c)
  {
    if a != [] && a[0] == b[0] == c[0] {
      KeyBeforeTransitive(a[1..], b[1..], c[1..]);
    }
  }

  predicate Increasing(entries: seq<Entry>) {
    forall i, j :: 0 <= i < j < |entries| ==> KeyBefore(entries[i].key, entries[j].key)
  }

  function InsertEntry(e: Entry, entries: seq<Entry>): seq<Entry> {
    if entries == [] || !KeyBefore(entries[0].key, e.key) then [e] + entries
    else [entries[0]] + InsertEntry(e, entries[1..])
  }

  function SortEntries(entries: seq<Entry>): seq<Entry> {
    if entries == [] then [] else InsertEntry(entries[0], SortEntries(entries[1..]))
  }

  lemma {:induction false} InsertEntryElements(e: Entry, entries: seq<Entry>)
    ensures forall x :: x in InsertEntry(e, entries) <==> x == e || x in entries
  {
    if entries != [] && KeyBefore(entries[0].key, e.key) {
      InsertEntryElements(e, entries[1..]);
      assert entries == [entries[0]] + entries[1..];
    }
  }

  lemma {:induction false} InsertEntryIncreases(e: Entry, entries: seq<Entry>)
    requires Increasing(entries) && forall x :: x in entries ==> x.key != e.key
    ensures Increasing(InsertEntry(e, entries))
  {
    if entries == [] {
    } else if !KeyBefore(entries[0].key, e.key) {
      forall i | 0 <= i < |entries| ensures KeyBefore(e.key, entries[i].key) {
        assert entries[0] in entries;
        KeysAreOrdered(e.key, entries[0].key);
        if i > 0 {
          KeyBeforeTransitive(e.key, entries[0].key, entries[i].key);
        }
      }
    } else {
      InsertEntryIncreases(e, entries[1..]);
      InsertEntryElements(e, entries[1..]);
      var rest := InsertEntry(e, entries[1..]);
      forall i | 0 <= i < |rest| ensures KeyBefore(entries[0].key, rest[i].key) {
        assert rest[i] in rest;
        if rest[i] != e {
          var j :| 0 <= j < |entries[1..]| && entries[1..][j] == rest[i];
          assert entries[j + 1] == rest[i];
        }
      }
    }
  }

  lemma {:induction false} SortEntriesSorts(entries: seq<Entry>)
    ensures forall x :: x in SortEntries(entries) <==> x in entries
    ensures DistinctKeys(entries) ==> Increasing(SortEntries(entries))
  {
    if entries != [] {
      SortEntriesSorts(entries[1..]);
      InsertEntryElements(entries[0], SortEntries(entries[1..]));
      assert entries == [entries[0]] + entries[1..];
      if DistinctKeys(entries) {
        forall x | x in SortEntries(entries[1..]) ensures x.key != entries[0].key {
          var j :| 0 <= j < |entries[1..]| && entries[1..][j] == x;
          assert entries[j + 1] == x;
        }
        InsertEntryIncreases(entries[0], SortEntries(entries[1..]));
      }
    }
  }

  // ----- printing -----

  function HexDigit(n: nat): char
    requires n < 16
  {
    "0123456789abcdef"[n]
  }

  function EscapeChar(c: char): (s: string)
    ensures s != []
  {
    if c == '\"' then "\\\""
    else if c == '\\' then "\\\\"
    else if c == '\n' then "\\n"
    else if c == '\r' then "\\r"
    else if c == '\t' then "\\t"
    else if c == '\U{8}' then "\\b"
    else if c == '\U{c}' then "\\f"
    else if c < ' ' then "\\u00" + [HexDigit(c as int / 16), HexDigit(c as int % 16)]
    else [c]
  }

  function Escape(s: string): string {
    if s == [] then [] else EscapeChar(s[0]) + Escape(s[1..])
  }

  function Quote(s: string): string { "\"" + Escape(s) + "\"" }

  /** The value as compact JSON, entries in the order they stand. */
  function Print(v: Json): string
    decreases v, 1
  {
    match v
    case Null => "null"
    case Bool(b) => if b then "true" else "false"
    case Num(text) => text
    case Str(s) => Quote(s)
    case Arr(items) => "[" + PrintItems(items, false)
    case Obj(entries) => "{" + PrintEntries(entries, false)
  }

  function Separator(separated: bool): string { if separated then "," else "" }

  /** The rest of an array's text, closing bracket included. */
  function PrintItems(items: seq<Json>, separated: bool): string
    decreases items, 0
  {
    if items == [] then "]"
    else Separator(separated) + (Print(items[0]) + PrintItems(items[1..], true))
  }

  /** The rest of an object's text, closing bracket included. */
  function PrintEntries(entries: seq<Entry>, separated: bool): string
    decreases entries, 0
  {
    if entries == [] then "}"
    else Separator(separated) + (Quote(entries[0].key) + (":" + (Print(entries[0].value) + PrintEntries(entries[1..], true))))
  }

  /** Object entries sorted at every level. */
  function Normalize(v: Json): Json
    decreases v, 1
  {
    match v
    case Arr(items) => Arr(NormalizeItems(items))
    case Obj(entries) => Obj(SortEntries(NormalizeEntries(entries)))
    case _ => v
  }

  function NormalizeItems(items: seq<Json>): (r: seq<Json>)
    decreases items, 0
  {
    if items == [] then [] else [Normalize(items[0])] + NormalizeItems(items[1..])
  }

  function NormalizeEntries(entries: seq<Entry>): seq<Entry>
    decreases entries, 0
  {
    if entries == [] then [] else [Entry(entries[0].key, Normalize(entries[0].value))] + NormalizeEntries(entries[1..])
  }

  function Canonical(v: Json): string { Print(Normalize(v)) }

  // ----- printing loses nothing -----

  /** Text that cannot continue a number. */
  predicate EndsNumber(rest: string) { rest == [] || !IsNumberChar(rest[0]) }

  lemma EscapeCharPrefixFree(c: char, x: string, d: char, y: string)
    requires EscapeChar(c) + x == EscapeChar(d) + y
    ensures c == d && x == y
  {
    var e, f := EscapeChar(c), EscapeChar(d);
    assert (e + x)[0] == e[0] && (f + y)[0] == f[0];
    if e[0] == '\\' {
      assert (e + x)[1] == e[1] && (f + y)[1] == f[1];
      if e[1] == 'u' {
        assert (e + x)[4] == e[4] && (e + x)[5] == e[5];
        assert (f + y)[4] == f[4] && (f + y)[5] == f[5];
        HexDigitInjective(c as int / 16, d as int / 16);
        HexDigitInjective(c as int % 16, d as int % 16);
      }
    }
    assert e == f && x == (e + x)[|e|..] && y == (f + y)[|f|..];
  }

  lemma HexDigitInjective(m: nat, n: nat)
    requires m < 16 && n < 16
    ensures HexDigit(m) == HexDigit(n) ==> m == n
  {}

  lemma Shift(a: string, b: string, c: string)
    ensures (a + b) + c == a + (b + c)
  {}

  lemma SameTail(p: string, x: string, y: string)
    requires p + x == p + y
    ensures x == y
  {
    assert x == (p + x)[|p|..] && y == (p + y)[|p|..];
  }

  /** What follows an opening quote. */
  function Quoted(s: string, rest: string): string { Escape(s) + ("\"" + rest) }

  lemma QuotedStep(s: string, rest: string)
    ensures s == [] ==> Quoted(s, rest) == "\"" + rest
    ensures s != [] ==> Quoted(s, rest) == EscapeChar(s[0]) + Quoted(s[1..], rest)
    ensures s != [] ==> Quoted(s, rest)[0] != '\"'
  {
    if s != [] {
      Shift(EscapeChar(s[0]), Escape(s[1..]), "\"" + rest);
    }
  }

  lemma QuoteIsQuoted(s: string, rest: string)
    ensures Quote(s) + rest == "\"" + Quoted(s, rest)
  {
    Shift("\"", Escape(s), "\"");
    Shift("\"", Escape(s) + "\"", rest);
    Shift(Escape(s), "\"", rest);
  }

  /** The closing quote of a string is found where the string ends. */
  lemma {:induction false} QuotedPrefixFree(s: string, x: string, t: string, y: string)
    requires Quoted(s, x) == Quoted(t, y)
    ensures s == t && x == y
  {
    QuotedStep(s, x);
    QuotedStep(t, y);
    if s != [] && t != [] {
      EscapeCharPrefixFree(s[0], Quoted(s[1..], x), t[0], Quoted(t[1..], y));
      QuotedPrefixFree(s[1..], x, t[1..], y);
    } else if s == [] && t == [] {
      assert x == Quoted(s, x)[1..] && y == Quoted(t, y)[1..];
    }
  }

  /** Everything a value's text can begin with; never a separator or a closing bracket. */
  lemma {:induction false} PrintStarts(v: Json, rest: string)
    requires Valid(v)
    ensures Print(v) != [] && (Print(v) + rest)[0] == Print(v)[0]
    ensures var c := Print(v)[0];
            match v
            case Null => c == 'n'
            case Bool(b) => c == if b then 't' else 'f'
            case Num(_) => IsNumberChar(c)
            case Str(_) => c == '\"'
            case Arr(_) => c == '['
            case Obj(_) => c == '{'
  {
    if v.Num? {
      assert v.text[0] in v.text;
    }
  }

  lemma {:induction false} NumberPrefixFree(a: string, x: string, b: string, y: string)
    requires (forall c :: c in a ==> IsNumberChar(c)) && (forall c :: c in b ==> IsNumberChar(c))
    requires EndsNumber(x) && EndsNumber(y) && a + x == b + y
    ensures a == b && x == y
  {
    assert if a == [] then a + x == x else (a + x)[0] == a[0] && a[0] in a;
    assert if b == [] then b + y == y else (b + y)[0] == b[0] && b[0] in b;
    if a != [] && b != [] {
      assert (a + x)[1..] == a[1..] + x && (b + y)[1..] == b[1..] + y;
      NumberPrefixFree(a[1..], x, b[1..], y);
    }
  }

  lemma {:induction false} ItemsStep(items: seq<Json>, separated: bool, rest: string)
    requires forall i :: 0 <= i < |items| ==> Valid(items[i])
    ensures items == [] ==> PrintItems(items, separated) + rest == "]" + rest
    ensures items != [] ==>
              PrintItems(items, separated) + rest == Separator(separated) + (Print(items[0]) + (PrintItems(items[1..], true) + rest))
    ensures separated ==> EndsNumber(PrintItems(items, separated) + rest)
    ensures items != [] ==> (PrintItems(items, separated) + rest)[0] != ']'
  {
    if items != [] {
      var tail := PrintItems(items[1..], true);
      Shift(Separator(separated), Print(items[0]) + tail, rest);
      Shift(Print(items[0]), tail, rest);
      PrintStarts(items[0], tail + rest);
    }
  }

  lemma {:induction false} EntriesStep(entries: seq<Entry>, separated: bool, rest: string)
    ensures entries == [] ==> PrintEntries(entries, separated) + rest == "}" + rest
    ensures entries != [] ==>
              PrintEntries(entries, separated) + rest == Separator(separated)
              + ("\"" + Quoted(entries[0].key, ":" + (Print(entries[0].value) + (PrintEntries(entries[1..], true) + rest))))
    ensures separated ==> EndsNumber(PrintEntries(entries, separated) + rest)
    ensures entries != [] ==> (PrintEntries(entries, separated) + rest)[0] != '}'
  {
    if entries != [] {
      var key, value, tail := Quote(entries[0].key), Print(entries[0].value), PrintEntries(entries[1..], true);
      Shift(Separator(separated), key + (":" + (value + tail)), rest);
      Shift(key, ":" + (value + tail), rest);
      Shift(":", value + tail, rest);
      Shift(value, tail, rest);
      QuoteIsQuoted(entries[0].key, ":" + (value + (tail + rest)));
    }
  }

  /** Two values whose texts begin the same text are the same value. */
  lemma {:induction false} PrintPrefixFree(a: Json, x: string, b: Json, y: string)
    requires Valid(a) && Valid(b) && EndsNumber(x) && EndsNumber(y)
    requires Print(a) + x == Print(b) + y
    ensures a == b && x == y
    decreases a, 1
  {
    PrintStarts(a, x);
    PrintStarts(b, y);
    match a {
      case Num(text) => NumberPrefixFree(text, x, b.text, y);
      case Str(s) =>
        QuoteIsQuoted(s, x);
        QuoteIsQuoted(b.s, y);
        SameTail("\"", Quoted(s, x), Quoted(b.s, y));
        QuotedPrefixFree(s, x, b.s, y);
      case Arr(items) =>
        Shift("[", PrintItems(items, false), x);
        Shift("[", PrintItems(b.items, false), y);
        SameTail("[", PrintItems(items, false) + x, PrintItems(b.items, false) + y);
        ItemsPrefixFree(items, x, b.items, y, false);
      case Obj(entries) =>
        Shift("{", PrintEntries(entries, false), x);
        Shift("{", PrintEntries(b.entries, false), y);
        SameTail("{", PrintEntries(entries, false) + x, PrintEntries(b.entries, false) + y);
        EntriesPrefixFree(entries, x, b.entries, y, false);
      case _ =>
        SameTail(Print(a), x, y);
    }
  }

  lemma {:induction false} ItemsPrefixFree(a: seq<Json>, x: string, b: seq<Json>, y: string, separated: bool)
    requires forall i :: 0 <= i < |a| ==> Valid(a[i])
    requires forall i :: 0 <= i < |b| ==> Valid(b[i])
    requires PrintItems(a, separated) + x == PrintItems(b, separated) + y
    ensures a == b && x == y
    decreases a, 0
  {
    ItemsStep(a, separated, x);
    ItemsStep(b, separated, y);
    if a == [] && b == [] {
      SameTail("]", x, y);
    } else if a != [] && b != [] {
      var l, r := PrintItems(a[1..], true) + x, PrintItems(b[1..], true) + y;
      ItemsStep(a[1..], true, x);
      ItemsStep(b[1..], true, y);
      SameTail(Separator(separated), Print(a[0]) + l, Print(b[0]) + r);
      PrintPrefixFree(a[0], l, b[0], r);
      ItemsPrefixFree(a[1..], x, b[1..], y, true);
      assert a == [a[0]] + a[1..] && b == [b[0]] + b[1..];
    }
  }

  lemma {:induction false} EntriesPrefixFree(a: seq<Entry>, x: string, b: seq<Entry>, y: string, separated: bool)
    requires forall i :: 0 <= i < |a| ==> Valid(a[i].value)
    requires forall i :: 0 <= i < |b| ==> Valid(b[i].value)
    requires PrintEntries(a, separated) + x == PrintEntries(b, separated) + y
    ensures a == b && x == y
    decreases a, 0
  {
    EntriesStep(a, separated, x);
    EntriesStep(b, separated, y);
    if a == [] && b == [] {
      SameTail("}", x, y);
    } else if a != [] && b != [] {
      var l, r := PrintEntries(a[1..], true) + x, PrintEntries(b[1..], true) + y;
      EntriesStep(a[1..], true, x);
      EntriesStep(b[1..], true, y);
      var l', r' := ":" + (Print(a[0].value) + l), ":" + (Print(b[0].value) + r);
      SameTail(Separator(separated), "\"" + Quoted(a[0].key, l'), "\"" + Quoted(b[0].key, r'));
      SameTail("\"", Quoted(a[0].key, l'), Quoted(b[0].key, r'));
      QuotedPrefixFree(a[0].key, l', b[0].key, r');
      SameTail(":", Print(a[0].value) + l, Print(b[0].value) + r);
      PrintPrefixFree(a[0].value, l, b[0].value, r);
      EntriesPrefixFree(a[1..], x, b[1..], y, true);
      assert a == [a[0]] + a[1..] && b == [b[0]] + b[1..];
    }
  }

  // ----- normal forms -----

  predicate IsNormal(v: Json) {
    match v
    case Arr(items) => forall i :: 0 <= i < |items| ==> IsNormal(items[i])
    case Obj(entries) => Increasing(entries) && forall i :: 0 <= i < |entries| ==> IsNormal(entries[i].value)
    case _ => true
  }

  /** Every key has its field, with its own value when no key is repeated. */
  lemma {:induction false} FieldAt(entries: seq<Entry>, i: nat)
    requires i < |entries|
    ensures entries[i].key in Fields(entries)
    ensures DistinctKeys(entries) ==> Fields(entries)[entries[i].key] == Meaning(entries[i].value)
  {
    if i > 0 {
      FieldAt(entries[1..], i - 1);
    }
  }

  lemma {:induction false} KeyAt(entries: seq<Entry>, key: string) returns (i: nat)
    requires key in Fields(entries)
    ensures i < |entries| && entries[i].key == key
  {
    i := 0;
    if entries[0].key != key {
      i := KeyAt(entries[1..], key);
      i := i + 1;
    }
  }

  /** Reordering entries with distinct keys leaves their fields alone. */
  lemma {:induction false} SameEntriesSameFields(a: seq<Entry>, b: seq<Entry>)
    requires DistinctKeys(a) && DistinctKeys(b) && forall e :: e in a <==> e in b
    ensures Fields(a) == Fields(b)
  {
    forall k | k in Fields(a) ensures k in Fields(b) && Fields(b)[k] == Fields(a)[k] {
      FieldIn(a, b, k);
    }
    forall k | k in Fields(b) ensures k in Fields(a) {
      FieldIn(b, a, k);
    }
  }

  lemma {:induction false} FieldIn(a: seq<Entry>, b: seq<Entry>, key: string)
    requires DistinctKeys(a) && DistinctKeys(b) && key in Fields(a) && forall e :: e in a ==> e in b
    ensures key in Fields(b) && Fields(b)[key] == Fields(a)[key]
  {
    var i := KeyAt(a, key);
    assert a[i] in a;
    var j :| 0 <= j < |b| && b[j] == a[i];
    FieldAt(a, i);
    FieldAt(b, j);
  }

  lemma IncreasingIsDistinct(entries: seq<Entry>)
    requires Increasing(entries)
    ensures DistinctKeys(entries)
  {
    forall i, j | 0 <= i < j < |entries| ensures entries[i].key != entries[j].key {
      KeysAreOrdered(entries[i].key, entries[j].key);
    }
  }

  /** Normalizing reorders entries and changes nothing else. */
  lemma {:induction false} NormalizeKeepsMeaning(v: Json)
    requires Valid(v)
    ensures Valid(Normalize(v)) && IsNormal(Normalize(v))
    ensures Meaning(Normalize(v)) == Meaning(v)
    decreases v, 1
  {
    match v {
      case Arr(items) => NormalizeItemsKeepsMeaning(items);
      case Obj(entries) =>
        NormalizeEntriesKeepsMeaning(entries);
        var normal := NormalizeEntries(entries);
        var sorted := SortEntries(normal);
        SortEntriesSorts(normal);
        IncreasingIsDistinct(sorted);
        SameEntriesSameFields(normal, sorted);
        forall i | 0 <= i < |sorted| ensures Valid(sorted[i].value) && IsNormal(sorted[i].value) {
          assert sorted[i] in sorted;
        }
      case _ =>
    }
  }

  lemma {:induction false} NormalizeItemsKeepsMeaning(items: seq<Json>)
    requires forall i :: 0 <= i < |items| ==> Valid(items[i])
    ensures forall i :: 0 <= i < |NormalizeItems(items)| ==> Valid(NormalizeItems(items)[i]) && IsNormal(NormalizeItems(items)[i])
    ensures Meanings(NormalizeItems(items)) == Meanings(items)
    decreases items, 0
  {
    if items != [] {
      NormalizeKeepsMeaning(items[0]);
      NormalizeItemsKeepsMeaning(items[1..]);
      assert NormalizeItems(items)[1..] == NormalizeItems(items[1..]);
    }
  }

  lemma {:induction false} NormalizeEntriesKeepsMeaning(entries: seq<Entry>)
    requires DistinctKeys(entries) && forall i :: 0 <= i < |entries| ==> Valid(entries[i].value)
    ensures var normal := NormalizeEntries(entries);
            && |normal| == |entries| && Fields(normal) == Fields(entries) && DistinctKeys(normal)
            && forall i :: 0 <= i < |normal| ==>
                 normal[i].key == entries[i].key && Valid(normal[i].value) && IsNormal(normal[i].value)
    decreases entries, 0
  {
    if entries != [] {
      NormalizeKeepsMeaning(entries[0].value);
      NormalizeEntriesKeepsMeaning(entries[1..]);
      assert NormalizeEntries(entries)[1..] == NormalizeEntries(entries[1..]);
    }
  }

  /** Values in normal form that mean the same are the same. */
  lemma {:induction false} NormalFormIsUnique(a: Json, b: Json)
    requires IsNormal(a) && IsNormal(b) && Meaning(a) == Meaning(b)
    ensures a == b
    decreases a, 1
  {
    match a {
      case Arr(items) => NormalItemsUnique(items, b.items);
      case Obj(entries) => NormalEntriesUnique(entries, b.entries);
      case _ =>
    }
  }

  lemma {:induction false} NormalItemsUnique(a: seq<Json>, b: seq<Json>)
    requires forall i :: 0 <= i < |a| ==> IsNormal(a[i])
    requires forall i :: 0 <= i < |b| ==> IsNormal(b[i])
    requires Meanings(a) == Meanings(b)
    ensures a == b
    decreases a, 0
  {
    if a != [] && b != [] {
      assert Meanings(a)[0] == Meanings(b)[0] && Meanings(a)[1..] == Meanings(b)[1..];
      NormalFormIsUnique(a[0], b[0]);
      NormalItemsUnique(a[1..], b[1..]);
      assert a == [a[0]] + a[1..] && b == [b[0]] + b[1..];
    }
  }

  lemma {:induction false} NormalEntriesUnique(a: seq<Entry>, b: seq<Entry>)
    requires Increasing(a) && forall i :: 0 <= i < |a| ==> IsNormal(a[i].value)
    requires Increasing(b) && forall i :: 0 <= i < |b| ==> IsNormal(b[i].value)
    requires Fields(a) == Fields(b)
    ensures a == b
    decreases a, 0
  {
    assert a != [] ==> a[0].key in Fields(a);
    assert b != [] ==> b[0].key in Fields(b);
    if a != [] && b != [] {
      SameFieldsSameHead(a, b);
      NormalFormIsUnique(a[0].value, b[0].value);
      IncreasingIsDistinct(a);
      IncreasingIsDistinct(b);
      FieldsOfRest(a);
      FieldsOfRest(b);
      NormalEntriesUnique(a[1..], b[1..]);
      assert a == [a[0]] + a[1..] && b == [b[0]] + b[1..];
    }
  }

  lemma {:induction false} SameFieldsSameHead(a: seq<Entry>, b: seq<Entry>)
    requires a != [] && b != [] && Increasing(a) && Increasing(b) && Fields(a) == Fields(b)
    ensures a[0].key == b[0].key && Meaning(a[0].value) == Meaning(b[0].value)
  {
    assert a[0].key in Fields(a) && b[0].key in Fields(b);
    FirstKeyIsLeast(a, b[0].key);
    FirstKeyIsLeast(b, a[0].key);
    KeysAreOrdered(a[0].key, b[0].key);
    assert Fields(a)[a[0].key] == Meaning(a[0].value) && Fields(b)[b[0].key] == Meaning(b[0].value);
  }

  lemma {:induction false} FirstKeyIsLeast(entries: seq<Entry>, key: string)
    requires entries != [] && Increasing(entries) && key in Fields(entries)
    ensures key == entries[0].key || KeyBefore(entries[0].key, key)
  {
    var i := KeyAt(entries, key);
  }

  lemma KeyNotInRest(entries: seq<Entry>)
    requires entries != [] && DistinctKeys(entries)
    ensures entries[0].key !in Fields(entries[1..])
  {
    if entries[0].key in Fields(entries[1..]) {
      var i := KeyAt(entries[1..], entries[0].key);
    }
  }

  lemma {:induction false} FieldsOfRest(entries: seq<Entry>)
    requires entries != [] && DistinctKeys(entries)
    ensures Fields(entries[1..]) == Fields(entries) - {entries[0].key}
  {
    KeyNotInRest(entries);
    var rest, key, value := Fields(entries[1..]), entries[0].key, Meaning(entries[0].value);
    assert Fields(entries) == rest[key := value];
    assert rest[key := value] - {key} == rest;
  }

  // ----- the canonical text -----

  /** Two values print to the same canonical text exactly when they are equal up
      to the order of object keys, at every level. */
  lemma {:induction false} CanonicalIffSameMeaning(a: Json, b: Json)
    requires Valid(a) && Valid(b)
    ensures Canonical(a) == Canonical(b) <==> Meaning(a) == Meaning(b)
  {
    NormalizeKeepsMeaning(a);
    NormalizeKeepsMeaning(b);
    if Meaning(a) == Meaning(b) {
      NormalFormIsUnique(Normalize(a), Normalize(b));
    }
    if Canonical(a) == Canonical(b) {
      assert Canonical(a) + "" == Canonical(a) && Canonical(b) + "" == Canonical(b);
      PrintPrefixFree(Normalize(a), "", Normalize(b), "");
    }
  }

  class Buffer {
    var text: string

    constructor ()
      ensures text == ""
    {
      text := "";
    }

    method Push(s: string)
      modifies this
      ensures text == old(text) + s
    {
      text := text + s;
    }
  }

  /** Sorting by key and normalizing the values commute. */
  lemma {:induction false} NormalizeSorted(entries: seq<Entry>)
    ensures NormalizeEntries(SortEntries(entries)) == SortEntries(NormalizeEntries(entries))
  {
    if entries != [] {
      NormalizeSorted(entries[1..]);
      NormalizeInserted(entries[0], SortEntries(entries[1..]));
      assert NormalizeEntries(entries)[1..] == NormalizeEntries(entries[1..]);
    }
  }

  lemma {:induction false} NormalizeInserted(e: Entry, entries: seq<Entry>)
    ensures NormalizeEntries(InsertEntry(e, entries)) == InsertEntry(Entry(e.key, Normalize(e.value)), NormalizeEntries(entries))
  {
    if entries != [] && KeyBefore(entries[0].key, e.key) {
      NormalizeInserted(e, entries[1..]);
      assert InsertEntry(e, entries)[1..] == InsertEntry(e, entries[1..]);
      assert NormalizeEntries(entries)[1..] == NormalizeEntries(entries[1..]);
    } else {
      assert ([e] + entries)[1..] == entries;
    }
  }

  lemma ItemWritten(t: string, separated: bool, v: string, rest: string)
    ensures (if separated then t + "," else t) + v + rest == t + (Separator(separated) + (v + rest))
  {
    var t' := if separated then t + "," else t;
    assert t' == t + Separator(separated);
    Shift(t', v, rest);
    Shift(t, Separator(separated), v + rest);
  }

  lemma EntryWritten(t: string, separated: bool, key: string, v: string, rest: string)
    ensures (if separated then t + "," else t) + key + ":" + v + rest == t + (Separator(separated) + (key + (":" + (v + rest))))
  {
    var t' := if separated then t + "," else t;
    Shift(t' + key + ":", v, rest);
    Shift(t' + key, ":", v + rest);
    ItemWritten(t, separated, key, ":" + (v + rest));
  }

  method WriteCanonical(value: Json, out: Buffer)
    modifies out
    ensures out.text == old(out.text) + Canonical(value)
    decreases value, 1
  {
    match value
    case Obj(entries) => WriteObject(entries, out);
    case Arr(items) => WriteArray(items, out);
    case other => out.Push(Print(other));
  }

  /** What is left to write at an entry, and behind the last one. */
  lemma {:induction false} LeftToWrite(sorted: seq<Entry>, i: nat, separated: bool)
    requires i <= |sorted|
    ensures PrintEntries(NormalizeEntries(sorted[i..]), separated) ==
            if i == |sorted| then "}"
            else
              var rest := PrintEntries(NormalizeEntries(sorted[i + 1..]), true);
              Separator(separated) + (Quote(sorted[i].key) + (":" + (Canonical(sorted[i].value) + rest)))
  {
    if i < |sorted| {
      assert sorted[i..][1..] == sorted[i + 1..];
      assert NormalizeEntries(sorted[i..])[1..] == NormalizeEntries(sorted[i + 1..]);
    }
  }

  method WriteObject(entries: seq<Entry>, out: Buffer)
    modifies out
    ensures out.text == old(out.text) + Canonical(Obj(entries))
    decreases entries, 0
  {
    var sorted := SortEntries(entries);
    SortEntriesSorts(entries);
    NormalizeSorted(entries);
    out.Push("{");
    ghost var before, all := out.text, PrintEntries(NormalizeEntries(sorted), false);
    var i := 0;
    assert sorted[0..] == sorted;
    while i < |sorted|
      invariant i <= |sorted|
      invariant out.text + PrintEntries(NormalizeEntries(sorted[i..]), i > 0) == before + all
    {
      var entry := sorted[i];
      assert entry in entries;
      LeftToWrite(sorted, i, i > 0);
      ghost var rest := PrintEntries(NormalizeEntries(sorted[i + 1..]), true);
      EntryWritten(out.text, i > 0, Quote(entry.key), Canonical(entry.value), rest);
      WriteEntry(entry, i > 0, out);
      i := i + 1;
    }
    LeftToWrite(sorted, i, i > 0);
    out.Push("}");
    Shift(old(out.text), "{", all);
  }

  method WriteEntry(entry: Entry, separated: bool, out: Buffer)
    modifies out
    ensures out.text == (if separated then old(out.text) + "," else old(out.text)) + Quote(entry.key) + ":" + Canonical(entry.value)
    decreases entry, 2
  {
    if separated {
      out.Push(",");
    }
    out.Push(Quote(entry.key));
    out.Push(":");
    WriteCanonical(entry.value, out);
  }

  method WriteArray(items: seq<Json>, out: Buffer)
    modifies out
    ensures out.text == old(out.text) + Canonical(Arr(items))
    decreases items, 0
  {
    out.Push("[");
    ghost var before, all := out.text, PrintItems(NormalizeItems(items), false);
    var i := 0;
    assert items[0..] == items;
    while i < |items|
      invariant i <= |items|
      invariant out.text + PrintItems(NormalizeItems(items[i..]), i > 0) == before + all
    {
      assert items[i..][1..] == items[i + 1..];
      ghost var rest := PrintItems(NormalizeItems(items[i + 1..]), true);
      ItemWritten(out.text, i > 0, Canonical(items[i]), rest);
      if i > 0 {
        out.Push(",");
      }
      WriteCanonical(items[i], out);
      i := i + 1;
    }
    out.Push("]");
    Shift(old(out.text), "[", all);
  }

  method CanonicalJson(value: Json) returns (text: string)
    ensures text == Canonical(value)
  {
    var out := new Buffer();
    WriteCanonical(value, out);
    text := out.text;
  }
}
