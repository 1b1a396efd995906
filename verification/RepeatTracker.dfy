/** The history of answered tool calls in one run, and when a call repeats
    itself (`CallKey`, `RepeatTracker`). */
module RepeatTracker {
  import opened Wrappers
  import opened CanonicalJson
  import Strings

  const REPEAT_THRESHOLD: nat := 3
  const APPROVAL_TIMEOUT_MESSAGE: string := "approval request timed out"

  // ----- call identity -----

  /** `Ok` holds canonical arguments, `Err` the trimmed text of arguments that
      are not JSON. */
  datatype CallKey = CallKey(name: string, arguments: Result<string, string>)

  function TrimText(s: string): string { Strings.Trim(s, Strings.IsRustSpace) }

  /** Blank arguments are an empty object; `parse` is the JSON parser. */
  function ParseArguments(parse: string -> Option<Json>, arguments: string): Option<Json> {
    if TrimText(arguments) == [] then Some(Obj([])) else parse(arguments)
  }

  function KeyOf(parse: string -> Option<Json>, name: string, arguments: string): CallKey {
    match ParseArguments(parse, arguments)
    case Some(args) => CallKey(name, Ok(Canonical(args)))
    case None => CallKey(name, Err(TrimText(arguments)))
  }

  /** Two calls share a key exactly when they name the same tool and either pass
      the same JSON arguments, key order aside, or the same text that is not JSON. */
  lemma SameKeyIff(parse: string -> Option<Json>, n: string, a: string, m: string, b: string)
    requires forall s :: parse(s).Some? ==> Valid(parse(s).value)
    ensures KeyOf(parse, n, a) == KeyOf(parse, m, b) <==>
            && n == m
            && match (ParseArguments(parse, a), ParseArguments(parse, b))
               case (Some(x), Some(y)) => Meaning(x) == Meaning(y)
               case (None, None) => TrimText(a) == TrimText(b)
               case _ => false
  {
    var x, y := ParseArguments(parse, a), ParseArguments(parse, b);
    if x.Some? && y.Some? {
      CanonicalIffSameMeaning(x.value, y.value);
    }
  }

  // ----- what the tracker sees of one answered call -----

  /** The parts of a visible result the tracker reads: whether it has a `skipped`
      field, whether `denied` is true, its `error` field (with the text it holds,
      when it holds one), and a fingerprint of the whole result. */
  datatype Visible = Visible(skipped: bool, denied: bool, error: Option<Option<string>>, fingerprint: nat)

  datatype Observation =
    | Ignored
    | Denied(key: CallKey, reason: string)
    | Failed(key: CallKey)
    | Changed(key: CallKey)
    | Read(key: CallKey, output: nat)

  /** How one answered call counts. `readOnly` is the registry's per-call effect,
      known only for arguments that parse. */
  function Classify(key: CallKey, readOnly: bool, visible: Visible): Observation {
    if visible.skipped then Ignored
    else if visible.denied then
      var reason := if visible.error.Some? && visible.error.value.Some? then visible.error.value.value else "";
      if reason == APPROVAL_TIMEOUT_MESSAGE then Ignored else Denied(key, reason)
    else if visible.error.Some? then Failed(key)
    else if key.arguments.Ok? && readOnly then Read(key, visible.fingerprint)
    else Changed(key)
  }

  // ----- the history, and what the counts mean over it -----

  type History = seq<Observation>

  /** The call succeeded, which forgives its own failures. */
  predicate Succeeds(o: Observation, key: CallKey) {
    o.Changed? || (o.Read? && o.key == key)
  }

  /** How many of the last observations hold none that satisfies `reset`. */
  function SinceReset(h: History, reset: Observation -> bool): (n: nat)
    ensures n <= |h|
    ensures forall i :: |h| - n <= i < |h| ==> !reset(h[i])
    ensures n < |h| ==> reset(h[|h| - n - 1])
  {
    if h == [] || reset(h[|h| - 1]) then 0 else 1 + SinceReset(h[..|h| - 1], reset)
  }

  function Since(h: History, reset: Observation -> bool): History { h[|h| - SinceReset(h, reset)..] }

  function Count(h: History, o: Observation): nat {
    if h == [] then 0 else Count(h[..|h| - 1], o) + if h[|h| - 1] == o then 1 else 0
  }

  /** Failures of `key` since it last succeeded or any state-changing call did. */
  function FailureCount(h: History, key: CallKey): nat {
    Count(Since(h, (o: Observation) => Succeeds(o, key)), Failed(key))
  }

  /** The outputs of the read-only call `key`, oldest first. */
  function Outputs(h: History, key: CallKey): seq<nat> {
    if h == [] then []
    else
      var last := h[|h| - 1];
      Outputs(h[..|h| - 1], key) + if last.Read? && last.key == key then [last.output] else []
  }

  /** Its outputs since the last state-changing success. */
  function FreshOutputs(h: History, key: CallKey): seq<nat> {
    Outputs(Since(h, (o: Observation) => o.Changed?), key)
  }

  /** How many outputs at the end are all equal. */
  function TrailingRun(outputs: seq<nat>): (n: nat)
    ensures n <= |outputs| && (outputs != [] ==> n > 0)
    ensures forall i :: |outputs| - n <= i < |outputs| ==> outputs[i] == outputs[|outputs| - 1]
    ensures n < |outputs| ==> outputs[|outputs| - n - 1] != outputs[|outputs| - 1]
  {
    if outputs == [] then 0
    else if |outputs| > 1 && outputs[|outputs| - 2] == outputs[|outputs| - 1] then 1 + TrailingRun(outputs[..|outputs| - 1])
    else 1
  }

  /** The reason given the first time `key` was denied. */
  function FirstDenial(h: History, key: CallKey): Option<string> {
    if h == [] then None
    else if h[0].Denied? && h[0].key == key then Some(h[0].reason)
    else FirstDenial(h[1..], key)
  }

  datatype Note = DeniedAgain | FailedAgain(count: nat) | UnchangedRead(count: nat)

  /** The note an observation earns, given the history before it. */
  function NoteFor(h: History, o: Observation): Option<Note> {
    match o
    case Denied(key, _) => if FirstDenial(h, key).Some? then Some(DeniedAgain) else None
    case Failed(key) =>
      var count := FailureCount(h + [o], key);
      if count >= REPEAT_THRESHOLD then Some(FailedAgain(count)) else None
    case Read(key, _) =>
      var count := TrailingRun(FreshOutputs(h + [o], key));
      if count >= REPEAT_THRESHOLD then Some(UnchangedRead(count)) else None
    case _ => None
  }

  // ----- a note's text -----

  const NOTE_START := "\n\n[milim] "
  const DENIED_TAIL := " earlier in this run, so it was not run or sent for approval again. "
    + "Do not repeat it: change approach, or tell the user what you need and why."
  const FAILED_TAIL := " times with the same arguments. "
    + "Stop retrying it unchanged: read the error, inspect the relevant state, and change approach."
  const READ_TAIL := " times with nothing changed in between. "
    + "Use the output you already have instead of running it again."

  function Digit(n: nat): char
    requires n < 10
  {
    '0' + n as char
  }

  function Decimal(n: nat): string {
    if n < 10 then [Digit(n)] else Decimal(n / 10) + [Digit(n % 10)]
  }

  function Wording(note: Note): string {
    match note
    case DeniedAgain =>
      "This exact call was already denied" + DENIED_TAIL
    case FailedAgain(count) =>
      "This exact call has now failed " + Decimal(count) + FAILED_TAIL
    case UnchangedRead(count) =>
      "This exact read-only call has now returned the same result " + Decimal(count) + READ_TAIL
  }

  function WithNote(content: string, note: Option<Note>): string {
    if note.None? then content else content + NOTE_START + Wording(note.value)
  }

  /** The text has the note, if there is one, at its end. */
  ghost predicate EndsWithNote(text: string, note: Option<Note>) {
    note.Some? ==> exists content :: text == content + NOTE_START + Wording(note.value)
  }

  lemma NoteIsAtTheEnd(content: string, note: Option<Note>)
    ensures EndsWithNote(WithNote(content, note), note)
  {
    hide Wording;
  }

  lemma {:induction false} DecimalTells(m: nat, n: nat)
    requires Decimal(m) == Decimal(n)
    ensures m == n
  {
    var s, t := Decimal(m), Decimal(n);
    assert s[|s| - 1] == Digit(m % 10) && t[|t| - 1] == Digit(n % 10);
    if m >= 10 && n >= 10 {
      assert s[..|s| - 1] == Decimal(m / 10) && t[..|t| - 1] == Decimal(n / 10);
      DecimalTells(m / 10, n / 10);
    }
  }

  lemma MiddleTells(head: string, a: string, b: string, tail: string)
    requires head + a + tail == head + b + tail
    ensures a == b
  {
    var s := head + a + tail;
    assert a == s[|head|..|s| - |tail|] && b == s[|head|..|s| - |tail|];
  }

  /** Where the three wordings part. */
  lemma WordingStarts(note: Note)
    ensures |Wording(note)| > 16
    ensures Wording(note)[16] == if note.DeniedAgain? then 'w' else if note.FailedAgain? then 'h' else 'o'
  {
    match note
    case DeniedAgain =>
      assert Wording(note)[16] == "This exact call was already denied"[16];
    case FailedAgain(count) =>
      assert Wording(note)[16] == "This exact call has now failed "[16];
    case UnchangedRead(count) =>
      assert Wording(note)[16] == "This exact read-only call has now returned the same result "[16];
  }

  /** Notes are told apart by their text, counts and all. */
  lemma WordingTells(a: Note, b: Note)
    requires Wording(a) == Wording(b)
    ensures a == b
  {
    match (a, b)
    case (FailedAgain(m), FailedAgain(n)) =>
      MiddleTells("This exact call has now failed ", Decimal(m), Decimal(n), FAILED_TAIL);
      DecimalTells(m, n);
    case (UnchangedRead(m), UnchangedRead(n)) =>
      MiddleTells("This exact read-only call has now returned the same result ", Decimal(m), Decimal(n), READ_TAIL);
      DecimalTells(m, n);
    case _ =>
      WordingStarts(a);
      WordingStarts(b);
  }

  // ----- one observation more -----

  lemma SinceSnoc(h: History, o: Observation, reset: Observation -> bool)
    ensures Since(h + [o], reset) == if reset(o) then [] else Since(h, reset) + [o]
  {
    assert (h + [o])[..|h|] == h;
  }

  lemma {:induction false} CountSnoc(h: History, o: Observation, x: Observation)
    ensures Count(h + [o], x) == Count(h, x) + if o == x then 1 else 0
  {
    assert (h + [o])[..|h|] == h;
  }

  lemma {:induction false} OutputsSnoc(h: History, o: Observation, key: CallKey)
    ensures Outputs(h + [o], key) == Outputs(h, key) + if o.Read? && o.key == key then [o.output] else []
  {
    assert (h + [o])[..|h|] == h;
  }

  lemma FailureCountSnoc(h: History, o: Observation, key: CallKey)
    ensures FailureCount(h + [o], key) ==
            if Succeeds(o, key) then 0 else FailureCount(h, key) + if o == Failed(key) then 1 else 0
  {
    var reset := (o: Observation) => Succeeds(o, key);
    SinceSnoc(h, o, reset);
    CountSnoc(Since(h, reset), o, Failed(key));
  }

  lemma FreshOutputsSnoc(h: History, o: Observation, key: CallKey)
    ensures FreshOutputs(h + [o], key) ==
            if o.Changed? then [] else FreshOutputs(h, key) + if o.Read? && o.key == key then [o.output] else []
  {
    var reset := (o: Observation) => o.Changed?;
    SinceSnoc(h, o, reset);
    OutputsSnoc(Since(h, reset), o, key);
  }

  lemma {:induction false} TrailingRunSnoc(outputs: seq<nat>, output: nat)
    ensures TrailingRun(outputs + [output]) ==
            if outputs != [] && outputs[|outputs| - 1] == output then TrailingRun(outputs) + 1 else 1
  {
    assert (outputs + [output])[..|outputs|] == outputs;
  }

  lemma {:induction false} FirstDenialSnoc(h: History, o: Observation, key: CallKey)
    ensures FirstDenial(h + [o], key) ==
            if FirstDenial(h, key).Some? then FirstDenial(h, key)
            else if o.Denied? && o.key == key then Some(o.reason) else None
  {
    if h == [] {
      assert h + [o] == [o];
    } else {
      assert (h + [o])[1..] == h[1..] + [o];
      FirstDenialSnoc(h[1..], o, key);
    }
  }

  // ----- what the model is told of repetitions -----

  /** The result is an error, and neither skipped nor denied. */
  predicate Errs(v: Visible) { !v.skipped && !v.denied && v.error.Some? }

  /** The call came through. */
  predicate Works(v: Visible) { !v.skipped && !v.denied && v.error.None? }

  /** From the third failure of a call in a row on, each is noted with its count. */
  lemma FailuresAreNoted(h: History, key: CallKey, readOnly: bool, a: Visible, b: Visible, c: Visible)
    requires Errs(a) && Errs(b) && Errs(c)
    ensures var g := h + [Classify(key, readOnly, a)] + [Classify(key, readOnly, b)];
            NoteFor(g, Classify(key, readOnly, c)) == Some(FailedAgain(FailureCount(h, key) + 3))
  {
    var o := Failed(key);
    FailureCountSnoc(h, o, key);
    FailureCountSnoc(h + [o], o, key);
    FailureCountSnoc(h + [o] + [o], o, key);
  }

  /** So is the third equal output of a read-only call in a row. */
  lemma ReadsAreNoted(h: History, key: CallKey, a: Visible, b: Visible, c: Visible)
    requires Works(a) && Works(b) && Works(c) && a.fingerprint == b.fingerprint == c.fingerprint && key.arguments.Ok?
    ensures var g := h + [Classify(key, true, a)] + [Classify(key, true, b)];
            var note := NoteFor(g, Classify(key, true, c));
            note.Some? && note.value.UnchangedRead? && note.value.count >= 3
  {
    hide FreshOutputs, TrailingRun;
    var o := Read(key, a.fingerprint);
    var outputs, x := FreshOutputs(h, key), a.fingerprint;
    FreshOutputsSnoc(h, o, key);
    FreshOutputsSnoc(h + [o], o, key);
    FreshOutputsSnoc(h + [o] + [o], o, key);
    TrailingRunSnoc(outputs, x);
    TrailingRunSnoc(outputs + [x], x);
    TrailingRunSnoc(outputs + [x] + [x], x);
  }

  /** A call that may have changed something, or whose arguments are not JSON, makes
      every count start anew when it comes through; a read-only one only its own
      failures. Neither earns a note by itself. */
  lemma SuccessForgives(h: History, key: CallKey, readOnly: bool, v: Visible, other: CallKey)
    requires Works(v)
    ensures var g := h + [Classify(key, readOnly, v)];
            if readOnly && key.arguments.Ok? then
              && FailureCount(g, key) == 0 && (other != key ==> FailureCount(g, other) == FailureCount(h, other))
              && FreshOutputs(g, key) == FreshOutputs(h, key) + [v.fingerprint]
            else
              FailureCount(g, other) == 0 && FreshOutputs(g, other) == [] && NoteFor(h, Classify(key, readOnly, v)).None?
  {
    var o := Classify(key, readOnly, v);
    FailureCountSnoc(h, o, key);
    FailureCountSnoc(h, o, other);
    FreshOutputsSnoc(h, o, key);
    FreshOutputsSnoc(h, o, other);
  }

  /** A skipped call leaves no trace. */
  lemma {:induction false} SkippedIsIgnored(h: History, key: CallKey, readOnly: bool, v: Visible, other: CallKey)
    requires v.skipped
    ensures var g := h + [Classify(key, readOnly, v)];
            && NoteFor(h, Classify(key, readOnly, v)).None?
            && FailureCount(g, other) == FailureCount(h, other) && FreshOutputs(g, other) == FreshOutputs(h, other)
            && FirstDenial(g, other) == FirstDenial(h, other)
  {
    var o := Classify(key, readOnly, v);
    FailureCountSnoc(h, o, other);
    FreshOutputsSnoc(h, o, other);
    FirstDenialSnoc(h, o, other);
    assert FreshOutputs(h, other) + [] == FreshOutputs(h, other);
  }

  // ----- the tracker -----

  class RepeatTracker {
    var failures: map<CallKey, nat>
    var denials: map<CallKey, string>
    /** Fingerprint of the latest output and how often in a row it came back. */
    var readRuns: map<CallKey, (nat, nat)>
    ghost var history: History

    /** The three maps are exactly the counts their comments promise. */
    ghost predicate Valid()
      reads this
    {
      && RefinesFailures(failures, history)
      && RefinesDenials(denials, history)
      && RefinesReads(readRuns, history)
    }

    constructor ()
      ensures Valid() && history == []
    {
      failures, denials, readRuns, history := map[], map[], map[], [];
    }

    function PriorDenial(key: CallKey): (reason: Option<string>)
      requires Valid()
      reads this
      ensures reason == FirstDenial(history, key)
    {
      if key in denials then Some(denials[key]) else None
    }

    method Observe(key: CallKey, readOnly: bool, visible: Visible) returns (note: Option<Note>)
      requires Valid()
      modifies this
      ensures Valid()
      ensures history == old(history) + [Classify(key, readOnly, visible)]
      ensures note == NoteFor(old(history), Classify(key, readOnly, visible))
    {
      ghost var o := Classify(key, readOnly, visible);
      ObserveStep(failures, denials, readRuns, history, o);
      note := Update(key, readOnly, visible);
      history := history + [o];
    }

    method Update(key: CallKey, readOnly: bool, visible: Visible) returns (note: Option<Note>)
      modifies `failures, `denials, `readRuns
      ensures var o := Classify(key, readOnly, visible);
              && failures == NextFailures(old(failures), o)
              && denials == NextDenials(old(denials), o)
              && readRuns == NextReads(old(readRuns), o)
              && note == NoteOf(old(failures), old(denials), old(readRuns), o)
    {
      if visible.skipped {
        return None;
      }
      if visible.denied {
        var reason := if visible.error.Some? && visible.error.value.Some? then visible.error.value.value else "";
        if reason == APPROVAL_TIMEOUT_MESSAGE {
          return None;
        }
        var repeated := key in denials;
        if !repeated {
          denials := denials[key := reason];
        }
        return if repeated then Some(DeniedAgain) else None;
      }
      if visible.error.Some? {
        var count := (if key in failures then failures[key] else 0) + 1;
        failures := failures[key := count];
        return if count >= REPEAT_THRESHOLD then Some(FailedAgain(count)) else None;
      }
      failures := failures - {key};
      if !(key.arguments.Ok? && readOnly) {
        failures := map[];
        readRuns := map[];
        return None;
      }
      var output := visible.fingerprint;
      var seen: (nat, nat) := if key in readRuns then readRuns[key] else (output, 0);
      if seen.0 != output {
        seen := (output, 0);
      }
      seen := (seen.0, seen.1 + 1);
      readRuns := readRuns[key := seen];
      return if seen.1 >= REPEAT_THRESHOLD then Some(UnchangedRead(seen.1)) else None;
    }
  }

  ghost predicate RefinesFailures(failures: map<CallKey, nat>, h: History) {
    forall key :: FailureCount(h, key) == if key in failures then failures[key] else 0
  }

  ghost predicate RefinesDenials(denials: map<CallKey, string>, h: History) {
    forall key :: FirstDenial(h, key) == if key in denials then Some(denials[key]) else None
  }

  ghost predicate RefinesReads(runs: map<CallKey, (nat, nat)>, h: History) {
    forall key :: RefinesRead(runs, h, key)
  }

  // How one observation moves the maps.

  function NextFailures(failures: map<CallKey, nat>, o: Observation): map<CallKey, nat> {
    match o
    case Failed(key) => failures[key := (if key in failures then failures[key] else 0) + 1]
    case Changed(_) => map[]
    case Read(key, _) => failures - {key}
    case _ => failures
  }

  function NextDenials(denials: map<CallKey, string>, o: Observation): map<CallKey, string> {
    if o.Denied? && o.key !in denials then denials[o.key := o.reason] else denials
  }

  function NextReads(runs: map<CallKey, (nat, nat)>, o: Observation): map<CallKey, (nat, nat)> {
    match o
    case Changed(_) => map[]
    case Read(key, output) =>
      runs[key := (output, if key in runs && runs[key].0 == output then runs[key].1 + 1 else 1)]
    case _ => runs
  }

  lemma FailuresStep(failures: map<CallKey, nat>, h: History, o: Observation)
    requires RefinesFailures(failures, h)
    ensures RefinesFailures(NextFailures(failures, o), h + [o])
  {
    hide FailureCount;
    forall key { FailureCountSnoc(h, o, key); }
  }

  lemma DenialsStep(denials: map<CallKey, string>, h: History, o: Observation)
    requires RefinesDenials(denials, h)
    ensures RefinesDenials(NextDenials(denials, o), h + [o])
  {
    forall key { FirstDenialSnoc(h, o, key); }
  }

  /** One key's run of reads and the outputs it stands for. */
  ghost predicate RefinesRead(runs: map<CallKey, (nat, nat)>, h: History, key: CallKey) {
    var outputs := FreshOutputs(h, key);
    if key in runs then outputs != [] && runs[key] == (outputs[|outputs| - 1], TrailingRun(outputs)) else outputs == []
  }

  lemma ReadStep(runs: map<CallKey, (nat, nat)>, h: History, o: Observation, key: CallKey)
    requires RefinesRead(runs, h, key)
    ensures RefinesRead(NextReads(runs, o), h + [o], key)
  {
    hide FreshOutputs, TrailingRun;
    FreshOutputsSnoc(h, o, key);
    assert FreshOutputs(h, key) + [] == FreshOutputs(h, key);
    if o.Read? {
      TrailingRunSnoc(FreshOutputs(h, key), o.output);
    }
  }

  lemma ReadsStep(runs: map<CallKey, (nat, nat)>, h: History, o: Observation)
    requires RefinesReads(runs, h)
    ensures RefinesReads(NextReads(runs, o), h + [o])
  {
    forall key ensures RefinesRead(NextReads(runs, o), h + [o], key) {
      ReadStep(runs, h, o, key);
    }
  }

  /** The note, read off the maps as they stand before the observation. */
  function NoteOf(failures: map<CallKey, nat>, denials: map<CallKey, string>, runs: map<CallKey, (nat, nat)>, o: Observation)
    : Option<Note>
  {
    match o
    case Denied(key, _) => if key in denials then Some(DeniedAgain) else None
    case Failed(key) =>
      var count := NextFailures(failures, o)[key];
      if count >= REPEAT_THRESHOLD then Some(FailedAgain(count)) else None
    case Read(key, _) =>
      var count := NextReads(runs, o)[key].1;
      if count >= REPEAT_THRESHOLD then Some(UnchangedRead(count)) else None
    case _ => None
  }

  lemma ObserveStep(failures: map<CallKey, nat>, denials: map<CallKey, string>, runs: map<CallKey, (nat, nat)>, h: History, o: Observation)
    requires RefinesFailures(failures, h) && RefinesDenials(denials, h) && RefinesReads(runs, h)
    ensures RefinesFailures(NextFailures(failures, o), h + [o])
    ensures RefinesDenials(NextDenials(denials, o), h + [o])
    ensures RefinesReads(NextReads(runs, o), h + [o])
    ensures NoteOf(failures, denials, runs, o) == NoteFor(h, o)
  {
    FailuresStep(failures, h, o);
    DenialsStep(denials, h, o);
    ReadsStep(runs, h, o);
    assert o.Read? ==> RefinesRead(NextReads(runs, o), h + [o], o.key);
  }
}
