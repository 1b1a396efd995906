/** The approval broker (`ToolApprovalBroker`, `PendingApproval`): a table of
    requests, each with its own small state machine. Every public method is one
    atomic step; the one-shot channel between a request's resolver and its waiter
    is part of the state. */
module ApprovalBroker {
  import opened Wrappers

  type Id = string

  datatype State = Requested | Decided | Delivered | Acknowledged | Failed | Canceled

  datatype Scope = Once | Thread

  datatype Decision = Decision(approved: bool, response: Option<string>, scope: Scope)

  datatype Resolve = Resolved | AlreadyResolved | Conflict | ResolveFailed | Missing

  /** `hasSender`: the entry still holds the sending half of its channel. */
  datatype Entry = Entry(hasSender: bool, decision: Option<bool>, fingerprint: Option<nat>, snapshot: Snapshot)

  datatype Snapshot = Snapshot(state: State, decision: Option<bool>, error: Option<string>)

  datatype Meta = Meta(runId: string, callId: Option<string>, name: string, arguments: string)

  /** A one-shot channel: its receiver lives until the waiter is dropped, and it
      carries at most one value. */
  datatype Channel = Channel(receiverAlive: bool, value: Option<Decision>)

  datatype Notice = Notice(id: Id, meta: Meta, state: State, decision: Option<bool>, error: Option<string>)

  /** One answered `resolve` call. */
  datatype Answer = Answer(id: Id, approved: bool, result: Resolve)

  const CAPACITY: nat := 2048

  predicate Terminal(s: State) { s in {Acknowledged, Failed, Canceled} }

  /** What `transition` allows. */
  predicate Allowed(from: State, to: State) {
    match to
    case Delivered => from == Decided
    case Acknowledged => from == Delivered
    case Failed => !Terminal(from)
    case Canceled => !Terminal(from)
    case _ => false
  }

  /** The whole state as a value. */
  datatype View = View(
    pending: map<Id, Entry>, external: map<Id, Meta>, channels: map<Id, Channel>, notices: seq<Notice>,
    issued: set<Id>, log: seq<Answer>)

  const EMPTY: View := View(map[], map[], map[], [], {}, [])

  // ----- the steps, on values -----

  const NEW_ENTRY: Entry := Entry(true, None, None, Snapshot(Requested, None, None))

  function Evicted(pending: map<Id, Entry>): map<Id, Entry> {
    map id | id in pending && !Terminal(pending[id].snapshot.state) :: pending[id]
  }

  function Kept(v: View): View {
    if |v.pending| >= CAPACITY then
      var pending := Evicted(v.pending);
      v.(pending := pending, external := v.external - (v.pending.Keys - pending.Keys))
    else v
  }

  function Request(v: View, id: Id): View {
    var k := Kept(v);
    k.(pending := k.pending[id := NEW_ENTRY], channels := k.channels[id := Channel(true, None)], issued := k.issued + {id})
  }

  function RequestExternal(v: View, id: Id, meta: Meta): View {
    var r := Request(v, id);
    r.(external := r.external[id := meta], notices := r.notices + [Notice(id, meta, Requested, None, None)])
  }

  /** `transition_entry`, then `publish_notice`. */
  function Move(v: View, id: Id, entry: Entry, to: State, error: Option<string>): View {
    var snapshot := Snapshot(to, entry.decision, error);
    var w := v.(pending := v.pending[id := entry.(snapshot := snapshot)]);
    if id !in v.external then w
    else w.(notices := v.notices + [Notice(id, v.external[id], to, entry.decision, error)],
            external := if Terminal(to) then v.external - {id} else v.external)
  }

  function Transition(v: View, id: Id, to: State, error: Option<string>): View {
    if id !in v.pending || !Allowed(v.pending[id].snapshot.state, to) then v
    else
      var entry := v.pending[id];
      Move(v, id, if to == Failed || to == Canceled then entry.(hasSender := false) else entry, to, error)
  }

  const DISCONNECTED: string := "approval receiver disconnected before delivery"

  function ResolveResult(v: View, id: Id, approved: bool, fingerprint: nat): Resolve {
    if id !in v.pending then Missing
    else
      var entry := v.pending[id];
      if entry.snapshot.state != Requested then
        if entry.decision == Some(approved) && entry.fingerprint == Some(fingerprint) then AlreadyResolved
        else if entry.snapshot.state == Failed || entry.snapshot.state == Canceled then ResolveFailed
        else Conflict
      else if !entry.hasSender || id !in v.channels || !v.channels[id].receiverAlive then ResolveFailed
      else Resolved
  }

  function ResolveView(v: View, id: Id, decision: Decision, fingerprint: nat): View {
    var result := ResolveResult(v, id, decision.approved, fingerprint);
    var w :=
      if id !in v.pending || v.pending[id].snapshot.state != Requested || !v.pending[id].hasSender then v
      else
        var entry := v.pending[id].(hasSender := false, decision := Some(decision.approved), fingerprint := Some(fingerprint));
        if result == Resolved then
          Move(v.(channels := v.channels[id := v.channels[id].(value := Some(decision))]), id, entry, Decided, None)
        else Move(v, id, entry, Failed, Some(DISCONNECTED));
    w.(log := v.log + [Answer(id, decision.approved, result)])
  }

  /** Dropping the waiter settles a request nobody decided, or a decision nobody
      delivered, and closes the channel. */
  function Settled(v: View, id: Id): View {
    if id !in v.pending then v
    else match v.pending[id].snapshot.state
         case Requested => Transition(v, id, Canceled, Some("approval request was abandoned"))
         case Decided => Transition(v, id, Failed, Some("approval delivery was interrupted"))
         case _ => v
  }

  function DropView(v: View, id: Id): View {
    var settled := Settled(v, id);
    if id in settled.channels then settled.(channels := settled.channels[id := settled.channels[id].(receiverAlive := false)])
    else settled
  }

  // ----- invariants -----

  /** What every entry's fields say about one another. */
  predicate EntryOk(e: Entry) {
    && (e.hasSender <==> e.snapshot.state == Requested)
    && (e.snapshot.state == Requested ==> e.decision.None?)
    && (e.snapshot.state in {Decided, Delivered, Acknowledged} ==> e.decision.Some?)
    && e.decision.Some? == e.fingerprint.Some?
    && e.snapshot.decision == e.decision
  }

  predicate WasResolved(log: seq<Answer>, id: Id, approved: bool) { Answer(id, approved, Resolved) in log }

  /** No id is resolved twice. */
  predicate ResolvedOnce(log: seq<Answer>) {
    forall i, j :: 0 <= i < j < |log| && log[i].result == Resolved && log[j].result == Resolved ==> log[i].id != log[j].id
  }

  lemma NotBoth(answers: seq<Answer>, id: Id)
    requires ResolvedOnce(answers)
    ensures !(WasResolved(answers, id, true) && WasResolved(answers, id, false))
  {
    if WasResolved(answers, id, true) {
      var k :| 0 <= k < |answers| && answers[k] == Answer(id, true, Resolved);
      assert forall l :: 0 <= l < |answers| && answers[l].result == Resolved && answers[l].id == id ==> l == k;
    }
  }

  /** The state the latest notice for `id` tells. */
  function LastTold(notices: seq<Notice>, id: Id): Option<State> {
    if notices == [] then None
    else if notices[|notices| - 1].id == id then Some(notices[|notices| - 1].state)
    else LastTold(notices[..|notices| - 1], id)
  }

  predicate Follows(told: Option<State>, next: State) {
    match told
    case None => next == Requested
    case Some(s) => Allowed(s, next) || (s == Requested && next == Decided)
  }

  /** Read per request, the notices walk its state machine from the start. */
  predicate NoticesWalk(notices: seq<Notice>) {
    notices == [] ||
    (NoticesWalk(notices[..|notices| - 1]) &&
     Follows(LastTold(notices[..|notices| - 1], notices[|notices| - 1].id), notices[|notices| - 1].state))
  }

  ghost predicate Inv(v: View) {
    && EntriesOk(v) && ExternalOk(v) && ChannelsOk(v) && LogOk(v) && UnissuedOk(v)
    && NoticesWalk(v.notices)
  }

  ghost predicate EntriesOk(v: View) {
    forall id :: id in v.pending ==> EntryOk(v.pending[id]) && id in v.issued && id in v.channels
  }

  /** Only live requests have external metadata, and their watchers have been
      told their current state. */
  ghost predicate ExternalOk(v: View) {
    forall id :: id in v.external ==>
      && id in v.pending && !Terminal(v.pending[id].snapshot.state)
      && LastTold(v.notices, id) == Some(v.pending[id].snapshot.state)
  }

  ghost predicate UnissuedOk(v: View) {
    forall id :: id !in v.issued ==> LastTold(v.notices, id) == None && id !in v.channels && id !in v.external
  }

  /** A request still open has a live, empty channel; a dropped waiter leaves
      neither an open request nor an undelivered decision; a channel carries only
      what a successful `resolve` put there. */
  ghost predicate ChannelsOk(v: View) {
    && (forall id :: id in v.pending && id in v.channels && v.pending[id].snapshot.state == Requested ==>
          v.channels[id] == Channel(true, None))
    && (forall id :: id in v.pending && id in v.channels && !v.channels[id].receiverAlive ==>
          v.pending[id].snapshot.state != Requested && v.pending[id].snapshot.state != Decided)
    && (forall id :: id in v.channels && v.channels[id].value.Some? ==>
          WasResolved(v.log, id, v.channels[id].value.value.approved))
  }

  /** The channel of `id` holds this decision for its waiter. */
  predicate Carries(channels: map<Id, Channel>, id: Id, approved: bool) {
    id in channels && channels[id].value.Some? && channels[id].value.value.approved == approved
  }

  /** Resolutions are recorded once and never lost: the channel holds each for its
      waiter, and the entry keeps the recorded decision. */
  ghost predicate LogOk(v: View) {
    && ResolvedOnce(v.log)
    && (forall a :: a in v.log && a.result == Resolved ==> a.id in v.issued && Carries(v.channels, a.id, a.approved))
    && (forall a :: a in v.log && a.result == Resolved && a.id in v.pending ==> v.pending[a.id].decision == Some(a.approved))
  }

  // ----- progress -----

  /** `to` lies ahead of `from`: along the chain, or at a failure outside it. */
  predicate Ahead(from: State, to: State) {
    || from == to
    || (!Terminal(from) && (to == Failed || to == Canceled))
    || (from == Requested && to in {Decided, Delivered, Acknowledged})
    || (from == Decided && to in {Delivered, Acknowledged})
    || (from == Delivered && to == Acknowledged)
  }

  /** How one entry may differ later in a run: states only move ahead, a settled
      entry is frozen, and a recorded decision stands. */
  predicate EntryAdvances(e: Entry, f: Entry) {
    && Ahead(e.snapshot.state, f.snapshot.state)
    && (Terminal(e.snapshot.state) ==> f == e)
    && (e.decision.Some? ==> f.decision == e.decision && f.fingerprint == e.fingerprint)
  }

  ghost predicate Advances(v: View, w: View) {
    && v.issued <= w.issued && v.log <= w.log && v.notices <= w.notices
    && (forall id :: id in v.pending && id in w.pending ==> EntryAdvances(v.pending[id], w.pending[id]))
    && (forall id :: id in w.pending && id !in v.pending ==> id !in v.issued)
    && (forall id :: id in v.channels && !v.channels[id].receiverAlive ==> id in w.channels && !w.channels[id].receiverAlive)
    && v.channels.Keys <= w.channels.Keys
  }

  // ----- every step keeps the invariant and moves ahead -----

  lemma {:induction false} NoticeAppended(notices: seq<Notice>, n: Notice)
    ensures NoticesWalk(notices + [n]) <==> NoticesWalk(notices) && Follows(LastTold(notices, n.id), n.state)
    ensures forall id :: LastTold(notices + [n], id) == if id == n.id then Some(n.state) else LastTold(notices, id)
  {
    assert (notices + [n])[..|notices|] == notices;
  }

  /** Making room removes settled entries only. */
  lemma KeptKeeps(v: View)
    requires Inv(v)
    ensures Inv(Kept(v)) && Advances(v, Kept(v))
    ensures forall id :: id in v.pending && id !in Kept(v).pending ==> Terminal(v.pending[id].snapshot.state)
    ensures Kept(v).external == v.external
  {
    KeptDrops(v);
    FewerEntries(v, Kept(v));
  }

  lemma KeptDrops(v: View)
    requires ExternalOk(v)
    ensures Kept(v) == v.(pending := Kept(v).pending)
    ensures forall id :: id in Kept(v).pending ==> id in v.pending && Kept(v).pending[id] == v.pending[id]
    ensures forall id :: id in v.pending && id !in Kept(v).pending ==> Terminal(v.pending[id].snapshot.state)
    ensures forall id :: id in v.external ==> id in Kept(v).pending
  {
    EvictionSparesExternal(v);
  }

  lemma EvictionSparesExternal(v: View)
    requires ExternalOk(v)
    ensures v.external - (v.pending.Keys - Evicted(v.pending).Keys) == v.external
  {
    forall id | id in v.external ensures id in Evicted(v.pending) {}
  }

  lemma FewerEntries(v: View, w: View)
    requires Inv(v) && w == v.(pending := w.pending)
    requires forall id :: id in w.pending ==> id in v.pending && w.pending[id] == v.pending[id]
    requires forall id :: id in v.external ==> id in w.pending
    ensures Inv(w) && Advances(v, w)
  {}

  lemma RequestKeeps(v: View, id: Id)
    requires Inv(v) && id !in v.issued
    ensures Inv(Request(v, id)) && Advances(v, Request(v, id))
    ensures forall i :: i in v.pending && i !in Request(v, id).pending ==> Terminal(v.pending[i].snapshot.state)
  {
    KeptKeeps(v);
    Issue(Kept(v), id);
    AdvancesTransitive(v, Kept(v), Request(v, id));
  }

  function Issued(k: View, id: Id): View {
    k.(pending := k.pending[id := NEW_ENTRY], channels := k.channels[id := Channel(true, None)], issued := k.issued + {id})
  }

  lemma Issue(k: View, id: Id)
    requires Inv(k) && id !in k.issued
    ensures Inv(Issued(k, id)) && Advances(k, Issued(k, id))
  {
    IssueKeepsEntries(k, id);
    IssueKeepsExternal(k, id);
    IssueKeepsLog(k, id);
  }

  lemma IssueKeepsEntries(k: View, id: Id)
    requires EntriesOk(k) && ChannelsOk(k) && id !in k.issued
    ensures EntriesOk(Issued(k, id)) && ChannelsOk(Issued(k, id))
  {}

  lemma IssueKeepsExternal(k: View, id: Id)
    requires ExternalOk(k) && UnissuedOk(k) && id !in k.issued
    ensures ExternalOk(Issued(k, id)) && UnissuedOk(Issued(k, id))
  {}

  lemma IssueKeepsLog(k: View, id: Id)
    requires LogOk(k) && UnissuedOk(k) && EntriesOk(k) && id !in k.issued
    ensures LogOk(Issued(k, id)) && Advances(k, Issued(k, id))
  {}

  lemma RequestExternalKeeps(v: View, id: Id, meta: Meta)
    requires Inv(v) && id !in v.issued
    ensures Inv(RequestExternal(v, id, meta)) && Advances(v, RequestExternal(v, id, meta))
  {
    hide Advances, EntriesOk, ChannelsOk, LogOk, NoticesWalk, LastTold;
    var r := Request(v, id);
    RequestKeeps(v, id);
    assert r.notices == v.notices;
    KeptKeeps(v);
    Introduced(r, id, meta);
    AdvancesTransitive(v, r, RequestExternal(v, id, meta));
  }

  /** An open request gets its metadata and its first notice. */
  lemma {:induction false} Introduced(r: View, id: Id, meta: Meta)
    requires Inv(r) && id in r.pending && r.pending[id] == NEW_ENTRY && LastTold(r.notices, id) == None
    ensures var w := r.(external := r.external[id := meta], notices := r.notices + [Notice(id, meta, Requested, None, None)]);
            Inv(w) && Advances(r, w)
  {
    NoticeAppended(r.notices, Notice(id, meta, Requested, None, None));
  }

  lemma MoveTells(v: View, id: Id, entry: Entry, to: State, error: Option<string>)
    requires id in v.pending && ExternalOk(v) && UnissuedOk(v) && NoticesWalk(v.notices) && id in v.issued
    requires Follows(Some(v.pending[id].snapshot.state), to)
    ensures var w := Move(v, id, entry, to, error);
            ExternalOk(w) && UnissuedOk(w) && NoticesWalk(w.notices) && v.notices <= w.notices
  {
    if id in v.external {
      NoticeAppended(v.notices, Notice(id, v.external[id], to, entry.decision, error));
    }
  }

  lemma TransitionKeeps(v: View, id: Id, to: State, error: Option<string>)
    requires Inv(v)
    ensures Inv(Transition(v, id, to, error)) && Advances(v, Transition(v, id, to, error))
  {
    if id in v.pending && Allowed(v.pending[id].snapshot.state, to) {
      TransitionStaysValid(v, id, to, error);
      OneEntryAdvances(v, Transition(v, id, to, error), id);
    }
  }

  lemma TransitionStaysValid(v: View, id: Id, to: State, error: Option<string>)
    requires Inv(v) && id in v.pending && Allowed(v.pending[id].snapshot.state, to)
    ensures var w := Transition(v, id, to, error);
            && Inv(w) && id in w.pending && w.pending == v.pending[id := w.pending[id]]
            && EntryAdvances(v.pending[id], w.pending[id])
            && w.issued == v.issued && w.log == v.log && v.notices <= w.notices && w.channels == v.channels
  {
    var entry := Transitioned(v.pending[id], to);
    TransitionMoves(v, id, to, error);
    MoveTells(v, id, entry, to, error);
    EntryReplaced(v, Transition(v, id, to, error), id, entry.(snapshot := Snapshot(to, entry.decision, error)));
  }

  /** The entry a transition starts from: a failure takes the sender. */
  function Transitioned(e: Entry, to: State): Entry { if to == Failed || to == Canceled then e.(hasSender := false) else e }

  lemma TransitionMoves(v: View, id: Id, to: State, error: Option<string>)
    requires id in v.pending && EntryOk(v.pending[id]) && Allowed(v.pending[id].snapshot.state, to)
    ensures var w, entry := Transition(v, id, to, error), Transitioned(v.pending[id], to);
            var e := entry.(snapshot := Snapshot(to, entry.decision, error));
            && w == Move(v, id, entry, to, error) && w.pending == v.pending[id := e]
            && w.channels == v.channels && w.log == v.log && w.issued == v.issued
            && EntryOk(e) && e.decision == v.pending[id].decision && EntryAdvances(v.pending[id], e)
  {}

  lemma EntryReplaced(v: View, w: View, id: Id, e: Entry)
    requires EntriesOk(v) && ChannelsOk(v) && LogOk(v) && id in v.pending
    requires w.pending == v.pending[id := e] && w.channels == v.channels && w.log == v.log && w.issued == v.issued
    requires EntryOk(e) && e.decision == v.pending[id].decision
    requires e.snapshot.state != Requested && e.snapshot.state != Decided
    ensures EntriesOk(w) && ChannelsOk(w) && LogOk(w)
  {}

  lemma OneEntryAdvances(v: View, w: View, id: Id)
    requires id in v.pending && id in w.pending && w.pending == v.pending[id := w.pending[id]]
    requires EntryAdvances(v.pending[id], w.pending[id])
    requires v.issued == w.issued && v.log <= w.log && v.notices <= w.notices
    requires v.channels.Keys == w.channels.Keys
    requires forall i :: i in v.channels ==> w.channels[i].receiverAlive == v.channels[i].receiverAlive
    ensures Advances(v, w)
  {
    forall i | i in v.pending && i in w.pending ensures EntryAdvances(v.pending[i], w.pending[i]) {
      assert i != id ==> w.pending[i] == v.pending[i];
    }
  }

  /** While requests are handled one step at a time, the branch for a receiver
      that is gone before delivery cannot be taken. */
  lemma OpenRequestIsResolvable(v: View, id: Id, approved: bool, fingerprint: nat)
    requires Inv(v) && id in v.pending
    ensures v.pending[id].snapshot.state == Requested <==> ResolveResult(v, id, approved, fingerprint) == Resolved
  {}

  lemma ResolvedIsNew(v: View, id: Id, approved: bool, result: Resolve)
    requires LogOk(v) && (result == Resolved ==> id in v.pending && v.pending[id].decision.None?)
    ensures ResolvedOnce(v.log + [Answer(id, approved, result)])
  {
    var log := v.log + [Answer(id, approved, result)];
    forall i, j | 0 <= i < j < |log| && log[i].result == Resolved && log[j].result == Resolved ensures log[i].id != log[j].id {
      assert log[i] in v.log;
    }
  }

  lemma ResolveKeeps(v: View, id: Id, decision: Decision, fingerprint: nat)
    requires Inv(v)
    ensures Inv(ResolveView(v, id, decision, fingerprint)) && Advances(v, ResolveView(v, id, decision, fingerprint))
  {
    var result := ResolveResult(v, id, decision.approved, fingerprint);
    if id in v.pending {
      OpenRequestIsResolvable(v, id, decision.approved, fingerprint);
    }
    ResolvedIsNew(v, id, decision.approved, result);
    if result == Resolved {
      ResolvedKeeps(v, id, decision, fingerprint);
    } else {
      RefusedKeeps(v, Answer(id, decision.approved, result));
    }
  }

  /** A call that resolves nothing only leaves its answer. */
  lemma RefusedKeeps(v: View, a: Answer)
    requires Inv(v) && a.result != Resolved && ResolvedOnce(v.log + [a])
    ensures var w := v.(log := v.log + [a]); Inv(w) && Advances(v, w)
  {
    var w := v.(log := v.log + [a]);
    assert forall b :: b in w.log && b.result == Resolved ==> b in v.log;
    assert forall b :: b in v.log ==> b in w.log;
  }

  lemma ResolvedKeeps(v: View, id: Id, decision: Decision, fingerprint: nat)
    requires Inv(v) && ResolveResult(v, id, decision.approved, fingerprint) == Resolved
    requires ResolvedOnce(v.log + [Answer(id, decision.approved, Resolved)])
    ensures Inv(ResolveView(v, id, decision, fingerprint)) && Advances(v, ResolveView(v, id, decision, fingerprint))
  {
    var w := ResolveView(v, id, decision, fingerprint);
    var u := v.(channels := v.channels[id := v.channels[id].(value := Some(decision))]);
    var entry := Resolving(v.pending[id], decision.approved, fingerprint);
    ResolvedMoves(v, id, decision, fingerprint);
    MoveTells(u, id, entry, Decided, None);
    EntryDecided(v, w, id, decision);
    OneEntryAdvances(v, w, id);
  }

  /** The entry a resolution leaves behind, before its snapshot is taken. */
  function Resolving(e: Entry, approved: bool, fingerprint: nat): Entry {
    e.(hasSender := false, decision := Some(approved), fingerprint := Some(fingerprint))
  }

  lemma ResolvedMoves(v: View, id: Id, decision: Decision, fingerprint: nat)
    requires ResolveResult(v, id, decision.approved, fingerprint) == Resolved && EntryOk(v.pending[id]) && ChannelsOk(v)
    ensures v.pending[id].snapshot.state == Requested && v.pending[id].decision.None?
    ensures id in v.channels && v.channels[id] == Channel(true, None)
    ensures var w, entry := ResolveView(v, id, decision, fingerprint), Resolving(v.pending[id], decision.approved, fingerprint);
            var u := v.(channels := v.channels[id := v.channels[id].(value := Some(decision))]);
            var e := entry.(snapshot := Snapshot(Decided, entry.decision, None));
            && w == Move(u, id, entry, Decided, None).(log := v.log + [Answer(id, decision.approved, Resolved)])
            && w.pending == v.pending[id := e] && w.channels == v.channels[id := Channel(true, Some(decision))]
            && w.issued == v.issued && EntryOk(e) && EntryAdvances(v.pending[id], e)
  {}

  lemma EntryDecided(v: View, w: View, id: Id, decision: Decision)
    requires EntriesOk(v) && ChannelsOk(v) && LogOk(v) && id in v.pending && v.pending[id].decision.None?
    requires id in w.pending && w.pending == v.pending[id := w.pending[id]] && w.issued == v.issued
    requires EntryOk(w.pending[id]) && w.pending[id].decision == Some(decision.approved)
    requires w.pending[id].snapshot.state == Decided && v.channels[id].receiverAlive
    requires w.channels == v.channels[id := Channel(true, Some(decision))]
    requires w.log == v.log + [Answer(id, decision.approved, Resolved)] && ResolvedOnce(w.log)
    ensures EntriesOk(w) && ChannelsOk(w) && LogOk(w)
  {
    assert forall a :: a in w.log <==> a in v.log || a == Answer(id, decision.approved, Resolved);
    assert WasResolved(w.log, id, decision.approved);
  }

  predicate Undecided(v: View, id: Id) { id in v.pending && v.pending[id].snapshot.state in {Requested, Decided} }

  lemma SettledKeeps(v: View, id: Id)
    requires Inv(v)
    ensures Inv(Settled(v, id)) && Advances(v, Settled(v, id))
  {
    if Undecided(v, id) {
      TransitionKeeps(v, id, Canceled, Some("approval request was abandoned"));
      TransitionKeeps(v, id, Failed, Some("approval delivery was interrupted"));
    }
  }

  lemma SettledSettles(v: View, id: Id)
    ensures !Undecided(Settled(v, id), id) && Settled(v, id).channels == v.channels
  {}

  lemma DropKeeps(v: View, id: Id)
    requires Inv(v)
    ensures Inv(DropView(v, id)) && Advances(v, DropView(v, id))
  {
    SettledKeeps(v, id);
    SettledSettles(v, id);
    if id in v.channels {
      CloseChannel(Settled(v, id), id);
      AdvancesTransitive(v, Settled(v, id), DropView(v, id));
    }
  }

  lemma CloseChannel(v: View, id: Id)
    requires Inv(v) && id in v.channels
    requires !Undecided(v, id)
    ensures var w := v.(channels := v.channels[id := v.channels[id].(receiverAlive := false)]);
            Inv(w) && Advances(v, w)
  {}

  lemma AdvancesTransitive(u: View, v: View, w: View)
    requires Inv(u) && Advances(u, v) && Advances(v, w)
    ensures Advances(u, w)
  {}

  // ----- whole runs -----

  /** One public call on the broker. Request ids are never handed out twice. */
  datatype Op =
    | DoRequest(id: Id)
    | DoRequestExternal(id: Id, meta: Meta)
    | DoResolve(id: Id, decision: Decision, fingerprint: nat)
    | DoTransition(id: Id, to: State, error: Option<string>)
    | DoDrop(id: Id)

  function Apply(v: View, op: Op): View {
    match op
    case DoRequest(id) => if id in v.issued then v else Request(v, id)
    case DoRequestExternal(id, meta) => if id in v.issued then v else RequestExternal(v, id, meta)
    case DoResolve(id, decision, fingerprint) => ResolveView(v, id, decision, fingerprint)
    case DoTransition(id, to, error) => Transition(v, id, to, error)
    case DoDrop(id) => DropView(v, id)
  }

  function Run(v: View, ops: seq<Op>): View
    decreases |ops|
  {
    if ops == [] then v else Run(Apply(v, ops[0]), ops[1..])
  }

  lemma ApplyKeeps(v: View, op: Op)
    requires Inv(v)
    ensures Inv(Apply(v, op)) && Advances(v, Apply(v, op))
  {
    match op {
      case DoRequest(id) => if id !in v.issued { RequestKeeps(v, id); }
      case DoRequestExternal(id, meta) => if id !in v.issued { RequestExternalKeeps(v, id, meta); }
      case DoResolve(id, decision, fingerprint) => ResolveKeeps(v, id, decision, fingerprint);
      case DoTransition(id, to, error) => TransitionKeeps(v, id, to, error);
      case DoDrop(id) => DropKeeps(v, id);
    }
  }

  /** From any valid state, any further calls leave a valid state that lies ahead. */
  lemma {:induction false} RunAdvances(v: View, ops: seq<Op>)
    requires Inv(v)
    ensures Inv(Run(v, ops)) && Advances(v, Run(v, ops))
    decreases |ops|
  {
    if ops != [] {
      ApplyKeeps(v, ops[0]);
      RunAdvances(Apply(v, ops[0]), ops[1..]);
      AdvancesTransitive(v, Apply(v, ops[0]), Run(v, ops));
    }
  }

  /** Whatever else happens behind a resolution, answering the same request once more
      changes nothing: the same decision in the same words is told so, and any other
      conflicts, or fails when the request has failed by then. */
  lemma {:induction false} SecondAnswer(v: View, id: Id, decision: Decision, fingerprint: nat, ops: seq<Op>, approved: bool, other: nat)
    requires Inv(v) && ResolveResult(v, id, decision.approved, fingerprint) == Resolved
    ensures var w := Run(ResolveView(v, id, decision, fingerprint), ops);
            ResolveResult(w, id, approved, other) ==
            if id !in w.pending then Missing
            else if approved == decision.approved && other == fingerprint then AlreadyResolved
            else if w.pending[id].snapshot.state == Failed || w.pending[id].snapshot.state == Canceled then ResolveFailed
            else Conflict
  {
    hide Inv, Run, EntriesOk, ChannelsOk, LogOk;
    var u := ResolveView(v, id, decision, fingerprint);
    ResolveKeeps(v, id, decision, fingerprint);
    assert u.pending[id].decision == Some(decision.approved) && u.pending[id].fingerprint == Some(fingerprint);
    assert u.pending[id].snapshot.state == Decided && id in v.pending;
    IssuedEntries(u, id);
    RunAdvances(u, ops);
  }

  lemma IssuedEntries(v: View, id: Id)
    requires Inv(v) && id in v.pending
    ensures id in v.issued
  {}

  /** A request that ended without a decision takes none any more. */
  lemma EndedTakesNone(v: View, id: Id, approved: bool, fingerprint: nat)
    requires Inv(v) && id in v.pending && v.pending[id].decision.None? && v.pending[id].snapshot.state != Requested
    ensures ResolveResult(v, id, approved, fingerprint) == ResolveFailed
  {}

  /** Every reachable state of the broker: an entry holds its sender exactly while
      it is requested, only live requests keep metadata, notices walk the state
      machine, no id is resolved twice, and a dropped waiter leaves nothing open. */
  lemma {:induction false} ReachableStates(ops: seq<Op>)
    ensures Inv(Run(EMPTY, ops))
  {
    RunAdvances(EMPTY, ops);
  }

  // ----- the broker -----

  /** What polling a waiter gives. */
  datatype Wait = Ready(decision: Decision) | Waiting

  const DENIED: Decision := Decision(false, None, Once)

  /** A decision that arrives came from the one `resolve` that returned
      `Resolved`; a waiter that is told to wait still has an open request. */
  lemma ArrivedDecision(v: View, id: Id)
    requires Inv(v)
    ensures id in v.channels && v.channels[id].value.Some? ==>
              WasResolved(v.log, id, v.channels[id].value.value.approved)
    ensures forall approved :: WasResolved(v.log, id, approved) ==> Carries(v.channels, id, approved)
    ensures id in v.pending && v.pending[id].hasSender ==> v.pending[id].snapshot.state == Requested
  {}

  /** Dropping a waiter leaves neither an open request nor an undelivered decision. */
  lemma DropSettles(v: View, id: Id)
    requires id in DropView(v, id).pending
    ensures DropView(v, id).pending[id].snapshot.state != Requested
    ensures DropView(v, id).pending[id].snapshot.state != Decided
  {}

  // ----- requests that are over -----

  /** The requests that can no longer be resolved. */
  ghost function OverIds(v: View): set<Id> {
    set id | id in v.issued && !(id in v.pending && v.pending[id].snapshot.state == Requested)
  }

  function Value(v: View, id: Id): Option<Decision> { if id in v.channels then v.channels[id].value else None }

  ghost predicate Frozen(v: View, w: View) { forall id :: id in OverIds(v) ==> Value(w, id) == Value(v, id) }

  lemma OverStaysOver(v: View, w: View)
    requires Advances(v, w)
    ensures OverIds(v) <= OverIds(w)
  {
    forall id | id in OverIds(v) ensures id in OverIds(w) {
      assert id in v.pending && id in w.pending ==> EntryAdvances(v.pending[id], w.pending[id]);
    }
  }

  lemma ApplyFreezes(v: View, op: Op)
    requires Inv(v)
    ensures Frozen(v, Apply(v, op))
  {
    match op {
      case DoResolve(id, decision, fingerprint) => ResolveFreezes(v, id, decision, fingerprint);
      case DoTransition(id, to, error) => assert Apply(v, op).channels == v.channels;
      case DoDrop(id) => SettledSettles(v, id);
      case _ =>
    }
  }

  lemma ResolveFreezes(v: View, id: Id, decision: Decision, fingerprint: nat)
    requires Inv(v)
    ensures Frozen(v, ResolveView(v, id, decision, fingerprint))
  {
    var w := ResolveView(v, id, decision, fingerprint);
    if ResolveResult(v, id, decision.approved, fingerprint) == Resolved {
      ResolvedMoves(v, id, decision, fingerprint);
      assert id !in OverIds(v);
    } else {
      assert w.channels == v.channels;
    }
  }

  /** No later answer resolves one of these. */
  ghost predicate NoNews(over: set<Id>, log: seq<Answer>, later: seq<Answer>) {
    forall id, approved :: id in over && WasResolved(later, id, approved) ==> WasResolved(log, id, approved)
  }

  lemma FrozenHasNoNews(v: View, w: View)
    requires Inv(v) && Inv(w) && Frozen(v, w)
    ensures NoNews(OverIds(v), v.log, w.log)
  {
    forall id, approved | id in OverIds(v) && WasResolved(w.log, id, approved) ensures WasResolved(v.log, id, approved) {
      assert Carries(w.channels, id, approved);
      assert Value(v, id) == Value(w, id);
    }
  }

  /** Any call keeps what is over as it is. */
  lemma ApplyKeepsOver(v: View, op: Op)
    requires Inv(v)
    ensures var w := Apply(v, op);
            Inv(w) && Advances(v, w) && OverIds(v) <= OverIds(w) && NoNews(OverIds(v), v.log, w.log)
  {
    var w := Apply(v, op);
    ApplyKeeps(v, op);
    OverStaysOver(v, w);
    ApplyFreezes(v, op);
    FrozenHasNoNews(v, w);
  }

  lemma DropEnds(v: View, id: Id)
    requires Inv(v) && id in v.issued
    ensures id in OverIds(DropView(v, id))
  {
    DropKeeps(v, id);
  }

  // ----- ids that were never handed out -----

  lemma {:induction false} LongestId(ids: set<Id>) returns (n: nat)
    ensures forall id :: id in ids ==> |id| <= n
  {
    n := 0;
    if ids != {} {
      var id :| id in ids;
      n := LongestId(ids - {id});
      n := if |id| > n then |id| else n;
    }
  }

  lemma FreshIdExists(ids: set<Id>)
    ensures exists id: Id :: id !in ids
  {
    var n := LongestId(ids);
    var unused: Id := seq(n + 1, _ => 'x');
    assert unused !in ids;
  }

  /** Delivering and then acknowledging takes a decided entry all the way, and
      leaves one that is gone or failed where it is. */
  lemma HandedOver(v: View, id: Id)
    requires Inv(v)
    ensures var u := Transition(v, id, Delivered, None);
            var w := Transition(u, id, Acknowledged, None);
            && Inv(w) && HandsOver(v, u, w, id)
  {
    HandOverMoves(v, id);
    TransitionKeeps(v, id, Delivered, None);
    TransitionKeeps(Transition(v, id, Delivered, None), id, Acknowledged, None);
  }

  predicate HandsOver(v: View, u: View, w: View, id: Id) {
    var delivered := id in u.pending && u.pending[id].snapshot.state in {Delivered, Acknowledged};
    && u.log == w.log == v.log && u.issued == w.issued == v.issued
    && (delivered <==> id in v.pending && v.pending[id].snapshot.state in {Decided, Delivered, Acknowledged})
    && (delivered ==> id in w.pending && w.pending[id].snapshot.state == Acknowledged)
  }

  lemma HandOverMoves(v: View, id: Id)
    ensures var u := Transition(v, id, Delivered, None); HandsOver(v, u, Transition(u, id, Acknowledged, None), id)
  {}

  class ToolApprovalBroker {
    var pending: map<Id, Entry>
    var external: map<Id, Meta>
    var channels: map<Id, Channel>
    var notices: seq<Notice>
    /** Every id handed out so far; a UUID is never handed out again. */
    var issued: set<Id>
    ghost var log: seq<Answer>

    ghost function Now(): View
      reads this
    {
      View(pending, external, channels, notices, issued, log)
    }

    ghost predicate Valid()
      reads this
    {
      Inv(Now())
    }

    /** The requests that can no longer be resolved. */
    ghost function Over(): set<Id>
      reads this
    {
      OverIds(Now())
    }

    constructor ()
      ensures Valid() && Now() == EMPTY
    {
      pending, external, channels, notices, issued, log := map[], map[], map[], [], {}, [];
    }

    function SnapshotOf(id: Id): Option<Snapshot>
      reads this
    {
      if id in pending then Some(pending[id].snapshot) else None
    }

    /** `id` is a fresh UUID. */
    method NewRequest(id: Id)
      requires id !in issued
      modifies this
      ensures Now() == Apply(old(Now()), DoRequest(id))
    {
      if |pending| >= CAPACITY {
        var removed := set i | i in pending && Terminal(pending[i].snapshot.state);
        assert removed == pending.Keys - Evicted(pending).Keys;
        assert pending - removed == Evicted(pending);
        pending := pending - removed;
        external := external - removed;
      }
      pending := pending[id := NEW_ENTRY];
      channels := channels[id := Channel(true, None)];
      issued := issued + {id};
    }

    method NewExternalRequest(id: Id, meta: Meta)
      requires id !in issued
      modifies this
      ensures Now() == Apply(old(Now()), DoRequestExternal(id, meta))
    {
      NewRequest(id);
      external := external[id := meta];
      notices := notices + [Notice(id, meta, Requested, None, None)];
    }

    /** `publish_notice`: a settled request loses its metadata as it is announced. */
    method PublishNotice(id: Id, snapshot: Snapshot)
      modifies `notices, `external
      ensures notices == if id in old(external) then
                old(notices) + [Notice(id, old(external)[id], snapshot.state, snapshot.decision, snapshot.error)]
              else old(notices)
      ensures external == if id in old(external) && Terminal(snapshot.state) then old(external) - {id} else old(external)
    {
      if id in external {
        notices := notices + [Notice(id, external[id], snapshot.state, snapshot.decision, snapshot.error)];
        if Terminal(snapshot.state) {
          external := external - {id};
        }
      }
    }

    method Resolve(id: Id, decision: Decision, fingerprint: nat) returns (result: Resolve)
      modifies this
      ensures result == ResolveResult(old(Now()), id, decision.approved, fingerprint)
      ensures Now() == Apply(old(Now()),
                             DoResolve(id, if decision.approved then decision else decision.(scope := Once), fingerprint))
    {
      var sent := if decision.approved then decision else decision.(scope := Once);
      result := Missing;
      if id in pending {
        var entry := pending[id];
        if entry.snapshot.state != Requested {
          result :=
            if entry.decision == Some(sent.approved) && entry.fingerprint == Some(fingerprint) then AlreadyResolved
            else if entry.snapshot.state == Failed || entry.snapshot.state == Canceled then ResolveFailed
            else Conflict;
        } else if !entry.hasSender {
          result := ResolveFailed;
        } else {
          entry := entry.(hasSender := false, decision := Some(sent.approved), fingerprint := Some(fingerprint));
          if id !in channels || !channels[id].receiverAlive {
            entry := entry.(snapshot := Snapshot(Failed, entry.decision, Some(DISCONNECTED)));
            result := ResolveFailed;
          } else {
            channels := channels[id := channels[id].(value := Some(sent))];
            entry := entry.(snapshot := Snapshot(Decided, entry.decision, None));
            result := Resolved;
          }
          pending := pending[id := entry];
          PublishNotice(id, entry.snapshot);
        }
      }
      log := log + [Answer(id, sent.approved, result)];
    }

    method MoveTo(id: Id, to: State, error: Option<string>) returns (snapshot: Option<Snapshot>)
      modifies `pending, `external, `notices
      ensures Now() == Apply(old(Now()), DoTransition(id, to, error)) && snapshot == SnapshotOf(id)
    {
      if id !in pending {
        return None;
      }
      var entry := pending[id];
      if !Allowed(entry.snapshot.state, to) {
        return Some(entry.snapshot);
      }
      if to == Failed || to == Canceled {
        entry := entry.(hasSender := false);
      }
      entry := entry.(snapshot := Snapshot(to, entry.decision, error));
      pending := pending[id := entry];
      PublishNotice(id, entry.snapshot);
      snapshot := Some(entry.snapshot);
    }

    /** One poll of `PendingApproval::wait`. */
    method Poll(id: Id) returns (r: Wait)
      modifies `pending, `external, `notices
      ensures var v := old(Now());
              if id in v.channels && v.channels[id].value.Some? then r == Ready(v.channels[id].value.value) && Now() == v
              else if id in v.pending && v.pending[id].hasSender then r == Waiting && Now() == v
              else r == Ready(DENIED) && Now() == Apply(v, DoTransition(id, Failed, Some("approval request was canceled")))
    {
      if id in channels && channels[id].value.Some? {
        return Ready(channels[id].value.value);
      }
      if id in pending && pending[id].hasSender {
        return Waiting;
      }
      var _ := MoveTo(id, Failed, Some("approval request was canceled"));
      r := Ready(DENIED);
    }

    method Deliver(id: Id) returns (delivered: bool)
      modifies `pending, `external, `notices
      ensures Now() == Apply(old(Now()), DoTransition(id, Delivered, None))
      ensures delivered <==> id in pending && pending[id].snapshot.state in {Delivered, Acknowledged}
    {
      var snapshot := MoveTo(id, Delivered, None);
      delivered := snapshot.Some? && snapshot.value.state in {Delivered, Acknowledged};
    }

    method Drop(id: Id)
      modifies `pending, `external, `notices, `channels
      ensures Now() == Apply(old(Now()), DoDrop(id))
    {
      if id in pending {
        if pending[id].snapshot.state == Requested {
          var _ := MoveTo(id, Canceled, Some("approval request was abandoned"));
        } else if pending[id].snapshot.state == Decided {
          var _ := MoveTo(id, Failed, Some("approval delivery was interrupted"));
        }
      }
      if id in channels {
        channels := channels[id := channels[id].(receiverAlive := false)];
      }
    }

    // The calls a waiting run makes: what each keeps, and what an approval means.

    /** `request`: a fresh id. */
    method Request() returns (id: Id)
      requires Valid()
      modifies this
      ensures Valid() && log == old(log) && id !in old(issued) && issued == old(issued) + {id}
      ensures old(Over()) <= Over()
    {
      FreshIdExists(issued);
      id :| id !in issued;
      RequestKeeps(Now(), id);
      OverStaysOver(Now(), Apply(Now(), DoRequest(id)));
      NewRequest(id);
    }

    /** One look at a waiter; a decision is delivered and acknowledged as soon as
        it is there, and it is an approval exactly when one was `Resolved`. It takes
        effect either way; `delivered` tells whether the entry could still be
        delivered, which fails exactly when it is gone or failed by then. */
    method TakeDecision(id: Id) returns (r: Wait, delivered: bool)
      requires Valid()
      modifies `pending, `external, `notices
      ensures Valid() && log == old(log) && issued == old(issued) && old(Over()) <= Over()
      ensures r.Ready? && r.decision.approved ==>
                (delivered <==> id in old(pending) && old(pending)[id].snapshot.state in {Decided, Delivered, Acknowledged})
      ensures delivered ==> id in pending && pending[id].snapshot.state == Acknowledged
      ensures r.Ready? && r.decision.approved <==> WasResolved(log, id, true)
      ensures WasResolved(log, id, false) ==> r.Ready?
    {
      ArrivedDecision(Now(), id);
      ApplyKeepsOver(Now(), DoTransition(id, Failed, Some("approval request was canceled")));
      delivered := false;
      r := Poll(id);
      if r.Ready? {
        delivered := HandOver(id);
      }
    }

    /** Deliver a decision and acknowledge it. */
    method HandOver(id: Id) returns (delivered: bool)
      requires Valid()
      modifies `pending, `external, `notices
      ensures Valid() && old(Over()) <= Over()
      ensures delivered <==> id in old(pending) && old(pending)[id].snapshot.state in {Decided, Delivered, Acknowledged}
      ensures delivered ==> id in pending && pending[id].snapshot.state == Acknowledged
    {
      hide Inv, OverIds, Transition;
      HandedOver(Now(), id);
      ApplyKeepsOver(Now(), DoTransition(id, Delivered, None));
      ApplyKeepsOver(Apply(Now(), DoTransition(id, Delivered, None)), DoTransition(id, Acknowledged, None));
      delivered := Deliver(id);
      var _ := MoveTo(id, Acknowledged, None);
    }

    /** A waiter that gives up, or is done: `fail` when it gives up, then dropped. */
    method Release(id: Id, error: Option<string>)
      requires Valid()
      modifies `pending, `external, `notices, `channels
      ensures Valid() && log == old(log) && issued == old(issued) && old(Over()) <= Over()
      ensures id in issued ==> id in Over()
    {
      hide Inv, OverIds, Transition, DropView;
      if error.Some? {
        ApplyKeepsOver(Now(), DoTransition(id, Failed, error));
        var _ := MoveTo(id, Failed, error);
      }
      ApplyKeepsOver(Now(), DoDrop(id));
      if id in issued {
        DropEnds(Now(), id);
      }
      Drop(id);
    }

    /** A call somebody else makes on the shared broker, whichever it is. */
    method Elsewhere()
      requires Valid()
      modifies this
      ensures Valid() && old(log) <= log && old(issued) <= issued
      ensures old(Over()) <= Over() && NoNews(old(Over()), old(log), log)
    {
      var id: Id, decision: Decision, to: State, error: Option<string> := *, *, *, *;
      var fingerprint :| fingerprint >= 0;
      if {
        case true =>
          ApplyKeepsOver(Now(), DoResolve(id, if decision.approved then decision else decision.(scope := Once), fingerprint));
          var _ := Resolve(id, decision, fingerprint);
        case true =>
          ApplyKeepsOver(Now(), DoTransition(id, to, error));
          var _ := MoveTo(id, to, error);
        case id !in issued =>
          var meta: Meta := *;
          ApplyKeepsOver(Now(), DoRequestExternal(id, meta));
          NewExternalRequest(id, meta);
        case id !in issued =>
          ApplyKeepsOver(Now(), DoRequest(id));
          NewRequest(id);
        case true =>
          Release(id, error);
      }
    }

    /** The ids a run still has metadata for. */
    function ExternalIds(runId: string): set<Id>
      reads this
    {
      set id | id in external && external[id].runId == runId
    }

    /** Every decision the run's runtime took up is acknowledged, and nothing else moves. */
    method AcknowledgeRun(runId: string) returns (ghost calls: seq<Op>)
      modifies `pending, `external, `notices
      ensures Now() == Run(old(Now()), calls)
      ensures MovedExactly(old(Now()), Now(), old(ExternalIds(runId)), s => s == Delivered, Acknowledged, None)
    {
      calls := MoveEach(ExternalIds(runId), s => s == Delivered, Acknowledged, None);
    }

    /** A failed run takes all its open requests with it. */
    method FailRun(runId: string, error: string) returns (ghost calls: seq<Op>)
      modifies `pending, `external, `notices
      ensures Now() == Run(old(Now()), calls)
      ensures MovedExactly(old(Now()), Now(), old(ExternalIds(runId)), s => !Terminal(s), Failed, Some(error))
    {
      calls := MoveEach(ExternalIds(runId), s => !Terminal(s), Failed, Some(error));
    }

    method MoveEach(ids: set<Id>, from: State -> bool, to: State, error: Option<string>) returns (ghost calls: seq<Op>)
      requires forall s :: from(s) ==> Allowed(s, to)
      modifies `pending, `external, `notices
      ensures Now() == Run(old(Now()), calls)
      ensures MovedExactly(old(Now()), Now(), ids, from, to, error)
    {
      var left := ids;
      calls := [];
      while left != {}
        invariant left <= ids && Now() == Run(old(Now()), calls)
        invariant MovedExactly(old(Now()), Now(), ids - left, from, to, error)
        decreases left
      {
        var id :| id in left;
        MovedOneMore(old(Now()), Now(), ids - left, id, from, to, error);
        assert ids - (left - {id}) == ids - left + {id};
        if id in pending && from(pending[id].snapshot.state) {
          var _ := MoveTo(id, to, error);
          RunSnoc(old(Now()), calls, DoTransition(id, to, error));
          calls := calls + [DoTransition(id, to, error)];
        }
        left := left - {id};
      }
      assert ids - left == ids;
    }
  }

  lemma {:induction false} RunSnoc(v: View, ops: seq<Op>, op: Op)
    ensures Run(v, ops + [op]) == Apply(Run(v, ops), op)
    decreases |ops|
  {
    if ops == [] {
      assert ops + [op] == [op];
      assert Run(v, [op]) == Run(Apply(v, op), []);
    } else {
      assert (ops + [op])[1..] == ops[1..] + [op];
      RunSnoc(Apply(v, ops[0]), ops[1..], op);
    }
  }

  /** Exactly the named entries in a state `from` accepts have moved. */
  ghost predicate MovedExactly(v: View, w: View, ids: set<Id>, from: State -> bool, to: State, error: Option<string>) {
    && w.pending.Keys == v.pending.Keys
    && forall id :: id in v.pending ==>
         if id in ids && from(v.pending[id].snapshot.state)
         then w.pending[id].snapshot == Snapshot(to, v.pending[id].decision, error)
         else w.pending[id] == v.pending[id]
  }

  lemma MovedOneMore(v: View, w: View, done: set<Id>, id: Id, from: State -> bool, to: State, error: Option<string>)
    requires MovedExactly(v, w, done, from, to, error) && id !in done
    requires forall s :: from(s) ==> Allowed(s, to)
    ensures var moves := id in w.pending && from(w.pending[id].snapshot.state);
            MovedExactly(v, if moves then Transition(w, id, to, error) else w, done + {id}, from, to, error)
  {}
}
