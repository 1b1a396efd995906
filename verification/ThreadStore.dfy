/** Parent and child agent threads, their events, and worker runs (`ThreadStore`).
    A table is a map by primary key; the event table is a sequence in insertion
    order. Row timestamps are not part of the model, except that a row is or is
    not finished. */
module ThreadStore {
  import opened Wrappers

  type Id = string

  datatype Status = Queued | Running | Done | Stopped | Error

  datatype RunStatus = RunProposed | RunRunning | RunDone | RunPartial | RunStopped | RunError

  datatype AgentThread = AgentThread(
    parent: Id, root: Id, status: Status, summary: Option<string>, error: Option<string>, finished: bool, runId: Option<Id>)

  datatype Event = Event(thread: Id, seqNo: nat, kind: string, payload: string)

  datatype WorkerRun = WorkerRun(parentThread: Id, status: RunStatus, error: Option<string>, finished: bool)

  predicate Terminal(s: Status) { s in {Done, Stopped, Error} }

  type Threads = map<Id, AgentThread>

  // ----- ancestry -----

  /** `n` parent links lead from `id` to `ancestor`. */
  ghost predicate Reaches(threads: Threads, id: Id, ancestor: Id, n: nat)
    decreases n
  {
    if n == 0 then id == ancestor else id in threads && Reaches(threads, threads[id].parent, ancestor, n - 1)
  }

  ghost predicate Descends(threads: Threads, id: Id, ancestor: Id) { exists n: nat :: Reaches(threads, id, ancestor, n) }

  /** `root_id` is the top ancestor of every thread. */
  ghost predicate Forest(threads: Threads) {
    forall id :: id in threads ==> threads[id].root !in threads && Descends(threads, id, threads[id].root)
  }

  /** Ids a fresh id must differ from. */
  predicate Mentions(threads: Threads, id: Id) {
    id in threads || exists t :: t in threads && (threads[t].parent == id || threads[t].root == id)
  }

  lemma {:induction false} ReachesInLarger(threads: Threads, larger: Threads, id: Id, ancestor: Id, n: nat)
    requires Reaches(threads, id, ancestor, n)
    requires forall t :: t in threads ==> t in larger && larger[t].parent == threads[t].parent
    ensures Reaches(larger, id, ancestor, n)
    decreases n
  {
    if n > 0 {
      ReachesInLarger(threads, larger, threads[id].parent, ancestor, n - 1);
    }
  }

  /** Climbing is deterministic, so there is only one place to stop. */
  lemma {:induction false} TopIsUnique(threads: Threads, id: Id, a: Id, n: nat, b: Id, m: nat)
    requires Reaches(threads, id, a, n) && Reaches(threads, id, b, m) && a !in threads && b !in threads
    ensures a == b
    decreases n
  {
    if n > 0 && m > 0 {
      TopIsUnique(threads, threads[id].parent, a, n - 1, b, m - 1);
    }
  }

  lemma RootIffDescends(threads: Threads, id: Id, root: Id)
    requires Forest(threads) && id in threads && root !in threads
    ensures Descends(threads, id, root) <==> threads[id].root == root
  {
    if Descends(threads, id, root) {
      var n: nat :| Reaches(threads, id, threads[id].root, n);
      var m: nat :| Reaches(threads, id, root, m);
      TopIsUnique(threads, id, threads[id].root, n, root, m);
    }
  }

  lemma RootOfParent(threads: Threads, id: Id)
    requires Forest(threads) && id in threads
    ensures threads[id].root == RootFor(threads, threads[id].parent)
  {
    var parent := threads[id].parent;
    if parent in threads {
      var n: nat :| Reaches(threads, parent, threads[parent].root, n);
      assert Reaches(threads, id, threads[parent].root, n + 1);
      RootIffDescends(threads, id, threads[parent].root);
    } else {
      assert Reaches(threads, parent, parent, 0);
      assert Reaches(threads, id, parent, 1);
      RootIffDescends(threads, id, parent);
    }
  }

  function RootFor(threads: Threads, parent: Id): Id {
    if parent in threads then threads[parent].root else parent
  }

  function Inserted(threads: Threads, id: Id, parent: Id, runId: Option<Id>): Threads {
    threads[id := AgentThread(parent, RootFor(threads, parent), Queued, None, None, false, runId)]
  }

  lemma InsertKeepsForest(threads: Threads, id: Id, parent: Id, runId: Option<Id>)
    requires Forest(threads) && !Mentions(threads, id) && parent != id
    ensures Forest(Inserted(threads, id, parent, runId))
  {
    var w := Inserted(threads, id, parent, runId);
    forall t | t in w ensures w[t].root !in w && Descends(w, t, w[t].root) {
      if t != id {
        var n: nat :| Reaches(threads, t, threads[t].root, n);
        ReachesInLarger(threads, w, t, threads[t].root, n);
      } else if parent in threads {
        var n: nat :| Reaches(threads, parent, threads[parent].root, n);
        ReachesInLarger(threads, w, parent, threads[parent].root, n);
        assert Reaches(w, id, threads[parent].root, n + 1);
      } else {
        assert Reaches(w, parent, parent, 0);
        assert Reaches(w, id, parent, 1);
      }
    }
  }

  // ----- deleting a tree -----

  /** The rows `tree_ids` selects. */
  function TreeIds(threads: Threads, id: Id): set<Id> {
    set t | t in threads && (t == id || threads[t].parent == id || threads[t].root == id)
  }

  ghost function Subtree(threads: Threads, id: Id): set<Id> {
    set t | t in threads && Descends(threads, t, id)
  }

  predicate HasGrandchild(threads: Threads, id: Id) {
    exists t :: t in threads && threads[t].parent in threads && threads[threads[t].parent].parent == id
  }

  /** The selection is the whole subtree for a top-level thread; for any other it
      stops at direct children, so it is the whole subtree exactly when there are
      no grandchildren. */
  lemma TreeIdsIsSubtreeIff(threads: Threads, id: Id)
    requires Forest(threads)
    ensures TreeIds(threads, id) == Subtree(threads, id) <==> id !in threads || !HasGrandchild(threads, id)
  {
    forall t | t in TreeIds(threads, id) ensures t in Subtree(threads, id) {
      if t == id {
        assert Reaches(threads, t, id, 0);
      } else if threads[t].parent == id {
        assert Reaches(threads, id, id, 0);
        assert Reaches(threads, t, id, 1);
      }
    }
    if id !in threads {
      forall t | t in Subtree(threads, id) ensures t in TreeIds(threads, id) {
        RootIffDescends(threads, t, id);
      }
    } else if HasGrandchild(threads, id) {
      var t :| t in threads && threads[t].parent in threads && threads[threads[t].parent].parent == id;
      GrandchildIsMissed(threads, id, t);
    } else {
      forall t | t in Subtree(threads, id) ensures t in TreeIds(threads, id) {
        var n: nat :| Reaches(threads, t, id, n);
        CloseDescendant(threads, id, t, n);
      }
    }
  }

  lemma GrandchildIsMissed(threads: Threads, id: Id, t: Id)
    requires Forest(threads) && id in threads && t in threads
    requires threads[t].parent in threads && threads[threads[t].parent].parent == id
    ensures TreeIds(threads, id) != Subtree(threads, id)
  {
    var p := threads[t].parent;
    assert Reaches(threads, id, id, 0);
    assert Reaches(threads, p, id, 1);
    assert Reaches(threads, t, id, 2);
    if t in TreeIds(threads, id) {
      // `t` is `id`, its own grandparent, or `id` is its own parent: climbing never ends.
      var n: nat :| Reaches(threads, id, threads[id].root, n);
      NoCycle(threads, id, if t == id then 2 else 1, threads[id].root, n);
    }
  }

  /** Nothing that reaches a top ancestor lies on a cycle. */
  lemma {:induction false} NoCycle(threads: Threads, id: Id, k: nat, top: Id, n: nat)
    requires k > 0 && Reaches(threads, id, id, k) && Reaches(threads, id, top, n) && top !in threads
    ensures false
    decreases n
  {
    if n > 0 {
      ReachesStep(threads, id, id, k);
      NoCycle(threads, threads[id].parent, k, top, n - 1);
    }
  }

  lemma {:induction false} ReachesStep(threads: Threads, id: Id, ancestor: Id, k: nat)
    requires Reaches(threads, id, ancestor, k) && ancestor in threads && k > 0
    ensures Reaches(threads, threads[id].parent, threads[ancestor].parent, k)
    decreases k
  {
    if k == 1 {
      assert Reaches(threads, threads[ancestor].parent, threads[ancestor].parent, 0);
    } else {
      ReachesStep(threads, threads[id].parent, ancestor, k - 1);
    }
  }

  lemma {:induction false} CloseDescendant(threads: Threads, id: Id, t: Id, n: nat)
    requires id in threads && t in threads && !HasGrandchild(threads, id) && Reaches(threads, t, id, n)
    ensures t == id || threads[t].parent == id
    decreases n
  {
    if n > 1 {
      CloseDescendant(threads, id, threads[t].parent, n - 1);
    }
  }

  lemma {:induction false} ReachesAvoids(threads: Threads, smaller: Threads, id: Id, ancestor: Id, n: nat)
    requires Reaches(threads, id, ancestor, n)
    requires forall t :: t in threads && Descends(threads, t, ancestor) ==> t in smaller && smaller[t] == threads[t]
    ensures Reaches(smaller, id, ancestor, n)
    decreases n
  {
    if n > 0 {
      ReachesAvoids(threads, smaller, threads[id].parent, ancestor, n - 1);
    }
  }

  /** Deleting below a top-level thread leaves the other trees whole. */
  lemma DeleteKeepsForest(threads: Threads, id: Id)
    requires Forest(threads) && id !in threads
    ensures Forest(threads - TreeIds(threads, id))
  {
    TreeIdsIsSubtreeIff(threads, id);
    var left := threads - TreeIds(threads, id);
    forall t | t in left ensures left[t].root !in left && Descends(left, t, left[t].root) {
      var root := threads[t].root;
      var n: nat :| Reaches(threads, t, root, n);
      forall s | s in threads && Descends(threads, s, root) ensures s in left && left[s] == threads[s] {
        RootIffDescends(threads, s, root);
        RootOfParent(threads, s);
      }
      ReachesAvoids(threads, left, t, root, n);
    }
  }

  // ----- events and cursors -----

  ghost predicate InOrder(events: seq<Event>) {
    forall i, j :: 0 <= i < j < |events| ==> events[i].seqNo < events[j].seqNo
  }

  ghost predicate EventsOk(threads: Threads, events: seq<Event>) {
    InOrder(events) && forall e :: e in events ==> e.thread in threads && e.seqNo >= 1
  }

  function MaxSeq(events: seq<Event>): nat {
    if events == [] then 0 else Max(MaxSeq(events[..|events| - 1]), events[|events| - 1].seqNo)
  }

  function Max(a: nat, b: nat): nat { if a > b then a else b }

  lemma {:induction false} MaxSeqBounds(events: seq<Event>)
    ensures forall e :: e in events ==> e.seqNo <= MaxSeq(events)
  {
    if events != [] {
      MaxSeqBounds(events[..|events| - 1]);
    }
  }

  predicate IsChild(threads: Threads, parent: Id, e: Event) { e.thread in threads && threads[e.thread].parent == parent }

  /** The child events numbered above `low` and up to `high`, by number: a
      selection from a table that is already in order. */
  function Select(threads: Threads, events: seq<Event>, parent: Id, low: int, high: nat): seq<Event> {
    if events == [] then []
    else
      var last := events[|events| - 1];
      Select(threads, events[..|events| - 1], parent, low, high)
      + if IsChild(threads, parent, last) && low < last.seqNo <= high then [last] else []
  }

  function ChildEvents(threads: Threads, events: seq<Event>, parent: Id, after: int): seq<Event> {
    Select(threads, events, parent, after, MaxSeq(events))
  }

  const MAX_PAGE: nat := 5000

  function Clamp(limit: nat): nat { if limit < 1 then 1 else if limit > MAX_PAGE then MAX_PAGE else limit }

  function Page(threads: Threads, events: seq<Event>, parent: Id, after: int, limit: nat): seq<Event> {
    var all := ChildEvents(threads, events, parent, after);
    if |all| <= Clamp(limit) then all else all[..Clamp(limit)]
  }

  function CursorAfter(cursor: int, page: seq<Event>): int {
    if page == [] then cursor else page[|page| - 1].seqNo
  }

  /** The selection holds exactly the rows it asks for, in order. */
  lemma {:induction false} SelectSelects(threads: Threads, events: seq<Event>, parent: Id, low: int, high: nat)
    ensures forall e :: e in Select(threads, events, parent, low, high) <==>
                        e in events && IsChild(threads, parent, e) && low < e.seqNo <= high
    ensures InOrder(events) ==> InOrder(Select(threads, events, parent, low, high))
  {
    if events != [] {
      var before, last := events[..|events| - 1], events[|events| - 1];
      SelectSelects(threads, before, parent, low, high);
      var kept := Select(threads, before, parent, low, high);
      var more := if IsChild(threads, parent, last) && low < last.seqNo <= high then [last] else [];
      assert events == before + [last] && Select(threads, events, parent, low, high) == kept + more;
      assert forall e :: e in kept + more <==> e in kept || e in more;
      if InOrder(events) {
        StaysInOrder(before, last, kept);
      }
    }
  }

  lemma StaysInOrder(before: seq<Event>, last: Event, kept: seq<Event>)
    requires InOrder(before + [last]) && InOrder(kept) && forall e :: e in kept ==> e in before
    ensures InOrder(kept + [last])
  {
    forall i | 0 <= i < |kept| ensures kept[i].seqNo < last.seqNo {
      assert kept[i] in kept;
      var k :| 0 <= k < |before| && before[k] == kept[i];
      assert (before + [last])[k] == kept[i] && (before + [last])[|before|] == last;
    }
  }

  lemma {:induction false} SelectSplits(threads: Threads, events: seq<Event>, parent: Id, low: int, mid: nat, high: nat)
    requires InOrder(events) && low <= mid <= high
    ensures Select(threads, events, parent, low, high) ==
            Select(threads, events, parent, low, mid) + Select(threads, events, parent, mid, high)
  {
    if events != [] {
      var before, last := events[..|events| - 1], events[|events| - 1];
      SelectSplits(threads, before, parent, low, mid, high);
      var a, b := Select(threads, before, parent, low, mid), Select(threads, before, parent, mid, high);
      if IsChild(threads, parent, last) && low < last.seqNo <= high {
        if last.seqNo <= mid {
          NothingLater(threads, before, parent, mid, high);
          assert b == [];
        } else {
          assert (a + b) + [last] == a + (b + [last]);
        }
      }
    }
  }

  lemma {:induction false} NothingLater(threads: Threads, events: seq<Event>, parent: Id, mid: nat, high: nat)
    requires forall e :: e in events ==> e.seqNo <= mid
    ensures Select(threads, events, parent, mid, high) == []
  {
    if events != [] {
      NothingLater(threads, events[..|events| - 1], parent, mid, high);
    }
  }

  /** The selection looks at parents only, so new rows elsewhere do not disturb it. */
  lemma {:induction false} SelectAgrees(threads: Threads, larger: Threads, events: seq<Event>, parent: Id, low: int, high: nat)
    requires forall e :: e in events ==> e.thread in threads && e.thread in larger && larger[e.thread] == threads[e.thread]
    ensures Select(threads, events, parent, low, high) == Select(larger, events, parent, low, high)
  {
    if events != [] {
      SelectAgrees(threads, larger, events[..|events| - 1], parent, low, high);
    }
  }

  /** One page takes the reader from everything up to its cursor to everything up
      to its next cursor. */
  lemma {:induction false} PageExtends(threads: Threads, events: seq<Event>, parent: Id, cursor: nat, limit: nat)
    requires InOrder(events) && cursor <= MaxSeq(events)
    ensures var page := Page(threads, events, parent, cursor, limit);
            && Select(threads, events, parent, 0, cursor) + page
               == Select(threads, events, parent, 0, CursorAfter(cursor, page))
            && cursor <= CursorAfter(cursor, page) <= MaxSeq(events)
  {
    var all := ChildEvents(threads, events, parent, cursor);
    var page := Page(threads, events, parent, cursor, limit);
    if page != [] {
      SelectSelects(threads, events, parent, cursor, MaxSeq(events));
      assert page[|page| - 1] in all;
      PageIsCut(threads, events, parent, cursor, |page|);
      SelectSplits(threads, events, parent, 0, cursor, page[|page| - 1].seqNo);
    }
  }

  /** The first rows of a selection are those numbered up to the last of them. */
  lemma {:induction false} PageIsCut(threads: Threads, events: seq<Event>, parent: Id, cursor: nat, k: nat)
    requires InOrder(events)
    requires 0 < k <= |ChildEvents(threads, events, parent, cursor)|
    ensures var all := ChildEvents(threads, events, parent, cursor);
            all[..k] == Select(threads, events, parent, cursor, all[k - 1].seqNo)
  {
    var all := ChildEvents(threads, events, parent, cursor);
    SelectSelects(threads, events, parent, cursor, MaxSeq(events));
    assert all[k - 1] in all;
    var next := all[k - 1].seqNo;
    var low, high := Select(threads, events, parent, cursor, next), Select(threads, events, parent, next, MaxSeq(events));
    SelectSelects(threads, events, parent, cursor, next);
    SelectSelects(threads, events, parent, next, MaxSeq(events));
    SelectSplits(threads, events, parent, cursor, next, MaxSeq(events));
    assert forall i :: 0 <= i < |low| ==> low[i] in low;
    assert forall i :: 0 <= i < |high| ==> high[i] in high;
    assert all == low + high;
    assert k < |all| ==> all[k].seqNo > next;
  }

  // ----- whole histories of creates, appends and pages -----

  datatype Step =
    | Create(id: Id, parent: Id, runId: Option<Id>)
    | Append(thread: Id, kind: string, payload: string)
    | ReadPage(limit: nat)

  datatype Reader = Reader(threads: Threads, events: seq<Event>, cursor: nat, delivered: seq<Event>)

  function Appended(events: seq<Event>, thread: Id, kind: string, payload: string): seq<Event> {
    events + [Event(thread, MaxSeq(events) + 1, kind, payload)]
  }

  /** A create uses an id nothing mentions yet; an append to a thread that does
      not exist is refused by the foreign key. */
  function Next(r: Reader, parent: Id, s: Step): Reader {
    match s
    case Create(id, p, runId) =>
      if Mentions(r.threads, id) || id == p then r else r.(threads := Inserted(r.threads, id, p, runId))
    case Append(thread, kind, payload) =>
      if thread in r.threads then r.(events := Appended(r.events, thread, kind, payload)) else r
    case ReadPage(limit) =>
      var page := Page(r.threads, r.events, parent, r.cursor, limit);
      r.(cursor := CursorAfter(r.cursor, page), delivered := r.delivered + page)
  }

  function History(r: Reader, parent: Id, steps: seq<Step>): Reader {
    if steps == [] then r else Next(History(r, parent, steps[..|steps| - 1]), parent, steps[|steps| - 1])
  }

  ghost predicate ReaderOk(r: Reader, parent: Id) {
    && Forest(r.threads) && EventsOk(r.threads, r.events) && r.cursor <= MaxSeq(r.events)
    && r.delivered == Select(r.threads, r.events, parent, 0, r.cursor)
  }

  lemma {:induction false} AppendKeepsOrder(threads: Threads, events: seq<Event>, thread: Id, kind: string, payload: string)
    requires EventsOk(threads, events) && thread in threads
    ensures EventsOk(threads, Appended(events, thread, kind, payload))
    ensures MaxSeq(Appended(events, thread, kind, payload)) == MaxSeq(events) + 1
  {
    MaxSeqBounds(events);
    var all := Appended(events, thread, kind, payload);
    assert all[..|events|] == events;
    forall i | 0 <= i < |events| ensures events[i].seqNo < all[|events|].seqNo {
      assert events[i] in events;
    }
  }

  lemma {:induction false} SelectBehind(threads: Threads, events: seq<Event>, e: Event, parent: Id, low: int, high: nat)
    requires e.seqNo > high
    ensures Select(threads, events + [e], parent, low, high) == Select(threads, events, parent, low, high)
  {
    assert (events + [e])[..|events|] == events;
  }

  lemma NextKeeps(r: Reader, parent: Id, s: Step)
    requires ReaderOk(r, parent)
    ensures ReaderOk(Next(r, parent, s), parent)
  {
    match s {
      case Create(id, p, runId) => CreateKeeps(r, parent, id, p, runId);
      case Append(thread, kind, payload) => AppendKeeps(r, parent, thread, kind, payload);
      case ReadPage(limit) => PageKeeps(r, parent, limit);
    }
  }

  lemma CreateKeeps(r: Reader, parent: Id, id: Id, p: Id, runId: Option<Id>)
    requires ReaderOk(r, parent)
    ensures ReaderOk(Next(r, parent, Create(id, p, runId)), parent)
  {
    hide Select, MaxSeq, Forest;
    if !Mentions(r.threads, id) && id != p {
      InsertKeepsForest(r.threads, id, p, runId);
      SelectAgrees(r.threads, Inserted(r.threads, id, p, runId), r.events, parent, 0, r.cursor);
    }
  }

  lemma AppendKeeps(r: Reader, parent: Id, thread: Id, kind: string, payload: string)
    requires ReaderOk(r, parent)
    ensures ReaderOk(Next(r, parent, Append(thread, kind, payload)), parent)
  {
    hide Select, MaxSeq, Forest, EventsOk;
    if thread in r.threads {
      AppendKeepsOrder(r.threads, r.events, thread, kind, payload);
      SelectBehind(r.threads, r.events, Event(thread, MaxSeq(r.events) + 1, kind, payload), parent, 0, r.cursor);
    }
  }

  lemma PageKeeps(r: Reader, parent: Id, limit: nat)
    requires ReaderOk(r, parent)
    ensures ReaderOk(Next(r, parent, ReadPage(limit)), parent)
  {
    hide Select, MaxSeq, Forest, Page;
    PageExtends(r.threads, r.events, parent, r.cursor, limit);
  }

  /** Whatever is created and appended between its pages, a reader that pages by
      its last seen number has received exactly the child events up to it, each
      once and in strictly increasing order; and with a page that is not full it
      has received every child event there is. */
  lemma {:induction false} PagingIsExact(parent: Id, steps: seq<Step>)
    ensures var r := History(Reader(map[], [], 0, []), parent, steps);
            && ReaderOk(r, parent) && InOrder(r.delivered)
            && forall limit :: |Page(r.threads, r.events, parent, r.cursor, limit)| < Clamp(limit) ==>
                 r.delivered + Page(r.threads, r.events, parent, r.cursor, limit) == ChildEvents(r.threads, r.events, parent, 0)
    decreases |steps|
  {
    var start := Reader(map[], [], 0, []);
    var r := History(start, parent, steps);
    if steps != [] {
      PagingIsExact(parent, steps[..|steps| - 1]);
      NextKeeps(History(start, parent, steps[..|steps| - 1]), parent, steps[|steps| - 1]);
    }
    SelectSelects(r.threads, r.events, parent, 0, r.cursor);
    SelectSplits(r.threads, r.events, parent, 0, r.cursor, MaxSeq(r.events));
  }

  /** What a cut leaves out comes later than all it keeps. */
  lemma PageLeaves(all: seq<Event>, most: nat)
    requires InOrder(all)
    ensures |all| > most ==>
              forall e, p :: e in all && e !in all[..most] && p in all[..most] ==> p.seqNo < e.seqNo
  {
    if |all| > most {
      forall k | 0 <= k < most ensures all[k] in all[..most] {
        assert all[..most][k] == all[k];
      }
      forall e, p | e in all && e !in all[..most] && p in all[..most] ensures p.seqNo < e.seqNo {
        var i :| 0 <= i < |all| && all[i] == e;
        var j :| 0 <= j < most && all[j] == p;
      }
    }
  }

  // ----- the store -----

  function Without(events: seq<Event>, gone: set<Id>): seq<Event> {
    if events == [] then []
    else
      var last := events[|events| - 1];
      Without(events[..|events| - 1], gone) + if last.thread in gone then [] else [last]
  }

  /** Deleting events keeps the others, in order, and none of a deleted thread. */
  lemma {:induction false} WithoutRemoves(events: seq<Event>, gone: set<Id>)
    ensures forall e :: e in Without(events, gone) <==> e in events && e.thread !in gone
    ensures InOrder(events) ==> InOrder(Without(events, gone))
  {
    if events != [] {
      var before, last := events[..|events| - 1], events[|events| - 1];
      WithoutRemoves(before, gone);
      var kept, more := Without(before, gone), if last.thread in gone then [] else [last];
      assert events == before + [last] && Without(events, gone) == kept + more;
      assert forall e :: e in kept + more <==> e in kept || e in more;
      if InOrder(events) {
        StaysInOrder(before, last, kept);
      }
    }
  }

  /** Deleting a top-level thread removes exactly its descendants, and leaves a
      forest whose every event still has its thread. */
  lemma {:induction false} DeleteTreeIsExact(threads: Threads, events: seq<Event>, id: Id)
    requires Forest(threads) && EventsOk(threads, events) && id !in threads
    ensures var left := threads - TreeIds(threads, id);
            && (forall t :: t in left <==> t in threads && !Descends(threads, t, id))
            && Forest(left) && EventsOk(left, Without(events, TreeIds(threads, id)))
  {
    TreeIdsIsSubtreeIff(threads, id);
    DeleteKeepsForest(threads, id);
    WithoutRemoves(events, TreeIds(threads, id));
    assert forall t :: t in Subtree(threads, id) <==> t in threads && Descends(threads, t, id);
  }

  /** The workers of a run. */
  function Workers(threads: Threads, run: Id): set<Id> {
    set t | t in threads && threads[t].runId == Some(run)
  }

  /** A run's status, told from its workers. */
  ghost predicate IsStatusOf(threads: Threads, workers: set<Id>, status: RunStatus)
    requires workers <= threads.Keys
  {
    match status
    case RunProposed => false
    case RunRunning => exists w :: w in workers && !Terminal(threads[w].status)
    case RunDone => forall w :: w in workers ==> threads[w].status == Done
    case RunStopped => forall w :: w in workers ==> threads[w].status == Stopped
    case RunPartial =>
      && (forall w :: w in workers ==> Terminal(threads[w].status))
      && (exists w :: w in workers && threads[w].status == Done)
      && (exists w :: w in workers && threads[w].status != Done)
    case RunError =>
      && (forall w :: w in workers ==> Terminal(threads[w].status) && threads[w].status != Done)
      && (exists w :: w in workers && threads[w].status != Stopped)
  }

  lemma SameSizeSameSet(a: set<Id>, b: set<Id>)
    requires a <= b
    ensures |a| == |b| <==> a == b
  {
    assert b == a + (b - a);
    assert |b| == |a| + |b - a|;
  }

  class ThreadStore {
    var threads: Threads
    var events: seq<Event>
    var runs: map<Id, WorkerRun>

    ghost predicate Valid()
      reads this
    {
      Forest(threads) && EventsOk(threads, events)
    }

    constructor ()
      ensures Valid() && threads == map[] && events == [] && runs == map[]
    {
      threads, events, runs := map[], [], map[];
    }

    /** `id` is a fresh UUID. */
    method CreateWorker(id: Id, parent: Id, runId: Option<Id>)
      requires Valid() && !Mentions(threads, id) && parent != id
      modifies `threads
      ensures Valid() && threads == Inserted(old(threads), id, parent, runId)
    {
      InsertKeepsForest(threads, id, parent, runId);
      var root := if parent in threads then threads[parent].root else parent;
      threads := threads[id := AgentThread(parent, root, Queued, None, None, false, runId)];
    }

    /** A terminal status is never overwritten; ancestry never changes. */
    method UpdateStatus(id: Id, status: Status, summary: Option<string>, error: Option<string>) returns (r: Option<AgentThread>)
      requires Valid()
      modifies `threads
      ensures Valid()
      ensures id in old(threads) && !Terminal(old(threads)[id].status) ==>
                var row := old(threads)[id];
                var row' := row.(status := status, summary := if summary.Some? then summary else row.summary,
                                 error := if error.Some? then error else row.error, finished := row.finished || Terminal(status));
                r == Some(row') && threads == old(threads)[id := row']
      ensures id !in old(threads) || Terminal(old(threads)[id].status) ==> r == None && threads == old(threads)
    {
      if id !in threads || Terminal(threads[id].status) {
        return None;
      }
      var row := threads[id];
      row := row.(status := status, finished := row.finished || Terminal(status));
      if summary.Some? { row := row.(summary := summary); }
      if error.Some? { row := row.(error := error); }
      SameAncestry(threads, threads[id := row]);
      threads := threads[id := row];
      r := Some(row);
    }

    /** The foreign key refuses an event for a thread that does not exist. */
    method AppendEvent(thread: Id, kind: string, payload: string) returns (r: Option<Event>)
      requires Valid()
      modifies `events
      ensures Valid()
      ensures thread in threads ==>
                events == Appended(old(events), thread, kind, payload) && r == Some(events[|events| - 1])
      ensures thread !in threads ==> r == None && events == old(events)
    {
      if thread !in threads {
        return None;
      }
      AppendKeepsOrder(threads, events, thread, kind, payload);
      var event := Event(thread, MaxSeq(events) + 1, kind, payload);
      events := events + [event];
      r := Some(event);
    }

    method ChildEventsAfter(parent: Id, after: int, limit: nat) returns (page: seq<Event>)
      requires Valid()
      ensures page == Page(threads, events, parent, after, limit)
      ensures |page| <= MAX_PAGE && InOrder(page)
      ensures forall e :: e in page ==> e in events && IsChild(threads, parent, e) && e.seqNo > after
      ensures var most := if limit == 0 then 1 else if limit > MAX_PAGE then MAX_PAGE else limit;
              && |page| <= most
              && forall e :: e in events && IsChild(threads, parent, e) && e.seqNo > after && e !in page ==>
                   |page| == most && forall p :: p in page ==> p.seqNo < e.seqNo
    {
      SelectSelects(threads, events, parent, after, MaxSeq(events));
      MaxSeqBounds(events);
      PageLeaves(ChildEvents(threads, events, parent, after), Clamp(limit));
      page := ChildEvents(threads, events, parent, after);
      if |page| > Clamp(limit) {
        page := page[..Clamp(limit)];
      }
    }

    /** Every row of the tree goes, with its events and its worker runs. */
    method DeleteTree(id: Id) returns (ids: set<Id>)
      requires Valid()
      modifies this
      ensures ids == TreeIds(old(threads), id)
      ensures ids != {} ==>
                && threads == old(threads) - ids && events == Without(old(events), ids)
                && (forall run :: run in runs <==>
                      && run in old(runs) && old(runs)[run].parentThread != id
                      && forall t :: t in ids ==> old(threads)[t].runId != Some(run))
                && (forall run :: run in runs ==> runs[run] == old(runs)[run])
      ensures ids == {} ==> threads == old(threads) && events == old(events) && runs == old(runs)
      ensures id !in old(threads) ==> Valid() && forall t :: t in ids <==> t in old(threads) && Descends(old(threads), t, id)
    {
      ids := TreeIds(threads, id);
      ghost var before := threads;
      if id !in threads {
        DeleteTreeIsExact(threads, events, id);
      }
      if ids == {} {
        assert threads - ids == threads;
        return;
      }
      events := Without(events, ids);
      var gone := set t | t in ids && threads[t].runId.Some? :: threads[t].runId.value;
      runs := map run | run in runs && runs[run].parentThread != id && run !in gone :: runs[run];
      assert forall run :: run in gone <==> exists t :: t in ids && before[t].runId == Some(run);
      threads := threads - ids;
    }

    /** A worker run's status follows its workers, whatever it was before. */
    method RefreshWorkerRunStatus(run: Id) returns (r: Option<WorkerRun>)
      modifies `runs
      ensures run !in old(runs) ==> r == None && runs == old(runs)
      ensures run in old(runs) && Workers(threads, run) == {} ==> r == Some(old(runs)[run]) && runs == old(runs)
      ensures run in old(runs) && Workers(threads, run) != {} ==>
                && run in runs && r == Some(runs[run])
                && runs == old(runs)[run := old(runs)[run].(
                     status := runs[run].status,
                     finished := old(runs)[run].finished || runs[run].status != RunRunning)]
                && IsStatusOf(threads, Workers(threads, run), runs[run].status)
    {
      if run !in runs {
        return None;
      }
      var workers := Workers(threads, run);
      if workers == {} {
        return Some(runs[run]);
      }
      var status := StatusFrom(workers);
      runs := runs[run := runs[run].(status := status, finished := runs[run].finished || status != RunRunning)];
      r := Some(runs[run]);
    }

    method StatusFrom(workers: set<Id>) returns (status: RunStatus)
      requires workers != {} && workers <= threads.Keys
      ensures IsStatusOf(threads, workers, status)
    {
      if exists w :: w in workers && !Terminal(threads[w].status) {
        return RunRunning;
      }
      var done := set w | w in workers && threads[w].status == Done;
      var stopped := set w | w in workers && threads[w].status == Stopped;
      SameSizeSameSet(done, workers);
      SameSizeSameSet(stopped, workers);
      if |done| == |workers| {
        assert forall w :: w in workers ==> w in done;
        status := RunDone;
      } else if |stopped| == |workers| {
        assert forall w :: w in workers ==> w in stopped;
        status := RunStopped;
      } else if |done| > 0 {
        var w :| w in done;
        assert exists w :: w in workers && w !in done;
        status := RunPartial;
      } else {
        assert exists w :: w in workers && w !in stopped;
        assert forall w :: w in workers ==> w !in done;
        status := RunError;
      }
    }
  }

  /** Rows that keep their parent and root keep their ancestry. */
  lemma SameAncestry(threads: Threads, updated: Threads)
    requires Forest(threads) && updated.Keys == threads.Keys
    requires forall t :: t in threads ==> updated[t].parent == threads[t].parent && updated[t].root == threads[t].root
    ensures Forest(updated)
  {
    forall t | t in updated ensures Descends(updated, t, updated[t].root) {
      var n: nat :| Reaches(threads, t, threads[t].root, n);
      ReachesInLarger(threads, updated, t, threads[t].root, n);
    }
  }
}
