/** Snapshots over whole runs of the physical memory operations. */
module PhysRuns {
  import opened Common
  import opened PhysTree
  import opened PhysViews
  import opened PhysClone
  import opened PhysForks
  import opened PhysQuiet

  datatype Event =
    | Read
    | Write(h: Id)
    | Clone(h: Id, c: Id, cow: bool, offset: nat, count: Option<nat>)
    | Drop(h: Id)
    | New(h: Id)

  /** What the operations of `PhysMemory.Memory` guarantee. */
  ghost predicate Did(s: State, e: Event, s': State) {
    match e
    case Read => Quiet(s, s')
    case Write(h) => Wrote(s, s', h)
    case Clone(h, c, cow, offset, count) => Cloned(s, s', h, c, cow, offset, count)
    case Drop(h) => Dropped(s, s', h)
    case New(h) => Quiet(s, s') && h !in s.nodes
  }

  ghost predicate IsRun(run: seq<State>, events: seq<Event>) {
    |run| == |events| + 1 && forall k :: 0 <= k < |events| ==> Did(run[k], events[k], run[k + 1])
  }

  /** The handles in `start` that are still there, and their clones, and the clones of those. */
  function Family(start: set<Id>, events: seq<Event>): set<Id> {
    if events == [] then start
    else
      var before := Family(start, events[..|events| - 1]);
      match events[|events| - 1]
      case Clone(h, c, _, _, _) => if h in before then before + {c} else before - {c}
      case Drop(h) => before - {h}
      case New(h) => before - {h}
      case _ => before
  }

  /** Event `k` is harmless to `c`: `c` is not dropped, and what is written is written through the
      family, or through another handle that copies on write. */
  ghost predicate Harmless(run: seq<State>, events: seq<Event>, family: set<Id>, c: Id, k: nat)
    requires k < |events| && k < |run|
  {
    match events[k]
    case Write(h) => h != c && (h in Family(family, events[..k]) || (h in run[k].nodes && run[k].nodes[h].cow))
    case Drop(h) => h != c
    case New(h) => h != c
    case _ => true
  }

  ghost predicate ForkedFrom(s: State, family: set<Id>, c: Id) {
    && Good(s) && IsLeaf(s, c) && c !in family
    && forall h :: h in family ==> IsLeaf(s, h) && CowFork(s, h, c)
  }

  lemma FamilyStep(s: State, e: Event, s': State, start: set<Id>, events: seq<Event>, c: Id)
    requires Did(s, e, s') && ForkedFrom(s, Family(start, events), c) && e != Drop(c)
    ensures ForkedFrom(s', Family(start, events + [e]), c)
  {
    hide CowFork, View, Linked, AtMostTwo, FramesDistinct, PagesOk, LeavesShared, HandOverSafe, MemOk;
    assert (events + [e])[..|events|] == events;
    var family := Family(start, events + [e]);
    assert c !in family;
    forall h | h in family ensures IsLeaf(s', h) && CowFork(s', h, c) {
      assert h in Family(start, events) ==> IsLeaf(s, h) && CowFork(s, h, c);
    }
  }

  lemma StepKeepsView(s: State, e: Event, s': State, family: set<Id>, c: Id, j: nat)
    requires Did(s, e, s') && ForkedFrom(s, family, c) && e != Drop(c)
    requires e.Write? ==> e.h != c && (e.h in family || (e.h in s.nodes && s.nodes[e.h].cow))
    ensures Good(s') && IsLeaf(s', c) && View(s', c, j) == View(s, c, j)
  {
    hide CowFork, View, Linked, AtMostTwo, FramesDistinct, PagesOk, LeavesShared, HandOverSafe, MemOk;
  }

  /** A handle across a fork from every handle in `family` sees the same pages for ever, as long as
      writes go through the family and its clones, or through other copy-on-write handles. */
  lemma {:induction false} SnapshotKept(run: seq<State>, events: seq<Event>, family: set<Id>, c: Id, j: nat)
    requires IsRun(run, events) && ForkedFrom(run[0], family, c)
    requires forall k :: 0 <= k < |events| ==> Harmless(run, events, family, c, k)
    ensures ForkedFrom(run[|events|], Family(family, events), c)
    ensures View(run[|events|], c, j) == View(run[0], c, j)
  {
    hide Good, View, Did, Quiet;
    if events != [] {
      var n := |events| - 1;
      var (run', events') := (run[..|events|], events[..n]);
      forall k | 0 <= k < n ensures Did(run'[k], events'[k], run'[k + 1]) && Harmless(run', events', family, c, k) {
        assert Did(run[k], events[k], run[k + 1]) && Harmless(run, events, family, c, k);
        assert events'[..k] == events[..k];
      }
      SnapshotKept(run', events', family, c, j);
      assert Did(run[n], events[n], run[n + 1]) && Harmless(run, events, family, c, n);
      StepKeepsView(run[n], events[n], run[n + 1], Family(family, events'), c, j);
      FamilyStep(run[n], events[n], run[n + 1], family, events', c);
      assert events' + [events[n]] == events;
    }
  }

  /** In particular a copy-on-write clone is a snapshot: later writes through the handle it was
      cloned from, and through clones of that, do not show in it; nor do its own show in them. */
  lemma CloneIsSnapshot(s: State, run: seq<State>, events: seq<Event>, h: Id, c: Id, offset: nat, count: Option<nat>,
                        j: nat)
    requires IsRun(run, events) && Cloned(s, run[0], h, c, true, offset, count)
    requires forall k :: 0 <= k < |events| ==> Harmless(run, events, {h}, c, k)
    ensures Good(s) && Good(run[|events|]) && IsLeaf(s, h) && IsLeaf(run[|events|], c)
    ensures View(run[|events|], c, j) == if InClone(count, j) then View(s, h, offset + j) else Zeros(PAGE)
  {
    hide CowFork, View, Linked, AtMostTwo, FramesDistinct, PagesOk, LeavesShared, HandOverSafe, MemOk;
    assert ForkedFrom(run[0], {h}, c);
    SnapshotKept(run, events, {h}, c, j);
  }
}
