/** Programs over physical memory objects: what sequences of operations on a store do. */
module PhysPrograms {
  import opened Common
  import opened PhysTree
  import opened PhysViews
  import opened PhysMerge
  import opened PhysClone
  import opened PhysForks
  import opened PhysQuiet
  import opened PhysMemory
  import opened PhysRuns

  datatype Op =
    | Create(cow: bool, file: Option<seq<byte>>)
    | ReadPage(h: Id, i: nat)
    | WriteBytes(h: Id, offset: nat, data: seq<byte>)
    | CloneOf(h: Id, cow: bool, offset: nat, count: Option<nat>)
    | Discard(h: Id)

  /** Clones are of whole objects. */
  predicate Whole(op: Op) { op.CloneOf? ==> op.offset == 0 && op.count == None }

  /** The event of an operation; one on a handle that does not exist does nothing. */
  predicate IsEvent(s: State, op: Op, e: Event) {
    match op
    case Create(_, _) => e.New?
    case ReadPage(_, _) => e == Read
    case WriteBytes(h, _, _) => e == if IsLeaf(s, h) then Write(h) else Read
    case CloneOf(h, cow, offset, count) =>
      if IsLeaf(s, h) then e.Clone? && e == Event.Clone(h, e.c, cow, offset, count) else e == Read
    case Discard(h) => e == if IsLeaf(s, h) then Event.Drop(h) else Read
  }

  /** The event did happen, and new and written pages are as they should be. */
  ghost predicate Done(s: State, op: Op, e: Event, s': State) {
    && Did(s, e, s')
    && (op.Create? ==> e.New? && ShowsFile(s', e.h, op.file))
    && (op.WriteBytes? && IsLeaf(s, op.h) ==> BytesWritten(s, s', op.h, op.offset, op.data))
  }

  method Step(m: Memory, op: Op) returns (ghost e: Event)
    requires m.Valid()
    modifies m
    ensures m.Valid() && IsEvent(old(m.S()), op, e) && (m.tame ==> old(m.tame) && Done(old(m.S()), op, e, m.S()))
    ensures old(WholeWindows(m.S())) && Whole(op) ==> WholeWindows(m.S()) && m.tame == old(m.tame)
  {
    hide Sound, Good, Quiet, Wrote, Cloned, Dropped, BytesWritten, ShowsFile, WholeWindows, MergedUntil, CloneAs,
         DropOf;
    e := Read;
    if m.tame {
      QuietRefl(m.S());
    }
    if op.Create? {
      var h := m.New(op.cow, op.file);
      e := Event.New(h);
    } else if op.h in m.nodes && !m.nodes[op.h].branch {
      match op {
        case ReadPage(h, i) =>
          var _, _, _, _ := m.Commit(h, i, None);
        case WriteBytes(h, offset, data) =>
          var _ := m.WriteAt(h, offset, data);
          e := Write(h);
        case CloneOf(h, cow, offset, count) =>
          var c := m.Clone(h, cow, offset, count);
          e := Event.Clone(h, c, cow, offset, count);
        case Discard(h) =>
          m.Drop(h);
          e := Event.Drop(h);
      }
    }
  }

  /** Performs any sequence of operations on a new store.  The states it goes through are a run as in
      `PhysRuns`, as long as merges keep within their windows, which they do if clones are whole. */
  method Perform(ops: seq<Op>) returns (m: Memory, ghost run: seq<State>, ghost events: seq<Event>)
    ensures fresh(m) && m.Valid() && |events| == |ops| && |run| == |ops| + 1 && run[0].nodes == map[]
    ensures run[|ops|] == m.S()
    ensures forall k :: 0 <= k < |ops| ==> IsEvent(run[k], ops[k], events[k])
    ensures m.tame ==> IsRun(run, events) && forall k :: 0 <= k < |ops| ==> Done(run[k], ops[k], events[k], run[k + 1])
    ensures (forall k :: 0 <= k < |ops| ==> Whole(ops[k])) ==> m.tame
  {
    hide IsEvent, Done, WholeWindows;
    m := new Memory();
    run, events := [m.S()], [];
    var i := 0;
    while i < |ops|
      invariant 0 <= i <= |ops| && fresh(m) && m.Valid() && |events| == i && |run| == i + 1
      invariant run[0].nodes == map[] && run[i] == m.S()
      invariant forall k :: 0 <= k < i ==> IsEvent(run[k], ops[k], events[k])
      invariant m.tame ==> forall k :: 0 <= k < i ==> Done(run[k], ops[k], events[k], run[k + 1])
      invariant (forall k :: 0 <= k < i ==> Whole(ops[k])) ==> m.tame && WholeWindows(m.S())
    {
      ghost var e := Step(m, ops[i]);
      run, events := run + [m.S()], events + [e];
      i := i + 1;
    }
    if m.tame {
      forall k | 0 <= k < |ops| ensures Did(run[k], events[k], run[k + 1]) {
        DoneDid(run[k], ops[k], events[k], run[k + 1]);
      }
    }
  }

  lemma DoneDid(s: State, op: Op, e: Event, s': State)
    requires Done(s, op, e, s')
    ensures Did(s, e, s')
  {
  }

  // ---- A merge that shows ----

  /** The tree after a clone of one page was itself cloned, and the other two handles dropped. */
  function OnlyClone(file: seq<byte>, mem: map<nat, Page>): State {
    State(map[1 := Node(true, true, Backend(file), map[], 0),
              3 := Node(true, true, Window(1, 0, Some(1)), map[], 1),
              4 := Node(false, true, Window(3, 0, None), map[], 2)], mem)
  }

  lemma OnlyCloneMem(file: seq<byte>, mem: map<nat, Page>)
    ensures OnlyClone(file, mem).mem == mem
  {
  }

  lemma OnlyCloneReached(s: State, file: seq<byte>)
    requires s.nodes == map[]
    ensures var s1 := AddNode(s, 0, Node(false, true, Backend(file), map[], 0));
            var s2 := CloneAs(s1, 0, 1, 2, true, 0, Some(1));
            var s3 := CloneAs(s2, 2, 3, 4, true, 0, None);
            && !Sole(s1, 0) && !Sole(s2, 2)
            && 0 in s3.nodes && 2 in DropOf(s3, 0).nodes && DropOf(DropOf(s3, 0), 2) == OnlyClone(file, s.mem)
  {
    var s1 := AddNode(s, 0, Node(false, true, Backend(file), map[], 0));
    var s2 := CloneAs(s1, 0, 1, 2, true, 0, Some(1));
    assert IsChild(s2, 0, 1);
    var s3 := CloneAs(s2, 2, 3, 4, true, 0, None);
    var s4 := RemoveNode(s3, 0);
    assert IsChild(s4, 3, 1);
    var s5 := RemoveNode(s4, 2);
    assert IsChild(s5, 4, 3);
    assert s5 == OnlyClone(file, s.mem);
  }

  /** The same when the clone has taken over the branch above it ... */
  function OnceMerged(file: seq<byte>, mem: map<nat, Page>): State {
    State(map[1 := Node(true, true, Backend(file), map[], 0), 4 := Node(false, true, Window(1, 0, None), map[], 2)],
          mem)
  }

  /** ... and when it has taken over both. */
  function TwiceMerged(file: seq<byte>, mem: map<nat, Page>): State {
    State(map[4 := Node(false, true, Backend(file), map[], 2)], mem)
  }

  lemma FirstMerge(file: seq<byte>, mem: map<nat, Page>)
    ensures var s := OnlyClone(file, mem); Linked(s) && Sole(s, 4) && Merge(s, 4) == OnceMerged(file, mem)
  {
    var s := OnlyClone(file, mem);
    assert LinkOk(s, 1) && LinkOk(s, 3) && LinkOk(s, 4);
    assert MergedFrames(map[], map[], 0, None) == map[];
  }

  lemma SecondMerge(file: seq<byte>, mem: map<nat, Page>)
    ensures var s := OnceMerged(file, mem); Linked(s) && Sole(s, 4) && Merge(s, 4) == TwiceMerged(file, mem)
    ensures Linked(TwiceMerged(file, mem)) && !Sole(TwiceMerged(file, mem), 4)
  {
    var s := OnceMerged(file, mem);
    assert LinkOk(s, 1) && LinkOk(s, 4) && LinkOk(TwiceMerged(file, mem), 4);
    assert MergedFrames(map[], map[], 0, None) == map[];
  }

  /** Merging takes the clone past the end of its window: its page 1 comes from the file. */
  lemma OnlyCloneMerged(file: seq<byte>, mem: map<nat, Page>)
    ensures MergedUntil(OnlyClone(file, mem), 4, Some(1)) == TwiceMerged(file, mem)
  {
    hide Merge, Sole, MergedUntil, Linked;
    FirstMerge(file, mem);
    SecondMerge(file, mem);
    MergedStep(OnlyClone(file, mem), 4, Some(1));
    MergedStep(OnceMerged(file, mem), 4, Some(1));
    MergedStep(TwiceMerged(file, mem), 4, Some(1));
  }

  lemma TwoPages()
    ensures FilePage(Ones(2 * PAGE), 1) == Ones(PAGE) && Zeros(PAGE) != Ones(PAGE)
  {
    var file := Ones(2 * PAGE);
    assert FileLen(file, 1) == PAGE && file[PAGE..2 * PAGE] + Zeros(0) == Ones(PAGE);
    assert Zeros(PAGE)[0] != Ones(PAGE)[0];
  }

  lemma ShowsPage(s: State, file: seq<byte>)
    requires s.nodes == map[4 := Node(false, true, Backend(file), map[], 2)] && Linked(s) && MemOk(s)
    ensures View(s, 4, 1) == FilePage(file, 1)
  {
  }

  /** Page 1 of a clone of one page is zero, and stays so when the clone is cloned and other handles
      are dropped. */
  lemma ClonesReadZero(s1: State, s2: State, s3: State, s4: State, s5: State, h: Id, c: Id, d: Id)
    requires Cloned(s1, s2, h, c, true, 0, Some(1)) && Cloned(s2, s3, c, d, true, 0, None)
    requires Dropped(s3, s4, h) && Dropped(s4, s5, c) && h != d && c != d
    ensures Good(s5) && IsLeaf(s5, d) && View(s5, d, 1) == Zeros(PAGE)
  {
    hide View, Linked, AtMostTwo, FramesDistinct, PagesOk, LeavesShared, HandOverSafe, MemOk, CowFork;
    assert View(s2, c, 1) == Zeros(PAGE);
    assert View(s3, d, 1) == View(s2, c, 0 + 1);
    assert IsLeaf(s4, d) && View(s4, d, 1) == View(s3, d, 1);
  }

  /** A clone of one page of an object with that file, cloned again; the other two handles dropped. */
  method MakeOnlyClone(file: seq<byte>) returns (m: Memory, h: Id)
    ensures fresh(m) && m.Valid() && h == 4 && m.S() == OnlyClone(file, m.mem)
    ensures Good(m.S()) && IsLeaf(m.S(), h) && View(m.S(), h, 1) == Zeros(PAGE)
  {
    hide Sound, Good, Quiet, Cloned, Dropped, MergedUntil, CloneAs, DropOf, View, Linked, MemOk, WholeWindows,
         ShowsFile;
    hide OnlyClone, AtMostTwo, FramesDistinct, PagesOk, LeavesShared, Shape;
    m := new Memory();
    OnlyCloneReached(m.S(), file);
    OnlyCloneMem(file, m.mem);
    var a := m.New(true, Some(file));
    ghost var s1 := m.S();
    MergedNone(s1, m.nextId, m.nextFrame, a);
    var c := m.Clone(a, true, 0, Some(1));
    ghost var s2 := m.S();
    LeafStays(s1, s2, a, a, c, Some(1));
    MergedNone(s2, m.nextId, m.nextFrame, c);
    h := m.Clone(c, true, 0, None);
    ghost var s3 := m.S();
    LeafStays(s2, s3, a, c, h, None);
    m.Drop(a);
    ghost var s4 := m.S();
    DroppedLeaf(s3, s4, a, c);
    m.Drop(c);
    ClonesReadZero(s1, s2, s3, s4, m.S(), a, c, h);
  }

  lemma MergedNone(s: State, nextId: nat, nextFrame: nat, n: Id)
    requires Sound(s, nextId, nextFrame) && n in s.nodes && !Sole(s, n)
    ensures MergedUntil(s, n, None) == s
  {
  }

  /** A clone of the first page of a file reads zero on page 1.  After it was cloned and the two other
      handles were dropped, looking for that page merges the parents, and it shows the file. */
  method ExposeByMerge() returns (m: Memory, h: Id, ghost before: State)
    ensures fresh(m) && m.Valid() && Good(before) && IsLeaf(before, h)
    ensures Linked(m.S()) && MemOk(m.S()) && h in m.nodes
    ensures View(before, h, 1) == Zeros(PAGE) != Ones(PAGE) == View(m.S(), h, 1)
  {
    hide Sound, Good, Quiet, MergedUntil, View, Linked, MemOk, WholeWindows, OnlyClone;
    var file := Ones(2 * PAGE);
    m, h := MakeOnlyClone(file);
    before := m.S();
    OnlyCloneMerged(file, m.mem);
    var _ := m.MergeSoleParent(h, Some(1));
    SoundShape(m.S(), m.nextId, m.nextFrame);
    ShowsPage(m.S(), file);
    TwoPages();
  }

  lemma LeafStays(s: State, s': State, a: Id, c: Id, d: Id, count: Option<nat>)
    requires Cloned(s, s', c, d, true, 0, count) && IsLeaf(s, a)
    ensures IsLeaf(s', a) && IsLeaf(s', c)
  {
    hide View, Linked, AtMostTwo, FramesDistinct, PagesOk, LeavesShared, HandOverSafe, MemOk, CowFork;
  }

  lemma DroppedLeaf(s: State, s': State, a: Id, c: Id)
    requires Dropped(s, s', a) && IsLeaf(s, c) && c != a
    ensures IsLeaf(s', c)
  {
    hide View, Linked, AtMostTwo, FramesDistinct, PagesOk, LeavesShared, HandOverSafe, MemOk, CowFork;
  }
}
