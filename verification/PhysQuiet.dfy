/** What the operations of the tree amount to for the handles. */
module PhysQuiet {
  import opened Common
  import opened PhysTree
  import opened PhysViews
  import opened PhysSteps
  import opened PhysMerge
  import opened PhysClone
  import opened PhysForks

  ghost predicate Good(s: State) { Inv(s) && MemOk(s) }

  /** Nobody sees a difference, and forks remain. */
  ghost predicate Quiet(s: State, s': State) { Good(s) && Good(s') && SameViews(s, s') && KeepsForks(s, s') }

  lemma QuietTrans(s: State, s1: State, s2: State)
    requires Quiet(s, s1) && Quiet(s1, s2)
    ensures Quiet(s, s2)
  {
    hide HandOverSafe, MemOk, View, CowFork, Linked, AtMostTwo, FramesDistinct, PagesOk, LeavesShared;
    assert forall h, j :: IsLeaf(s, h) ==> View(s2, h, j) == View(s1, h, j);
  }

  lemma QuietRefl(s: State)
    requires Good(s)
    ensures Quiet(s, s)
  {
  }

  /** The slots that a commit may have left for its caller to fill in. */
  datatype Commit = Held(frame: nat, len: nat) | Handed(frame: nat, len: nat)

  function Pending(s: State, c: Id, k: nat, r: Commit): State
    requires r.Handed? ==> c in s.nodes
  {
    if r.Held? then s else PutSlot(s, c, k, Shared(r.frame, r.len))
  }

  // ---- Each elementary change is quiet ----

  lemma QuietFill(s: State, n: Id, i: nat, frame: nat, page: Page, len: nat)
    requires Good(s) && n in s.nodes && i !in s.nodes[n].frames && Unused(s, frame) && page == View(s, n, i)
    requires PageOk(page, len)
    ensures Quiet(s, Fill(s, n, i, frame, page, len))
  {
    hide Linked, AtMostTwo, FramesDistinct, PagesOk, LeavesShared, View, KeepsForks, HandOverSafe;
    FillKeeps(s, n, i, frame, len, page);
    SameLinksForks(s, Fill(s, n, i, frame, page, len)) by {
      FillShape(s, n, i, frame, page, len);
    }
  }

  lemma QuietCopy(s: State, b: Id, y: nat, len: nat, c: Id, k: nat, frame: nat)
    requires Good(s) && HasSlot(s, b, y) && SlotAt(s, b, y).Shared? && SlotAt(s, b, y).len <= len <= PAGE
    requires s.nodes[b].branch && c in s.nodes && k !in s.nodes[c].frames && Up(s, c, k) == Some((b, y))
    requires Unused(s, frame)
    ensures |s.mem[SlotAt(s, b, y).frame]| == PAGE && Quiet(s, CowCopy(s, b, y, len, c, k, frame))
  {
    hide Linked, AtMostTwo, FramesDistinct, PagesOk, LeavesShared, View, KeepsForks, HandOverSafe;
    CowCopyKeeps(s, b, y, len, c, k, frame);
    SameLinksForks(s, CowCopy(s, b, y, len, c, k, frame));
  }

  lemma QuietHandOver(s: State, b: Id, y: nat, c: Id, k: nat, h: Id, j: nat)
    requires Good(s) && Arrives(s, h, j, c, k, b, y) && HasSlot(s, b, y) && SlotAt(s, b, y).Unique?
    ensures Quiet(s, HandOver(s, b, y, c, k))
  {
    hide Linked, AtMostTwo, FramesDistinct, PagesOk, LeavesShared, View, KeepsForks, HandOverSafe;
    HandOverKeeps(s, b, y, c, k, h, j);
    SameLinksForks(s, HandOver(s, b, y, c, k));
  }

  lemma QuietRaise(s: State, n: Id, i: nat, len: nat)
    requires Good(s) && HasSlot(s, n, i) && SlotAt(s, n, i).Shared? && SlotAt(s, n, i).len <= len <= PAGE
    ensures Quiet(s, PutSlot(s, n, i, Shared(SlotAt(s, n, i).frame, len)))
  {
    hide Linked, AtMostTwo, FramesDistinct, PagesOk, LeavesShared, View, KeepsForks, HandOverSafe;
    RaiseKeeps(s, n, i, len);
    SameLinksForks(s, PutSlot(s, n, i, Shared(SlotAt(s, n, i).frame, len)));
  }

  lemma QuietMerge(s: State, n: Id)
    requires Good(s) && Sole(s, n) && MergeOk(s, n)
    ensures Quiet(s, Merge(s, n))
  {
    hide Linked, AtMostTwo, FramesDistinct, PagesOk, LeavesShared, View, KeepsForks, HandOverSafe, MergeOk,
         MergedFrames;
    MergeKeeps(s, n);
    MergeForks(s, n);
  }

  // ---- What an operation on `n` leaves alone ----

  /** Nodes below `n` are as they were, and `n` keeps its place. */
  predicate Above(s: State, s': State, n: Id)
    requires n in s.nodes
  {
    && n in s'.nodes && s'.nodes[n].rank == s.nodes[n].rank && s'.nodes[n].branch == s.nodes[n].branch
      && s'.nodes[n].cow == s.nodes[n].cow
    && s'.nodes.Keys <= s.nodes.Keys
    && forall m :: m in s.nodes && s.nodes[m].rank > s.nodes[n].rank ==> m in s'.nodes && s'.nodes[m] == s.nodes[m]
  }

  lemma {:induction false} PassesAbove(s: State, s': State, n: Id, i: nat, h: Id, j: nat)
    requires Linked(s) && Linked(s') && n in s.nodes && Above(s, s', n) && h in s.nodes && Passes(s, h, j, n, i)
    ensures h in s'.nodes && Passes(s', h, j, n, i)
    decreases s.nodes[h].rank
  {
    PassesFind(s, h, j, n, i);
    if h != n || j != i {
      assert LinkOk(s, h) && LinkOk(s', h);
      PassesAbove(s, s', n, i, Up(s, h, j).value.0, Up(s, h, j).value.1);
    }
  }

  /** A handle's way down to `(n, i)` through `(c, k)` is not affected by what happens to `n`. */
  lemma ArrivesAbove(s: State, s': State, n: Id, i: nat, h: Id, j: nat, c: Id, k: nat)
    requires Linked(s) && Linked(s') && n in s.nodes && Above(s, s', n) && Arrives(s, h, j, c, k, n, i)
    ensures Arrives(s', h, j, c, k, n, i)
  {
    assert LinkOk(s, c) && s.nodes[c].rank > s.nodes[n].rank;
    assert s'.nodes[c] == s.nodes[c];
    PassesFind(s, h, j, c, k);
    assert s'.nodes[h] == s.nodes[h];
    AboveChild(s, s', n, c);
    PassesAbove(s, s', c, k, h, j);
  }

  lemma AboveChild(s: State, s': State, n: Id, c: Id)
    requires n in s.nodes && Above(s, s', n) && c in s.nodes && s.nodes[c].rank > s.nodes[n].rank
    ensures Above(s, s', c)
  {
  }

  lemma AboveTrans(s: State, s1: State, s2: State, n: Id)
    requires n in s.nodes && Above(s, s1, n) && Above(s1, s2, n)
    ensures Above(s, s2, n)
  {
  }

  /** All windows start at page 0 and are unbounded, as `clone` makes them. */
  predicate WholeWindows(s: State) {
    forall n :: n in s.nodes && s.nodes[n].parent.Window? ==>
      s.nodes[n].parent.start == 0 && s.nodes[n].parent.end.None?
  }

  lemma WholeMerge(s: State, n: Id)
    requires WholeWindows(s) && Sole(s, n)
    ensures MergeOk(s, n) && WholeWindows(Merge(s, n))
  {
    hide MergedFrames;
  }

  // ---- Writes, drops and new handles ----

  /** A write through `h`: seen by no handle across a fork, and by no other handle at all when `h`
      copies on write. */
  ghost predicate Wrote(s: State, s': State, h: Id) {
    && Good(s) && Good(s') && KeepsForks(s, s') && IsLeaf(s, h)
    && (forall c :: IsLeaf(s, c) ==> IsLeaf(s', c))
    && (forall c, j :: IsLeaf(s, c) && c != h && (s.nodes[h].cow || CowFork(s, h, c)) ==>
      View(s', c, j) == View(s, c, j))
  }

  lemma WroteTrans(s: State, s1: State, s2: State, h: Id)
    requires Wrote(s, s1, h) && Wrote(s1, s2, h)
    ensures Wrote(s, s2, h)
  {
    hide HandOverSafe, MemOk, View, CowFork, Linked, AtMostTwo, FramesDistinct, PagesOk, LeavesShared;
    forall c, j | IsLeaf(s, c) && c != h && (s.nodes[h].cow || CowFork(s, h, c))
      ensures View(s2, c, j) == View(s, c, j)
    {
      assert IsLeaf(s1, c) && IsLeaf(s1, h);
      assert View(s1, c, j) == View(s, c, j);
    }
  }

  lemma QuietWrote(s: State, s': State, h: Id)
    requires Quiet(s, s') && IsLeaf(s, h)
    ensures Wrote(s, s', h)
  {
    hide HandOverSafe, MemOk, View, CowFork, Linked, AtMostTwo, FramesDistinct, PagesOk, LeavesShared;
  }

  lemma {:induction false} PassesInjective(s: State, n: Id, i: nat, j: nat, z: Id, y: nat)
    requires Linked(s) && n in s.nodes && Passes(s, n, i, z, y) && Passes(s, n, j, z, y)
    ensures i == j
    decreases s.nodes[n].rank
  {
    assert LinkOk(s, n);
    if n == z {
      if i != y {
        PassesFind(s, Up(s, n, i).value.0, Up(s, n, i).value.1, z, y);
      } else if j != y {
        PassesFind(s, Up(s, n, j).value.0, Up(s, n, j).value.1, z, y);
      }
    } else {
      PassesInjective(s, s.nodes[n].parent.id, Up(s, n, i).value.1, Up(s, n, j).value.1, z, y);
    }
  }

  /** Setting the page in a slot that page `i` of `h` may write to. */
  lemma SetPageWrote(s: State, h: Id, i: nat, z: Id, y: nat, page: Page)
    requires Good(s) && IsLeaf(s, h) && HasSlot(s, z, y) && MayWrite(s, h, i, z, y) && PageOk(page, SlotAt(s, z, y).len)
    ensures var s' := SetPage(s, SlotAt(s, z, y).frame, page);
            Wrote(s, s', h) && forall j :: View(s', h, j) == if j == i then page else View(s, h, j)
  {
    hide HandOverSafe, View, CowFork, AtMostTwo, FramesDistinct, PagesOk, LeavesShared, PlainTrail, Linked;
    var s' := SetPage(s, SlotAt(s, z, y).frame, page);
    SetPageKeeps(s, z, y, page);
    SameLinksForks(s, s');
    forall c, j | IsLeaf(s, c) && c != h && (s.nodes[h].cow || CowFork(s, h, c))
      ensures View(s', c, j) == View(s, c, j)
    {
      WriteIsolated(s, h, i, z, y, c, j);
    }
    MayWritePasses(s, h, i, z, y);
    forall j ensures View(s', h, j) == if j == i then page else View(s, h, j) {
      if Find(s, h, j) == At(z, y) {
        FindPasses(s, h, j);
        PassesInjective(s, h, i, j, z, y);
      }
    }
  }

  lemma MayWritePasses(s: State, h: Id, i: nat, z: Id, y: nat)
    requires Linked(s) && IsLeaf(s, h) && HasSlot(s, z, y) && MayWrite(s, h, i, z, y)
    ensures Passes(s, h, i, z, y) && Find(s, h, i) == At(z, y)
  {
    if z != h || y != i {
      PlainPasses(s, h, i, z, y);
    }
    PassesFind(s, h, i, z, y);
  }

  /** All handles but `gone` see what they saw. */
  ghost predicate Dropped(s: State, s': State, gone: Id) {
    Good(s) && Good(s') && SameOthers(s, s', gone) && KeepsForks(s, s') && IsLeaf(s, gone) && gone !in s'.nodes
  }

  lemma DropFirst(s: State, h: Id)
    requires Good(s) && IsLeaf(s, h)
    ensures Dropped(s, RemoveNode(s, h), h)
  {
    hide HandOverSafe, View, CowFork, AtMostTwo, FramesDistinct, PagesOk, LeavesShared;
    forall m | m in s.nodes ensures !IsChild(s, m, h) {
      NotAParent(s, m, h);
    }
    RemoveKeeps(s, h);
    RemoveForks(s, h);
  }

  lemma DropNext(s: State, s1: State, h: Id, p: Id)
    requires Dropped(s, s1, h) && p in s1.nodes && s1.nodes[p].branch && Childless(s1, p)
    ensures Dropped(s, RemoveNode(s1, p), h)
  {
    hide HandOverSafe, View, CowFork, AtMostTwo, FramesDistinct, PagesOk, LeavesShared, Linked, Childless, MemOk;
    var s2 := RemoveNode(s1, p);
    RemoveKeeps(s1, p);
    RemoveForks(s1, p);
    forall c | IsLeaf(s, c) && c != h ensures IsLeaf(s2, c) {
      assert IsLeaf(s1, c);
    }
    forall c, j | IsLeaf(s, c) && c != h ensures View(s2, c, j) == View(s, c, j) {
      assert IsLeaf(s1, c) && View(s1, c, j) == View(s, c, j);
    }
  }

  function AddNode(s: State, h: Id, node: Node): State { s.(nodes := s.nodes[h := node]) }

  lemma AddShape(s: State, h: Id, node: Node)
    requires Shape(s) && h !in s.nodes && !node.parent.Window? && node.frames == map[]
    ensures Shape(AddNode(s, h, node)) && Childless(AddNode(s, h, node), h) && RemoveNode(AddNode(s, h, node), h) == s
  {
    var s' := AddNode(s, h, node);
    forall m | m in s'.nodes ensures LinkOk(s', m) && !IsChild(s', m, h) {
      if m != h {
        assert LinkOk(s, m);
      }
    }
    forall m, i | HasSlot(s', m, i) ensures HasSlot(s, m, i) && SlotAt(s', m, i) == SlotAt(s, m, i) {
    }
    forall p, c1, c2, c3 | IsChild(s', c1, p) && IsChild(s', c2, p) && IsChild(s', c3, p)
      ensures c1 == c2 || c1 == c3 || c2 == c3
    {
      assert IsChild(s, c1, p) && IsChild(s, c2, p) && IsChild(s, c3, p);
    }
    forall m, i | IsLeaf(s', m) && HasSlot(s', m, i) ensures SlotAt(s', m, i).Shared? {
      assert IsLeaf(s, m);
    }
  }

  lemma {:induction false} AddUnder(s: State, h: Id, node: Node, x: Id, a: Id)
    requires Linked(s) && h !in s.nodes && Linked(AddNode(s, h, node)) && x in s.nodes && Under(s, x, a)
    ensures Under(AddNode(s, h, node), x, a)
    decreases s.nodes[x].rank
  {
    assert LinkOk(s, x);
    if x != a {
      AddUnder(s, h, node, s.nodes[x].parent.id, a);
    }
  }

  /** A new object is empty, or shows its file, and nobody else sees a difference. */
  lemma AddQuiet(s: State, h: Id, node: Node)
    requires Good(s) && h !in s.nodes && !node.branch && !node.parent.Window? && node.frames == map[]
    ensures Quiet(s, AddNode(s, h, node))
    ensures forall j :: View(AddNode(s, h, node), h, j) == Outside(AddNode(s, h, node), h, j)
  {
    hide AtMostTwo, FramesDistinct, PagesOk, LeavesShared, Passes;
    var s' := AddNode(s, h, node);
    AddShape(s, h, node);
    ShapeMem(s');
    forall m, j | IsLeaf(s, m) ensures View(s', m, j) == View(s, m, j) {
      RemoveTrail(s', h, m, j, m, j);
    }
    AddSafe(s, h, node);
    AddForks(s, h, node);
  }

  lemma AddForks(s: State, h: Id, node: Node)
    requires Linked(s) && h !in s.nodes && Linked(AddNode(s, h, node))
    ensures KeepsForks(s, AddNode(s, h, node))
  {
    hide Linked, Under;
    var s' := AddNode(s, h, node);
    forall x, c | IsLeaf(s, x) && IsLeaf(s, c) && CowFork(s, x, c) ensures CowFork(s', x, c) {
      var b, c1, c2 :| ForkAt(s, x, c, b, c1, c2);
      AddUnder(s, h, node, x, c1);
      AddUnder(s, h, node, c, c2);
      assert ForkAt(s', x, c, b, c1, c2);
    }
  }

  lemma AddSafe(s: State, h: Id, node: Node)
    requires Linked(s) && HandOverSafe(s) && h !in s.nodes && !node.parent.Window? && node.frames == map[]
    requires Linked(AddNode(s, h, node)) && Childless(AddNode(s, h, node), h) && RemoveNode(AddNode(s, h, node), h) == s
    ensures HandOverSafe(AddNode(s, h, node))
  {
    hide Linked, Childless;
    var s' := AddNode(s, h, node);
    forall b, y | HasSlot(s', b, y) && SlotAt(s', b, y).Unique? ensures OneSide(s', b, y) {
      assert HasSlot(s, b, y) && SlotAt(s, b, y).Unique?;
      assert OneSide(s, b, y);
      forall h1, j1, c1, k1, h2, j2, c2, k2 | Arrives(s', h1, j1, c1, k1, b, y) && Arrives(s', h2, j2, c2, k2, b, y)
        ensures c1 == c2
      {
        AddArrives(s, h, node, h1, j1, c1, k1, b, y);
        AddArrives(s, h, node, h2, j2, c2, k2, b, y);
      }
    }
  }

  lemma AddArrives(s: State, h: Id, node: Node, x: Id, j: nat, c: Id, k: nat, b: Id, y: nat)
    requires Linked(s) && h !in s.nodes && !node.parent.Window?
    requires Linked(AddNode(s, h, node)) && Childless(AddNode(s, h, node), h) && RemoveNode(AddNode(s, h, node), h) == s
    requires Arrives(AddNode(s, h, node), x, j, c, k, b, y)
    ensures Arrives(s, x, j, c, k, b, y)
  {
    var s' := AddNode(s, h, node);
    assert x != h;
    RemoveTrail(s', h, x, j, c, k);
  }

  /** `c` is a new handle with a window of the pages of `h`, on the other side of a fork if either
      copies on write, and of all the forks of `h`. */
  ghost predicate Cloned(s: State, s': State, h: Id, c: Id, cow: bool, offset: nat, count: Option<nat>) {
    && Good(s) && Good(s') && SameViews(s, s') && KeepsForks(s, s') && IsLeaf(s, h) && c !in s.nodes && IsLeaf(s', c)
    && s'.nodes[c].cow == cow
    && (forall j :: View(s', c, j) == if InClone(count, j) then View(s, h, offset + j) else Zeros(PAGE))
    && (cow || s.nodes[h].cow ==> CowFork(s', h, c) && CowFork(s', c, h))
    && (forall x :: IsLeaf(s, x) && CowFork(s, h, x) ==> CowFork(s', c, x))
    && (forall x :: IsLeaf(s, x) && CowFork(s, x, h) ==> CowFork(s', x, c))
  }

  lemma CloneIsCloned(s: State, h: Id, b: Id, c: Id, cow: bool, offset: nat, count: Option<nat>)
    requires Good(s) && Fresh(s, h, b, c)
    ensures Cloned(s, CloneAs(s, h, b, c, cow, offset, count), h, c, cow, offset, count)
  {
    hide HandOverSafe, View, CowFork, AtMostTwo, FramesDistinct, PagesOk, LeavesShared, Linked, KeepsForks;
    CloneKeeps(s, h, b, c, cow, offset, count);
    CloneForks(s, h, b, c, cow, offset, count);
  }

  lemma QuietCloned(s: State, s1: State, s2: State, h: Id, c: Id, cow: bool, offset: nat, count: Option<nat>)
    requires Quiet(s, s1) && Cloned(s1, s2, h, c, cow, offset, count) && IsLeaf(s, h) && c !in s.nodes
    ensures Cloned(s, s2, h, c, cow, offset, count)
  {
    hide HandOverSafe, View, CowFork, AtMostTwo, FramesDistinct, PagesOk, LeavesShared, Linked, MemOk;
    forall x, j | IsLeaf(s, x) ensures View(s2, x, j) == View(s, x, j) {
      assert IsLeaf(s1, x) && View(s1, x, j) == View(s, x, j);
    }
  }
}
