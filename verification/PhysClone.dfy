/** Cloning and dropping handles, and writing to a frame (kmem/src/phys.rs:405-450, 619-637). */
module PhysClone {
  import opened Common
  import opened PhysTree
  import opened PhysViews
  import opened PhysSteps

  // ---- Cloning ----

  /** `h` is a handle; `b` and `c` are new. */
  predicate Fresh(s: State, h: Id, b: Id, c: Id) { IsLeaf(s, h) && b !in s.nodes && c !in s.nodes && b != c }

  lemma NotAParent(s: State, m: Id, h: Id)
    requires Linked(s) && m in s.nodes && (IsLeaf(s, h) || h !in s.nodes)
    ensures !IsChild(s, m, h)
  {
    assert LinkOk(s, m);
  }

  lemma CloneLinks(s: State, h: Id, b: Id, c: Id, cow: bool, offset: nat, count: Option<nat>)
    requires Linked(s) && Fresh(s, h, b, c)
    ensures Linked(CloneAs(s, h, b, c, cow, offset, count))
  {
    var s' := CloneAs(s, h, b, c, cow, offset, count);
    forall m | m in s'.nodes ensures LinkOk(s', m) {
      assert LinkOk(s, h);
      if m in s.nodes && m != h {
        assert LinkOk(s, m);
        NotAParent(s, m, h);
      }
    }
  }

  /** Slots of the handle move to the new branch. */
  lemma SlotsAfterClone(s: State, h: Id, b: Id, c: Id, cow: bool, offset: nat, count: Option<nat>, m: Id, i: nat)
    requires Fresh(s, h, b, c)
    ensures var s' := CloneAs(s, h, b, c, cow, offset, count); var o := if m == b then h else m;
            && (HasSlot(s', m, i) <==> m != h && HasSlot(s, o, i))
            && (HasSlot(s', m, i) ==> SlotAt(s', m, i) == SlotAt(s, o, i))
  {
  }

  lemma CloneShape(s: State, h: Id, b: Id, c: Id, cow: bool, offset: nat, count: Option<nat>)
    requires Shape(s) && Fresh(s, h, b, c)
    ensures Shape(CloneAs(s, h, b, c, cow, offset, count))
  {
    hide Linked;
    var s' := CloneAs(s, h, b, c, cow, offset, count);
    CloneLinks(s, h, b, c, cow, offset, count);
    CloneChildren(s, h, b, c, cow, offset, count);
    forall m, i | HasSlot(s', m, i)
      ensures SlotAt(s', m, i).frame in s'.mem && PageOk(s'.mem[SlotAt(s', m, i).frame], SlotAt(s', m, i).len)
      ensures IsLeaf(s', m) ==> SlotAt(s', m, i).Shared?
    {
      SlotsAfterClone(s, h, b, c, cow, offset, count, m, i);
    }
    forall m1, i1, m2, i2 | HasSlot(s', m1, i1) && HasSlot(s', m2, i2)
      && SlotAt(s', m1, i1).frame == SlotAt(s', m2, i2).frame
      ensures m1 == m2 && i1 == i2
    {
      SlotsAfterClone(s, h, b, c, cow, offset, count, m1, i1);
      SlotsAfterClone(s, h, b, c, cow, offset, count, m2, i2);
    }
  }

  lemma CloneChildren(s: State, h: Id, b: Id, c: Id, cow: bool, offset: nat, count: Option<nat>)
    requires Linked(s) && AtMostTwo(s) && Fresh(s, h, b, c)
    ensures AtMostTwo(CloneAs(s, h, b, c, cow, offset, count))
  {
    hide Linked;
    var s' := CloneAs(s, h, b, c, cow, offset, count);
    forall p, c1, c2, c3 | IsChild(s', c1, p) && IsChild(s', c2, p) && IsChild(s', c3, p)
      ensures c1 == c2 || c1 == c3 || c2 == c3
    {
      CloneChild(s, h, b, c, cow, offset, count, c1, p);
      CloneChild(s, h, b, c, cow, offset, count, c2, p);
      CloneChild(s, h, b, c, cow, offset, count, c3, p);
    }
  }

  lemma CloneChild(s: State, h: Id, b: Id, c: Id, cow: bool, offset: nat, count: Option<nat>, m: Id, p: Id)
    requires Linked(s) && Fresh(s, h, b, c) && IsChild(CloneAs(s, h, b, c, cow, offset, count), m, p)
    ensures if p == b then m == h || m == c else m != h && m != c && IsChild(s, if m == b then h else m, p)
  {
    if m in s.nodes && m != h {
      NotAParent(s, m, b);
    }
    NotAParent(s, h, b);
  }

  /** Lookups from other nodes do not meet the handle or the new nodes. */
  lemma {:induction false} CloneTrail(s: State, h: Id, b: Id, c: Id, cow: bool, offset: nat, count: Option<nat>,
                                      m: Id, i: nat, x: Id, k: nat)
    requires Linked(s) && Fresh(s, h, b, c) && Linked(CloneAs(s, h, b, c, cow, offset, count)) && m in s.nodes && m != h
    ensures var s' := CloneAs(s, h, b, c, cow, offset, count);
            Find(s', m, i) == Find(s, m, i) && Find(s, m, i).n != h && Passes(s', m, i, x, k) == Passes(s, m, i, x, k)
    decreases s.nodes[m].rank
  {
    var s' := CloneAs(s, h, b, c, cow, offset, count);
    assert LinkOk(s, m) && s'.nodes[m] == s.nodes[m];
    if i !in s.nodes[m].frames && Up(s, m, i).Some? {
      NotAParent(s, m, h);
      CloneTrail(s, h, b, c, cow, offset, count, Up(s, m, i).value.0, Up(s, m, i).value.1, x, k);
    }
  }

  /** The new branch looks up what the handle did. */
  lemma CloneTop(s: State, h: Id, b: Id, c: Id, cow: bool, offset: nat, count: Option<nat>, i: nat, x: Id, k: nat)
    requires Linked(s) && Fresh(s, h, b, c) && Linked(CloneAs(s, h, b, c, cow, offset, count))
    ensures var s' := CloneAs(s, h, b, c, cow, offset, count); var loc := Find(s, h, i);
            && Find(s', b, i) == (if loc.n == h then loc.(n := b) else loc)
            && (loc.n == h ==> loc.i == i)
            && (x != b && x != h ==> Passes(s', b, i, x, k) == Passes(s, h, i, x, k))
            && (Passes(s', b, i, b, k) ==> k == i)
            && !Passes(s', b, i, h, k)
  {
    CloneTopFind(s, h, b, c, cow, offset, count, i);
    CloneTopPasses(s, h, b, c, cow, offset, count, i, x, k);
  }

  lemma CloneTopFind(s: State, h: Id, b: Id, c: Id, cow: bool, offset: nat, count: Option<nat>, i: nat)
    requires Linked(s) && Fresh(s, h, b, c) && Linked(CloneAs(s, h, b, c, cow, offset, count))
    ensures var s' := CloneAs(s, h, b, c, cow, offset, count); var loc := Find(s, h, i);
            Find(s', b, i) == (if loc.n == h then loc.(n := b) else loc) && (loc.n == h ==> loc.i == i)
  {
    hide Passes;
    var s' := CloneAs(s, h, b, c, cow, offset, count);
    assert LinkOk(s, h) && s'.nodes[b].parent == s.nodes[h].parent && s'.nodes[b].frames == s.nodes[h].frames;
    NotAParent(s, h, h);
    if i !in s.nodes[h].frames && Up(s, h, i).Some? {
      var next := Up(s, h, i).value;
      CloneTrail(s, h, b, c, cow, offset, count, next.0, next.1, h, i);
    }
  }

  lemma CloneTopPasses(s: State, h: Id, b: Id, c: Id, cow: bool, offset: nat, count: Option<nat>, i: nat, x: Id,
                       k: nat)
    requires Linked(s) && Fresh(s, h, b, c) && Linked(CloneAs(s, h, b, c, cow, offset, count))
    ensures var s' := CloneAs(s, h, b, c, cow, offset, count);
            && (x != b && x != h ==> Passes(s', b, i, x, k) == Passes(s, h, i, x, k))
            && (Passes(s', b, i, b, k) ==> k == i)
            && !Passes(s', b, i, h, k)
  {
    hide Find;
    var s' := CloneAs(s, h, b, c, cow, offset, count);
    assert LinkOk(s, h) && s'.nodes[b].parent == s.nodes[h].parent && s'.nodes[b].frames == s.nodes[h].frames;
    NotAParent(s, h, h);
    if i !in s.nodes[h].frames && Up(s, h, i).Some? {
      var next := Up(s, h, i).value;
      CloneTrail(s, h, b, c, cow, offset, count, next.0, next.1, x, k);
      CloneTrail(s, h, b, c, cow, offset, count, next.0, next.1, b, k);
      CloneTrail(s, h, b, c, cow, offset, count, next.0, next.1, h, k);
      NotAncestor(s, next.0, next.1, b, k);
      NotAncestor(s, next.0, next.1, h, k);
    }
  }

  lemma NotAncestor(s: State, m: Id, i: nat, x: Id, k: nat)
    requires Linked(s) && m in s.nodes && m != x && (IsLeaf(s, x) || x !in s.nodes)
    ensures !Passes(s, m, i, x, k)
  {
    if Passes(s, m, i, x, k) {
      PassesFind(s, m, i, x, k);
    }
  }

  /** Page `j` of the clone is page `offset + j` of the handle, within `count` pages. */
  predicate InClone(count: Option<nat>, j: nat) { count.None? || j < count.value }

  lemma TopView(s: State, h: Id, b: Id, c: Id, cow: bool, offset: nat, count: Option<nat>, i: nat)
    requires Linked(s) && MemOk(s) && Fresh(s, h, b, c)
    requires Linked(CloneAs(s, h, b, c, cow, offset, count)) && MemOk(CloneAs(s, h, b, c, cow, offset, count))
    ensures View(CloneAs(s, h, b, c, cow, offset, count), b, i) == View(s, h, i)
  {
    hide MemOk, Linked, Passes;
    var s' := CloneAs(s, h, b, c, cow, offset, count);
    CloneTop(s, h, b, c, cow, offset, count, i, c, i);
    var loc, loc' := Find(s, h, i), Find(s', b, i);
    SlotsAfterClone(s, h, b, c, cow, offset, count, loc'.n, loc'.i);
    assert s'.nodes[b].parent == s.nodes[h].parent;
  }

  lemma OtherView(s: State, h: Id, b: Id, c: Id, cow: bool, offset: nat, count: Option<nat>, m: Id, j: nat)
    requires Linked(s) && MemOk(s) && Fresh(s, h, b, c) && m in s.nodes && m != h
    requires Linked(CloneAs(s, h, b, c, cow, offset, count)) && MemOk(CloneAs(s, h, b, c, cow, offset, count))
    ensures View(CloneAs(s, h, b, c, cow, offset, count), m, j) == View(s, m, j)
  {
    hide MemOk, Linked, Passes;
    CloneTrail(s, h, b, c, cow, offset, count, m, j, c, j);
  }

  lemma CloneViews(s: State, h: Id, b: Id, c: Id, cow: bool, offset: nat, count: Option<nat>, m: Id, j: nat)
    requires Linked(s) && MemOk(s) && Fresh(s, h, b, c) && m in s.nodes
    requires Linked(CloneAs(s, h, b, c, cow, offset, count)) && MemOk(CloneAs(s, h, b, c, cow, offset, count))
    ensures var s' := CloneAs(s, h, b, c, cow, offset, count);
            && View(s', m, j) == View(s, m, j)
            && View(s', c, j) == if InClone(count, j) then View(s, h, offset + j) else Zeros(PAGE)
  {
    hide MemOk, Linked;
    var s' := CloneAs(s, h, b, c, cow, offset, count);
    TopView(s, h, b, c, cow, offset, count, offset + j);
    if InClone(count, j) {
      assert Find(s', c, j) == Find(s', b, offset + j);
    }
    if m == h {
      TopView(s, h, b, c, cow, offset, count, j);
      assert Find(s', h, j) == Find(s', b, j);
    } else {
      OtherView(s, h, b, c, cow, offset, count, m, j);
    }
  }

  lemma CloneArrives(s: State, h: Id, b: Id, c: Id, cow: bool, offset: nat, count: Option<nat>,
                     x: Id, j: nat, c1: Id, k1: nat, b1: Id, y1: nat)
    requires Linked(s) && Fresh(s, h, b, c) && Linked(CloneAs(s, h, b, c, cow, offset, count)) && b1 != b
    requires Arrives(CloneAs(s, h, b, c, cow, offset, count), x, j, c1, k1, b1, y1)
    ensures c1 != h
    ensures Arrives(s, if x == c then h else x, if x == c then offset + j else j, if c1 == b then h else c1, k1, b1, y1)
  {
    var s' := CloneAs(s, h, b, c, cow, offset, count);
    if x == h || x == c {
      var i := if x == c then offset + j else j;
      assert Passes(s', b, i, c1, k1);
      CloneTop(s, h, b, c, cow, offset, count, i, c1, k1);
      assert c1 == b ==> k1 == i;
    } else {
      CloneTrail(s, h, b, c, cow, offset, count, x, j, c1, k1);
      NotAncestor(s, x, j, h, k1);
      NotAncestor(s, x, j, b, k1);
      NotAncestor(s, x, j, c, k1);
    }
  }

  lemma CloneSafe(s: State, h: Id, b: Id, c: Id, cow: bool, offset: nat, count: Option<nat>)
    requires Shape(s) && HandOverSafe(s) && Fresh(s, h, b, c) && Linked(CloneAs(s, h, b, c, cow, offset, count))
    ensures HandOverSafe(CloneAs(s, h, b, c, cow, offset, count))
  {
    hide Linked, Arrives, FramesDistinct, PagesOk, AtMostTwo;
    var s' := CloneAs(s, h, b, c, cow, offset, count);
    forall b1, y1 | HasSlot(s', b1, y1) && SlotAt(s', b1, y1).Unique? ensures OneSide(s', b1, y1) {
      SlotsAfterClone(s, h, b, c, cow, offset, count, b1, y1);
      assert b1 != b && HasSlot(s, b1, y1) && SlotAt(s, b1, y1).Unique?;
      assert OneSide(s, b1, y1);
      forall x1, j1, c1, k1, x2, j2, c2, k2 | Arrives(s', x1, j1, c1, k1, b1, y1) && Arrives(s', x2, j2, c2, k2, b1, y1)
        ensures c1 == c2
      {
        CloneArrives(s, h, b, c, cow, offset, count, x1, j1, c1, k1, b1, y1);
        CloneArrives(s, h, b, c, cow, offset, count, x2, j2, c2, k2, b1, y1);
      }
    }
  }

  /** A clone shows a window of the handle's pages; nobody else sees a difference. */
  lemma CloneKeeps(s: State, h: Id, b: Id, c: Id, cow: bool, offset: nat, count: Option<nat>)
    requires Inv(s) && MemOk(s) && Fresh(s, h, b, c)
    ensures var s' := CloneAs(s, h, b, c, cow, offset, count);
            && Inv(s') && MemOk(s') && SameViews(s, s') && IsLeaf(s', c)
            && forall j :: View(s', c, j) == if InClone(count, j) then View(s, h, offset + j) else Zeros(PAGE)
  {
    hide HandOverSafe, AtMostTwo, FramesDistinct, PagesOk, LeavesShared, View;
    var s' := CloneAs(s, h, b, c, cow, offset, count);
    CloneShape(s, h, b, c, cow, offset, count);
    ShapeMem(s');
    CloneSafe(s, h, b, c, cow, offset, count);
    forall m, j | IsLeaf(s, m) ensures View(s', m, j) == View(s, m, j) {
      CloneViews(s, h, b, c, cow, offset, count, m, j);
    }
    forall j ensures View(s', c, j) == if InClone(count, j) then View(s, h, offset + j) else Zeros(PAGE) {
      CloneViews(s, h, b, c, cow, offset, count, h, j);
    }
  }

  // ---- Dropping ----

  predicate Childless(s: State, n: Id) { forall m :: m in s.nodes ==> !IsChild(s, m, n) }

  /** Without the nodes that only hang together with `parent`: it, if nothing hangs off it, its
      parent, if nothing else hangs off that, and so on. */
  function Pruned(s: State, parent: Parent): State
    decreases |s.nodes|
  {
    if parent.Window? && parent.id in s.nodes && Childless(s, parent.id) then
      assert (s.nodes - {parent.id}).Keys == s.nodes.Keys - {parent.id};
      Pruned(RemoveNode(s, parent.id), s.nodes[parent.id].parent)
    else s
  }

  /** Without handle `h` and the parents that only it used (phys.rs:810-826). */
  function DropOf(s: State, h: Id): State
    requires h in s.nodes
  {
    Pruned(RemoveNode(s, h), s.nodes[h].parent)
  }

  lemma {:induction false} RemoveTrail(s: State, n: Id, m: Id, i: nat, x: Id, k: nat)
    requires Linked(s) && Childless(s, n) && Linked(RemoveNode(s, n)) && m in s.nodes && m != n
    ensures Find(RemoveNode(s, n), m, i) == Find(s, m, i) && Find(s, m, i).n != n
    ensures Passes(RemoveNode(s, n), m, i, x, k) == Passes(s, m, i, x, k)
    ensures !Passes(s, m, i, n, k)
    decreases s.nodes[m].rank
  {
    assert LinkOk(s, m);
    if i !in s.nodes[m].frames && Up(s, m, i).Some? {
      assert !IsChild(s, m, n);
      RemoveTrail(s, n, Up(s, m, i).value.0, Up(s, m, i).value.1, x, k);
    }
  }

  lemma RemoveShape(s: State, n: Id)
    requires Shape(s) && Childless(s, n)
    ensures Shape(RemoveNode(s, n))
  {
    var s' := RemoveNode(s, n);
    forall m | m in s'.nodes ensures LinkOk(s', m) {
      assert LinkOk(s, m) && !IsChild(s, m, n);
    }
    forall m, i | HasSlot(s', m, i) ensures HasSlot(s, m, i) && SlotAt(s', m, i) == SlotAt(s, m, i) {
    }
    forall p, c1, c2, c3 | IsChild(s', c1, p) && IsChild(s', c2, p) && IsChild(s', c3, p)
      ensures c1 == c2 || c1 == c3 || c2 == c3
    {
      assert IsChild(s, c1, p) && IsChild(s, c2, p) && IsChild(s, c3, p);
    }
    forall m, i | IsLeaf(s', m) && HasSlot(s', m, i) ensures SlotAt(s', m, i).Shared? {
      assert IsLeaf(s, m);
    }
  }

  /** Every handle but `gone` sees the same pages. */
  ghost predicate SameOthers(s: State, s': State, gone: Id)
    requires Linked(s) && MemOk(s) && Linked(s') && MemOk(s')
  {
    && (forall h :: IsLeaf(s, h) && h != gone ==> IsLeaf(s', h))
    && (forall h, j :: IsLeaf(s, h) && h != gone ==> View(s', h, j) == View(s, h, j))
  }

  lemma RemoveKeeps(s: State, n: Id)
    requires Inv(s) && MemOk(s) && Childless(s, n)
    ensures Inv(RemoveNode(s, n)) && MemOk(RemoveNode(s, n)) && SameOthers(s, RemoveNode(s, n), n)
  {
    hide AtMostTwo, FramesDistinct, PagesOk, LeavesShared;
    var s' := RemoveNode(s, n);
    RemoveShape(s, n);
    ShapeMem(s');
    forall h, j | IsLeaf(s, h) && h != n ensures View(s', h, j) == View(s, h, j) {
      RemoveTrail(s, n, h, j, h, j);
    }
    forall b, y | HasSlot(s', b, y) && SlotAt(s', b, y).Unique? ensures OneSide(s', b, y) {
      assert HasSlot(s, b, y) && SlotAt(s, b, y).Unique?;
      assert OneSide(s, b, y);
      forall h1, j1, c1, k1, h2, j2, c2, k2 | Arrives(s', h1, j1, c1, k1, b, y) && Arrives(s', h2, j2, c2, k2, b, y)
        ensures c1 == c2
      {
        RemoveTrail(s, n, h1, j1, c1, k1);
        RemoveTrail(s, n, h2, j2, c2, k2);
        assert Arrives(s, h1, j1, c1, k1, b, y) && Arrives(s, h2, j2, c2, k2, b, y);
      }
    }
  }

  // ---- Writing to a frame ----

  lemma SetPageShape(s: State, n: Id, i: nat, page: Page)
    requires Shape(s) && HasSlot(s, n, i) && PageOk(page, SlotAt(s, n, i).len)
    ensures Shape(SetPage(s, SlotAt(s, n, i).frame, page)) && SameSlots(s, SetPage(s, SlotAt(s, n, i).frame, page))
  {
    var s' := SetPage(s, SlotAt(s, n, i).frame, page);
    SameLinksLinked(s, s');
    ChildrenKeep(s, s');
    forall m, k | HasSlot(s', m, k)
      ensures SlotAt(s', m, k).frame in s'.mem && PageOk(s'.mem[SlotAt(s', m, k).frame], SlotAt(s', m, k).len)
    {
      assert HasSlot(s, m, k);
    }
    forall m, k | IsLeaf(s', m) && HasSlot(s', m, k) ensures SlotAt(s', m, k).Shared? {
      assert IsLeaf(s, m) && HasSlot(s, m, k);
    }
    forall n1, i1, n2, i2 | HasSlot(s', n1, i1) && HasSlot(s', n2, i2)
      && SlotAt(s', n1, i1).frame == SlotAt(s', n2, i2).frame
      ensures n1 == n2 && i1 == i2
    {
      assert HasSlot(s, n1, i1) && HasSlot(s, n2, i2);
    }
  }

  /** A write is seen exactly by the lookups that end at the written slot. */
  lemma SetPageKeeps(s: State, n: Id, i: nat, page: Page)
    requires Inv(s) && MemOk(s) && HasSlot(s, n, i) && PageOk(page, SlotAt(s, n, i).len)
    ensures var s' := SetPage(s, SlotAt(s, n, i).frame, page);
            && Inv(s') && MemOk(s')
            && forall h, j :: IsLeaf(s, h) ==>
              View(s', h, j) == if Find(s, h, j) == At(n, i) then page else View(s, h, j)
  {
    hide AtMostTwo, PagesOk, LeavesShared, SameSlots, OneSide, Passes;
    var s' := SetPage(s, SlotAt(s, n, i).frame, page);
    SetPageShape(s, n, i, page);
    ShapeMem(s');
    forall h, j | IsLeaf(s, h) ensures View(s', h, j) == if Find(s, h, j) == At(n, i) then page else View(s, h, j) {
      SameSlotsTrail(s, s', h, j);
    }
    forall b, y | HasSlot(s', b, y) && SlotAt(s', b, y).Unique? ensures OneSide(s', b, y) {
      assert HasSlot(s, b, y) && SlotAt(s, b, y).Unique?;
      SameSlotsOneSide(s, s', b, y);
    }
  }
}
