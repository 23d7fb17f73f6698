/** Each elementary change of the tree keeps the invariant and what every handle sees. */
module PhysSteps {
  import opened Common
  import opened PhysTree
  import opened PhysViews

  lemma ShapeMem(s: State)
    requires Shape(s)
    ensures MemOk(s)
  {
    forall n, i | HasSlot(s, n, i) ensures SlotAt(s, n, i).frame in s.mem {
    }
  }

  /** No slot refers to `frame`. */
  ghost predicate Unused(s: State, frame: nat) { forall n, i :: HasSlot(s, n, i) ==> SlotAt(s, n, i).frame != frame }

  // ---- A new frame in a missing slot ----

  function Fill(s: State, c: Id, k: nat, frame: nat, page: Page, len: nat): State
    requires c in s.nodes
  {
    PutSlot(SetPage(s, frame, page), c, k, Shared(frame, len))
  }

  lemma SlotsAfterPut(s: State, c: Id, k: nat, slot: Slot, n: Id, i: nat)
    requires c in s.nodes
    ensures HasSlot(PutSlot(s, c, k, slot), n, i) <==> HasSlot(s, n, i) || (n == c && i == k)
    ensures HasSlot(PutSlot(s, c, k, slot), n, i) ==>
              SlotAt(PutSlot(s, c, k, slot), n, i) == if n == c && i == k then slot else SlotAt(s, n, i)
  {
  }

  lemma ChildrenKeep(s: State, s': State)
    requires SameLinks(s, s') && AtMostTwo(s)
    ensures AtMostTwo(s')
  {
    forall p, c1, c2, c3 | IsChild(s', c1, p) && IsChild(s', c2, p) && IsChild(s', c3, p)
      ensures c1 == c2 || c1 == c3 || c2 == c3
    {
      assert IsChild(s, c1, p) && IsChild(s, c2, p) && IsChild(s, c3, p);
    }
  }

  lemma FillShape(s: State, c: Id, k: nat, frame: nat, page: Page, len: nat)
    requires Shape(s) && c in s.nodes && Unused(s, frame) && PageOk(page, len)
    requires k !in s.nodes[c].frames
    ensures Shape(Fill(s, c, k, frame, page, len)) && SameLinks(s, Fill(s, c, k, frame, page, len))
  {
    var s' := Fill(s, c, k, frame, page, len);
    SameLinksLinked(s, s');
    ChildrenKeep(s, s');
    forall n, i | HasSlot(s', n, i)
      ensures SlotAt(s', n, i).frame in s'.mem && PageOk(s'.mem[SlotAt(s', n, i).frame], SlotAt(s', n, i).len)
    {
      SlotsAfterPut(SetPage(s, frame, page), c, k, Shared(frame, len), n, i);
      assert (n != c || i != k) ==> HasSlot(s, n, i) && SlotAt(s', n, i) == SlotAt(s, n, i);
    }
    forall n, i | IsLeaf(s', n) && HasSlot(s', n, i) ensures SlotAt(s', n, i).Shared? {
      assert (n != c || i != k) ==> IsLeaf(s, n) && HasSlot(s, n, i) && SlotAt(s', n, i) == SlotAt(s, n, i);
    }
    forall n1, i1, n2, i2 | HasSlot(s', n1, i1) && HasSlot(s', n2, i2)
      && SlotAt(s', n1, i1).frame == SlotAt(s', n2, i2).frame
      ensures n1 == n2 && i1 == i2
    {
      assert (n1 != c || i1 != k) ==> HasSlot(s, n1, i1) && SlotAt(s', n1, i1) == SlotAt(s, n1, i1);
      assert (n2 != c || i2 != k) ==> HasSlot(s, n2, i2) && SlotAt(s', n2, i2) == SlotAt(s, n2, i2);
    }
  }

  lemma FillView(s: State, c: Id, k: nat, frame: nat, page: Page, len: nat, n: Id, i: nat)
    requires Shape(s) && c in s.nodes && Unused(s, frame) && PageOk(page, len) && n in s.nodes
    requires k !in s.nodes[c].frames && Shape(Fill(s, c, k, frame, page, len)) && MemOk(s)
    requires MemOk(Fill(s, c, k, frame, page, len))
    ensures View(Fill(s, c, k, frame, page, len), n, i) == if Passes(s, n, i, c, k) then page else View(s, n, i)
  {
    var s1 := SetPage(s, frame, page);
    var s' := Fill(s, c, k, frame, page, len);
    SameLinksLinked(s, s1);
    SameSlotsTrail(s, s1, n, i);
    SameSlotsPasses(s, s1, n, i, c, k);
    FillTrail(s1, c, k, Shared(frame, len), n, i);
    if !Passes(s, n, i, c, k) {
      var loc := Find(s, n, i);
      assert loc.At? ==> HasSlot(s, loc.n, loc.i) && SlotAt(s', loc.n, loc.i) == SlotAt(s, loc.n, loc.i) by {
        FindPasses(s, n, i);
      }
    }
  }

  /** Nothing needs a frame that did not need it before. */
  lemma FillArrives(s: State, c: Id, k: nat, frame: nat, page: Page, len: nat, h: Id, j: nat, c1: Id, k1: nat, b: Id,
                    y: nat)
    requires Linked(s) && c in s.nodes && k !in s.nodes[c].frames && Linked(Fill(s, c, k, frame, page, len))
    requires Arrives(Fill(s, c, k, frame, page, len), h, j, c1, k1, b, y)
    ensures Arrives(s, h, j, c1, k1, b, y) && (c1 != c || k1 != k)
  {
    hide Linked, Passes;
    var s1 := SetPage(s, frame, page);
    SameLinksLinked(s, s1);
    FillPasses(s1, c, k, Shared(frame, len), h, j, c1, k1);
    SameSlotsPasses(s, s1, h, j, c1, k1);
  }

  lemma FillSameViews(s: State, c: Id, k: nat, frame: nat, len: nat, page: Page)
    requires Shape(s) && MemOk(s) && c in s.nodes && k !in s.nodes[c].frames && Unused(s, frame)
    requires page == View(s, c, k) && PageOk(page, len)
    requires Shape(Fill(s, c, k, frame, page, len)) && MemOk(Fill(s, c, k, frame, page, len))
    ensures SameViews(s, Fill(s, c, k, frame, page, len))
  {
    var s' := Fill(s, c, k, frame, page, len);
    forall h, j | IsLeaf(s, h) ensures View(s', h, j) == View(s, h, j) {
      FillView(s, c, k, frame, page, len, h, j);
      if Passes(s, h, j, c, k) {
        PassesFind(s, h, j, c, k);
      }
    }
  }

  /** Copying down the page a node sees anyway changes nothing for anyone. */
  lemma FillKeeps(s: State, c: Id, k: nat, frame: nat, len: nat, page: Page)
    requires Inv(s) && MemOk(s) && c in s.nodes && k !in s.nodes[c].frames && Unused(s, frame)
    requires page == View(s, c, k) && PageOk(page, len)
    ensures Inv(Fill(s, c, k, frame, page, len)) && MemOk(Fill(s, c, k, frame, page, len))
    ensures SameViews(s, Fill(s, c, k, frame, page, len))
  {
    var s' := Fill(s, c, k, frame, page, len);
    FillShape(s, c, k, frame, page, len);
    ShapeMem(s');
    FillSameViews(s, c, k, frame, len, page);
    forall b, y | HasSlot(s', b, y) && SlotAt(s', b, y).Unique? ensures OneSide(s', b, y) {
      assert HasSlot(s, b, y) && SlotAt(s, b, y).Unique?;
      assert OneSide(s, b, y);
      forall h1, j1, c1, k1, h2, j2, c2, k2 | Arrives(s', h1, j1, c1, k1, b, y) && Arrives(s', h2, j2, c2, k2, b, y)
        ensures c1 == c2
      {
        FillArrives(s, c, k, frame, page, len, h1, j1, c1, k1, b, y);
        FillArrives(s, c, k, frame, page, len, h2, j2, c2, k2, b, y);
      }
    }
  }

  // ---- A shared frame copied for one side (phys.rs:238-246) ----

  function CowCopy(s: State, b: Id, y: nat, len: nat, c: Id, k: nat, frame: nat): State
    requires HasSlot(s, b, y) && c in s.nodes && SlotAt(s, b, y).frame in s.mem
    requires |s.mem[SlotAt(s, b, y).frame]| == PAGE && len <= PAGE
  {
    var slot := SlotAt(s, b, y);
    Fill(PutSlot(s, b, y, Unique(slot.frame, len)), c, k, frame, CopyPage(s.mem[slot.frame], len), len)
  }

  /** Changing the kind and length of a slot. */
  lemma ReslotShape(s: State, b: Id, y: nat, slot: Slot)
    requires Shape(s) && HasSlot(s, b, y) && slot.frame == SlotAt(s, b, y).frame
    requires SlotAt(s, b, y).len <= slot.len <= PAGE && (IsLeaf(s, b) ==> slot.Shared?)
    ensures Shape(PutSlot(s, b, y, slot)) && SameSlots(s, PutSlot(s, b, y, slot))
    ensures forall f :: Unused(s, f) ==> Unused(PutSlot(s, b, y, slot), f)
  {
    var s' := PutSlot(s, b, y, slot);
    SameLinksLinked(s, s');
    ChildrenKeep(s, s');
    forall n, i | HasSlot(s', n, i)
      ensures HasSlot(s, n, i) && SlotAt(s', n, i).frame == SlotAt(s, n, i).frame
    {
      SlotsAfterPut(s, b, y, slot, n, i);
    }
    forall n, i | HasSlot(s', n, i)
      ensures SlotAt(s', n, i).frame in s'.mem && PageOk(s'.mem[SlotAt(s', n, i).frame], SlotAt(s', n, i).len)
    {
      SlotsAfterPut(s, b, y, slot, n, i);
      assert PageOk(s.mem[SlotAt(s, n, i).frame], SlotAt(s, n, i).len);
    }
    forall n, i | IsLeaf(s', n) && HasSlot(s', n, i) ensures SlotAt(s', n, i).Shared? {
      SlotsAfterPut(s, b, y, slot, n, i);
      assert IsLeaf(s, n) && HasSlot(s, n, i);
    }
  }

  lemma ReslotView(s: State, b: Id, y: nat, slot: Slot, n: Id, i: nat)
    requires Shape(s) && HasSlot(s, b, y) && slot.frame == SlotAt(s, b, y).frame && n in s.nodes
    requires Shape(PutSlot(s, b, y, slot)) && MemOk(s) && MemOk(PutSlot(s, b, y, slot))
    ensures View(PutSlot(s, b, y, slot), n, i) == View(s, n, i)
  {
    var s' := PutSlot(s, b, y, slot);
    SameSlotsTrail(s, s', n, i);
    var loc := Find(s, n, i);
    if loc.At? {
      SlotsAfterPut(s, b, y, slot, loc.n, loc.i);
    }
  }

  lemma CopyKeepsPage(page: Page, len: nat, newLen: nat)
    requires PageOk(page, len) && len <= newLen <= PAGE
    ensures CopyPage(page, newLen) == page && PageOk(page, newLen)
  {
    assert forall k :: 0 <= k < PAGE ==> CopyPage(page, newLen)[k] == page[k];
  }

  /** A slot whose frame both sides may need: a write from below `c` gives `c` a copy and leaves
      the frame to the other side. */
  lemma CowCopyKeeps(s: State, b: Id, y: nat, len: nat, c: Id, k: nat, frame: nat)
    requires Inv(s) && MemOk(s) && HasSlot(s, b, y) && SlotAt(s, b, y).Shared? && SlotAt(s, b, y).len <= len <= PAGE
    requires s.nodes[b].branch && c in s.nodes && k !in s.nodes[c].frames && Up(s, c, k) == Some((b, y))
    requires Unused(s, frame)
    ensures |s.mem[SlotAt(s, b, y).frame]| == PAGE
    ensures var s' := CowCopy(s, b, y, len, c, k, frame);
            Inv(s') && MemOk(s') && SameViews(s, s') && View(s', c, k) == View(s, c, k)
  {
    var slot := SlotAt(s, b, y);
    var (f, page) := (slot.frame, s.mem[slot.frame]);
    assert PageOk(page, slot.len);
    CopyKeepsPage(page, slot.len, len);
    var s1 := PutSlot(s, b, y, Unique(f, len));
    ReslotShape(s, b, y, Unique(f, len));
    ShapeMem(s1);
    assert LinkOk(s, c) && LinkOk(s1, c) && c != b;
    assert Find(s, c, k) == Find(s, b, y) == At(b, y);
    SameSlotsTrail(s, s1, c, k);
    assert View(s1, c, k) == page == View(s, c, k);
    var s' := Fill(s1, c, k, frame, page, len);
    FillShape(s1, c, k, frame, page, len);
    ShapeMem(s');
    FillSameViews(s1, c, k, frame, len, page);
    forall h, j | IsLeaf(s, h) ensures View(s', h, j) == View(s, h, j) {
      assert IsLeaf(s1, h);
      ReslotView(s, b, y, Unique(f, len), h, j);
    }
    CowCopySafe(s, b, y, len, c, k, frame, page);
  }

  lemma SameSlotsKeys(s: State, s': State)
    requires SameSlots(s, s')
    ensures s.nodes.Keys == s'.nodes.Keys
  {
  }

  lemma SameSlotsArrives(s: State, s': State, h: Id, j: nat, c: Id, k: nat, b: Id, y: nat)
    requires Linked(s) && Linked(s') && SameSlots(s, s')
    ensures Arrives(s', h, j, c, k, b, y) == Arrives(s, h, j, c, k, b, y)
  {
    hide Linked, Passes, SameSlots;
    assert s.nodes.Keys == s'.nodes.Keys by { SameSlotsKeys(s, s'); }
    if h in s.nodes {
      SameSlotsPasses(s, s', h, j, c, k);
      SameSlotsAt(s, s', h, j);
    }
    if c in s.nodes {
      SameSlotsAt(s, s', c, k);
    }
  }

  /** Neither arrives through `c`, whose slot is filled, and `b` has only two children. */
  lemma OtherChild(s: State, b: Id, y: nat, c: Id, k: nat, h1: Id, j1: nat, c1: Id, k1: nat, h2: Id, j2: nat, c2: Id,
                   k2: nat)
    requires Linked(s) && AtMostTwo(s) && c in s.nodes && Up(s, c, k) == Some((b, y))
    requires Arrives(s, h1, j1, c1, k1, b, y) && Arrives(s, h2, j2, c2, k2, b, y)
    requires (c1 != c || k1 != k) && (c2 != c || k2 != k)
    ensures c1 == c2
  {
    hide Passes, Linked, Find;
    assert IsChild(s, c, b) && IsChild(s, c1, b) && IsChild(s, c2, b);
  }

  lemma CowCopySafe(s: State, b: Id, y: nat, len: nat, c: Id, k: nat, frame: nat, page: Page)
    requires Inv(s) && HasSlot(s, b, y) && c in s.nodes && k !in s.nodes[c].frames
    requires Up(s, c, k) == Some((b, y)) && c != b
    requires var s1 := PutSlot(s, b, y, Unique(SlotAt(s, b, y).frame, len));
             Shape(s1) && Shape(Fill(s1, c, k, frame, page, len))
    requires SameSlots(s, PutSlot(s, b, y, Unique(SlotAt(s, b, y).frame, len)))
    ensures HandOverSafe(Fill(PutSlot(s, b, y, Unique(SlotAt(s, b, y).frame, len)), c, k, frame, page, len))
  {
    hide Passes, Find, AtMostTwo, FramesDistinct, PagesOk, LeavesShared, SameSlots, Linked, Arrives;
    var s1 := PutSlot(s, b, y, Unique(SlotAt(s, b, y).frame, len));
    var s' := Fill(s1, c, k, frame, page, len);
    forall b', y' | HasSlot(s', b', y') && SlotAt(s', b', y').Unique? ensures OneSide(s', b', y') {
      forall h1, j1, c1, k1, h2, j2, c2, k2 | Arrives(s', h1, j1, c1, k1, b', y') && Arrives(s', h2, j2, c2, k2, b', y')
        ensures c1 == c2
      {
        FillArrives(s1, c, k, frame, page, len, h1, j1, c1, k1, b', y');
        FillArrives(s1, c, k, frame, page, len, h2, j2, c2, k2, b', y');
        SameSlotsArrives(s, s1, h1, j1, c1, k1, b', y');
        SameSlotsArrives(s, s1, h2, j2, c2, k2, b', y');
        if b' == b && y' == y {
          OtherChild(s, b, y, c, k, h1, j1, c1, k1, h2, j2, c2, k2);
        } else {
          assert HasSlot(s, b', y') && SlotAt(s, b', y').Unique?;
          assert OneSide(s, b', y');
        }
      }
    }
  }

  // ---- A frame used in place by a longer write (phys.rs:232-237, 263-273) ----

  lemma RaiseKeeps(s: State, n: Id, i: nat, len: nat)
    requires Inv(s) && MemOk(s) && HasSlot(s, n, i) && SlotAt(s, n, i).Shared? && SlotAt(s, n, i).len <= len <= PAGE
    ensures var s' := PutSlot(s, n, i, Shared(SlotAt(s, n, i).frame, len)); Inv(s') && MemOk(s') && SameViews(s, s')
  {
    hide Passes, Find, AtMostTwo, FramesDistinct, PagesOk, LeavesShared, SameSlots, Arrives;
    var slot := Shared(SlotAt(s, n, i).frame, len);
    var s' := PutSlot(s, n, i, slot);
    ReslotShape(s, n, i, slot);
    ShapeMem(s');
    forall h, j | IsLeaf(s, h) ensures View(s', h, j) == View(s, h, j) {
      ReslotView(s, n, i, slot, h, j);
    }
    forall b, y | HasSlot(s', b, y) && SlotAt(s', b, y).Unique? ensures OneSide(s', b, y) {
      assert HasSlot(s, b, y) && SlotAt(s, b, y).Unique?;
      SameSlotsOneSide(s, s', b, y);
    }
  }

  lemma SameSlotsOneSide(s: State, s': State, b: Id, y: nat)
    requires Linked(s) && Linked(s') && SameSlots(s, s') && OneSide(s, b, y)
    ensures OneSide(s', b, y)
  {
    hide Passes, Arrives, SameSlots, Linked;
    forall h1, j1, c1, k1, h2, j2, c2, k2 | Arrives(s', h1, j1, c1, k1, b, y) && Arrives(s', h2, j2, c2, k2, b, y)
      ensures c1 == c2
    {
      SameSlotsArrives(s, s', h1, j1, c1, k1, b, y);
      SameSlotsArrives(s, s', h2, j2, c2, k2, b, y);
    }
  }

  // ---- A unique frame handed over to the side that still needs it (phys.rs:248-254) ----

  function HandOver(s: State, b: Id, y: nat, c: Id, k: nat): State
    requires HasSlot(s, b, y) && c in s.nodes
  {
    PutSlot(DropSlot(s, b, y), c, k, AsShared(SlotAt(s, b, y)))
  }

  lemma HandOverCommutes(s: State, b: Id, y: nat, c: Id, k: nat)
    requires HasSlot(s, b, y) && c in s.nodes && c != b
    ensures HandOver(s, b, y, c, k) == DropSlot(PutSlot(s, c, k, AsShared(SlotAt(s, b, y))), b, y)
  {
  }

  lemma SlotsAfterHandOver(s: State, b: Id, y: nat, c: Id, k: nat, n: Id, i: nat)
    requires HasSlot(s, b, y) && c in s.nodes && c != b && k !in s.nodes[c].frames
    ensures var s' := HandOver(s, b, y, c, k);
            && (HasSlot(s', n, i) <==> (n == c && i == k) || (HasSlot(s, n, i) && (n != b || i != y)))
            && (HasSlot(s', n, i) ==>
              SlotAt(s', n, i) == if n == c && i == k then AsShared(SlotAt(s, b, y)) else SlotAt(s, n, i))
  {
  }

  lemma HandOverShape(s: State, b: Id, y: nat, c: Id, k: nat)
    requires Shape(s) && HasSlot(s, b, y) && c in s.nodes && c != b && k !in s.nodes[c].frames
    ensures Shape(HandOver(s, b, y, c, k)) && SameLinks(s, HandOver(s, b, y, c, k))
  {
    hide AtMostTwo;
    var s' := HandOver(s, b, y, c, k);
    SameLinksLinked(s, s');
    ChildrenKeep(s, s');
    forall n, i | HasSlot(s', n, i)
      ensures var m, x := if n == c && i == k then b else n, if n == c && i == k then y else i;
              HasSlot(s, m, x) && SlotAt(s', n, i).frame == SlotAt(s, m, x).frame
                && SlotAt(s', n, i).len == SlotAt(s, m, x).len
    {
      SlotsAfterHandOver(s, b, y, c, k, n, i);
    }
    forall n1, i1, n2, i2 | HasSlot(s', n1, i1) && HasSlot(s', n2, i2)
      && SlotAt(s', n1, i1).frame == SlotAt(s', n2, i2).frame
      ensures n1 == n2 && i1 == i2
    {
      SlotsAfterHandOver(s, b, y, c, k, n1, i1);
      SlotsAfterHandOver(s, b, y, c, k, n2, i2);
    }
    forall n, i | IsLeaf(s', n) && HasSlot(s', n, i) ensures SlotAt(s', n, i).Shared? {
      SlotsAfterHandOver(s, b, y, c, k, n, i);
      assert (n != c || i != k) ==> IsLeaf(s, n) && HasSlot(s, n, i);
    }
  }

  /** Once `(c, k)` is filled, no handle needs `(b, y)` any more. */
  lemma NobodyNeeds(s: State, b: Id, y: nat, c: Id, k: nat, slot: Slot, h0: Id, j0: nat, h: Id, j: nat)
    requires Linked(s) && Arrives(s, h0, j0, c, k, b, y) && OneSide(s, b, y) && s.nodes[b].branch
    requires Linked(PutSlot(s, c, k, slot)) && IsLeaf(s, h)
    ensures !Passes(PutSlot(s, c, k, slot), h, j, b, y)
  {
    var s1 := PutSlot(s, c, k, slot);
    if Passes(s1, h, j, b, y) {
      var c2, k2 := LastStep(s1, h, j, b, y);
      FillPasses(s, c, k, slot, h, j, c2, k2);
      assert Arrives(s, h, j, c2, k2, b, y);
    }
  }

  lemma HandOverTrail(s: State, b: Id, y: nat, c: Id, k: nat, h0: Id, j0: nat, h: Id, j: nat, c1: Id, k1: nat)
    requires Linked(s) && Arrives(s, h0, j0, c, k, b, y) && HasSlot(s, b, y) && OneSide(s, b, y)
    requires s.nodes[b].branch && c != b
    requires Linked(HandOver(s, b, y, c, k)) && IsLeaf(s, h)
    ensures Find(HandOver(s, b, y, c, k), h, j) == if Passes(s, h, j, c, k) then At(c, k) else Find(s, h, j)
    ensures !Passes(s, h, j, c, k) ==> Find(s, h, j) != At(b, y)
    ensures Passes(HandOver(s, b, y, c, k), h, j, c1, k1) ==> Passes(s, h, j, c1, k1) && (c1 != b || k1 != y)
  {
    var slot := AsShared(SlotAt(s, b, y));
    var s1 := PutSlot(s, c, k, slot);
    SameLinksLinked(s, s1);
    NobodyNeeds(s, b, y, c, k, slot, h0, j0, h, j);
    HandOverCommutes(s, b, y, c, k);
    EmptyTrail(s1, b, y, h, j, c1, k1);
    FillTrail(s, c, k, slot, h, j);
    if Passes(s1, h, j, c1, k1) {
      FillPasses(s, c, k, slot, h, j, c1, k1);
    }
    if !Passes(s, h, j, c, k) {
      FindPasses(s1, h, j);
    }
  }

  /** The frame moves to the child that asks for it; the other child does not miss it. */
  lemma HandOverKeeps(s: State, b: Id, y: nat, c: Id, k: nat, h0: Id, j0: nat)
    requires Inv(s) && MemOk(s) && Arrives(s, h0, j0, c, k, b, y) && HasSlot(s, b, y) && SlotAt(s, b, y).Unique?
    ensures var s' := HandOver(s, b, y, c, k); Inv(s') && MemOk(s') && SameViews(s, s')
  {
    hide AtMostTwo, FramesDistinct, PagesOk, LeavesShared;
    var s' := HandOver(s, b, y, c, k);
    assert LinkOk(s, c) && c != b && s.nodes[b].branch;
    HandOverShape(s, b, y, c, k);
    ShapeMem(s');
    assert OneSide(s, b, y);
    forall h, j | IsLeaf(s, h) ensures View(s', h, j) == View(s, h, j) {
      HandOverView(s, b, y, c, k, h0, j0, h, j);
    }
    HandOverStaysSafe(s, b, y, c, k, h0, j0);
  }

  lemma HandOverView(s: State, b: Id, y: nat, c: Id, k: nat, h0: Id, j0: nat, h: Id, j: nat)
    requires Linked(s) && MemOk(s) && Arrives(s, h0, j0, c, k, b, y) && HasSlot(s, b, y) && OneSide(s, b, y)
    requires s.nodes[b].branch && c != b
    requires Linked(HandOver(s, b, y, c, k)) && MemOk(HandOver(s, b, y, c, k)) && IsLeaf(s, h)
    ensures View(HandOver(s, b, y, c, k), h, j) == View(s, h, j)
  {
    hide OneSide, MemOk, Arrives;
    HandOverTrail(s, b, y, c, k, h0, j0, h, j, c, k);
    assert k !in s.nodes[c].frames && Up(s, c, k) == Some((b, y)) by { ArrivesMiss(s, h0, j0, c, k, b, y); }
    if Passes(s, h, j, c, k) {
      PassesFind(s, h, j, c, k);
      assert Find(s, c, k) == At(b, y);
      SlotsAfterHandOver(s, b, y, c, k, c, k);
    } else {
      var loc := Find(s, h, j);
      SlotsAfterHandOver(s, b, y, c, k, loc.n, loc.i);
      assert loc.At? && loc.n == c && loc.i == k ==> false by { FindPasses(s, h, j); }
    }
  }

  lemma ArrivesMiss(s: State, h: Id, j: nat, c: Id, k: nat, b: Id, y: nat)
    requires Linked(s) && Arrives(s, h, j, c, k, b, y)
    ensures c in s.nodes && k !in s.nodes[c].frames && Up(s, c, k) == Some((b, y))
  {
  }

  lemma HandOverStaysSafe(s: State, b: Id, y: nat, c: Id, k: nat, h0: Id, j0: nat)
    requires Linked(s) && HandOverSafe(s) && Arrives(s, h0, j0, c, k, b, y) && HasSlot(s, b, y)
    requires SlotAt(s, b, y).Unique? && c != b && s.nodes[b].branch
    requires Linked(HandOver(s, b, y, c, k))
    ensures HandOverSafe(HandOver(s, b, y, c, k))
  {
    hide Passes, Linked, Find;
    var s' := HandOver(s, b, y, c, k);
    forall b', y' | HasSlot(s', b', y') && SlotAt(s', b', y').Unique? ensures OneSide(s', b', y') {
      SlotsAfterHandOver(s, b, y, c, k, b', y');
      assert HasSlot(s, b', y') && SlotAt(s, b', y').Unique?;
      assert OneSide(s, b', y') && OneSide(s, b, y);
      forall h1, j1, c1, k1, h2, j2, c2, k2 | Arrives(s', h1, j1, c1, k1, b', y') && Arrives(s', h2, j2, c2, k2, b', y')
        ensures c1 == c2
      {
        HandOverArrives(s, b, y, c, k, h0, j0, h1, j1, c1, k1, b', y');
        HandOverArrives(s, b, y, c, k, h0, j0, h2, j2, c2, k2, b', y');
      }
    }
  }

  lemma HandOverArrives(s: State, b: Id, y: nat, c: Id, k: nat, h0: Id, j0: nat, h: Id, j: nat, c1: Id, k1: nat,
                        b1: Id, y1: nat)
    requires Linked(s) && Arrives(s, h0, j0, c, k, b, y) && HasSlot(s, b, y) && OneSide(s, b, y)
    requires s.nodes[b].branch && c != b
    requires Linked(HandOver(s, b, y, c, k)) && Arrives(HandOver(s, b, y, c, k), h, j, c1, k1, b1, y1)
    ensures Arrives(s, h, j, c1, k1, b1, y1)
  {
    hide OneSide, Find, Passes, Linked;
    assert IsLeaf(s, h);
    HandOverTrail(s, b, y, c, k, h0, j0, h, j, c1, k1);
    SlotsAfterHandOver(s, b, y, c, k, c1, k1);
  }
}
