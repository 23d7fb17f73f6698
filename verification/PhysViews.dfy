/** How the elementary changes of the tree affect lookups, and the invariant that makes lazy
    hand-over sound. */
module PhysViews {
  import opened Common
  import opened PhysTree

  lemma LinkAt(s: State, n: Id)
    requires Linked(s) && n in s.nodes
    ensures LinkOk(s, n)
  {
  }

  // ---- Trails ----

  /** The lookup of page `i` of `n` visits `(c, k)`. */
  predicate Passes(s: State, n: Id, i: nat, c: Id, k: nat)
    requires Linked(s) && n in s.nodes
    decreases s.nodes[n].rank
  {
    || (n == c && i == k)
    || (i !in s.nodes[n].frames
        && assert LinkOk(s, n);
           match Up(s, n, i)
           case None => false
           case Some(next) => Passes(s, next.0, next.1, c, k))
  }

  lemma {:induction false} PassesFind(s: State, n: Id, i: nat, c: Id, k: nat)
    requires Linked(s) && n in s.nodes && Passes(s, n, i, c, k)
    ensures c in s.nodes && Find(s, n, i) == Find(s, c, k) && s.nodes[c].rank <= s.nodes[n].rank
    ensures (n, i) != (c, k) ==> s.nodes[c].rank < s.nodes[n].rank && s.nodes[c].branch
    decreases s.nodes[n].rank
  {
    if n != c || i != k {
      assert LinkOk(s, n);
      var next := Up(s, n, i).value;
      PassesFind(s, next.0, next.1, c, k);
    }
  }

  lemma {:induction false} FindPasses(s: State, n: Id, i: nat)
    requires Linked(s) && n in s.nodes
    ensures Passes(s, n, i, Find(s, n, i).n, Find(s, n, i).i)
    decreases s.nodes[n].rank
  {
    if i !in s.nodes[n].frames && Up(s, n, i).Some? {
      assert LinkOk(s, n);
      FindPasses(s, Up(s, n, i).value.0, Up(s, n, i).value.1);
    }
  }

  /** The step before the last of a trail to `(b, y)`. */
  lemma {:induction false} LastStep(s: State, n: Id, i: nat, b: Id, y: nat) returns (c: Id, k: nat)
    requires Linked(s) && n in s.nodes && Passes(s, n, i, b, y) && (n != b || i != y)
    ensures c in s.nodes && Passes(s, n, i, c, k) && k !in s.nodes[c].frames && Up(s, c, k) == Some((b, y))
    decreases s.nodes[n].rank
  {
    assert LinkOk(s, n);
    var next := Up(s, n, i).value;
    if next == (b, y) {
      c, k := n, i;
    } else {
      c, k := LastStep(s, next.0, next.1, b, y);
    }
  }

  lemma {:induction false} PassesTrans(s: State, n: Id, i: nat, c: Id, k: nat, b: Id, y: nat)
    requires Linked(s) && n in s.nodes && c in s.nodes && Passes(s, n, i, c, k) && Passes(s, c, k, b, y)
    ensures Passes(s, n, i, b, y)
    decreases s.nodes[n].rank
  {
    if n != c || i != k {
      assert LinkOk(s, n);
      PassesTrans(s, Up(s, n, i).value.0, Up(s, n, i).value.1, c, k, b, y);
    }
  }

  // ---- Changes of one slot ----

  /** The same nodes and parents; only slots differ. */
  predicate SameLinks(s: State, s': State) {
    && s.nodes.Keys == s'.nodes.Keys
    && forall n :: n in s.nodes ==>
         && s'.nodes[n].parent == s.nodes[n].parent && s'.nodes[n].branch == s.nodes[n].branch
         && s'.nodes[n].rank == s.nodes[n].rank && s'.nodes[n].cow == s.nodes[n].cow
  }

  lemma SameLinksLinked(s: State, s': State)
    requires Linked(s) && SameLinks(s, s')
    ensures Linked(s')
  {
    forall n | n in s'.nodes ensures LinkOk(s', n) {
      assert LinkOk(s, n);
    }
  }

  /** Filling a missing slot cuts the trails through it and leaves all others alone. */
  lemma {:induction false} FillTrail(s: State, c: Id, k: nat, slot: Slot, n: Id, i: nat)
    requires Linked(s) && c in s.nodes && k !in s.nodes[c].frames && n in s.nodes && Linked(PutSlot(s, c, k, slot))
    ensures Find(PutSlot(s, c, k, slot), n, i) == if Passes(s, n, i, c, k) then At(c, k) else Find(s, n, i)
    decreases s.nodes[n].rank
  {
    var s' := PutSlot(s, c, k, slot);
    assert s'.nodes[n].parent == s.nodes[n].parent;
    if (n != c || i != k) && i !in s.nodes[n].frames && Up(s, n, i).Some? {
      assert LinkOk(s, n);
      FillTrail(s, c, k, slot, Up(s, n, i).value.0, Up(s, n, i).value.1);
    }
  }

  /** ... and adds no visits. */
  lemma {:induction false} FillPasses(s: State, c: Id, k: nat, slot: Slot, n: Id, i: nat, b: Id, y: nat)
    requires Linked(s) && c in s.nodes && k !in s.nodes[c].frames && n in s.nodes && Linked(PutSlot(s, c, k, slot))
    requires Passes(PutSlot(s, c, k, slot), n, i, b, y)
    ensures Passes(s, n, i, b, y)
    decreases s.nodes[n].rank
  {
    var s' := PutSlot(s, c, k, slot);
    assert s'.nodes[n].parent == s.nodes[n].parent;
    if n != b || i != y {
      assert LinkOk(s, n) && LinkOk(s', n);
      FillPasses(s, c, k, slot, Up(s, n, i).value.0, Up(s, n, i).value.1, b, y);
    }
  }

  /** Slots are present in the same places. */
  predicate SameSlots(s: State, s': State) {
    SameLinks(s, s') && forall n :: n in s.nodes ==> s'.nodes[n].frames.Keys == s.nodes[n].frames.Keys
  }

  lemma SameSlotsAt(s: State, s': State, n: Id, i: nat)
    requires SameSlots(s, s') && n in s.nodes
    ensures n in s'.nodes && s'.nodes[n].parent == s.nodes[n].parent && s'.nodes[n].branch == s.nodes[n].branch
    ensures i in s'.nodes[n].frames <==> i in s.nodes[n].frames
  {
  }

  lemma {:induction false} SameSlotsTrail(s: State, s': State, n: Id, i: nat)
    requires Linked(s) && Linked(s') && SameSlots(s, s') && n in s.nodes
    ensures Find(s', n, i) == Find(s, n, i)
    decreases s.nodes[n].rank
  {
    hide SameSlots, Linked;
    SameSlotsAt(s, s', n, i);
    if i !in s.nodes[n].frames && Up(s, n, i).Some? {
      LinkAt(s, n);
      SameSlotsTrail(s, s', Up(s, n, i).value.0, Up(s, n, i).value.1);
    }
  }

  lemma {:induction false} SameSlotsPasses(s: State, s': State, n: Id, i: nat, b: Id, y: nat)
    requires Linked(s) && Linked(s') && SameSlots(s, s') && n in s.nodes
    ensures Passes(s', n, i, b, y) == Passes(s, n, i, b, y)
    decreases s.nodes[n].rank
  {
    hide SameSlots, Linked;
    SameSlotsAt(s, s', n, i);
    if i !in s.nodes[n].frames && Up(s, n, i).Some? {
      LinkAt(s, n);
      SameSlotsPasses(s, s', Up(s, n, i).value.0, Up(s, n, i).value.1, b, y);
    }
  }

  /** Emptying a slot leaves alone the trails that do not visit it. */
  lemma {:induction false} EmptyTrail(s: State, b: Id, y: nat, n: Id, i: nat, c: Id, k: nat)
    requires Linked(s) && b in s.nodes && n in s.nodes && Linked(DropSlot(s, b, y)) && !Passes(s, n, i, b, y)
    ensures Find(DropSlot(s, b, y), n, i) == Find(s, n, i)
    ensures Passes(DropSlot(s, b, y), n, i, c, k) == Passes(s, n, i, c, k)
    decreases s.nodes[n].rank
  {
    var s' := DropSlot(s, b, y);
    assert s'.nodes[n].parent == s.nodes[n].parent;
    assert i in s'.nodes[n].frames <==> i in s.nodes[n].frames;
    if i !in s.nodes[n].frames && Up(s, n, i).Some? {
      assert LinkOk(s, n) && LinkOk(s', n);
      EmptyTrail(s, b, y, Up(s, n, i).value.0, Up(s, n, i).value.1, c, k);
    }
  }

  // ---- The invariant ----

  /** At most two nodes hang off any node. */
  ghost predicate AtMostTwo(s: State) {
    forall p, c1, c2, c3 :: IsChild(s, c1, p) && IsChild(s, c2, p) && IsChild(s, c3, p) ==>
      c1 == c2 || c1 == c3 || c2 == c3
  }

  ghost predicate FramesDistinct(s: State) {
    forall n1, i1, n2, i2 ::
      (HasSlot(s, n1, i1) && HasSlot(s, n2, i2) && SlotAt(s, n1, i1).frame == SlotAt(s, n2, i2).frame) ==>
        n1 == n2 && i1 == i2
  }

  predicate PageOk(page: Page, len: nat) {
    len <= PAGE && |page| == PAGE && forall k :: len <= k < PAGE ==> page[k] == 0
  }

  ghost predicate PagesOk(s: State) {
    forall n, i :: HasSlot(s, n, i) ==>
      SlotAt(s, n, i).frame in s.mem && PageOk(s.mem[SlotAt(s, n, i).frame], SlotAt(s, n, i).len)
  }

  /** Handles own their frames outright. */
  ghost predicate LeavesShared(s: State) { forall n, i :: IsLeaf(s, n) && HasSlot(s, n, i) ==> SlotAt(s, n, i).Shared? }

  /** What holds in every state, whatever windows are merged. */
  ghost predicate Shape(s: State) {
    Linked(s) && AtMostTwo(s) && FramesDistinct(s) && PagesOk(s) && LeavesShared(s)
  }

  /** A handle's lookup of page `j` misses at `(c, k)` and goes on to `(b, y)`. */
  predicate Arrives(s: State, h: Id, j: nat, c: Id, k: nat, b: Id, y: nat)
    requires Linked(s)
  {
    && IsLeaf(s, h) && Passes(s, h, j, c, k) && c in s.nodes && k !in s.nodes[c].frames
    && Up(s, c, k) == Some((b, y))
  }

  /** All handles that still need the frame at `(b, y)` are on the same side of `b`. */
  ghost predicate OneSide(s: State, b: Id, y: nat)
    requires Linked(s)
  {
    forall h1, j1, c1, k1, h2, j2, c2, k2 :: Arrives(s, h1, j1, c1, k1, b, y) && Arrives(s, h2, j2, c2, k2, b, y) ==>
      c1 == c2
  }

  /** A frame is `Unique` only while one side of its branch needs it. */
  ghost predicate HandOverSafe(s: State)
    requires Linked(s)
  {
    forall b, y :: HasSlot(s, b, y) && SlotAt(s, b, y).Unique? ==> OneSide(s, b, y)
  }

  ghost predicate Inv(s: State) { Shape(s) && HandOverSafe(s) }

  /** Every handle of `s` is still there and sees the same pages. */
  ghost predicate SameViews(s: State, s': State)
    requires Linked(s) && MemOk(s) && Linked(s') && MemOk(s')
  {
    && (forall h :: IsLeaf(s, h) ==> IsLeaf(s', h))
    && (forall h, j :: IsLeaf(s, h) ==> View(s', h, j) == View(s, h, j))
  }
}
