/** Collapsing a sole parent (`merge_sole_parent`, kmem/src/phys.rs:464-524): when it keeps what
    every handle sees, and what it exposes otherwise. */
module PhysMerge {
  import opened Common
  import opened PhysTree
  import opened PhysViews
  import opened PhysSteps

  /** The merged parent's own window has no end or covers the window of the child; a file behind
      the parent is seen whole and from its first page. */
  predicate MergeOk(s: State, n: Id)
    requires Sole(s, n)
  {
    var Window(p, start, end) := s.nodes[n].parent;
    match s.nodes[p].parent
    case NoParent => true
    case Window(_, ppStart, ppEnd) => ppEnd.None?
      || (end.Some? && (end.value <= ppEnd.value - ppStart || end.value == start))
    case Backend(_) => start == 0 && end.None?
  }

  // ---- Structure ----

  /** The place from which the slot `(m, i)` of the merged tree comes. */
  function Origin(s: State, n: Id, m: Id, i: nat): (Id, nat)
    requires Sole(s, n)
  {
    if m == n && i !in s.nodes[n].frames then (s.nodes[n].parent.id, i + s.nodes[n].parent.start) else (m, i)
  }

  lemma SlotsAfterMerge(s: State, n: Id, m: Id, i: nat)
    requires Sole(s, n) && n != s.nodes[n].parent.id && HasSlot(Merge(s, n), m, i)
    ensures var o := Origin(s, n, m, i);
            && HasSlot(s, o.0, o.1)
            && SlotAt(Merge(s, n), m, i) == if o == (m, i) then SlotAt(s, m, i) else AsShared(SlotAt(s, o.0, o.1))
    ensures m != s.nodes[n].parent.id
  {
    var Window(p, start, end) := s.nodes[n].parent;
    InMerged(s.nodes[n].frames, s.nodes[p].frames, start, end, i);
  }

  lemma MergeLinks(s: State, n: Id, m: Id)
    requires Sole(s, n) && Linked(s) && m in Merge(s, n).nodes
    ensures LinkOk(Merge(s, n), m)
  {
    assert LinkOk(s, n) && LinkOk(s, s.nodes[n].parent.id) && LinkOk(s, m);
    assert m != n ==> !IsChild(s, m, s.nodes[n].parent.id);
  }

  /** Whose child a node becomes. */
  lemma MergeChild(s: State, n: Id, m: Id, q: Id)
    requires Sole(s, n) && Linked(s) && IsChild(Merge(s, n), m, q)
    ensures m != s.nodes[n].parent.id
    ensures IsChild(s, if m == n then s.nodes[n].parent.id else m, q)
  {
    assert LinkOk(s, n);
  }

  lemma MergeShape(s: State, n: Id)
    requires Shape(s) && Sole(s, n)
    ensures Shape(Merge(s, n))
  {
    hide Shifted, MergedFrames;
    var s' := Merge(s, n);
    var p := s.nodes[n].parent.id;
    assert LinkOk(s, n) && p != n;
    forall m | m in s'.nodes ensures LinkOk(s', m) {
      MergeLinks(s, n, m);
    }
    MergeChildren(s, n);
    MergeFrames(s, n);
  }

  lemma MergeChildren(s: State, n: Id)
    requires Linked(s) && AtMostTwo(s) && Sole(s, n)
    ensures AtMostTwo(Merge(s, n))
  {
    hide MergedFrames, Linked;
    var s' := Merge(s, n);
    var p := s.nodes[n].parent.id;
    forall q, c1, c2, c3 | IsChild(s', c1, q) && IsChild(s', c2, q) && IsChild(s', c3, q)
      ensures c1 == c2 || c1 == c3 || c2 == c3
    {
      MergeChild(s, n, c1, q);
      MergeChild(s, n, c2, q);
      MergeChild(s, n, c3, q);
    }
  }

  lemma MergeFrames(s: State, n: Id)
    requires Sole(s, n) && n != s.nodes[n].parent.id && FramesDistinct(s) && PagesOk(s) && LeavesShared(s)
    ensures FramesDistinct(Merge(s, n)) && PagesOk(Merge(s, n)) && LeavesShared(Merge(s, n))
  {
    hide MergedFrames, Sole;
    var s' := Merge(s, n);
    forall m1, i1, m2, i2 | HasSlot(s', m1, i1) && HasSlot(s', m2, i2)
      && SlotAt(s', m1, i1).frame == SlotAt(s', m2, i2).frame
      ensures m1 == m2 && i1 == i2
    {
      SlotsAfterMerge(s, n, m1, i1);
      SlotsAfterMerge(s, n, m2, i2);
    }
    forall m, i | HasSlot(s', m, i)
      ensures SlotAt(s', m, i).frame in s'.mem && PageOk(s'.mem[SlotAt(s', m, i).frame], SlotAt(s', m, i).len)
      ensures IsLeaf(s', m) ==> SlotAt(s', m, i).Shared?
    {
      SlotsAfterMerge(s, n, m, i);
    }
  }

  // ---- Lookups ----

  /** A lookup that ended in the merged parent ends in the child instead. */
  function Moved(s: State, n: Id, loc: Loc): Loc
    requires Sole(s, n)
  {
    var Window(p, start, _) := s.nodes[n].parent;
    if loc.n != p then loc
    else var i: nat := if loc.i < start then 0 else loc.i - start; if loc.At? then At(n, i) else Off(n, i)
  }

  /** The lookup step from `(n, i)` in the merged tree replaces two steps. */
  lemma MergeStep(s: State, n: Id, i: nat)
    requires Linked(s) && Sole(s, n) && MergeOk(s, n) && i !in s.nodes[n].frames
    ensures var s' := Merge(s, n);
            match Up(s, n, i)
            case None => i !in s'.nodes[n].frames && Up(s', n, i) == None
            case Some(up) =>
              if up.1 in s.nodes[up.0].frames then i in s'.nodes[n].frames
              else i !in s'.nodes[n].frames && Up(s', n, i) == Up(s, up.0, up.1)
  {
    var Window(p, start, end) := s.nodes[n].parent;
    assert LinkOk(s, n) && LinkOk(s, p);
    InMerged(s.nodes[n].frames, s.nodes[p].frames, start, end, i);
  }

  lemma {:induction false} MergeTrail(s: State, n: Id, m: Id, i: nat, c: Id, k: nat)
    requires Linked(s) && Sole(s, n) && MergeOk(s, n) && Linked(Merge(s, n)) && m in s.nodes
    requires m != s.nodes[n].parent.id
    requires c != s.nodes[n].parent.id
    ensures Find(Merge(s, n), m, i) == Moved(s, n, Find(s, m, i))
    ensures Passes(Merge(s, n), m, i, c, k) == Passes(s, m, i, c, k)
    decreases s.nodes[m].rank
  {
    hide MergedFrames, MergedParent, MergeOk;
    var s' := Merge(s, n);
    var Window(p, start, end) := s.nodes[n].parent;
    assert LinkOk(s, m) && LinkOk(s', m) && LinkOk(s, n) && LinkOk(s, p);
    if m == n {
      if i in s.nodes[n].frames {
        InMerged(s.nodes[n].frames, s.nodes[p].frames, start, end, i);
      } else {
        MergeStep(s, n, i);
        if Up(s, n, i).Some? && start + i !in s.nodes[p].frames && Up(s, p, start + i).Some? {
          var next := Up(s, p, start + i).value;
          MergeTrail(s, n, next.0, next.1, c, k);
        }
      }
    } else {
      assert s'.nodes[m] == s.nodes[m] && !IsChild(s, m, p);
      if i !in s.nodes[m].frames && Up(s, m, i).Some? {
        MergeTrail(s, n, Up(s, m, i).value.0, Up(s, m, i).value.1, c, k);
      }
    }
  }

  /** Lookups reach the merged parent only through the child. */
  lemma ThroughChild(s: State, n: Id, m: Id, i: nat)
    requires Linked(s) && Sole(s, n) && m in s.nodes && m != s.nodes[n].parent.id
    requires Find(s, m, i).n == s.nodes[n].parent.id
    ensures var k := Find(s, m, i).i - s.nodes[n].parent.start;
            k >= 0 && k !in s.nodes[n].frames && Up(s, n, k) == Some((s.nodes[n].parent.id, Find(s, m, i).i))
  {
    var loc := Find(s, m, i);
    FindPasses(s, m, i);
    var c, k := LastStep(s, m, i, loc.n, loc.i);
    assert IsChild(s, c, s.nodes[n].parent.id);
  }

  lemma OffEdge(s: State, m: Id, i: nat)
    requires Linked(s) && m in s.nodes && Find(s, m, i).Off?
    ensures var loc := Find(s, m, i); loc.i !in s.nodes[loc.n].frames && Up(s, loc.n, loc.i) == None
  {
    var loc := Find(s, m, i);
    FindPasses(s, m, i);
    PassesFind(s, m, i, loc.n, loc.i);
    assert LinkOk(s, loc.n);
  }

  lemma MergeView(s: State, n: Id, m: Id, i: nat)
    requires Linked(s) && MemOk(s) && Sole(s, n) && MergeOk(s, n) && m in s.nodes && m != s.nodes[n].parent.id
    requires Linked(Merge(s, n)) && MemOk(Merge(s, n))
    ensures View(Merge(s, n), m, i) == View(s, m, i)
  {
    hide MergedFrames, Linked, MemOk;
    var s' := Merge(s, n);
    var Window(p, start, end) := s.nodes[n].parent;
    assert n != p by { LinkAt(s, n); }
    MergeTrail(s, n, m, i, m, i);
    var loc, loc' := Find(s, m, i), Find(s', m, i);
    if loc.n == p {
      ThroughChild(s, n, m, i);
    }
    if loc.At? {
      SlotsAfterMerge(s, n, loc'.n, loc'.i);
    } else {
      OffEdge(s, m, i);
    }
  }

  /** Who still needs a frame is as before, with the child in place of its parent. */
  lemma MergeArrives(s: State, n: Id, h: Id, j: nat, c: Id, k: nat, b: Id, y: nat)
    requires Linked(s) && Sole(s, n) && MergeOk(s, n) && Linked(Merge(s, n)) && Arrives(Merge(s, n), h, j, c, k, b, y)
    requires s.nodes[s.nodes[n].parent.id].branch
    ensures c != s.nodes[n].parent.id
    ensures if c == n then Arrives(s, h, j, s.nodes[n].parent.id, k + s.nodes[n].parent.start, b, y)
            else Arrives(s, h, j, c, k, b, y)
  {
    hide MergedFrames, MergeOk;
    var Window(p, start, end) := s.nodes[n].parent;
    assert LinkOk(s, n) && IsLeaf(s, h);
    MergeTrail(s, n, h, j, c, k);
    if c == n {
      InMerged(s.nodes[n].frames, s.nodes[p].frames, start, end, k);
      MergeStep(s, n, k);
      assert Up(s, n, k) == Some((p, k + start)) && Passes(s, n, k, p, k + start);
      PassesTrans(s, h, j, n, k, p, k + start);
    }
  }

  lemma MergeSafe(s: State, n: Id)
    requires Shape(s) && HandOverSafe(s) && Sole(s, n) && MergeOk(s, n) && Shape(Merge(s, n))
    ensures HandOverSafe(Merge(s, n))
  {
    hide MergedFrames, MergeOk, Linked, Arrives, FramesDistinct, PagesOk, LeavesShared, AtMostTwo;
    var s' := Merge(s, n);
    var p := s.nodes[n].parent.id;
    assert s.nodes[p].branch && p != n by { LinkAt(s, n); }
    forall b, y | HasSlot(s', b, y) && SlotAt(s', b, y).Unique? ensures OneSide(s', b, y) {
      SlotsAfterMerge(s, n, b, y);
      assert HasSlot(s, b, y) && SlotAt(s, b, y).Unique?;
      assert OneSide(s, b, y);
      forall h1, j1, c1, k1, h2, j2, c2, k2 | Arrives(s', h1, j1, c1, k1, b, y) && Arrives(s', h2, j2, c2, k2, b, y)
        ensures c1 == c2
      {
        MergeArrives(s, n, h1, j1, c1, k1, b, y);
        MergeArrives(s, n, h2, j2, c2, k2, b, y);
      }
    }
  }

  /** Collapsing a sole parent within its window changes nothing for any handle. */
  lemma MergeKeeps(s: State, n: Id)
    requires Inv(s) && MemOk(s) && Sole(s, n) && MergeOk(s, n)
    ensures Inv(Merge(s, n)) && MemOk(Merge(s, n)) && SameViews(s, Merge(s, n))
  {
    hide MergedFrames, MergeOk, HandOverSafe;
    var s' := Merge(s, n);
    var p := s.nodes[n].parent.id;
    assert s.nodes[p].branch && p != n by { LinkAt(s, n); }
    MergeShape(s, n);
    ShapeMem(s');
    MergeSafe(s, n);
    forall h, j | IsLeaf(s, h) ensures View(s', h, j) == View(s, h, j) {
      MergeView(s, n, h, j);
    }
  }

  // ---- What an unrestricted merge does ----

  /** The window of the merged parent, or its file, is seen differently after the merge. */
  predicate Gap(s: State, n: Id, j: nat)
    requires Sole(s, n)
  {
    var Window(p, start, _) := s.nodes[n].parent;
    match s.nodes[p].parent
    case NoParent => false
    case Window(_, ppStart, ppEnd) => Up(s, n, j).Some? && ppEnd.Some? && start + j >= ppEnd.value - ppStart
    case Backend(_) => Up(s, n, j) == None || start != 0
  }

  lemma MergeOkIsGapFree(s: State, n: Id)
    requires Linked(s) && Sole(s, n)
    ensures MergeOk(s, n) <==> forall j :: !Gap(s, n, j)
  {
    var Window(p, start, end) := s.nodes[n].parent;
    assert LinkOk(s, n) && LinkOk(s, p);
    if !MergeOk(s, n) {
      var above := s.nodes[p].parent;
      assert Gap(s, n, if end.None? && above.Window? then above.end.value
                       else if end.None? then 0
                       else if above.Window? then end.value - start - 1 else end.value);
    }
  }

  /** What the child saw at such a page, if neither node holds it. */
  function Hidden(s: State, n: Id, j: nat): Page
    requires Sole(s, n)
  {
    var Window(p, start, _) := s.nodes[n].parent;
    if Up(s, n, j) == None then Zeros(PAGE) else Outside(s, p, start + j)
  }

  /** What it sees after the merge. */
  function Exposed(s: State, n: Id, j: nat): Page
    requires Linked(s) && MemOk(s) && Sole(s, n)
  {
    var Window(p, start, _) := s.nodes[n].parent;
    assert LinkOk(s, p);
    match s.nodes[p].parent
    case Window(pp, ppStart, _) => View(s, pp, ppStart + start + j)
    case _ => Outside(s, p, j)
  }

  /** The child or its parent has the page, so that it is not looked up any further. */
  predicate HeldBelow(s: State, n: Id, j: nat)
    requires Sole(s, n)
  {
    || j in s.nodes[n].frames
    || (Up(s, n, j).Some? && s.nodes[n].parent.start + j in s.nodes[s.nodes[n].parent.id].frames)
  }

  /** The lookups above the merged parent are not affected by the merge. */
  lemma {:induction false} AboveMerge(s: State, n: Id, m: Id, i: nat)
    requires Linked(s) && Sole(s, n) && Linked(Merge(s, n)) && m in s.nodes
    requires s.nodes[m].rank < s.nodes[s.nodes[n].parent.id].rank
    ensures Find(Merge(s, n), m, i) == Find(s, m, i)
    decreases s.nodes[m].rank
  {
    hide MergedFrames;
    assert LinkOk(s, n) && LinkOk(s, m) && LinkOk(Merge(s, n), m) && Merge(s, n).nodes[m] == s.nodes[m];
    if i !in s.nodes[m].frames && Up(s, m, i).Some? {
      AboveMerge(s, n, Up(s, m, i).value.0, Up(s, m, i).value.1);
    }
  }

  lemma HeldKept(s: State, n: Id, j: nat)
    requires Linked(s) && MemOk(s) && Sole(s, n) && HeldBelow(s, n, j) && Linked(Merge(s, n)) && MemOk(Merge(s, n))
    ensures View(Merge(s, n), n, j) == View(s, n, j)
  {
    hide MergedFrames, MemOk;
    var Window(p, start, end) := s.nodes[n].parent;
    assert LinkOk(s, n);
    InMerged(s.nodes[n].frames, s.nodes[p].frames, start, end, j);
    SlotsAfterMerge(s, n, n, j);
    if j !in s.nodes[n].frames {
      assert Find(s, n, j) == Find(s, p, start + j) == At(p, start + j);
    }
  }

  lemma FallBefore(s: State, n: Id, j: nat)
    requires Linked(s) && MemOk(s) && Sole(s, n) && !HeldBelow(s, n, j)
    ensures Gap(s, n, j) ==> View(s, n, j) == Hidden(s, n, j)
    ensures !Gap(s, n, j) ==> View(s, n, j) == if Up(s, n, j) == None then Zeros(PAGE) else Exposed(s, n, j)
  {
    hide MemOk;
    var Window(p, start, _) := s.nodes[n].parent;
    assert LinkOk(s, n) && LinkOk(s, p);
    if Up(s, n, j).Some? {
      assert Find(s, n, j) == Find(s, p, start + j);
    }
  }

  lemma FallAfter(s: State, n: Id, j: nat)
    requires Linked(s) && MemOk(s) && Sole(s, n) && !HeldBelow(s, n, j) && Linked(Merge(s, n)) && MemOk(Merge(s, n))
    ensures View(Merge(s, n), n, j) == if Up(s, n, j) == None && !s.nodes[s.nodes[n].parent.id].parent.Backend?
            then Zeros(PAGE) else Exposed(s, n, j)
  {
    hide MergedFrames, MemOk;
    var s' := Merge(s, n);
    var Window(p, start, end) := s.nodes[n].parent;
    assert LinkOk(s, n) && LinkOk(s, p) && LinkOk(s', n);
    InMerged(s.nodes[n].frames, s.nodes[p].frames, start, end, j);
    if s.nodes[p].parent.Window? && Up(s, n, j).Some? {
      var Window(pp, ppStart, _) := s.nodes[p].parent;
      var k := ppStart + start + j;
      assert Up(s', n, j) == Some((pp, k));
      AboveMerge(s, n, pp, k);
      var loc := Find(s, pp, k);
      assert s'.nodes[loc.n] == s.nodes[loc.n];
      assert Find(s', n, j) == loc;
    }
  }

  /** What the child sees after any merge, and before it: the view is kept, except at the pages
      in the gap that neither node holds; there the exposed page takes the place of the hidden
      one. */
  lemma MergeExposes(s: State, n: Id, j: nat)
    requires Shape(s) && MemOk(s) && Sole(s, n)
    ensures Shape(Merge(s, n)) && MemOk(Merge(s, n))
    ensures View(Merge(s, n), n, j) == if Gap(s, n, j) && !HeldBelow(s, n, j) then Exposed(s, n, j) else View(s, n, j)
    ensures Gap(s, n, j) && !HeldBelow(s, n, j) ==> View(s, n, j) == Hidden(s, n, j)
  {
    hide MergedFrames, View, Find, MemOk, AtMostTwo, FramesDistinct, PagesOk, LeavesShared, Linked, Exposed, Hidden;
    MergeShape(s, n);
    ShapeMem(Merge(s, n));
    if HeldBelow(s, n, j) {
      HeldKept(s, n, j);
    } else {
      FallBefore(s, n, j);
      FallAfter(s, n, j);
    }
  }

  lemma MergeShrinks(s: State, n: Id)
    requires Sole(s, n) && s.nodes[n].parent.id != n
    ensures |Merge(s, n).nodes| < |s.nodes|
  {
    hide MergedFrames;
    assert Merge(s, n).nodes.Keys == s.nodes.Keys - {s.nodes[n].parent.id};
  }

  /** Sole parents merged into `n` until page `want` is there, or once if none is wanted.  No node is
      its own parent. */
  function MergedUntil(s: State, n: Id, want: Option<nat>): State
    decreases |s.nodes|
  {
    if Sole(s, n) && s.nodes[n].parent.id != n then
      MergeShrinks(s, n);
      var s' := Merge(s, n);
      if want == None || n !in s'.nodes || want.value in s'.nodes[n].frames then s' else MergedUntil(s', n, want)
    else s
  }

  lemma MergedStep(s: State, n: Id, want: Option<nat>)
    requires Linked(s) && n in s.nodes
    ensures !Sole(s, n) ==> MergedUntil(s, n, want) == s
    ensures Sole(s, n) && n in Merge(s, n).nodes ==>
              MergedUntil(s, n, want) ==
              if want == None || want.value in Merge(s, n).nodes[n].frames then Merge(s, n)
                else MergedUntil(Merge(s, n), n, want)
  {
    hide MergedFrames;
    assert LinkOk(s, n);
  }

  function Ones(n: nat): (z: Page)
    ensures |z| == n && forall k :: 0 <= k < n ==> z[k] == 1
  {
    seq(n, _ => 1)
  }

  /** A window of one page, merged into a child that has no such bound. */
  function Bounded(): State {
    State(map[0 := Node(true, true, NoParent, map[1 := Shared(7, PAGE)], 0),
              1 := Node(true, true, Window(0, 0, Some(1)), map[], 1),
              2 := Node(false, true, Window(1, 0, None), map[], 2)], map[7 := Ones(PAGE)])
  }

  lemma BoundedOk()
    ensures Inv(Bounded()) && MemOk(Bounded())
  {
    hide Passes, Find;
    var s := Bounded();
    assert LinkOk(s, 0) && LinkOk(s, 1) && LinkOk(s, 2);
    assert PageOk(Ones(PAGE), PAGE);
    assert forall n, i :: HasSlot(s, n, i) ==> n == 0 && i == 1;
  }

  /** Page 1 of the child reads zero, and ones after the merge. */
  lemma MergeCanExpose()
    ensures Inv(Bounded()) && MemOk(Bounded()) && Sole(Bounded(), 2) && !MergeOk(Bounded(), 2)
    ensures Shape(Merge(Bounded(), 2)) && MemOk(Merge(Bounded(), 2))
    ensures View(Bounded(), 2, 1) == Zeros(PAGE) != Ones(PAGE) == View(Merge(Bounded(), 2), 2, 1)
  {
    hide AtMostTwo, FramesDistinct, PagesOk, LeavesShared, HandOverSafe, MergedFrames, MemOk;
    var s := Bounded();
    BoundedOk();
    assert Ones(PAGE)[0] == 1 && Zeros(PAGE)[0] == 0;
    assert Sole(s, 2);
    MergeExposes(s, 2, 1);
    assert Find(s, 0, 1) == At(0, 1);
  }
}
