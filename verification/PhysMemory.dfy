/** The operations on physical memory objects (kmem/src/phys.rs), over one store of nodes and
    frames.  Allocation of frames always succeeds. */
module PhysMemory {
  import opened Common
  import opened PhysTree
  import opened PhysViews
  import opened PhysSteps
  import opened PhysMerge
  import opened PhysClone
  import opened PhysForks
  import opened PhysQuiet

  /** The shared page of zeros. */
  const ZERO: nat := 0

  // ---- A consistent store ----

  ghost predicate Sound(s: State, nextId: nat, nextFrame: nat) {
    && Shape(s) && MemOk(s)
    && (forall n :: n in s.nodes ==> n < nextId)
    && (forall f :: f in s.mem ==> f < nextFrame)
    && ZERO in s.mem && s.mem[ZERO] == Zeros(PAGE) && Unused(s, ZERO)
  }

  lemma SoundSlot(s: State, nextId: nat, nextFrame: nat, n: Id, i: nat)
    requires Sound(s, nextId, nextFrame) && HasSlot(s, n, i)
    ensures SlotAt(s, n, i).frame in s.mem && PageOk(s.mem[SlotAt(s, n, i).frame], SlotAt(s, n, i).len)
    ensures IsLeaf(s, n) ==> SlotAt(s, n, i).Shared?
    ensures SlotAt(s, n, i).frame != ZERO
  {
  }

  lemma SoundUnused(s: State, nextId: nat, nextFrame: nat)
    requires Sound(s, nextId, nextFrame)
    ensures Unused(s, nextFrame) && nextFrame !in s.mem
  {
  }

  lemma SoundCopy(s: State, nextId: nat, nextFrame: nat, b: Id, y: nat, len: nat, c: Id, k: nat)
    requires Sound(s, nextId, nextFrame) && HasSlot(s, b, y) && SlotAt(s, b, y).len <= len <= PAGE && s.nodes[b].branch
    requires c in s.nodes && k !in s.nodes[c].frames && c != b
    ensures |s.mem[SlotAt(s, b, y).frame]| == PAGE
    ensures Sound(CowCopy(s, b, y, len, c, k, nextFrame), nextId, nextFrame + 1)
  {
    hide AtMostTwo, FramesDistinct, Linked;
    var slot := SlotAt(s, b, y);
    assert PageOk(s.mem[slot.frame], slot.len);
    SoundUnused(s, nextId, nextFrame);
    ReslotShape(s, b, y, Unique(slot.frame, len));
    CopyKeepsPage(s.mem[slot.frame], slot.len, len);
    FillShape(PutSlot(s, b, y, Unique(slot.frame, len)), c, k, nextFrame, CopyPage(s.mem[slot.frame], len), len);
    var s' := CowCopy(s, b, y, len, c, k, nextFrame);
    ShapeMem(s');
    forall n, i | HasSlot(s', n, i) ensures SlotAt(s', n, i).frame != ZERO {
      assert (n == c && i == k) || HasSlot(s, n, i);
    }
  }

  lemma SoundHandOver(s: State, nextId: nat, nextFrame: nat, b: Id, y: nat, c: Id, k: nat)
    requires Sound(s, nextId, nextFrame) && HasSlot(s, b, y) && c in s.nodes && k !in s.nodes[c].frames && c != b
    ensures Sound(HandOver(s, b, y, c, k), nextId, nextFrame)
  {
    hide AtMostTwo, FramesDistinct, Linked;
    var s' := HandOver(s, b, y, c, k);
    HandOverShape(s, b, y, c, k);
    ShapeMem(s');
    forall n, i | HasSlot(s', n, i) ensures SlotAt(s', n, i).frame != ZERO {
      SlotsAfterHandOver(s, b, y, c, k, n, i);
    }
  }

  lemma SoundRaise(s: State, nextId: nat, nextFrame: nat, n: Id, i: nat, len: nat)
    requires Sound(s, nextId, nextFrame) && HasSlot(s, n, i) && SlotAt(s, n, i).len <= len <= PAGE
    ensures Sound(PutSlot(s, n, i, Shared(SlotAt(s, n, i).frame, len)), nextId, nextFrame)
  {
    hide AtMostTwo, FramesDistinct, Linked;
    ReslotShape(s, n, i, Shared(SlotAt(s, n, i).frame, len));
    ShapeMem(PutSlot(s, n, i, Shared(SlotAt(s, n, i).frame, len)));
  }

  lemma SoundFill(s: State, nextId: nat, nextFrame: nat, n: Id, i: nat, page: Page, len: nat)
    requires Sound(s, nextId, nextFrame) && n in s.nodes && i !in s.nodes[n].frames && PageOk(page, len)
    ensures Sound(Fill(s, n, i, nextFrame, page, len), nextId, nextFrame + 1)
  {
    hide AtMostTwo, FramesDistinct, Linked;
    SoundUnused(s, nextId, nextFrame);
    FillShape(s, n, i, nextFrame, page, len);
    var s' := Fill(s, n, i, nextFrame, page, len);
    ShapeMem(s');
    forall m, k | HasSlot(s', m, k) ensures SlotAt(s', m, k).frame != ZERO {
      assert (m == n && k == i) || HasSlot(s, m, k);
    }
  }

  lemma SoundMerge(s: State, nextId: nat, nextFrame: nat, n: Id)
    requires Sound(s, nextId, nextFrame) && Sole(s, n)
    ensures Sound(Merge(s, n), nextId, nextFrame) && n in Merge(s, n).nodes && |Merge(s, n).nodes| < |s.nodes|
    ensures Above(s, Merge(s, n), n)
  {
    hide AtMostTwo, FramesDistinct, MergedFrames;
    var s' := Merge(s, n);
    var p := s.nodes[n].parent.id;
    assert LinkOk(s, n);
    MergeShape(s, n);
    ShapeMem(s');
    forall m, k | HasSlot(s', m, k) ensures SlotAt(s', m, k).frame != ZERO {
      SlotsAfterMerge(s, n, m, k);
    }
    assert s'.nodes.Keys == s.nodes.Keys - {p};
  }

  // ---- Requests ----

  /** Page `j` of handle `h` is looked up at `(n, i)`, and came there from `(c, k)` if `n` is a
      branch. */
  ghost predicate Asked(s: State, n: Id, i: nat, h: Id, j: nat, c: Id, k: nat) {
    && Linked(s) && n in s.nodes && IsLeaf(s, h) && Passes(s, h, j, n, i)
    && if s.nodes[n].branch then Arrives(s, h, j, c, k, n, i) else h == n && j == i
  }

  ghost predicate Shows(s: State, h: Id, j: nat, page: Page) {
    Linked(s) && MemOk(s) && h in s.nodes && View(s, h, j) == page
  }

  ghost predicate ShowsFile(s: State, h: Id, file: Option<seq<byte>>) {
    && Linked(s) && MemOk(s) && h in s.nodes
    && forall j :: View(s, h, j) == if file.Some? then FilePage(file.value, j) else Zeros(PAGE)
  }

  /** The frame to write is in `(z, y)`, which page `i` of `n` may write to. */
  ghost predicate WriteTo(s: State, n: Id, i: nat, len: nat, cow: bool, r: Commit, z: Id, y: nat) {
    && Linked(s) && n in s.nodes && HasSlot(s, z, y) && SlotAt(s, z, y) == Shared(r.frame, r.len) && len <= r.len
    && if s.nodes[n].branch then !cow && PlainTrail(s, n, i, z, y) else MayWrite(s, n, i, z, y)
  }

  lemma SoundShape(s: State, nextId: nat, nextFrame: nat)
    requires Sound(s, nextId, nextFrame)
    ensures Shape(s) && MemOk(s)
  {
  }

  lemma SlotShows(s: State, n: Id, i: nat, h: Id, j: nat)
    requires Linked(s) && MemOk(s) && IsLeaf(s, h) && Passes(s, h, j, n, i) && HasSlot(s, n, i)
    ensures Shows(s, h, j, s.mem[SlotAt(s, n, i).frame])
  {
    PassesFind(s, h, j, n, i);
    assert Find(s, n, i) == At(n, i);
  }

  /** A frame that is handed over shows in the child it is handed to. */
  lemma PendingShows(s: State, s': State, n: Id, i: nat, h: Id, j: nat, c: Id, k: nat, r: Commit)
    requires Asked(s, n, i, h, j, c, k) && s.nodes[n].branch && Above(s, s', n) && r.Handed? && c in s'.nodes
    requires r.frame in s'.mem
    requires Linked(Pending(s', c, k, r)) && MemOk(Pending(s', c, k, r))
    ensures Shows(Pending(s', c, k, r), h, j, s'.mem[r.frame])
  {
    var t := Pending(s', c, k, r);
    assert LinkOk(s, c) && s.nodes[c].rank > s.nodes[n].rank;
    PassesFind(s, h, j, c, k);
    PendingPasses(s, t, c, k, h, j);
    SlotShows(t, c, k, h, j);
  }

  lemma {:induction false} PendingPasses(s: State, t: State, c: Id, k: nat, h: Id, j: nat)
    requires Linked(s) && Linked(t) && c in s.nodes && h in s.nodes && Passes(s, h, j, c, k) && c in t.nodes
    requires forall m :: m in s.nodes && s.nodes[m].rank > s.nodes[c].rank ==> m in t.nodes && t.nodes[m] == s.nodes[m]
    ensures h in t.nodes && Passes(t, h, j, c, k)
    decreases s.nodes[h].rank
  {
    PassesFind(s, h, j, c, k);
    if h != c || j != k {
      assert LinkOk(s, h) && LinkOk(t, h);
      PendingPasses(s, t, c, k, Up(s, h, j).value.0, Up(s, h, j).value.1);
    }
  }

  lemma OffShows(s: State, n: Id, i: nat, h: Id, j: nat)
    requires Linked(s) && MemOk(s) && IsLeaf(s, h) && Passes(s, h, j, n, i) && n in s.nodes
    requires i !in s.nodes[n].frames && Up(s, n, i) == None
    ensures Shows(s, h, j, Outside(s, n, i))
  {
    PassesFind(s, h, j, n, i);
    assert Find(s, n, i) == Off(n, i);
  }

  lemma ShowsQuiet(s: State, s': State, h: Id, j: nat, page: Page)
    requires Quiet(s, s') && IsLeaf(s, h) && Shows(s', h, j, page)
    ensures Shows(s, h, j, page)
  {
    assert View(s', h, j) == View(s, h, j);
  }

  lemma WriteHere(s: State, n: Id, i: nat)
    requires Linked(s) && n in s.nodes
    ensures MayWrite(s, n, i, n, i) && (!s.nodes[n].cow ==> PlainTrail(s, n, i, n, i))
  {
  }

  lemma AskedAbove(s: State, s': State, n: Id, i: nat, h: Id, j: nat, c: Id, k: nat)
    requires Asked(s, n, i, h, j, c, k) && Linked(s') && Above(s, s', n)
    ensures Asked(s', n, i, h, j, c, k)
  {
    PassesFind(s, h, j, n, i);
    PassesAbove(s, s', n, i, h, j);
    if s.nodes[n].branch {
      ArrivesAbove(s, s', n, i, h, j, c, k);
    }
  }

  lemma AskedUp(s: State, n: Id, i: nat, h: Id, j: nat, c: Id, k: nat, p: Id, x: nat)
    requires Asked(s, n, i, h, j, c, k) && i !in s.nodes[n].frames && Up(s, n, i) == Some((p, x))
    ensures Asked(s, p, x, h, j, n, i)
  {
    assert LinkOk(s, n);
    assert Passes(s, n, i, p, x);
    PassesTrans(s, h, j, n, i, p, x);
  }

  class Memory {
    var nodes: map<Id, Node>
    var mem: map<nat, Page>
    var nextId: nat
    var nextFrame: nat
    /** All merges so far kept within their windows (`MergeOk`). */
    ghost var tame: bool

    ghost function S(): State
      reads this
    {
      State(nodes, mem)
    }

    constructor ()
      ensures Valid() && tame && nodes == map[] && nextId == 0 && WholeWindows(S())
    {
      nodes, mem := map[], map[ZERO := Zeros(PAGE)];
      nextId, nextFrame, tame := 0, 1, true;
    }

    /** The store would be consistent with the tree in state `s`. */
    ghost predicate ValidWith(s: State)
      reads this
    {
      Sound(s, nextId, nextFrame) && (tame ==> Good(s))
    }

    ghost predicate Valid()
      reads this
    {
      ValidWith(S())
    }

    // ---- FrameInfo::get, with branch and leaf (phys.rs:224-305) ----

    /** Answers a request for the frame at `(n, i)` of a branch on behalf of its child `(c, k)`,
        whose handle `h` looks up page `j`. */
    method Branch(n: Id, i: nat, write: Option<nat>, cow: bool, ghost h: Id, ghost j: nat, ghost c: Id, ghost k: nat)
      returns (r: Commit)
      requires Valid() && HasSlot(S(), n, i) && (write.Some? ==> write.value <= PAGE)
      requires nodes[n].branch && Shape(S()) && Arrives(S(), h, j, c, k, n, i)
      modifies this
      ensures Above(old(S()), S(), n) && SameLinks(old(S()), S()) && tame == old(tame) && nextId == old(nextId)
      ensures c in nodes
      ensures ValidWith(Pending(S(), c, k, r))
      ensures tame ==> Quiet(old(S()), Pending(S(), c, k, r))
      ensures r.frame in mem && mem[r.frame] == old(mem[SlotAt(S(), n, i).frame])
      ensures r.Held? ==> HasSlot(S(), n, i) && SlotAt(S(), n, i) == Shared(r.frame, r.len)
      ensures r.Held? && write.Some? ==> write.value <= r.len && !cow
    {
      hide Sound, Good, Quiet, Linked, AtMostTwo, FramesDistinct, PagesOk, LeavesShared, Arrives, Passes, Above,
           SameLinks, CopyPage;
      ghost var s := S();
      var slot := nodes[n].frames[i];
      SoundSlot(s, nextId, nextFrame, n, i);
      assert c in nodes && k !in nodes[c].frames && c != n && Up(s, c, k) == Some((n, i)) by {
             MissAbove(s, h, j, c, k, n, i); }
      if slot.Unique? {
        nodes := nodes[n := nodes[n].(frames := nodes[n].frames - {i})];
        r := Handed(slot.frame, slot.len);
        assert Pending(S(), c, k, r) == HandOver(s, n, i, c, k);
        SoundHandOver(s, nextId, nextFrame, n, i, c, k);
        if tame {
          QuietHandOver(s, n, i, c, k, h, j);
          QuietGood(s, HandOver(s, n, i, c, k));
        }
      } else if write == None {
        r := Held(slot.frame, slot.len);
        if tame {
          QuietRefl(s);
        }
      } else if !cow {
        var len := Max(slot.len, write.value);
        nodes := nodes[n := nodes[n].(frames := nodes[n].frames[i := Shared(slot.frame, len)])];
        r := Held(slot.frame, len);
        assert S() == PutSlot(s, n, i, Shared(slot.frame, len));
        SoundRaise(s, nextId, nextFrame, n, i, len);
        if tame {
          QuietRaise(s, n, i, len);
          QuietGood(s, S());
        }
      } else {
        var len := Max(slot.len, write.value);
        var frame := nextFrame;
        SoundUnused(s, nextId, nextFrame);
        SoundCopy(s, nextId, nextFrame, n, i, len, c, k);
        CopyKeepsPage(s.mem[slot.frame], slot.len, len);
        if tame {
          QuietCopy(s, n, i, len, c, k, frame);
          QuietGood(s, CowCopy(s, n, i, len, c, k, frame));
        }
        mem := mem[frame := CopyPage(mem[slot.frame], len)];
        nodes := nodes[n := nodes[n].(frames := nodes[n].frames[i := Unique(slot.frame, len)])];
        nextFrame := nextFrame + 1;
        r := Handed(frame, len);
        assert Pending(S(), c, k, r) == CowCopy(s, n, i, len, c, k, frame);
      }
      Touched(s, S(), n);
    }

    method Leaf(n: Id, i: nat, write: Option<nat>) returns (r: Commit)
      requires Valid() && HasSlot(S(), n, i) && (write.Some? ==> write.value <= PAGE) && !nodes[n].branch
      modifies this
      ensures Above(old(S()), S(), n) && SameLinks(old(S()), S()) && tame == old(tame) && nextId == old(nextId)
      ensures Valid() && (tame ==> Quiet(old(S()), S()))
      ensures r.Held? && r.frame in mem && mem[r.frame] == old(mem[SlotAt(S(), n, i).frame])
      ensures HasSlot(S(), n, i) && SlotAt(S(), n, i) == Shared(r.frame, r.len)
      ensures write.Some? ==> write.value <= r.len
    {
      hide Sound, Good, Quiet, Shape, Above, SameLinks;
      ghost var s := S();
      var slot := nodes[n].frames[i];
      SoundSlot(s, nextId, nextFrame, n, i);
      var len := if write.Some? then Max(slot.len, write.value) else slot.len;
      nodes := nodes[n := nodes[n].(frames := nodes[n].frames[i := Shared(slot.frame, len)])];
      r := Held(slot.frame, len);
      assert S() == PutSlot(s, n, i, Shared(slot.frame, len));
      SoundRaise(s, nextId, nextFrame, n, i, len);
      if tame {
        QuietRaise(s, n, i, len);
        QuietGood(s, S());
      }
      Touched(s, S(), n);
    }

    // ---- merge_sole_parent (phys.rs:464-524) ----

    /** Takes over the frames of the parent that lie in the window (phys.rs:488-502). */
    method TakeFrames(own: map<nat, Slot>, above: map<nat, Slot>, start: nat, end: Option<nat>)
      returns (frames: map<nat, Slot>)
      ensures frames == MergedFrames(own, above, start, end)
    {
      hide MergedFrames;
      frames := own;
      var todo := above.Keys;
      while todo != {}
        invariant todo <= above.Keys
        invariant forall i: nat :: i in frames <==>
                  i in own || (i + start in above && i + start !in todo && InRange(i + start, start, end))
        invariant forall i: nat :: i in frames ==> frames[i] == if i in own then own[i] else AsShared(above[i + start])
        decreases todo
      {
        var p :| p in todo;
        if InRange(p, start, end) && p - start !in frames {
          frames := frames[p - start := AsShared(above[p])];
        }
        todo := todo - {p};
      }
      forall i: nat ensures i in frames <==> i in MergedFrames(own, above, start, end) {
        InMerged(own, above, start, end, i);
      }
      forall i: nat | i in frames ensures frames[i] == MergedFrames(own, above, start, end)[i] {
        InMerged(own, above, start, end, i);
      }
      assert frames.Keys == MergedFrames(own, above, start, end).Keys;
    }

    /** Merges the sole parent of `n` into it (phys.rs:475-514). */
    method MergeParent(n: Id)
      requires Valid() && Sole(S(), n)
      modifies this
      ensures S() == Merge(old(S()), n) && n in nodes && |nodes| < |old(nodes)| && nextId == old(nextId)
      ensures Valid() && Above(old(S()), S(), n) && tame == (old(tame) && MergeOk(old(S()), n))
      ensures tame ==> Quiet(old(S()), S())
      ensures old(WholeWindows(S())) ==> WholeWindows(S()) && tame == old(tame)
    {
      hide Sound, Good, Quiet, MergedFrames, MergedParent, MergeOk, Above, WholeWindows, Linked;
      ghost var s := S();
      SoundMerge(s, nextId, nextFrame, n);
      var Window(p, start, end) := nodes[n].parent;
      var frames := TakeFrames(nodes[n].frames, nodes[p].frames, start, end);
      nodes := nodes[n := nodes[n].(frames := frames, parent := MergedParent(nodes[p].parent, start, end))] - {p};
      assert S() == Merge(s, n);
      if WholeWindows(s) {
        WholeMerge(s, n);
      }
      tame := tame && MergeOk(s, n);
      if tame {
        QuietMerge(s, n);
        QuietGood(s, S());
      }
    }

    /** Merges sole parents into `n` until page `want` is found, or once if none is wanted. */
    method MergeSoleParent(n: Id, want: Option<nat>) returns (found: bool)
      requires Valid() && n in nodes
      modifies this
      ensures Valid() && Above(old(S()), S(), n) && mem == old(mem) && nextId == old(nextId)
      ensures tame ==> old(tame) && Quiet(old(S()), S())
      ensures old(WholeWindows(S())) ==> WholeWindows(S()) && tame == old(tame)
      ensures want.Some? ==> found == (want.value in nodes[n].frames)
      ensures want.Some? && !found ==> !Sole(S(), n)
      ensures S() == MergedUntil(old(S()), n, want) && (!old(Sole(S(), n)) ==> tame == old(tame))
    {
      hide Sound, Good, Quiet, MergeOk, Above, WholeWindows, MergedUntil, Linked, MergedFrames, MergedParent;
      AboveSelf(S(), n);
      found := want == None || want.value in nodes[n].frames;
      if tame {
        QuietRefl(S());
      }
      while Sole(State(nodes, mem), n)
        invariant Valid() && n in nodes && Above(old(S()), S(), n) && mem == old(mem) && nextId == old(nextId)
        invariant tame ==> old(tame) && Quiet(old(S()), S())
        invariant old(WholeWindows(S())) ==> WholeWindows(S()) && tame == old(tame)
        invariant want.Some? ==> found == (want.value in nodes[n].frames)
        invariant MergedUntil(S(), n, want) == MergedUntil(old(S()), n, want)
        invariant !old(Sole(S(), n)) ==> S() == old(S()) && tame == old(tame)
        decreases |nodes|
      {
        ghost var s := S();
        SoundShape(s, nextId, nextFrame);
        MergeParent(n);
        MergedStep(s, n, want);
        AboveTrans(old(S()), s, S(), n);
        if tame {
          QuietTrans(old(S()), s, S());
        }
        found := want == None || want.value in nodes[n].frames;
        if found {
          return;
        }
      }
      SoundShape(S(), nextId, nextFrame);
      MergedStep(S(), n, want);
    }

    // ---- commit_impl (phys.rs:526-617) ----

    method FrameGet(n: Id, i: nat, write: Option<nat>, cow: bool, ghost h: Id, ghost j: nat, ghost c: Id, ghost k: nat)
      returns (r: Commit)
      requires Valid() && HasSlot(S(), n, i) && (write.Some? ==> write.value <= PAGE) && Asked(S(), n, i, h, j, c, k)
      requires nodes[n].cow ==> cow
      modifies this
      ensures Above(old(S()), S(), n) && SameLinks(old(S()), S()) && tame == old(tame) && nextId == old(nextId)
      ensures r.Handed? ==> old(nodes[n].branch) && c in nodes
      ensures ValidWith(Pending(S(), c, k, r))
      ensures tame ==> Quiet(old(S()), Pending(S(), c, k, r)) && r.frame in mem && Shows(old(S()), h, j, mem[r.frame])
      ensures r.frame in mem && Shows(Pending(S(), c, k, r), h, j, mem[r.frame])
      ensures r.Held? && write.Some? ==> WriteTo(S(), n, i, write.value, cow, r, n, i)
    {
      hide Sound, Good, Quiet, Above, SameLinks, Passes, Linked, Find;
      ghost var s := S();
      SoundShape(s, nextId, nextFrame);
      SlotShows(s, n, i, h, j);
      if nodes[n].branch {
        r := Branch(n, i, write, cow, h, j, c, k);
      } else {
        r := Leaf(n, i, write);
      }
      if r.Held? {
        SoundShape(S(), nextId, nextFrame);
        AboveKeeps(s, S(), n);
        WriteHere(S(), n, i);
        AskedAbove(s, S(), n, i, h, j, c, k);
        SlotShows(S(), n, i, h, j);
      } else {
        PendingShows(s, S(), n, i, h, j, c, k, r) by { SoundShape(Pending(S(), c, k, r), nextId, nextFrame); }
      }
    }

    /** Reads page `i` of a file; each read returns some of the bytes that are left
        (phys.rs:575-593). */
    method ReadBackend(file: seq<byte>, i: nat) returns (page: Page, len: nat)
      ensures page == FilePage(file, i) && len == FileLen(file, i) && PageOk(page, len)
    {
      var data: Page := [];
      var offset := i * PAGE;
      while |data| < PAGE
        invariant offset == i * PAGE + |data| && |data| <= FileLen(file, i)
        invariant |data| > 0 ==> data == file[i * PAGE..offset]
        decreases PAGE - |data|
      {
        var left := if offset < |file| then Min(|file| - offset, PAGE - |data|) else 0;
        var got :| 0 <= got <= left && (got == 0 <==> left == 0);
        if got == 0 {
          break;
        }
        data := data + file[offset..offset + got];
        offset := offset + got;
      }
      len := |data|;
      page := data + Zeros(PAGE - |data|);
    }

    /** Finds the frame of page `i` of `n`, copying and handing over frames on the way; the frame
        ends in `(z, y)` when it is to be written. */
    method CommitImpl(n: Id, i: nat, write: Option<nat>, cow: bool, ghost h: Id, ghost j: nat, ghost c: Id,
                      ghost k: nat)
      returns (r: Commit, ghost z: Id, ghost y: nat)
      requires Valid() && n in nodes && (write.Some? ==> write.value <= PAGE) && Asked(S(), n, i, h, j, c, k)
      modifies this
      ensures Above(old(S()), S(), n) && nextId == old(nextId) && (tame ==> old(tame))
      ensures old(WholeWindows(S())) ==> WholeWindows(S()) && tame == old(tame)
      ensures r.Handed? ==> old(nodes[n].branch) && c in nodes
      ensures ValidWith(Pending(S(), c, k, r))
      ensures tame ==> Quiet(old(S()), Pending(S(), c, k, r)) && r.frame in mem && Shows(old(S()), h, j, mem[r.frame])
      ensures r.frame in mem && Shows(Pending(S(), c, k, r), h, j, mem[r.frame])
      ensures r.Held? && write.Some? ==> WriteTo(S(), n, i, write.value, cow, r, z, y)
      decreases nodes[n].rank, 1
    {
      hide Sound, Good, Quiet, Above, SameLinks, Passes, PlainTrail, Linked, AtMostTwo, FramesDistinct, PagesOk,
           LeavesShared, Find, Asked, Shows, WholeWindows;
      ghost var s0 := S();
      z, y := n, i;
      var cowHere := nodes[n].cow || cow;
      var found := MergeSoleParent(n, Some(i));
      ghost var s1 := S();
      AboveKeeps(s0, s1, n);
      SoundShape(s1, nextId, nextFrame);
      AskedAbove(s0, s1, n, i, h, j, c, k);
      AskedLeaf(s0, n, i, h, j, c, k);
      if !found {
        var ready;
        ready, z, y := Fetch(n, i, write, cowHere, h, j, c, k);
        ghost var s2 := S();
        Compose(s0, s1, s2, n, tame, h, j, if ready.Some? && ready.value.frame in mem then mem[ready.value.frame]
                else []);
        if ready.Some? {
          r := ready.value;
          return;
        }
        AskedAbove(s0, s2, n, i, h, j, c, k) by { SoundShape(s2, nextId, nextFrame); }
        AboveKeeps(s0, s2, n);
      }
      ghost var s2 := S();
      z, y := n, i;
      r := FrameGet(n, i, write, cowHere, h, j, c, k);
      Compose(s0, s2, S(), n, false, h, j, []);
      if tame {
        QuietTrans(s0, s2, Pending(S(), c, k, r));
        ShowsQuiet(s0, s2, h, j, mem[r.frame]);
      }
      SameWindows(s2, S());
    }

    /** Looks for a page that `n` does not have: in its parent, or in its file (phys.rs:545-615).
        Either answers the request or leaves the frame in `(n, i)`. */
    method Fetch(n: Id, i: nat, write: Option<nat>, cow: bool, ghost h: Id, ghost j: nat, ghost c: Id, ghost k: nat)
      returns (ready: Option<Commit>, ghost z: Id, ghost y: nat)
      requires Valid() && n in nodes && i !in nodes[n].frames && (write.Some? ==> write.value <= PAGE)
      requires Asked(S(), n, i, h, j, c, k)
      requires nodes[n].cow ==> cow
      modifies this
      ensures Valid() && Above(old(S()), S(), n) && nextId == old(nextId)
      ensures tame ==> old(tame) && Quiet(old(S()), S())
      ensures old(WholeWindows(S())) ==> WholeWindows(S()) && tame == old(tame)
      ensures ready == None ==> HasSlot(S(), n, i)
      ensures ready.Some? ==> ready.value.Held? && ready.value.frame in mem
      ensures ready.Some? ==>
              Shows(S(), h, j, mem[ready.value.frame]) && (tame ==> Shows(old(S()), h, j, mem[ready.value.frame]))
      ensures ready.Some? && write.Some? ==> WriteTo(S(), n, i, write.value, cow, ready.value, z, y)
      decreases nodes[n].rank, 0
    {
      hide Sound, Good, Quiet, Above, SameLinks, Passes, PlainTrail, Linked, AtMostTwo, FramesDistinct, PagesOk,
           LeavesShared, Find, Asked, Shows, WholeWindows, View;
      z, y := n, i;
      ready := None;
      ghost var s := S();
      SoundShape(s, nextId, nextFrame);
      AskedLeaf(s, n, i, h, j, c, k);
      var parent := nodes[n].parent;
      if parent.Window? && InWindow(parent, i) {
        var r;
        LinkAt(s, n);
        AskedUp(s, n, i, h, j, c, k, parent.id, parent.start + i);
        r, z, y := CommitImpl(parent.id, parent.start + i, write, cow, h, j, n, i);
        ghost var s1 := S();
        AboveStill(s, s1, parent.id, n);
        if r.Held? {
          ready := Some(r);
          SoundShape(s1, nextId, nextFrame);
          if write.Some? {
            WriteUp(s1, n, i, write.value, cow, r, z, y);
          }
        } else {
          nodes := nodes[n := nodes[n].(frames := nodes[n].frames[i := Shared(r.frame, r.len)])];
          assert S() == Pending(s1, n, i, r);
          Touched(s1, S(), n);
          AboveTrans(s, s1, S(), n);
          SameWindows(s1, S());
        }
        return;
      }
      OffShows(s, n, i, h, j);
      AboveSelf(s, n);
      var page, len := Zeros(PAGE), 0;
      if parent.Backend? {
        page, len := ReadBackend(parent.file, i);
      } else if write == None {
        ready := Some(Held(ZERO, 0));
        SoundZero(s, nextId, nextFrame);
        if tame {
          QuietRefl(s);
        }
        return;
      } else {
        len := write.value;
      }
      Store(n, i, page, len);
    }

    /** Puts a new frame with the page that `n` sees outside the tree. */
    method Store(n: Id, i: nat, page: Page, len: nat)
      requires Valid() && n in nodes && i !in nodes[n].frames && Up(S(), n, i) == None
      requires page == Outside(S(), n, i) && PageOk(page, len)
      modifies this
      ensures Valid() && Above(old(S()), S(), n) && nextId == old(nextId) && tame == old(tame) && HasSlot(S(), n, i)
      ensures (tame ==> Quiet(old(S()), S())) && (old(WholeWindows(S())) ==> WholeWindows(S()))
    {
      hide Sound, Good, Quiet, Above, SameLinks, Linked, AtMostTwo, FramesDistinct, PagesOk, LeavesShared, Find,
           WholeWindows, View;
      ghost var s := S();
      var frame := nextFrame;
      SoundShape(s, nextId, nextFrame);
      SoundUnused(s, nextId, nextFrame);
      SoundFill(s, nextId, nextFrame, n, i, page, len);
      if tame {
        OffView(s, n, i);
        QuietFill(s, n, i, frame, page, len);
        QuietGood(s, Fill(s, n, i, frame, page, len));
      }
      mem := mem[frame := page];
      nodes := nodes[n := nodes[n].(frames := nodes[n].frames[i := Shared(frame, len)])];
      nextFrame := nextFrame + 1;
      assert S() == Fill(s, n, i, frame, page, len);
      Touched(s, S(), n);
      SameWindows(s, S());
    }

    // ---- The operations on handles ----

    /** `Phys::commit` (phys.rs:619-637). */
    method Commit(h: Id, i: nat, write: Option<nat>) returns (frame: nat, len: nat, ghost z: Id, ghost y: nat)
      requires Valid() && IsLeaf(S(), h) && (write.Some? ==> write.value <= PAGE)
      modifies this
      ensures Valid() && IsLeaf(S(), h) && nextId == old(nextId)
      ensures tame ==> old(tame) && Quiet(old(S()), S())
      ensures old(WholeWindows(S())) ==> WholeWindows(S()) && tame == old(tame)
      ensures frame in mem && Shows(S(), h, i, mem[frame]) && (tame ==> Shows(old(S()), h, i, mem[frame]))
      ensures write.Some? ==> WriteTo(S(), h, i, write.value, nodes[h].cow, Held(frame, len), z, y)
    {
      hide Sound, Good, Quiet, Above, Linked, Find, Shows, WholeWindows, AtMostTwo, FramesDistinct, PagesOk,
           LeavesShared, MayWrite;
      ghost var s := S();
      SoundShape(s, nextId, nextFrame);
      var r;
      r, z, y := CommitImpl(h, i, write, nodes[h].cow, h, i, h, i);
      AboveKeeps(s, S(), h);
      frame, len := r.frame, r.len;
    }

    /** One page of `write_at`: commits the page up to the end of the data and copies the data to
        its frame (phys.rs:918-943). */
    method WritePage(h: Id, i: nat, from: nat, data: seq<byte>)
      requires Valid() && IsLeaf(S(), h) && from + |data| <= PAGE
      modifies this
      ensures Valid() && IsLeaf(S(), h) && nextId == old(nextId) && (tame ==> old(tame))
      ensures old(WholeWindows(S())) ==> WholeWindows(S()) && tame == old(tame)
      ensures tame ==> Wrote(old(S()), S(), h) && PageWritten(old(S()), S(), h, i, from, data)
      ensures HasBytes(S(), h, i, from, data)
    {
      hide HasBytes, Sound, Good, Quiet, Linked, Find, WholeWindows, AtMostTwo, FramesDistinct, PagesOk, LeavesShared,
           MayWrite, Wrote, PlainTrail, Patch, View, MemOk;
      ghost var s := S();
      var frame, len;
      ghost var z, y;
      frame, len, z, y := Commit(h, i, Some(from + |data|));
      ghost var s1 := S();
      SoundSlot(s1, nextId, nextFrame, z, y);
      SoundShape(s1, nextId, nextFrame);
      PatchOk(mem[frame], len, from, data);
      SoundSet(s1, nextId, nextFrame, z, y, Patch(mem[frame], from, data));
      mem := mem[frame := mem[frame][..from] + data + mem[frame][from + |data|..]];
      assert S() == SetPage(s1, frame, Patch(s1.mem[frame], from, data)) by { PatchIs(s1.mem[frame], from, data); }
      SameWindows(s1, S());
      SoundShape(S(), nextId, nextFrame);
      SetShows(s1, S(), h, i, z, y, from, data);
      if tame {
        SetPageWrote(s1, h, i, z, y, Patch(s1.mem[frame], from, data));
        WritePageDone(s, s1, S(), h, i, from, data, s1.mem[frame]);
      }
    }

    /** `write_at` (phys.rs:902-947). */
    method WriteAt(h: Id, offset: nat, data: seq<byte>) returns (written: nat)
      requires Valid() && IsLeaf(S(), h)
      modifies this
      ensures Valid() && IsLeaf(S(), h) && nextId == old(nextId) && written == |data|
      ensures old(WholeWindows(S())) ==> WholeWindows(S()) && tame == old(tame)
      ensures tame ==> old(tame) && Wrote(old(S()), S(), h) && BytesWritten(old(S()), S(), h, offset, data)
    {
      hide HasBytes, Sound, Good, Quiet, Linked, Find, WholeWindows, AtMostTwo, FramesDistinct, PagesOk, LeavesShared;
      hide Wrote, PageWritten, BytesWritten, View, MemOk;
      written := 0;
      if tame {
        QuietRefl(S());
        QuietWrote(S(), S(), h);
        NothingWritten(S(), h, offset, data);
      }
      if |data| == 0 {
        return;
      }
      var (startPage, startOffset, endPage, endOffset) := Offsets(offset, offset + |data|);
      OffsetsCover(offset, offset + |data|);
      var index := startPage;
      while index <= endPage
        invariant startPage <= index <= endPage + 1 && Valid() && IsLeaf(S(), h) && nextId == old(nextId)
        invariant written == if index == startPage then 0 else if index <= endPage then index * PAGE - offset
                  else |data|
        invariant old(WholeWindows(S())) ==> WholeWindows(S()) && tame == old(tame)
        invariant tame ==>
                  old(tame) && Wrote(old(S()), S(), h) && BytesWritten(old(S()), S(), h, offset, data[..written])
      {
        var from := if index == startPage then startOffset else 0;
        var to := if index == endPage then endOffset else PAGE;
        ghost var s1 := S();
        var chunk := data[written..written + (to - from)];
        WritePage(h, index, from, chunk);
        if tame {
          WroteTrans(old(S()), s1, S(), h);
          MoreWritten(old(S()), s1, S(), h, offset, data, written, index, from, chunk);
        }
        written := written + (to - from);
        index := index + 1;
      }
      assert data[..written] == data;
    }

    /** `clone_as` (phys.rs:405-450). */
    method Clone(h: Id, cow: bool, offset: nat, count: Option<nat>) returns (c: Id)
      requires Valid() && IsLeaf(S(), h)
      modifies this
      ensures Valid() && c !in old(nodes) && IsLeaf(S(), c)
      ensures tame ==> old(tame) && Cloned(old(S()), S(), h, c, cow, offset, count)
      ensures old(WholeWindows(S())) && offset == 0 && count == None ==> WholeWindows(S()) && tame == old(tame)
      ensures var merged := MergedUntil(old(S()), h, None);
              c == old(nextId) + 1 && nextId == c + 1 && h in merged.nodes
                && S() == CloneAs(merged, h, old(nextId), c, cow, offset, count)
      ensures !old(Sole(S(), h)) ==> tame == old(tame)
    {
      hide MergedUntil, Sound, Good, Quiet, Linked, Find, AtMostTwo, FramesDistinct, PagesOk, LeavesShared, Cloned,
           View, MemOk, Above;
      ghost var s := S();
      SoundFresh(s, nextId, nextFrame);
      var _ := MergeSoleParent(h, None);
      ghost var s1 := S();
      AboveKeeps(s, s1, h);
      SoundFresh(s1, nextId, nextFrame);
      var b := nextId;
      c := nextId + 1;
      SoundClone(s1, nextId, nextFrame, h, b, c, cow, offset, count);
      if tame {
        CloneIsCloned(s1, h, b, c, cow, offset, count);
        QuietCloned(s, s1, CloneAs(s1, h, b, c, cow, offset, count), h, c, cow, offset, count);
        ClonedGood(s, CloneAs(s1, h, b, c, cow, offset, count), h, c, cow, offset, count);
      }
      var own := nodes[h];
      var end := if count.Some? then Some(count.value + offset) else None;
      nodes := nodes[b := Node(true, own.cow || cow, own.parent, own.frames, own.rank)]
                    [h := own.(parent := Window(b, 0, None), frames := map[], rank := own.rank + 1)]
                    [c := Node(false, cow, Window(b, offset, end), map[], own.rank + 1)];
      nextId := nextId + 2;
      assert S() == CloneAs(s1, h, b, c, cow, offset, count);
    }

    /** Dropping a handle drops its parent with it if nothing else hangs off the parent, and so
        on. */
    method Drop(h: Id)
      requires Valid() && IsLeaf(S(), h)
      modifies this
      ensures Valid() && h !in nodes && tame == old(tame) && nextId == old(nextId)
      ensures tame ==> Dropped(old(S()), S(), h)
      ensures old(WholeWindows(S())) ==> WholeWindows(S())
      ensures S() == DropOf(old(S()), h)
    {
      hide Sound, Good, Quiet, Linked, Find, AtMostTwo, FramesDistinct, PagesOk, LeavesShared, Dropped, View, MemOk;
      ghost var s := S();
      SoundRemoveHandle(s, nextId, nextFrame, h);
      if tame {
        DropFirst(s, h);
        DroppedGood(s, RemoveNode(s, h), h);
      }
      var parent := nodes[h].parent;
      nodes := nodes - {h};
      assert S() == RemoveNode(s, h);
      while parent.Window? && Childless(State(nodes, mem), parent.id)
        invariant Valid() && h !in nodes && tame == old(tame) && nextId == old(nextId)
        invariant tame ==> Dropped(old(S()), S(), h)
        invariant parent.Window? ==> parent.id in nodes && nodes[parent.id].branch
        invariant old(WholeWindows(S())) ==> WholeWindows(S())
        invariant Pruned(S(), parent) == DropOf(old(S()), h)
        decreases |nodes|
      {
        ghost var s1 := S();
        var p := parent.id;
        SoundRemove(s1, nextId, nextFrame, p);
        if tame {
          DropNext(s, s1, h, p);
          DroppedGood(s, RemoveNode(s1, p), h);
        }
        parent := nodes[p].parent;
        nodes := nodes - {p};
        assert S() == RemoveNode(s1, p);
      }
    }

    /** `Phys::new` and `Phys::with_backend` (phys.rs:368-403). */
    method New(cow: bool, file: Option<seq<byte>>) returns (h: Id)
      requires Valid()
      modifies this
      ensures Valid() && h !in old(nodes) && IsLeaf(S(), h) && tame == old(tame)
      ensures old(WholeWindows(S())) ==> WholeWindows(S())
      ensures tame ==> Quiet(old(S()), S())
      ensures tame ==> ShowsFile(S(), h, file)
      ensures h == old(nextId) && nextId == h + 1
      ensures S() ==
              AddNode(old(S()), h, Node(false, cow, if file.Some? then Backend(file.value) else NoParent, map[], 0))
    {
      hide Sound, Good, Quiet, Linked, Find, AtMostTwo, FramesDistinct, PagesOk, LeavesShared, MemOk;
      ghost var s := S();
      SoundFresh(s, nextId, nextFrame);
      h := nextId;
      var node := Node(false, cow, if file.Some? then Backend(file.value) else NoParent, map[], 0);
      SoundAdd(s, nextId, nextFrame, h, node);
      if tame {
        AddQuiet(s, h, node);
        QuietGood(s, AddNode(s, h, node));
      }
      nodes := nodes[h := node];
      nextId := nextId + 1;
      assert S() == AddNode(s, h, node);
      SoundShape(S(), nextId, nextFrame);
    }
  }

  // ---- Bytes of a handle ----

  function Patch(page: Page, from: nat, data: seq<byte>): (patched: Page)
    requires |page| == PAGE && from + |data| <= PAGE
    ensures |patched| == PAGE
  {
    page[..from] + data + page[from + |data|..]
  }

  lemma PatchIs(page: Page, from: nat, data: seq<byte>)
    requires |page| == PAGE && from + |data| <= PAGE
    ensures Patch(page, from, data) == page[..from] + data + page[from + |data|..]
  {
  }

  lemma PatchOk(page: Page, len: nat, from: nat, data: seq<byte>)
    requires PageOk(page, len) && from + |data| <= len
    ensures PageOk(Patch(page, from, data), len)
  {
  }

  /** Page `i` of the handle has the data. */
  ghost predicate HasBytes(s: State, h: Id, i: nat, from: nat, data: seq<byte>) {
    && Linked(s) && MemOk(s) && h in s.nodes
    && from + |data| <= |View(s, h, i)| && View(s, h, i)[from..from + |data|] == data
  }

  lemma SetShows(s: State, s': State, h: Id, i: nat, z: Id, y: nat, from: nat, data: seq<byte>)
    requires Shape(s) && MemOk(s) && IsLeaf(s, h) && HasSlot(s, z, y) && MayWrite(s, h, i, z, y)
    requires |s.mem[SlotAt(s, z, y).frame]| == PAGE && from + |data| <= PAGE
    requires s' == SetPage(s, SlotAt(s, z, y).frame, Patch(s.mem[SlotAt(s, z, y).frame], from, data))
    requires Linked(s') && MemOk(s')
    ensures HasBytes(s', h, i, from, data)
  {
    hide Linked, AtMostTwo, FramesDistinct, PagesOk, LeavesShared, Find, Passes, PlainTrail;
    MayWritePasses(s, h, i, z, y);
    SameSlotsTrail(s, s', h, i);
  }

  ghost predicate PageWritten(s: State, s': State, h: Id, i: nat, from: nat, data: seq<byte>) {
    && Good(s) && Good(s') && IsLeaf(s, h) && IsLeaf(s', h) && from + |data| <= PAGE
    && (forall j :: |View(s, h, j)| == PAGE)
    && forall j :: View(s', h, j) == if j == i then Patch(View(s, h, j), from, data) else View(s, h, j)
  }

  /** Bytes `[offset, offset + |data|)` of the handle are now `data`; all other bytes are as they
      were. */
  ghost predicate BytesWritten(s: State, s': State, h: Id, offset: nat, data: seq<byte>) {
    && Good(s) && Good(s') && IsLeaf(s, h) && IsLeaf(s', h)
    && (forall j :: |View(s, h, j)| == PAGE) && (forall j :: |View(s', h, j)| == PAGE)
    && forall j: nat, o: nat :: o < PAGE ==> View(s', h, j)[o] == Wanted(View(s, h, j)[o], j * PAGE + o, offset, data)
  }

  function Wanted(was: byte, p: nat, offset: nat, data: seq<byte>): byte {
    if offset <= p < offset + |data| then data[p - offset] else was
  }

  lemma ViewSize(s: State, n: Id, i: nat)
    requires Good(s) && n in s.nodes
    ensures |View(s, n, i)| == PAGE
  {
    var loc := Find(s, n, i);
    if loc.At? {
      assert PageOk(s.mem[SlotAt(s, loc.n, loc.i).frame], SlotAt(s, loc.n, loc.i).len);
    }
  }

  lemma WritePageDone(s: State, s1: State, s2: State, h: Id, i: nat, from: nat, data: seq<byte>, page: Page)
    requires Quiet(s, s1) && Wrote(s1, s2, h) && Shows(s, h, i, page) && IsLeaf(s, h) && |page| == PAGE
    requires from + |data| <= PAGE
    requires Linked(s1) && MemOk(s1) && Linked(s2) && MemOk(s2) && h in s1.nodes && h in s2.nodes
    requires forall j :: View(s2, h, j) == if j == i then Patch(page, from, data) else View(s1, h, j)
    ensures Wrote(s, s2, h) && PageWritten(s, s2, h, i, from, data)
  {
    hide HandOverSafe, View, CowFork, AtMostTwo, FramesDistinct, PagesOk, LeavesShared, Linked, MemOk, Patch;
    QuietWrote(s, s1, h);
    WroteTrans(s, s1, s2, h);
    forall j
      ensures |View(s, h, j)| == PAGE && View(s2, h, j) == if j == i then Patch(page, from, data) else View(s, h, j)
    {
      ViewSize(s, h, j);
      assert View(s1, h, j) == View(s, h, j);
    }
  }

  /** `offsets` (phys.rs:954-969): the first and the last page of a non-empty range, with the
      offsets of its first byte and past its last byte in them. */
  function Offsets(start: nat, end: nat): (r: (nat, nat, nat, nat))
    requires start < end
  {
    var (endPage, endOffset) := (end / PAGE, end % PAGE);
    if endOffset == 0 then (start / PAGE, start % PAGE, endPage - 1, PAGE)
      else (start / PAGE, start % PAGE, endPage, endOffset)
  }

  lemma OffsetsCover(start: nat, end: nat)
    requires start < end
    ensures var (startPage, startOffset, endPage, endOffset) := Offsets(start, end);
            && start == startPage * PAGE + startOffset && startOffset < PAGE
            && end == endPage * PAGE + endOffset && 0 < endOffset <= PAGE && startPage <= endPage
            && (startPage == endPage ==> startOffset < endOffset)
  {
  }

  lemma NothingWritten(s: State, h: Id, offset: nat, data: seq<byte>)
    requires Good(s) && IsLeaf(s, h)
    ensures BytesWritten(s, s, h, offset, data[..0])
  {
    hide View;
    forall j ensures |View(s, h, j)| == PAGE {
      ViewSize(s, h, j);
    }
  }

  lemma MoreWritten(s: State, s1: State, s2: State, h: Id, offset: nat, data: seq<byte>, done: nat, i: nat, from: nat,
                    chunk: seq<byte>)
    requires done + |chunk| <= |data| && BytesWritten(s, s1, h, offset, data[..done])
    requires PageWritten(s1, s2, h, i, from, chunk)
    requires chunk == data[done..done + |chunk|] && offset + done == i * PAGE + from
    ensures BytesWritten(s, s2, h, offset, data[..done + |chunk|])
  {
    hide View, Linked, AtMostTwo, FramesDistinct, PagesOk, LeavesShared, HandOverSafe, MemOk;
    forall j: nat, o: nat | o < PAGE
      ensures View(s2, h, j)[o] == Wanted(View(s, h, j)[o], j * PAGE + o, offset, data[..done + |chunk|])
    {
      assert View(s1, h, j)[o] == Wanted(View(s, h, j)[o], j * PAGE + o, offset, data[..done]);
    }
  }

  lemma SoundSet(s: State, nextId: nat, nextFrame: nat, n: Id, i: nat, page: Page)
    requires Sound(s, nextId, nextFrame) && HasSlot(s, n, i) && PageOk(page, SlotAt(s, n, i).len)
    ensures Sound(SetPage(s, SlotAt(s, n, i).frame, page), nextId, nextFrame)
  {
    hide AtMostTwo, FramesDistinct, Linked;
    var s' := SetPage(s, SlotAt(s, n, i).frame, page);
    SetPageShape(s, n, i, page);
    ShapeMem(s');
    forall m, k | HasSlot(s', m, k) ensures SlotAt(s', m, k).frame != ZERO {
      assert HasSlot(s, m, k);
    }
  }

  lemma SoundFresh(s: State, nextId: nat, nextFrame: nat)
    requires Sound(s, nextId, nextFrame)
    ensures nextId !in s.nodes && nextId + 1 !in s.nodes
  {
  }

  lemma SoundClone(s: State, nextId: nat, nextFrame: nat, h: Id, b: Id, c: Id, cow: bool, offset: nat,
                   count: Option<nat>)
    requires Sound(s, nextId, nextFrame) && Fresh(s, h, b, c) && b < nextId + 2 && c < nextId + 2
    ensures Sound(CloneAs(s, h, b, c, cow, offset, count), nextId + 2, nextFrame)
  {
    hide AtMostTwo, FramesDistinct, Linked;
    var s' := CloneAs(s, h, b, c, cow, offset, count);
    CloneShape(s, h, b, c, cow, offset, count);
    ShapeMem(s');
    forall m, k | HasSlot(s', m, k) ensures SlotAt(s', m, k).frame != ZERO {
      SlotsAfterClone(s, h, b, c, cow, offset, count, m, k);
    }
  }

  lemma ClonedGood(s: State, s': State, h: Id, c: Id, cow: bool, offset: nat, count: Option<nat>)
    requires Cloned(s, s', h, c, cow, offset, count)
    ensures Good(s')
  {
  }

  lemma DroppedGood(s: State, s': State, h: Id)
    requires Dropped(s, s', h)
    ensures Good(s')
  {
  }

  lemma SoundRemove(s: State, nextId: nat, nextFrame: nat, n: Id)
    requires Sound(s, nextId, nextFrame) && n in s.nodes && Childless(s, n)
    ensures Sound(RemoveNode(s, n), nextId, nextFrame) && |RemoveNode(s, n).nodes| < |s.nodes|
    ensures s.nodes[n].parent.Window? ==>
            s.nodes[n].parent.id in RemoveNode(s, n).nodes && s.nodes[s.nodes[n].parent.id].branch
    ensures WholeWindows(s) ==> WholeWindows(RemoveNode(s, n))
  {
    var s' := RemoveNode(s, n);
    assert LinkOk(s, n) && !IsChild(s, n, n);
    RemoveShape(s, n);
    ShapeMem(s');
    forall m, k | HasSlot(s', m, k) ensures SlotAt(s', m, k).frame != ZERO {
      assert HasSlot(s, m, k);
    }
    assert s'.nodes.Keys == s.nodes.Keys - {n};
  }

  lemma SoundRemoveHandle(s: State, nextId: nat, nextFrame: nat, h: Id)
    requires Sound(s, nextId, nextFrame) && IsLeaf(s, h)
    ensures Sound(RemoveNode(s, h), nextId, nextFrame)
    ensures s.nodes[h].parent.Window? ==>
            s.nodes[h].parent.id in RemoveNode(s, h).nodes && s.nodes[s.nodes[h].parent.id].branch
    ensures WholeWindows(s) ==> WholeWindows(RemoveNode(s, h))
  {
    forall m | m in s.nodes ensures !IsChild(s, m, h) {
      NotAParent(s, m, h);
    }
    SoundRemove(s, nextId, nextFrame, h);
  }

  lemma SoundAdd(s: State, nextId: nat, nextFrame: nat, h: Id, node: Node)
    requires Sound(s, nextId, nextFrame) && h == nextId && !node.parent.Window? && node.frames == map[]
    ensures Sound(AddNode(s, h, node), nextId + 1, nextFrame)
    ensures WholeWindows(s) ==> WholeWindows(AddNode(s, h, node))
  {
    var s' := AddNode(s, h, node);
    AddShape(s, h, node);
    ShapeMem(s');
    forall m, k | HasSlot(s', m, k) ensures SlotAt(s', m, k).frame != ZERO {
      assert HasSlot(s, m, k);
    }
  }

  lemma AskedLeaf(s: State, n: Id, i: nat, h: Id, j: nat, c: Id, k: nat)
    requires Asked(s, n, i, h, j, c, k)
    ensures IsLeaf(s, h) && Linked(s) && Passes(s, h, j, n, i)
  {
  }

  lemma AboveStill(s: State, s': State, p: Id, n: Id)
    requires p in s.nodes && Above(s, s', p) && n in s.nodes && s.nodes[n].rank > s.nodes[p].rank
    ensures n in s'.nodes && s'.nodes[n] == s.nodes[n] && Above(s, s', n)
  {
  }

  lemma WriteUp(s: State, n: Id, i: nat, len: nat, cow: bool, r: Commit, z: Id, y: nat)
    requires Linked(s) && n in s.nodes && i !in s.nodes[n].frames && Up(s, n, i).Some? && (s.nodes[n].cow ==> cow)
    requires WriteTo(s, Up(s, n, i).value.0, Up(s, n, i).value.1, len, cow, r, z, y)
    ensures WriteTo(s, n, i, len, cow, r, z, y)
  {
    assert LinkOk(s, n);
  }

  lemma SoundZero(s: State, nextId: nat, nextFrame: nat)
    requires Sound(s, nextId, nextFrame)
    ensures ZERO in s.mem && s.mem[ZERO] == Zeros(PAGE)
  {
  }

  lemma OffView(s: State, n: Id, i: nat)
    requires Linked(s) && MemOk(s) && n in s.nodes && i !in s.nodes[n].frames && Up(s, n, i) == None
    ensures View(s, n, i) == Outside(s, n, i)
  {
  }

  /** What two stages of a request amount to. */
  lemma Compose(s: State, s1: State, s2: State, n: Id, quiet: bool, h: Id, j: nat, page: Page)
    requires n in s.nodes && Above(s, s1, n) && Above(s1, s2, n)
    requires quiet ==> Quiet(s, s1) && Quiet(s1, s2) && IsLeaf(s, h)
    ensures Above(s, s2, n)
    ensures quiet ==> Quiet(s, s2) && (Shows(s1, h, j, page) ==> Shows(s, h, j, page))
  {
    AboveTrans(s, s1, s2, n);
    if quiet {
      QuietTrans(s, s1, s2);
      if Shows(s1, h, j, page) {
        ShowsQuiet(s, s1, h, j, page);
      }
    }
  }

  lemma SameWindows(s: State, s': State)
    requires SameLinks(s, s')
    ensures WholeWindows(s) ==> WholeWindows(s')
  {
  }

  /** Only the slots of `n` differ. */
  lemma Touched(s: State, s': State, n: Id)
    requires n in s.nodes && n in s'.nodes && s'.nodes == s.nodes[n := s.nodes[n].(frames := s'.nodes[n].frames)]
    ensures Above(s, s', n) && SameLinks(s, s')
  {
  }

  lemma AboveSelf(s: State, n: Id)
    requires n in s.nodes
    ensures Above(s, s, n)
  {
  }

  lemma AboveKeeps(s: State, s': State, n: Id)
    requires n in s.nodes && Above(s, s', n)
    ensures n in s'.nodes && s'.nodes[n].rank == s.nodes[n].rank && s'.nodes[n].branch == s.nodes[n].branch
    ensures s'.nodes[n].cow == s.nodes[n].cow
  {
  }

  lemma QuietGood(s: State, s': State)
    requires Quiet(s, s')
    ensures Good(s')
  {
  }

  lemma MissAbove(s: State, h: Id, j: nat, c: Id, k: nat, b: Id, y: nat)
    requires Linked(s) && Arrives(s, h, j, c, k, b, y)
    ensures c in s.nodes && k !in s.nodes[c].frames && c != b && Up(s, c, k) == Some((b, y)) && s.nodes[b].branch
  {
    assert LinkOk(s, c);
  }
}
