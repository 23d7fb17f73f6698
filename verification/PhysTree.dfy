/** The copy-on-write tree of physical memory objects (kmem/src/phys.rs).

    A handle is a leaf node.  Cloning a handle puts a branch node above it that takes over its
    frames and is shared with the clone.  Frames are handed down lazily: a branch keeps a frame
    `Shared` while both sides may need it, and `Unique` once one side has its own copy, so that
    the other side takes the frame itself.  A branch with one child left is merged into it.

    Nodes and frames are identified by numbers, and every operation is atomic. */
module PhysTree {
  import opened Common

  type Id = nat

  type Page = seq<byte>

  function Zeros(n: nat): (z: Page)
    ensures |z| == n && forall k :: 0 <= k < n ==> z[k] == 0
  {
    seq(n, _ => 0)
  }

  /** `len` bytes of the frame are in use; the rest is zero. */
  datatype Slot = Shared(frame: nat, len: nat) | Unique(frame: nat, len: nat)

  /** Where a node looks for pages it does not have: pages `[start, end)` of another node, the
      pages of a file, or nowhere. */
  datatype Parent = NoParent | Window(id: Id, start: nat, end: Option<nat>) | Backend(file: seq<byte>)

  /** Auxiliary: `rank` is larger than that of the parent. */
  datatype Node = Node(branch: bool, cow: bool, parent: Parent, frames: map<nat, Slot>, rank: nat)

  datatype State = State(nodes: map<Id, Node>, mem: map<nat, Page>)

  // ---- Looking up a page ----

  predicate HasSlot(s: State, n: Id, i: nat) { n in s.nodes && i in s.nodes[n].frames }

  function SlotAt(s: State, n: Id, i: nat): Slot
    requires HasSlot(s, n, i)
  {
    s.nodes[n].frames[i]
  }

  predicate IsLeaf(s: State, n: Id) { n in s.nodes && !s.nodes[n].branch }

  predicate IsChild(s: State, n: Id, p: Id) { n in s.nodes && s.nodes[n].parent.Window? && s.nodes[n].parent.id == p }

  predicate LinkOk(s: State, n: Id)
    requires n in s.nodes
  {
    var p := s.nodes[n].parent;
    p.Window? ==>
      && p.id in s.nodes && s.nodes[p.id].branch && s.nodes[p.id].rank < s.nodes[n].rank
      && (p.end.Some? ==> p.start <= p.end.value)
  }

  predicate Linked(s: State) { forall n :: n in s.nodes ==> LinkOk(s, n) }

  predicate InWindow(p: Parent, i: nat)
    requires p.Window?
  {
    p.end.None? || i < p.end.value - p.start
  }

  /** Where the lookup of page `i` of `n` continues when `n` does not have it. */
  function Up(s: State, n: Id, i: nat): Option<(Id, nat)>
    requires n in s.nodes
  {
    var p := s.nodes[n].parent;
    if p.Window? && InWindow(p, i) then Some((p.id, p.start + i)) else None
  }

  /** The lookup ends at a slot, or falls off the tree at a node. */
  datatype Loc = At(n: Id, i: nat) | Off(n: Id, i: nat)

  function Find(s: State, n: Id, i: nat): (loc: Loc)
    requires Linked(s) && n in s.nodes
    ensures loc.n in s.nodes && s.nodes[loc.n].rank <= s.nodes[n].rank
    ensures loc.At? ==> HasSlot(s, loc.n, loc.i)
    decreases s.nodes[n].rank
  {
    if i in s.nodes[n].frames then At(n, i)
    else
      assert LinkOk(s, n);
      match Up(s, n, i)
      case None => Off(n, i)
      case Some(next) => Find(s, next.0, next.1)
  }

  /** The number of bytes of a file in page `i`. */
  function FileLen(file: seq<byte>, i: nat): (len: nat)
    ensures len <= PAGE
  {
    if |file| <= i * PAGE then 0 else if |file| - i * PAGE < PAGE then |file| - i * PAGE else PAGE
  }

  function FilePage(file: seq<byte>, i: nat): (page: Page)
    ensures |page| == PAGE
  {
    if FileLen(file, i) == 0 then Zeros(PAGE)
    else file[i * PAGE..i * PAGE + FileLen(file, i)] + Zeros(PAGE - FileLen(file, i))
  }

  /** The page that a lookup which fell off at `(n, i)` stands for. */
  function Outside(s: State, n: Id, i: nat): Page
    requires n in s.nodes
  {
    match s.nodes[n].parent
    case Backend(file) => FilePage(file, i)
    case _ => Zeros(PAGE)
  }

  ghost predicate MemOk(s: State) { forall n, i :: HasSlot(s, n, i) ==> SlotAt(s, n, i).frame in s.mem }

  /** The contents of page `i` as seen by node `n`. */
  function View(s: State, n: Id, i: nat): Page
    requires Linked(s) && MemOk(s) && n in s.nodes
  {
    match Find(s, n, i)
    case At(m, k) => s.mem[SlotAt(s, m, k).frame]
    case Off(m, k) => Outside(s, m, k)
  }

  // ---- Elementary changes ----

  function PutSlot(s: State, n: Id, i: nat, slot: Slot): State
    requires n in s.nodes
  {
    s.(nodes := s.nodes[n := s.nodes[n].(frames := s.nodes[n].frames[i := slot])])
  }

  function DropSlot(s: State, n: Id, i: nat): State
    requires n in s.nodes
  {
    s.(nodes := s.nodes[n := s.nodes[n].(frames := s.nodes[n].frames - {i})])
  }

  function SetPage(s: State, frame: nat, page: Page): State { s.(mem := s.mem[frame := page]) }

  /** `Frame::copy` (phys.rs:92-97). */
  function CopyPage(page: Page, len: nat): (copy: Page)
    requires len <= PAGE && |page| == PAGE
    ensures |copy| == PAGE
  {
    page[..len] + Zeros(PAGE - len)
  }

  /** No other node hangs off the parent of `n`: its reference count is one. */
  predicate Sole(s: State, n: Id) {
    && n in s.nodes && s.nodes[n].parent.Window? && s.nodes[n].parent.id in s.nodes
    && forall m :: m in s.nodes && m != n ==> !IsChild(s, m, s.nodes[n].parent.id)
  }

  function AsShared(slot: Slot): Slot { Shared(slot.frame, slot.len) }

  predicate InRange(p: nat, start: nat, end: Option<nat>) { start <= p && (end.Some? ==> p < end.value) }

  /** The indices, seen from the child, of the parent's frames in the window `[start, end)`. */
  function Shifted(above: map<nat, Slot>, start: nat, end: Option<nat>): set<nat> {
    set p | p in above && InRange(p, start, end) :: p - start
  }

  lemma InShifted(above: map<nat, Slot>, start: nat, end: Option<nat>, i: nat)
    ensures i in Shifted(above, start, end) <==> i + start in above && InRange(i + start, start, end)
  {
    if i + start in above && InRange(i + start, start, end) {
      assert (i + start) - start in Shifted(above, start, end);
    }
  }

  /** The frames of a merged child (phys.rs:488-502): its own, and those of the parent that lie
      in its window. */
  function MergedFrames(own: map<nat, Slot>, above: map<nat, Slot>, start: nat, end: Option<nat>): map<nat, Slot> {
    (map i | i in Shifted(above, start, end) ::
      AsShared(if i + start in above then above[i + start] else Shared(0, 0))) + own
  }

  lemma InMerged(own: map<nat, Slot>, above: map<nat, Slot>, start: nat, end: Option<nat>, i: nat)
    ensures i in MergedFrames(own, above, start, end) <==>
            i in own || (i + start in above && InRange(i + start, start, end))
    ensures i in MergedFrames(own, above, start, end) ==>
              MergedFrames(own, above, start, end)[i] == if i in own then own[i] else AsShared(above[i + start])
  {
    InShifted(above, start, end, i);
  }

  /** The parent of a merged child (phys.rs:503-514). */
  function MergedParent(above: Parent, start: nat, end: Option<nat>): Parent {
    match above
    case Window(id, ppStart, _) => Window(id, ppStart + start, if end.Some? then Some(ppStart + end.value) else None)
    case _ => above
  }

  function Merge(s: State, n: Id): State
    requires Sole(s, n)
  {
    var Window(p, start, end) := s.nodes[n].parent;
    var (own, above) := (s.nodes[n], s.nodes[p]);
    s.(nodes := s.nodes[n := own.(frames := MergedFrames(own.frames, above.frames, start, end),
                                  parent := MergedParent(above.parent, start, end))] - {p})
  }

  /** A handle in front of a fresh branch that takes over its frames and parent
      (phys.rs:405-450). */
  function CloneAs(s: State, h: Id, b: Id, c: Id, cow: bool, offset: nat, count: Option<nat>): State
    requires h in s.nodes
  {
    var own := s.nodes[h];
    var top := Node(true, own.cow || cow, own.parent, own.frames, own.rank);
    var self := own.(parent := Window(b, 0, None), frames := map[], rank := own.rank + 1);
    var end := if count.Some? then Some(count.value + offset) else None;
    var copy := Node(false, cow, Window(b, offset, end), map[], own.rank + 1);
    s.(nodes := s.nodes[b := top][h := self][c := copy])
  }

  function RemoveNode(s: State, n: Id): State { s.(nodes := s.nodes - {n}) }
}
