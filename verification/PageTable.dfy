/** Walks and updates of Sv39 page tables (paging/src/entry.rs:190-228, 330-393, 432-473).

    Page-table frames are named by their physical addresses; an index that a table does not
    mention holds the unset entry. */
module PageTable {
  import opened Common
  import opened PageEntry

  /** A page-table frame, by its physical address. */
  datatype Frame = Frame(addr: Word)

  datatype Index = Index(w: Word)

  /** Auxiliary: the level of the table. */
  datatype Table = Table(level: int, entries: map<Index, Word>)

  datatype Error = OutOfMemory | AddrMisaligned | RangeEmpty | EntryExistent(existent: bool) | PermissionDenied

  function Idx(l: Level, la: Word): Index { Index(AddrIdx(l, la)) }

  // ---- Translation ----

  datatype State = State(tables: map<Frame, Table>, root: Frame)

  function EntryAt(s: State, p: Frame, i: Index): Word {
    if p in s.tables && i in s.tables[p].entries then s.tables[p].entries[i] else 0
  }

  /** Entry `i` of table `p` refers to another table. */
  predicate IsRef(s: State, p: Frame, i: Index) {
    p in s.tables && s.tables[p].level > 0 && IsValid(EntryAt(s, p, i)) && HasTable(EntryAt(s, p, i))
  }

  function Child(s: State, p: Frame, i: Index): Frame { Frame(Addr(EntryAt(s, p, i), 0)) }

  predicate AtLevel(s: State, t: Frame, l: int) { t in s.tables && s.tables[t].level == l }

  /** Tables lead to tables of the next level, and each is referenced by one entry. */
  ghost predicate Shape(s: State) {
    && AtLevel(s, s.root, 2) && (forall t :: t in s.tables ==> 0 <= s.tables[t].level <= 2)
    && (forall p, i :: IsRef(s, p, i) ==> AtLevel(s, Child(s, p, i), s.tables[p].level - 1))
    && (forall p, i, q, j :: IsRef(s, p, i) && IsRef(s, q, j) && Child(s, p, i) == Child(s, q, j) ==> p == q && i == j)
  }

  /** The table of level `l` on the way to `la`. */
  ghost function WalkTo(s: State, la: Word, l: int): (t: Option<Frame>)
    requires Shape(s) && 0 <= l <= 2
    ensures t.Some? ==> AtLevel(s, t.value, l)
    decreases 2 - l
  {
    if l == 2 then Some(s.root)
    else
      match WalkTo(s, la, l + 1)
      case None => None
      case Some(p) => if IsRef(s, p, Idx(l + 1, la)) then Some(Child(s, p, Idx(l + 1, la))) else None
  }

  /** The leaf entry of `la`; unset if there is no table for it. */
  ghost function Pte(s: State, la: Word): Word
    requires Shape(s)
  {
    var t := WalkTo(s, la, 0);
    if t.Some? then EntryAt(s, t.value, Idx(0, la)) else 0
  }

  /** Nothing is translated differently. */
  ghost predicate SameTranslation(s: State, s': State) {
    Shape(s) && Shape(s') && forall la :: Pte(s', la) == Pte(s, la)
  }

  /** `la` is blocked by a larger page, or by an entry with access bits, at level 1 or 2. */
  ghost predicate BlockedAt(s: State, la: Word, l: int)
    requires Shape(s) && 1 <= l <= 2
  {
    WalkTo(s, la, l).Some? && !HasTable(EntryAt(s, WalkTo(s, la, l).value, Idx(l, la)))
  }

  lemma PageIs(la: Word, la': Word)
    ensures SamePage(la, la') <==> Idx(0, la) == Idx(0, la') && Idx(1, la) == Idx(1, la') && Idx(2, la) == Idx(2, la')
  {
    hide SamePage, AddrIdx;
    IndicesArePage(la, la');
  }

  // ---- Linking a new table ----

  function SetEntry(s: State, p: Frame, i: Index, e: Word): State
    requires p in s.tables
  {
    s.(tables := s.tables[p := s.tables[p].(entries := s.tables[p].entries[i := e])])
  }

  function Link(s: State, p: Frame, i: Index, f: Frame): (s': State)
    requires p in s.tables
    ensures s'.root == s.root
  {
    var s1 := SetEntry(s, p, i, NewEntry(f.addr, VALID, 0));
    s1.(tables := s1.tables[f := Table(s.tables[p].level - 1, map[])])
  }

  /** The entry `(p, i)` is free and `f` is a new frame. */
  ghost predicate CanLink(s: State, p: Frame, i: Index, f: Frame) {
    && Shape(s) && p in s.tables && s.tables[p].level > 0 && !IsValid(EntryAt(s, p, i))
    && f !in s.tables && IsFrame(f.addr)
  }

  lemma EntriesAfterLink(s: State, p: Frame, i: Index, f: Frame, q: Frame, j: Index)
    requires p in s.tables && f !in s.tables
    ensures EntryAt(Link(s, p, i, f), q, j) == if q == p && j == i then NewEntry(f.addr, VALID, 0) else EntryAt(s, q, j)
    ensures EntryAt(s, f, j) == 0
  {
    hide NewEntry;
  }

  lemma RefsAfterLink(s: State, p: Frame, i: Index, f: Frame, q: Frame, j: Index)
    requires CanLink(s, p, i, f)
    ensures IsRef(Link(s, p, i, f), q, j) <==> IsRef(s, q, j) || (q == p && j == i)
    ensures !IsRef(s, f, j) && !IsRef(s, p, i) && f != p
    ensures IsRef(Link(s, p, i, f), q, j) ==>
            Child(Link(s, p, i, f), q, j) == if q == p && j == i then f else Child(s, q, j)
  {
    hide IsValid, HasTable, Addr, NewEntry, IsFrame, Shape, EntryAt;
    EntriesAfterLink(s, p, i, f, q, j);
    EntriesAfterLink(s, p, i, f, p, i);
    TableEntry(f.addr);
    UnsetEntry();
  }

  lemma LevelsAfterLink(s: State, p: Frame, i: Index, f: Frame, t: Frame, l: int)
    requires CanLink(s, p, i, f)
    ensures AtLevel(Link(s, p, i, f), t, l) <==> if t == f then l == s.tables[p].level - 1 else AtLevel(s, t, l)
  {
    hide IsValid, NewEntry, IsFrame, Shape;
  }

  lemma LinkShape(s: State, p: Frame, i: Index, f: Frame)
    requires CanLink(s, p, i, f)
    ensures Shape(Link(s, p, i, f))
  {
    hide IsValid, NewEntry, IsFrame, IsRef, Child, EntryAt;
    var s' := Link(s, p, i, f);
    LevelsAfterLink(s, p, i, f, s.root, 2);
    forall q, j | IsRef(s', q, j) ensures q in s'.tables && AtLevel(s', Child(s', q, j), s'.tables[q].level - 1) {
      RefsAfterLink(s, p, i, f, q, j);
      assert q in s.tables by { RefIn(s, q, j); }
      LevelsAfterLink(s, p, i, f, Child(s', q, j), s'.tables[q].level - 1);
    }
    forall q, j, r, k | IsRef(s', q, j) && IsRef(s', r, k) && Child(s', q, j) == Child(s', r, k)
      ensures q == r && j == k
    {
      RefsAfterLink(s, p, i, f, q, j);
      RefsAfterLink(s, p, i, f, r, k);
      assert IsRef(s, q, j) ==> Child(s, q, j) in s.tables;
      assert IsRef(s, r, k) ==> Child(s, r, k) in s.tables;
    }
  }

  lemma RefIn(s: State, q: Frame, j: Index)
    ensures IsRef(s, q, j) ==> q in s.tables
  {
  }

  /** Walks go the same way, except that those which ended at the new entry reach the new table. */
  lemma {:induction false} LinkWalk(s: State, p: Frame, i: Index, f: Frame, la: Word, l: int)
    requires CanLink(s, p, i, f) && Shape(Link(s, p, i, f)) && 0 <= l <= 2
    ensures WalkTo(s, la, l).Some? ==> WalkTo(Link(s, p, i, f), la, l) == WalkTo(s, la, l)
    ensures WalkTo(s, la, l).None? ==> WalkTo(Link(s, p, i, f), la, l) in {None, Some(f)}
    decreases 2 - l
  {
    hide Link, IsRef, Child, Idx, Shape, IsValid, IsFrame, EntryAt;
    if l < 2 {
      LinkWalk(s, p, i, f, la, l + 1);
      var t, t' := WalkTo(s, la, l + 1), WalkTo(Link(s, p, i, f), la, l + 1);
      if t.Some? {
        RefsAfterLink(s, p, i, f, t.value, Idx(l + 1, la));
      } else if t'.Some? {
        RefsAfterLink(s, p, i, f, f, Idx(l + 1, la));
      }
    }
  }

  lemma LinkKeeps(s: State, p: Frame, i: Index, f: Frame)
    requires CanLink(s, p, i, f)
    ensures SameTranslation(s, Link(s, p, i, f))
  {
    hide IsValid, IsFrame, NewEntry, Idx, IsRef, Child, WalkTo, Shape, Link, EntryAt;
    var s' := Link(s, p, i, f);
    LinkShape(s, p, i, f);
    forall la ensures Pte(s', la) == Pte(s, la) {
      LinkWalk(s, p, i, f, la, 0);
      var t := WalkTo(s', la, 0);
      if t.Some? {
        EntriesAfterLink(s, p, i, f, t.value, Idx(0, la));
        LevelsAfterLink(s, p, i, f, p, 0);
      }
    }
  }

  // ---- Storing a leaf entry ----

  lemma EntriesAfterStore(s: State, t: Frame, i: Index, e: Word, q: Frame, j: Index)
    requires t in s.tables
    ensures EntryAt(SetEntry(s, t, i, e), q, j) == if q == t && j == i then e else EntryAt(s, q, j)
  {
  }

  lemma RefsAfterStore(s: State, t: Frame, i: Index, e: Word, q: Frame, j: Index)
    requires AtLevel(s, t, 0)
    ensures IsRef(SetEntry(s, t, i, e), q, j) == IsRef(s, q, j)
    ensures IsRef(s, q, j) ==> Child(SetEntry(s, t, i, e), q, j) == Child(s, q, j)
  {
    hide IsValid, HasTable, Addr, EntryAt;
    EntriesAfterStore(s, t, i, e, q, j);
  }

  lemma StoreShape(s: State, t: Frame, i: Index, e: Word)
    requires Shape(s) && AtLevel(s, t, 0)
    ensures Shape(SetEntry(s, t, i, e))
  {
    hide IsRef, Child, EntryAt;
    var s' := SetEntry(s, t, i, e);
    forall q, j | IsRef(s', q, j) ensures q in s'.tables && AtLevel(s', Child(s', q, j), s'.tables[q].level - 1) {
      RefsAfterStore(s, t, i, e, q, j);
      RefIn(s', q, j);
    }
    forall q, j, r, k | IsRef(s', q, j) && IsRef(s', r, k) && Child(s', q, j) == Child(s', r, k)
      ensures q == r && j == k
    {
      RefsAfterStore(s, t, i, e, q, j);
      RefsAfterStore(s, t, i, e, r, k);
    }
  }

  lemma {:induction false} StoreWalk(s: State, t: Frame, i: Index, e: Word, la: Word, l: int)
    requires Shape(s) && AtLevel(s, t, 0) && Shape(SetEntry(s, t, i, e)) && 0 <= l <= 2
    ensures WalkTo(SetEntry(s, t, i, e), la, l) == WalkTo(s, la, l)
    decreases 2 - l
  {
    hide IsRef, Child, Idx, Shape, EntryAt;
    if l < 2 {
      StoreWalk(s, t, i, e, la, l + 1);
      var p := WalkTo(s, la, l + 1);
      if p.Some? {
        RefsAfterStore(s, t, i, e, p.value, Idx(l + 1, la));
      }
    }
  }

  /** Two addresses that reach the same table have the same indices above it. */
  lemma {:induction false} WalkInjective(s: State, la: Word, la': Word, l: int)
    requires Shape(s) && 0 <= l <= 2 && WalkTo(s, la, l).Some? && WalkTo(s, la, l) == WalkTo(s, la', l)
    ensures forall k :: l < k <= 2 ==> Idx(k, la) == Idx(k, la')
    decreases 2 - l
  {
    hide IsRef, Child, Idx;
    if l < 2 {
      var p, p' := WalkTo(s, la, l + 1).value, WalkTo(s, la', l + 1).value;
      assert IsRef(s, p, Idx(l + 1, la)) && IsRef(s, p', Idx(l + 1, la'));
      assert p == p' && Idx(l + 1, la) == Idx(l + 1, la');
      WalkInjective(s, la, la', l + 1);
    }
  }

  /** Storing the leaf entry of `la` changes the translation of its page only. */
  lemma StoreKeeps(s: State, la: Word, e: Word)
    requires Shape(s) && WalkTo(s, la, 0).Some?
    ensures Stored(s, SetEntry(s, WalkTo(s, la, 0).value, Idx(0, la), e), la, e)
  {
    hide IsRef, Child, Idx, SamePage, WalkTo, Shape;
    var t := WalkTo(s, la, 0).value;
    var s' := SetEntry(s, t, Idx(0, la), e);
    StoreShape(s, t, Idx(0, la), e);
    forall la' ensures Pte(s', la') == if SamePage(la, la') then e else Pte(s, la') {
      StoreWalk(s, t, Idx(0, la), e, la', 0);
      EntriesAfterStore(s, t, Idx(0, la), e, t, Idx(0, la'));
      PageIs(la, la');
      if SamePage(la, la') {
        SameWalk(s, la, la', 0);
      } else if WalkTo(s, la', 0) == Some(t) {
        WalkInjective(s, la, la', 0);
      }
    }
  }

  lemma {:induction false} SameWalk(s: State, la: Word, la': Word, l: int)
    requires Shape(s) && 0 <= l <= 2 && SamePage(la, la')
    ensures WalkTo(s, la, l) == WalkTo(s, la', l)
    decreases 2 - l
  {
    hide IsRef, Child, Idx, SamePage, Shape;
    PageIs(la, la');
    if l < 2 {
      SameWalk(s, la, la', l + 1);
    }
  }

  // ---- Address arithmetic of mappages ----

  /** The address `n` pages after `a`, in 64-bit arithmetic. */
  function Ahead(a: Word, n: nat): Word { if n == 0 then a else Next(Ahead(a, n - 1)) }

  /** The hole between user and kernel addresses (consts.rs:17-18). */
  predicate InBlank(la: Word) { 0x3F_FFFF_FFFF <= la <= 0xFFFF_FFBF_FFFF_FFFF }

  /** What `la2pa` answers for the leaf entry `e` of `la` (entry.rs:375-393). */
  function La2pa(e: Word, la: Word, isKernel: bool): Result<Word, Error> {
    if InBlank(la) then Err(PermissionDenied)
    else if !IsValid(e) then Err(EntryExistent(false))
    else if IsUser(e) || isKernel then Ok(Addr(e, 0))
    else Err(PermissionDenied)
  }

  /** Pages `[0, n)` after `la` are mapped to those after `pa`; they were unmapped, and nothing
      else is translated differently. */
  ghost predicate Mapped(s: State, s': State, la: Word, pa: Word, flags: Word, n: nat) {
    && Shape(s) && Shape(s')
    && (forall k :: 0 <= k < n ==> Pte(s', Ahead(la, k)) == LeafFor(Ahead(pa, k), flags))
    && (forall k :: 0 <= k < n ==> !IsValid(Pte(s, Ahead(la, k))))
    && (forall a :: Apart(la, n, a) ==> Pte(s', a) == Pte(s, a))
  }

  /** `a` is on none of the `n` pages from `la` on. */
  predicate Apart(la: Word, n: nat, a: Word) { forall k :: 0 <= k < n ==> !SamePage(Ahead(la, k), a) }

  lemma NothingMapped(s: State, la: Word, pa: Word, flags: Word)
    requires Shape(s)
    ensures Mapped(s, s, la, pa, flags, 0)
  {
  }

  lemma MappedSame(s: State, s1: State, s2: State, la: Word, pa: Word, flags: Word, n: nat)
    requires Mapped(s, s1, la, pa, flags, n) && SameTranslation(s1, s2)
    ensures Mapped(s, s2, la, pa, flags, n)
  {
    hide Pte, Shape, SamePage, LeafFor, IsValid, Ahead;
  }

  lemma SamePagePte(s: State, a: Word, a': Word)
    requires Shape(s) && SamePage(a, a')
    ensures Pte(s, a) == Pte(s, a')
  {
    hide WalkTo, Shape, Idx, SamePage, EntryAt;
    PageIs(a, a');
    SameWalk(s, a, a', 0);
  }

  /** A page that is not mapped yet is none of the pages mapped before. */
  lemma NewPageApart(s: State, s1: State, la: Word, pa: Word, flags: Word, n: nat, x: Word)
    requires Mapped(s, s1, la, pa, flags, n) && AttrOk(flags) && !IsValid(Pte(s1, x))
    ensures Apart(la, n, x) && forall k :: 0 <= k < n ==> !SamePage(x, Ahead(la, k))
  {
    hide Pte, Shape, SamePage, LeafFor, IsValid, Ahead, AttrOk, IsUser, Addr, UserFlag, PageOf;
    forall k | 0 <= k < n ensures !SamePage(x, Ahead(la, k)) && !SamePage(Ahead(la, k), x) {
      LeafEntry(Ahead(pa, k), flags);
      SamePageSym(x, Ahead(la, k));
      if SamePage(x, Ahead(la, k)) {
        SamePagePte(s1, x, Ahead(la, k));
      }
    }
  }

  /** The entry of page `x` is `e`, and nothing else is translated differently. */
  ghost predicate Stored(s: State, s': State, x: Word, e: Word) {
    Shape(s) && Shape(s') && forall a :: Pte(s', a) == if SamePage(x, a) then e else Pte(s, a)
  }

  lemma MappedMore(s: State, s1: State, s2: State, la: Word, pa: Word, flags: Word, n: nat)
    requires Mapped(s, s1, la, pa, flags, n) && AttrOk(flags) && !IsValid(Pte(s1, Ahead(la, n)))
    requires Stored(s1, s2, Ahead(la, n), LeafFor(Ahead(pa, n), flags))
    ensures Mapped(s, s2, la, pa, flags, n + 1)
  {
    hide Pte, Shape, SamePage, LeafFor, IsValid, Ahead, AttrOk, Apart;
    var x := Ahead(la, n);
    NewPageApart(s, s1, la, pa, flags, n, x);
    SamePageRefl(x);
    forall k | 0 <= k < n + 1
      ensures Pte(s2, Ahead(la, k)) == LeafFor(Ahead(pa, k), flags) && !IsValid(Pte(s, Ahead(la, k)))
    {
    }
    forall a | Apart(la, n + 1, a) ensures Pte(s2, a) == Pte(s, a) {
      ApartLess(la, n, a);
    }
  }

  lemma ApartLess(la: Word, n: nat, a: Word)
    requires Apart(la, n + 1, a)
    ensures Apart(la, n, a) && !SamePage(Ahead(la, n), a)
  {
    hide SamePage, Ahead;
  }

  lemma SamePageSym(a: Word, b: Word)
    ensures SamePage(a, b) == SamePage(b, a)
  {
  }

  lemma SamePageRefl(a: Word)
    ensures SamePage(a, a)
  {
  }

  lemma {:induction false} AheadAligned(a: Word, n: nat)
    requires Aligned(a)
    ensures Aligned(Ahead(a, n))
  {
    if n > 0 {
      AheadAligned(a, n - 1);
      NextAligned(Ahead(a, n - 1));
    }
  }

  /** After `mappages`, looking up a mapped page yields its physical page, exactly when that is a
      56-bit address. */
  lemma MappedTranslates(s: State, s': State, la: Word, pa: Word, flags: Word, n: nat, k: nat, isKernel: bool)
    requires Mapped(s, s', la, pa, flags, n) && k < n && AttrOk(flags) && Aligned(pa)
    requires isKernel || UserFlag(flags)
    requires !InBlank(Ahead(la, k))
    ensures La2pa(Pte(s', Ahead(la, k)), Ahead(la, k), isKernel) == Ok(PageOf(Ahead(pa, k)))
    ensures La2pa(Pte(s', Ahead(la, k)), Ahead(la, k), isKernel) == Ok(Ahead(pa, k)) <==> Is56Bit(Ahead(pa, k))
  {
    hide Pte, Shape, SamePage, LeafFor, IsValid, IsUser, Addr, Ahead, InBlank, AttrOk, UserFlag, Aligned, Is56Bit,
         PageOf;
    LeafEntry(Ahead(pa, k), flags);
    AheadAligned(pa, k);
    AddrKept(Ahead(pa, k));
  }

  predicate FreeOk(tables: map<Frame, Table>, free: seq<Frame>) {
    && (forall k :: 0 <= k < |free| ==> free[k] !in tables && IsFrame(free[k].addr))
    && (forall j, k :: 0 <= j < k < |free| ==> free[j] != free[k])
  }

  lemma RefAt(s: State, t: Frame, i: Index)
    requires t in s.tables && s.tables[t].level > 0 && IsValid(EntryAt(s, t, i)) && HasTable(EntryAt(s, t, i))
    ensures IsRef(s, t, i)
  {
  }

  lemma {:induction false} WalkStops(s: State, la: Word, l: int, k: int)
    requires Shape(s) && 0 <= k <= l <= 2 && WalkTo(s, la, l) == None
    ensures WalkTo(s, la, k) == None
    decreases l - k
  {
    if k < l {
      WalkStops(s, la, l, k + 1);
    }
  }

  /** The state of a walk that has reached table `t` at level `l` in `s1`: either no table was
      made since `s`, or `t` was. */
  ghost predicate Reached(s: State, s1: State, la: Word, l: int, t: Frame) {
    && Shape(s) && Shape(s1) && 0 <= l <= 2 && WalkTo(s1, la, l) == Some(t)
    && (s1 == s || (WalkTo(s, la, l) == None && EntryAt(s1, t, Idx(l, la)) == 0))
  }

  lemma UnsetHasTable()
    ensures HasTable(0)
  {
  }

  lemma NoWayDown(s: State, s1: State, la: Word, l: int, t: Frame)
    requires Reached(s, s1, la, l, t) && l > 0 && !IsValid(EntryAt(s1, t, Idx(l, la)))
    ensures WalkTo(s, la, l - 1) == None
  {
    hide IsValid, HasTable, Addr, Idx, EntryAt, Shape;
  }

  lemma CreateWalks(s: State, s1: State, s2: State, la: Word, l: int, t: Frame, f: Frame)
    requires Reached(s, s1, la, l, t) && l > 0 && HasTable(EntryAt(s1, t, Idx(l, la))) && Shape(s2)
    requires IsRef(s2, t, Idx(l, la)) && f == Child(s2, t, Idx(l, la))
    requires s2 == s1 || (CanLink(s1, t, Idx(l, la), f) && s2 == Link(s1, t, Idx(l, la), f))
    ensures Reached(s, s2, la, l - 1, f) && !BlockedAt(s, la, l)
  {
    hide IsValid, HasTable, Addr, Idx, EntryAt, Shape, IsRef, Child, Link, IsFrame;
    UnsetHasTable();
    if s2 == s1 {
      assert EntryAt(s1, t, Idx(l, la)) != 0 by { UnsetEntry(); RefValid(s1, t, Idx(l, la)); }
    } else {
      LinkWalk(s1, t, Idx(l, la), f, la, l);
      EntriesAfterLink(s1, t, Idx(l, la), f, f, Idx(l - 1, la));
      NoWayDown(s, s1, la, l, t);
    }
  }

  lemma RefValid(s: State, t: Frame, i: Index)
    requires IsRef(s, t, i)
    ensures IsValid(EntryAt(s, t, i))
  {
  }

  lemma CreateFails(s: State, s1: State, la: Word, l: int, t: Frame, error: Error)
    requires Reached(s, s1, la, l, t) && l > 0 && (forall k :: l < k <= 2 ==> !BlockedAt(s, la, k))
    requires (error == EntryExistent(true) <==> !HasTable(EntryAt(s1, t, Idx(l, la))))
    requires error == EntryExistent(true) || !IsValid(EntryAt(s1, t, Idx(l, la)))
    ensures error == EntryExistent(true) <==> BlockedAt(s, la, 1) || BlockedAt(s, la, 2)
    ensures error == EntryExistent(true) ==> s1 == s
  {
    hide IsValid, HasTable, Addr, Idx, EntryAt, Shape, IsRef, Child;
    UnsetHasTable();
    if error != EntryExistent(true) {
      NoWayDown(s, s1, la, l, t);
      assert !BlockedAt(s, la, l);
      assert l == 2 ==> !BlockedAt(s, la, 1);
    } else {
      assert BlockedAt(s, la, l);
    }
  }

  // ---- The operations ----

  class PageTables {
    var tables: map<Frame, Table>
    const root: Frame
    /** The frames that the allocator will hand out. */
    var free: seq<Frame>

    ghost function S(): State
      reads this
    {
      State(tables, root)
    }

    ghost predicate Valid()
      reads this
    {
      Shape(S()) && FreeOk(tables, free)
    }

    constructor (root: Frame, free: seq<Frame>)
      requires root !in free && FreeOk(map[], free)
      ensures Valid() && this.root == root && this.free == free && forall la :: Pte(S(), la) == 0
      ensures forall la :: !BlockedAt(S(), la, 1) && !BlockedAt(S(), la, 2)
    {
      this.root, this.free, tables := root, free, map[root := Table(2, map[])];
      new;
      hide IsValid, HasTable, Addr, IsFrame, Idx;
      UnsetEntry();
      NothingSet();
      assert forall p, i :: !IsRef(S(), p, i);
      assert forall la :: WalkTo(S(), la, 1) == None;
    }

    /** entry.rs:330-342 */
    method La2pte(la: Word) returns (r: Result<(Frame, Index), Error>)
      requires Valid()
      ensures var t := WalkTo(S(), la, 0);
              r == if t.Some? then Ok((t.value, Idx(0, la))) else Err(EntryExistent(false))
    {
      hide IsValid, HasTable, Addr, IsFrame, Idx, FreeOk, Child;
      var t := root;
      var l := 2;
      while l > 0
        invariant 0 <= l <= 2 && WalkTo(S(), la, l) == Some(t)
      {
        if !IsRef(State(tables, root), t, Idx(l, la)) {
          WalkStops(S(), la, l - 1, 0);
          return Err(EntryExistent(false));
        }
        t := Child(State(tables, root), t, Idx(l, la));
        l := l - 1;
      }
      r := Ok((t, Idx(0, la)));
    }

    /** entry.rs:209-228 */
    method TableOrCreate(t: Frame, i: Index) returns (r: Result<Frame, Error>)
      requires Valid() && t in tables && tables[t].level > 0
      modifies this
      ensures Valid() && SameTranslation(old(S()), S())
      ensures r == Err(EntryExistent(true)) <==> !HasTable(EntryAt(old(S()), t, i))
      ensures r.Ok? ==> IsRef(S(), t, i) && r.value == Child(S(), t, i)
      ensures r.Ok? ==> S() == old(S()) || (CanLink(old(S()), t, i, r.value) && S() == Link(old(S()), t, i, r.value))
      ensures |free| + 1 >= |old(free)|
      ensures r.Err? ==> S() == old(S())
      ensures r.Err? ==>
                r.error == EntryExistent(true) || (r.error == OutOfMemory && free == [] && !IsValid(EntryAt(S(), t, i)))
    {
      hide IsValid, HasTable, Addr, IsFrame, Shape, IsRef, Child, NewEntry, Pte, EntryAt;
      ghost var s := S();
      var e := EntryAt(State(tables, root), t, i);
      if !HasTable(e) {
        return Err(EntryExistent(true));
      }
      if IsValid(e) {
        assert IsRef(s, t, i) by { RefAt(s, t, i); }
        return Ok(Child(State(tables, root), t, i));
      }
      if free == [] {
        return Err(OutOfMemory);
      }
      var f := free[0];
      free := free[1..];
      var level := tables[t].level - 1;
      tables := tables[t := tables[t].(entries := tables[t].entries[i := NewEntry(f.addr, VALID, 0)])];
      tables := tables[f := Table(level, map[])];
      assert CanLink(s, t, i, f) && S() == Link(s, t, i, f);
      LinkKeeps(s, t, i, f);
      RefsAfterLink(s, t, i, f, t, i);
      r := Ok(f);
    }

    /** entry.rs:344-361 */
    method La2pteAlloc(la: Word) returns (r: Result<(Frame, Index), Error>)
      requires Valid()
      modifies this
      ensures Valid() && SameTranslation(old(S()), S())
      ensures r.Ok? ==> WalkTo(S(), la, 0) == Some(r.value.0) && r.value.1 == Idx(0, la)
      ensures r == Err(EntryExistent(true)) <==> BlockedAt(old(S()), la, 1) || BlockedAt(old(S()), la, 2)
      ensures r == Err(EntryExistent(true)) ==> S() == old(S())
      ensures r.Err? ==> r.error == EntryExistent(true) || (r.error == OutOfMemory && free == [])
      ensures |free| + 2 >= |old(free)|
    {
      hide IsValid, HasTable, Addr, IsFrame, Idx, FreeOk, Child, IsRef, Link, EntryAt, Pte, Shape;
      ghost var s := S();
      var t := root;
      var l := 2;
      while l > 0
        invariant Valid() && SameTranslation(s, S()) && Reached(s, S(), la, l, t)
        invariant forall k :: l < k <= 2 ==> !BlockedAt(s, la, k)
        invariant |free| + 2 - l >= |old(free)|
      {
        ghost var s1 := S();
        var next := TableOrCreate(t, Idx(l, la));
        if next.Err? {
          CreateFails(s, s1, la, l, t, next.error);
          return Err(next.error);
        }
        CreateWalks(s, s1, S(), la, l, t, next.value);
        t := next.value;
        l := l - 1;
      }
      r := Ok((t, Idx(0, la)));
    }
  
    /** entry.rs:375-393 */
    method Translate(la: Word, isKernel: bool) returns (r: Result<Word, Error>)
      requires Valid()
      ensures r == La2pa(Pte(S(), la), la, isKernel)
    {
      hide IsValid, IsUser, Addr, Idx, InBlank, WalkTo, Shape, FreeOk;
      if InBlank(la) {
        return Err(PermissionDenied);
      }
      var pte := La2pte(la);
      UnsetEntry();
      if pte.Err? {
        return Err(pte.error);
      }
      r := La2pa(EntryAt(State(tables, root), pte.value.0, pte.value.1), la, isKernel);
    }

    /** `mappages` (entry.rs:432-473), up to the unmapping after a failed allocation: `n` pages
        are mapped when it returns. */
    method MapPages(la: Word, pa: Word, flags: Word, npages: nat) returns (r: Result<Word, Error>, ghost n: nat)
      requires Valid() && AttrOk(flags)
      modifies this
      ensures Valid() && n <= npages && Mapped(old(S()), S(), la, pa, flags, n)
      ensures r.Ok? <==> Aligned(la) && Aligned(pa) && 0 < n == npages
      ensures r.Ok? ==> r.value == LeafFor(Ahead(pa, npages - 1), flags)
      ensures r == Err(AddrMisaligned) <==> !Aligned(la) || !Aligned(pa)
      ensures r == Err(RangeEmpty) <==> Aligned(la) && Aligned(pa) && npages == 0
      ensures r == Err(OutOfMemory) ==> free == []
      ensures r.Err? ==> r.error in {AddrMisaligned, RangeEmpty, OutOfMemory, EntryExistent(true)}
      ensures |free| + 2 * n + 2 >= |old(free)|
      ensures r == Err(EntryExistent(true)) && n == 0 ==>
                IsValid(Pte(old(S()), la)) || BlockedAt(old(S()), la, 1) || BlockedAt(old(S()), la, 2)
      ensures r == Err(EntryExistent(true)) ==>
                n < npages && (IsValid(Pte(S(), Ahead(la, n))) || BlockedAt(S(), Ahead(la, n), 1)
                  || BlockedAt(S(), Ahead(la, n), 2))
    {
      hide IsValid, HasTable, Idx, WalkTo, Shape, FreeOk, Pte, SamePage, LeafFor, BlockedAt, EntryAt, AttrOk, Aligned,
           Next, Mapped;
      n := 0;
      NothingMapped(S(), la, pa, flags);
      if !Aligned(la) || !Aligned(pa) {
        return Err(AddrMisaligned), n;
      }
      if npages == 0 {
        return Err(RangeEmpty), n;
      }
      var laTmp, paTmp := la, pa;
      var i, last := 0, 0;
      while i < npages
        invariant i == n <= npages && laTmp == Ahead(la, n) && paTmp == Ahead(pa, n)
        invariant Valid() && Mapped(old(S()), S(), la, pa, flags, n)
        invariant n > 0 ==> last == LeafFor(Ahead(pa, n - 1), flags)
        invariant (n == 0 ==> S() == old(S())) && |free| + 2 * n >= |old(free)|
      {
        ghost var s0 := S();
        var pte := La2pteAlloc(laTmp);
        MappedSame(old(S()), s0, S(), la, pa, flags, n);
        if pte.Err? {
          return Err(pte.error), n;
        }
        ghost var s1 := S();
        var (t, k) := pte.value;
        if IsValid(EntryAt(State(tables, root), t, k)) {
          PteAt(s1, laTmp, t);
          return Err(EntryExistent(true)), n;
        }
        PteAt(s1, laTmp, t);
        last := LeafFor(paTmp, flags);
        StoreKeeps(s1, laTmp, last);
        tables := tables[t := tables[t].(entries := tables[t].entries[k := last])];
        assert S() == SetEntry(s1, t, k, last);
        StoreFree(s1, t, k, last, free);
        MappedMore(old(S()), s1, S(), la, pa, flags, n);
        laTmp, paTmp := Next(laTmp), Next(paTmp);
        i, n := i + 1, n + 1;
      }
      r := Ok(last);
    }
  }

  lemma PteAt(s: State, la: Word, t: Frame)
    requires Shape(s) && WalkTo(s, la, 0) == Some(t)
    ensures t in s.tables && Pte(s, la) == EntryAt(s, t, Idx(0, la))
  {
  }

  lemma StoreFree(s: State, t: Frame, i: Index, e: Word, free: seq<Frame>)
    requires t in s.tables && FreeOk(s.tables, free)
    ensures FreeOk(SetEntry(s, t, i, e).tables, free)
  {
    hide IsFrame;
  }

  // ---- A page that is lost ----

  /** A physical page above 2^56 is mapped, and the lookup answers page 0. */
  method HighPage() returns (r: Result<Word, Error>)
    ensures r == Ok(0)
  {
    var free := [Frame(0x2000), Frame(0x3000), Frame(0x4000)];
    var tables := new PageTables(Frame(0x1000), free);
    var high: Word := 0x100_0000_0000_0000;
    ghost var s := tables.S();
    NothingSet();
    assert AttrOk(2) && Aligned(high) && Aligned(0x5000) && !InBlank(0x5000);
    var mapped, n := tables.MapPages(0x5000, high, 2, 1);
    assert Ahead(0x5000, 0) == 0x5000 && Ahead(high, 0) == high && PageOf(high) == 0;
    assert mapped.Ok?;
    MappedTranslates(s, tables.S(), 0x5000, high, 2, 1, 0, true);
    r := tables.Translate(0x5000, true);
  }

  lemma NothingSet()
    ensures !IsValid(0) && HasTable(0)
  {
  }
}
