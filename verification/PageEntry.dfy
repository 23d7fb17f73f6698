/** Sv39 page-table entries and index arithmetic (paging/src/entry.rs, paging/src/level.rs;
    section 4.4 of the RISC-V Privileged Specification 20211203). */
module PageEntry {
  type Word = bv64

  /** Level 2 is the root, level 0 holds the leaves of 4 KiB pages. */
  type Level = l: int | 0 <= l < 3

  const VALID: Word := 1
  const USER_ACCESS: Word := 0x10
  const ATTR_BITS: Word := 0xFF

  /** Bits of a physical address. */
  const PADDR: Word := 0xFF_FFFF_FFFF_FFFF

  /** `page_size - 1` (level.rs:25-41); level 3 stands for the whole address range. */
  function PageMask(level: int): Word
    requires 0 <= level <= 3
  {
    if level == 0 then 0xFFF else if level == 1 then 0x1F_FFFF else if level == 2 then 0x3FFF_FFFF else 0x7F_FFFF_FFFF
  }

  function PaddrMask(level: Level): Word { PADDR & !PageMask(level) }

  function LaddrMask(level: Level): Word { PageMask(3) & !PageMask(level) }

  function ShiftRight(a: Word, level: Level): Word {
    if level == 0 then a >> 12 else if level == 1 then a >> 21 else a >> 30
  }

  /** The index into the table of a level (level.rs:62-69, with `end` false). */
  function AddrIdx(level: Level, la: Word): Word { ShiftRight(la & LaddrMask(level), level) & 0x1FF }

  function Addr(e: Word, level: Level): Word { (e << 2) & PaddrMask(level) }

  function Attr(e: Word): Word { e & ATTR_BITS }

  function NewEntry(addr: Word, attr: Word, level: Level): Word { ((addr & PaddrMask(level)) >> 2) | attr }

  predicate IsValid(e: Word) { Attr(e) & VALID != 0 }

  /** No read, write or execute bit. */
  predicate HasTable(e: Word) { Attr(e) & 0xE == 0 }

  predicate IsUser(e: Word) { Attr(e) & USER_ACCESS != 0 }

  /** A page-aligned physical address. */
  predicate IsFrame(addr: Word) { PageOf(addr) == addr }

  /** The bits of an address that a leaf entry can hold. */
  function PageOf(addr: Word): Word { addr & PaddrMask(0) }

  predicate AttrOk(attr: Word) { attr & !ATTR_BITS == 0 }

  predicate Aligned(addr: Word) { addr & 0xFFF == 0 }

  /** The next page, in 64-bit arithmetic. */
  function Next(addr: Word): Word { addr + 0x1000 }

  /** The leaf entry for a page (entry.rs:467). */
  function LeafFor(addr: Word, flags: Word): Word { NewEntry(addr, flags | VALID, 0) }

  predicate Is56Bit(addr: Word) { addr < 0x100_0000_0000_0000 }

  predicate UserFlag(flags: Word) { flags & USER_ACCESS != 0 }

  // ---- Round trips ----

  /** An entry gives back the address, up to the bits below the page and above 56, and the
      attributes it was made from. */
  lemma NewThenGet(addr: Word, attr: Word, level: Level)
    requires AttrOk(attr)
    ensures Addr(NewEntry(addr, attr, level), level) == addr & PaddrMask(level)
    ensures Attr(NewEntry(addr, attr, level)) == attr
  {
    Packed(addr, attr, PageMask(level));
  }

  lemma Packed(addr: Word, attr: Word, mask: Word)
    requires attr & !ATTR_BITS == 0 && mask & 0xFFF == 0xFFF
    ensures ((((addr & (PADDR & !mask)) >> 2) | attr) << 2) & (PADDR & !mask) == addr & (PADDR & !mask)
    ensures (((addr & (PADDR & !mask)) >> 2) | attr) & ATTR_BITS == attr
  {
  }

  /** Conversely the address and attributes give back the entry, up to its reserved bits. */
  lemma GetThenNew(e: Word)
    ensures NewEntry(Addr(e, 0), Attr(e), 0) == e & 0x3F_FFFF_FFFF_FCFF
  {
  }

  /** An aligned address survives exactly when it is below 2^56. */
  lemma AddrKept(addr: Word)
    requires Aligned(addr)
    ensures PageOf(addr) == addr <==> Is56Bit(addr)
  {
  }

  predicate SamePage(la: Word, la': Word) { la & LaddrMask(0) == la' & LaddrMask(0) }

  lemma PageFromIndices(la: Word)
    ensures la & LaddrMask(0) == (AddrIdx(0, la) << 12) | (AddrIdx(1, la) << 21) | (AddrIdx(2, la) << 30)
  {
  }

  lemma LeafIndex(la: Word)
    ensures AddrIdx(0, la) == AddrIdx(0, la & LaddrMask(0))
  {
    assert (la & LaddrMask(0)) & LaddrMask(0) == la & LaddrMask(0);
  }

  lemma MiddleIndex(la: Word)
    ensures AddrIdx(1, la) == AddrIdx(1, la & LaddrMask(0))
  {
    assert LaddrMask(1) == 0x7F_FFE0_0000 && LaddrMask(0) == 0x7F_FFFF_F000;
    assert (la & 0x7F_FFFF_F000) & 0x7F_FFE0_0000 == la & 0x7F_FFE0_0000;
  }

  lemma RootIndex(la: Word)
    ensures AddrIdx(2, la) == AddrIdx(2, la & LaddrMask(0))
  {
    assert LaddrMask(2) == 0x7F_C000_0000 && LaddrMask(0) == 0x7F_FFFF_F000;
    assert (la & 0x7F_FFFF_F000) & 0x7F_C000_0000 == la & 0x7F_C000_0000;
  }

  /** The three indices determine the page. */
  lemma IndicesArePage(la: Word, la': Word)
    ensures SamePage(la, la') <==>
            AddrIdx(0, la) == AddrIdx(0, la') && AddrIdx(1, la) == AddrIdx(1, la') && AddrIdx(2, la) == AddrIdx(2, la')
  {
    hide AddrIdx, LaddrMask;
    PageFromIndices(la);
    PageFromIndices(la');
    LeafIndex(la);
    LeafIndex(la');
    MiddleIndex(la);
    MiddleIndex(la');
    RootIndex(la);
    RootIndex(la');
  }

  lemma TableEntry(addr: Word)
    requires IsFrame(addr)
    ensures var e := NewEntry(addr, VALID, 0); IsValid(e) && HasTable(e) && Addr(e, 0) == addr
  {
    NewThenGet(addr, VALID, 0);
  }

  lemma UnsetEntry()
    ensures !IsValid(0)
  {
  }

  lemma LeafEntry(addr: Word, flags: Word)
    requires AttrOk(flags)
    ensures var e := LeafFor(addr, flags);
            IsValid(e) && Addr(e, 0) == PageOf(addr) && (IsUser(e) <==> UserFlag(flags))
  {
    NewThenGet(addr, flags | VALID, 0);
  }

  lemma NextAligned(a: Word)
    requires Aligned(a)
    ensures Aligned(Next(a))
  {
  }
}
