/** Mapping, unmapping and reprotecting ranges of a virtual address space (kmem/src/virt.rs:290-544),
    in pages.  Decommitting pages always succeeds. */
module AddressSpace {
  import opened Common
  import opened RangeMap
  import opened Aslr

  /** Pages of a physical object from `index` on, with access attributes. */
  datatype Mapping = Mapping(phys: nat, index: nat, attr: nat)

  type Entries = seq<Ent<Mapping>>

  predicate Contains(e: Ent<Mapping>, p: nat) { e.lo <= p < e.hi }

  /** What page `p` of an entry is mapped to. */
  function PageOf(e: Ent<Mapping>, p: nat): Mapping
    requires Contains(e, p)
  {
    Mapping(e.v.phys, e.v.index + (p - e.lo), e.v.attr)
  }

  /** The entry with page `p`. */
  function Owner(es: Entries, p: nat): (o: Option<Ent<Mapping>>)
    ensures o.Some? ==> Contains(o.value, p)
  {
    if es == [] then None else if Contains(es[0], p) then Some(es[0]) else Owner(es[1..], p)
  }

  /** What page `p` is mapped to. */
  function At(es: Entries, p: nat): Option<Mapping> {
    var o := Owner(es, p);
    if o.Some? then Some(PageOf(o.value, p)) else None
  }

  lemma {:induction false} OwnerNone(es: Entries, p: nat)
    requires forall k :: 0 <= k < |es| ==> !Contains(es[k], p)
    ensures Owner(es, p) == None
  {
    if es != [] {
      OwnerNone(es[1..], p);
    }
  }

  lemma {:induction false} OwnerIs(es: Entries, k: nat, p: nat)
    requires Sorted(es) && k < |es| && Contains(es[k], p)
    ensures Owner(es, p) == Some(es[k])
  {
    if k > 0 {
      assert es[0].hi <= es[k].lo;
      OwnerIs(es[1..], k - 1, p);
    }
  }

  lemma {:induction false} OwnerWhere(es: Entries, p: nat) returns (k: nat)
    ensures k <= |es|
    ensures if k < |es| then Contains(es[k], p) && Owner(es, p) == Some(es[k])
            else Owner(es, p) == None && forall i :: 0 <= i < |es| ==> !Contains(es[i], p)
  {
    if es == [] || Contains(es[0], p) {
      k := 0;
    } else {
      k := OwnerWhere(es[1..], p);
      k := k + 1;
      assert forall i :: 0 < i < |es| ==> es[i] == es[1..][i - 1];
    }
  }

  lemma OneEntry(es: Entries, i: nat, j: nat, p: nat)
    requires Sorted(es) && i < |es| && j < |es| && Contains(es[i], p) && Contains(es[j], p)
    ensures i == j
  {
  }

  lemma ReplacedAt(es: Entries, es': Entries, k: nat, parts: Entries)
    requires k < |es| && es' == es[..k] + parts + es[k + 1..]
    ensures |es'| == |es| - 1 + |parts|
    ensures forall n :: 0 <= n < k ==> es'[n] == es[n]
    ensures forall n :: k < n < |es| ==> es'[n - 1 + |parts|] == es[n]
    ensures forall i :: 0 <= i < |parts| ==> es'[k + i] == parts[i]
  {
  }

  /** Entry `k` replaced by parts of itself: only its own pages change owner. */
  lemma ReplaceOwner(es: Entries, es': Entries, k: nat, parts: Entries, p: nat)
    requires Sorted(es) && Sorted(es') && k < |es| && es' == es[..k] + parts + es[k + 1..]
    requires forall i :: 0 <= i < |parts| ==> es[k].lo <= parts[i].lo && parts[i].hi <= es[k].hi
    ensures Owner(es', p) == if Owner(es, p) == Some(es[k]) then Owner(parts, p) else Owner(es, p)
  {
    hide Owner, Sorted;
    var n := OwnerWhere(es, p);
    var i := OwnerWhere(parts, p);
    if i < |parts| {
      PartOwner(es, es', k, parts, i, p);
    } else if n < |es| && n != k {
      OtherOwner(es, es', k, parts, n, p);
    } else {
      ReplacedNone(es, es', k, parts, p);
    }
  }

  lemma PartOwner(es: Entries, es': Entries, k: nat, parts: Entries, i: nat, p: nat)
    requires Sorted(es) && Sorted(es') && k < |es| && es' == es[..k] + parts + es[k + 1..]
    requires i < |parts| && Contains(parts[i], p) && es[k].lo <= parts[i].lo && parts[i].hi <= es[k].hi
    ensures Owner(es', p) == Some(parts[i]) && Owner(es, p) == Some(es[k])
  {
    hide Owner, Sorted;
    ReplacedAt(es, es', k, parts);
    OwnerIs(es', k + i, p);
    OwnerIs(es, k, p);
  }

  lemma OtherOwner(es: Entries, es': Entries, k: nat, parts: Entries, n: nat, p: nat)
    requires Sorted(es) && Sorted(es') && k < |es| && es' == es[..k] + parts + es[k + 1..]
    requires n < |es| && n != k && Contains(es[n], p)
    ensures Owner(es', p) == Some(es[n]) && es[n] != es[k]
  {
    hide Owner, Sorted;
    ReplacedAt(es, es', k, parts);
    OwnerIs(es', if n < k then n else n - 1 + |parts|, p);
    Different(es, n, k);
  }

  lemma ReplacedNone(es: Entries, es': Entries, k: nat, parts: Entries, p: nat)
    requires Sorted(es) && k < |es| && es' == es[..k] + parts + es[k + 1..]
    requires forall i :: 0 <= i < |parts| ==> !Contains(parts[i], p)
    requires Contains(es[k], p) || forall i :: 0 <= i < |es| ==> !Contains(es[i], p)
    ensures Owner(es', p) == None
  {
    hide Owner;
    forall j | 0 <= j < |es'| ensures !Contains(es'[j], p) {
      assert es'[j] == if j < k then es[j] else if j < k + |parts| then parts[j - k] else es[j - |parts| + 1];
    }
    OwnerNone(es', p);
  }

  lemma Different(es: Entries, i: nat, j: nat)
    requires Sorted(es) && i < |es| && j < |es| && i != j
    ensures es[i] != es[j]
  {
  }

  // ---- Steps of unmap and reprotect ----

  /** Entries inside the range are gone. */
  ghost predicate Drained(es: Entries, es': Entries, lo: nat, hi: nat) {
    forall p :: Owner(es', p) == if Owner(es, p).Some? && Inside(Owner(es, p).value, lo, hi) then None else Owner(es, p)
  }

  lemma DrainOwner(es: Entries, i: nat, j: nat, lo: nat, hi: nat)
    requires Sorted(es) && AreInside(es, i, j, lo, hi) && Sorted(es[..i] + es[j..])
    ensures Drained(es, es[..i] + es[j..], lo, hi)
  {
    hide Owner, Sorted;
    var es' := es[..i] + es[j..];
    forall p
      ensures Owner(es', p) ==
              if Owner(es, p).Some? && Inside(Owner(es, p).value, lo, hi) then None else Owner(es, p)
    {
      var n := OwnerWhere(es, p);
      if n < |es| && !(i <= n < j) {
        assert es'[if n < i then n else n - (j - i)] == es[n];
        OwnerIs(es', if n < i then n else n - (j - i), p);
      } else {
        forall m | 0 <= m < |es'| ensures !Contains(es'[m], p) {
          var k := if m < i then m else m + (j - i);
          assert es'[m] == es[k];
          if Contains(es[k], p) && n < |es| {
            OneEntry(es, k, n, p);
          }
        }
        OwnerNone(es', p);
      }
    }
  }

  /** What becomes of one side of an entry that is split. */
  datatype Side = Gone | Same | With(attr: nat)

  function NewAttr(side: Side, attr: nat): Option<nat> {
    match side
    case Gone => None
    case Same => Some(attr)
    case With(a) => Some(a)
  }

  function FormerOf(e: Ent<Mapping>, key: nat, attr: nat): Ent<Mapping> { Ent(e.lo, key, e.v.(attr := attr)) }

  function LatterOf(e: Ent<Mapping>, key: nat, attr: nat): Ent<Mapping>
    requires e.lo <= key
  {
    Ent(key, e.hi, Mapping(e.v.phys, e.v.index + (key - e.lo), attr))
  }

  /** The entry that straddles `key` is cut there: each side is dropped or kept with the given
      attributes. */
  ghost predicate IsCut(es: Entries, es': Entries, key: nat, former: Side, latter: Side) {
    forall p: nat :: Owner(es', p) == CutAt(es, p, key, former, latter)
  }

  /** The entry with page `p` after the cut. */
  function CutAt(es: Entries, p: nat, key: nat, former: Side, latter: Side): Option<Ent<Mapping>> {
    if Owner(es, p).Some? && Straddles(Owner(es, p).value, key) then
      var e := Owner(es, p).value;
      if p < key then
        if NewAttr(former, e.v.attr).Some? then Some(FormerOf(e, key, NewAttr(former, e.v.attr).value)) else None
      else
        if NewAttr(latter, e.v.attr).Some? then Some(LatterOf(e, key, NewAttr(latter, e.v.attr).value)) else None
    else Owner(es, p)
  }

  function PartsOf(e: Ent<Mapping>, key: nat, former: Option<nat>, latter: Option<nat>): Entries
    requires Straddles(e, key)
  {
    (if former.Some? then [FormerOf(e, key, former.value)] else [])
    + (if latter.Some? then [LatterOf(e, key, latter.value)] else [])
  }

  lemma PartsOwner(e: Ent<Mapping>, key: nat, former: Option<nat>, latter: Option<nat>, p: nat)
    requires Straddles(e, key) && Contains(e, p)
    ensures Owner(PartsOf(e, key, former, latter), p) ==
            if p < key then if former.Some? then Some(FormerOf(e, key, former.value)) else None
            else if latter.Some? then Some(LatterOf(e, key, latter.value)) else None
  {
  }

  lemma CutOwner(es: Entries, es': Entries, key: nat, k: nat, former: Side, latter: Side)
    requires Sorted(es) && Sorted(es') && k < |es| && Straddles(es[k], key)
    requires es' ==
             es[..k] + PartsOf(es[k], key, NewAttr(former, es[k].v.attr), NewAttr(latter, es[k].v.attr)) + es[k + 1..]
    ensures IsCut(es, es', key, former, latter)
  {
    hide Owner, Sorted, PartsOf;
    var e := es[k];
    var parts := PartsOf(e, key, NewAttr(former, e.v.attr), NewAttr(latter, e.v.attr));
    PartsInside(e, key, NewAttr(former, e.v.attr), NewAttr(latter, e.v.attr));
    forall p: nat ensures Owner(es', p) == CutAt(es, p, key, former, latter) {
      ReplaceOwner(es, es', k, parts, p);
      var n := OwnerWhere(es, p);
      if n == k {
        PartsOwner(e, key, NewAttr(former, e.v.attr), NewAttr(latter, e.v.attr), p);
      } else if n < |es| {
        if Straddles(es[n], key) {
          OneEntry(es, n, k, key);
        }
        Different(es, n, k);
      }
    }
  }

  lemma PartsInside(e: Ent<Mapping>, key: nat, former: Option<nat>, latter: Option<nat>)
    requires Straddles(e, key)
    ensures var parts := PartsOf(e, key, former, latter);
            forall i :: 0 <= i < |parts| ==> e.lo <= parts[i].lo && parts[i].hi <= e.hi
  {
  }

  lemma NoCut(es: Entries, key: nat, former: Side, latter: Side)
    requires forall k :: 0 <= k < |es| ==> !Straddles(es[k], key)
    ensures IsCut(es, es, key, former, latter)
  {
    hide Owner;
    forall p ensures Owner(es, p).Some? ==> !Straddles(Owner(es, p).value, key) {
      var n := OwnerWhere(es, p);
    }
  }

  function Recolored(e: Ent<Mapping>, attr: nat): Ent<Mapping> { e.(v := e.v.(attr := attr)) }

  function RecoloredAt(es: Entries, p: nat, lo: nat, hi: nat, attr: nat): Option<Ent<Mapping>> {
    var o := Owner(es, p);
    if o.Some? && Inside(o.value, lo, hi) then Some(Recolored(o.value, attr)) else o
  }

  /** Entries inside the range have new attributes. */
  ghost predicate IsRecolored(es: Entries, es': Entries, lo: nat, hi: nat, attr: nat) {
    forall p :: Owner(es', p) == RecoloredAt(es, p, lo, hi, attr)
  }

  lemma RecolorOwner(es: Entries, es': Entries, i: nat, j: nat, lo: nat, hi: nat, attr: nat)
    requires Sorted(es) && AreInside(es, i, j, lo, hi) && |es'| == |es|
    requires forall k :: 0 <= k < |es| ==> es'[k] == if i <= k < j then Recolored(es[k], attr) else es[k]
    ensures Sorted(es') && IsRecolored(es, es', lo, hi, attr)
  {
    hide Owner;
    forall p ensures Owner(es', p) == RecoloredAt(es, p, lo, hi, attr) {
      var n := OwnerWhere(es, p);
      if n < |es| {
        OwnerIs(es', n, p);
      } else {
        OwnerNone(es', p);
      }
    }
  }

  // ---- What unmap and reprotect amount to ----

  /** Page `p` is behind the range, in an entry that reaches beyond both its ends. */
  predicate Torn(es: Entries, lo: nat, hi: nat, p: nat) {
    var o := Owner(es, p);
    hi <= p && o.Some? && o.value.lo < lo && hi < o.value.hi
  }

  /** The pages that unmapping and reprotecting `lo..hi` change.  When the end has wrapped below the
      start, the two cuts leave the middle: what is hit are the pages from `lo` on and those below
      `hi`, each in the entry that is cut there. */
  predicate Hit(es: Entries, lo: nat, hi: nat, p: nat) {
    if lo <= hi then lo <= p < hi || Torn(es, lo, hi, p)
    else
      var o := Owner(es, p);
      o.Some? && ((Straddles(o.value, lo) && lo <= p) || (Straddles(o.value, hi) && p < hi))
  }

  /** An entry that has pages hit outside the range. */
  predicate Hurt(e: Ent<Mapping>, lo: nat, hi: nat) {
    if lo <= hi then e.lo < lo && hi < e.hi else Straddles(e, lo) || Straddles(e, hi)
  }

  /** Pages outside the range are hit exactly if some entry reaches beyond both ends of it, or, when
      the end has wrapped, contains one of the ends. */
  lemma TornIff(es: Entries, lo: nat, hi: nat)
    requires Sorted(es)
    ensures (exists p: nat :: Hit(es, lo, hi, p) && !(lo <= p < hi)) <==>
            exists k :: 0 <= k < |es| && Hurt(es[k], lo, hi)
  {
    hide Owner;
    if p: nat :| Hit(es, lo, hi, p) && !(lo <= p < hi) {
      var k := OwnerWhere(es, p);
      assert Hurt(es[k], lo, hi);
    }
    if k :| 0 <= k < |es| && Hurt(es[k], lo, hi) {
      var p := if lo <= hi then hi else if Straddles(es[k], lo) then lo else es[k].lo;
      OwnerIs(es, k, p);
      assert Hit(es, lo, hi, p) && !(lo <= p < hi);
    }
  }

  /** Hit pages are no longer mapped; all others are mapped as before, to the same physical page. */
  lemma UnmapIs(es: Entries, es1: Entries, es2: Entries, es3: Entries, lo: nat, hi: nat, p: nat)
    requires Drained(es, es1, lo, hi) && IsCut(es1, es2, lo, Same, Gone) && IsCut(es2, es3, hi, Gone, Same)
    ensures At(es3, p) == if Hit(es, lo, hi, p) then None else At(es, p)
  {
    hide Owner;
    assert Owner(es1, p) == if Owner(es, p).Some? && Inside(Owner(es, p).value, lo, hi) then None else Owner(es, p);
  }

  function WithAttr(m: Option<Mapping>, attr: nat): Option<Mapping> {
    if m.Some? then Some(m.value.(attr := attr)) else None
  }

  /** Hit pages have the new attributes; all pages are mapped to the same physical page as before. */
  lemma ReprotectIs(es: Entries, es1: Entries, es2: Entries, es3: Entries, lo: nat, hi: nat, attr: nat, p: nat)
    requires IsRecolored(es, es1, lo, hi, attr)
    requires IsCut(es1, es2, lo, Same, With(attr)) && IsCut(es2, es3, hi, With(attr), Same)
    ensures At(es3, p) == if Hit(es, lo, hi, p) then WithAttr(At(es, p), attr) else At(es, p)
  {
    hide Owner;
    assert Owner(es1, p) == RecoloredAt(es, p, lo, hi, attr);
  }

  // ---- Placing a mapping anywhere ----

  datatype MapError = EINVAL | ENOMEM | ENOSPC

  /** `Panic`: the key of the new entry was there already. */
  datatype Placed = Mapped(start: nat) | Refused(error: MapError) | Panic

  /** The number of pages in the 64-bit address range, and the number whose bytes an allocation layout
      cannot have. */
  const PAGES := 0x10_0000_0000_0000
  const LAYOUT_PAGES := 0x8_0000_0000_0000

  /** Every page of the range is mapped. */
  ghost predicate Full(es: Entries, lo: nat, hi: nat) { forall p :: lo <= p < hi ==> At(es, p).Some? }

  lemma FullIff(es: Entries, lo: nat, hi: nat)
    requires Sorted(es) && Within(es, lo, hi)
    ensures Full(es, lo, hi) <==> Gaps(es, lo, hi) == []
    ensures Total(Gaps(es, lo, hi), 1, 0) > 0 <==> Gaps(es, lo, hi) != []
  {
    hide Owner, Gaps;
    var gaps := Gaps(es, lo, hi);
    if gaps != [] {
      GapClear(es, lo, hi, 0);
      FreeMeans(es, gaps[0].start, gaps[0].end);
      assert At(es, gaps[0].start) == None;
      assert Positions(gaps[0], 1, 0) > 0;
    }
    if p :| lo <= p < hi && At(es, p) == None {
      assert forall q :: p <= q < p + 1 ==> At(es, q) == None;
      FreeMeans(es, p, p + 1);
      var _ := ClearInGap(es, lo, hi, p, p + 1);
    }
  }

  /** Where a mapping of no pages is put. */
  function EmptyPlace(es: Entries, lo: nat, hi: nat, entropy: nat, random: nat): nat
    requires Total(Gaps(es, lo, hi), 1, 0) > 0
  {
    Slot(Gaps(es, lo, hi), 1, 0, Chosen(Total(Gaps(es, lo, hi), 1, 0), entropy, random))
  }

  /** There is one more entry. */
  ghost predicate Inserted(es: Entries, es': Entries, e: Ent<Mapping>) {
    exists k :: 0 <= k <= |es| && es' == es[..k] + [e] + es[k..]
  }

  predicate HasKey(es: Entries, key: nat) { exists k :: 0 <= k < |es| && es[k].lo == key }

  /** The slot for a positive number of pages is free, and inserting there keeps the map valid. */
  lemma PagesPlaced(es: Entries, lo: nat, hi: nat, count: nat, entropy: nat, random: nat, k: nat, e: Ent<Mapping>)
    requires Sorted(es) && Within(es, lo, hi) && count > 0 && Total(Gaps(es, lo, hi), 1, count) > 0 && k <= |es|
    requires e.lo == Slot(Gaps(es, lo, hi), 1, count, Chosen(Total(Gaps(es, lo, hi), 1, count), entropy, random))
    requires e.hi == e.lo + count
    requires (forall i :: 0 <= i < k ==> es[i].lo < e.lo) && (forall i :: k <= i < |es| ==> e.lo <= es[i].lo)
    ensures FreeAt(es, lo, hi, 1, count, e.lo) && forall i :: 0 <= i < |es| ==> es[i].lo != e.lo
    ensures var es' := es[..k] + [e] + es[k..];
            && Sorted(es') && Within(es', lo, hi)
            && forall p :: At(es', p) == if Contains(e, p) then Some(PageOf(e, p)) else At(es, p)
  {
    hide At, Owner, Total, Slot, Gaps, Sorted, Within;
    SlotIsFree(es, lo, hi, 1, count, Chosen(Total(Gaps(es, lo, hi), 1, count), entropy, random));
    FreeInsert(es, lo, hi, k, e);
    InsertOwner(es, es[..k] + [e] + es[k..], k, e);
  }

  /** An entry without pages is put where another starts, or makes the map invalid. */
  lemma NothingPlaced(es: Entries, lo: nat, hi: nat, entropy: nat, random: nat, k: nat, e: Ent<Mapping>)
    requires Total(Gaps(es, lo, hi), 1, 0) > 0 && k <= |es| && e.hi == e.lo
    requires e.lo == Slot(Gaps(es, lo, hi), 1, 0, Chosen(Total(Gaps(es, lo, hi), 1, 0), entropy, random))
    ensures e.lo == EmptyPlace(es, lo, hi, entropy, random)
    ensures HasKey(es, e.lo) <==> !forall i :: 0 <= i < |es| ==> es[i].lo != e.lo
    ensures var es' := es[..k] + [e] + es[k..]; e in es' && !Sorted(es')
  {
    hide Total, Slot, Gaps;
    assert (es[..k] + [e] + es[k..])[k] == e;
  }

  class Virt {
    const ranges: Ranges<Mapping>

    constructor (lo: nat, hi: nat)
      ensures ranges.Valid() && ranges.es == [] && ranges.lo == lo && ranges.hi == hi && fresh(ranges)
    {
      ranges := new Ranges<Mapping>(lo, hi);
    }

    /** Inserts an entry if its range is in bounds and free. */
    method InsertEntry(e: Ent<Mapping>) returns (ok: bool)
      requires ranges.Valid() && e.lo < e.hi
      modifies ranges
      ensures ranges.Valid()
      ensures ok <==>
                && ranges.lo <= e.lo && e.hi <= ranges.hi
                && forall p :: e.lo <= p < e.hi ==> At(old(ranges.es), p) == None
      ensures if ok then Inserted(old(ranges.es), ranges.es, e) else ranges.es == old(ranges.es)
      ensures forall p: nat ::
                At(ranges.es, p) == if ok && Contains(e, p) then Some(PageOf(e, p)) else At(old(ranges.es), p)
    {
      hide At, Sorted, Within;
      ghost var es := ranges.es;
      FreeMeans(es, e.lo, e.hi);
      ok := ranges.TryInsert(e.lo, e.hi, e.v);
      if ok {
        ghost var k :| 0 <= k <= |es| && ranges.es == es[..k] + [e] + es[k..];
        InsertOwner(es, ranges.es, k, e);
      }
    }

    /** virt.rs:303-321, for a fixed address: shifting the count to bytes loses its bits from 2^52 on. */
    method MapAt(start: nat, phys: nat, index: nat, count: nat, attr: nat) returns (r: Result<nat, MapError>)
      requires ranges.Valid()
      modifies ranges
      ensures ranges.Valid() && (r.Ok? ==> r.value == start) && r != Err(ENOMEM)
      ensures r == Err(EINVAL) <==> count % PAGES == 0 || start + count % PAGES >= PAGES
      ensures r.Ok? <==>
                && 0 < count % PAGES && start + count % PAGES < PAGES
                && ranges.lo <= start && start + count % PAGES <= ranges.hi
                && forall p :: start <= p < start + count % PAGES ==> At(old(ranges.es), p) == None
      ensures r.Ok? ==>
              Inserted(old(ranges.es), ranges.es, Ent(start, start + count % PAGES, Mapping(phys, index, attr)))
      ensures forall p: nat ::
                At(ranges.es, p) ==
                if r.Ok? && start <= p < start + count % PAGES then Some(Mapping(phys, index + (p - start), attr))
                else At(old(ranges.es), p)
    {
      hide At, Inserted;
      var pages := count % PAGES;
      if pages == 0 || start + pages >= PAGES {
        return Err(EINVAL);
      }
      var ok := InsertEntry(Ent(start, start + pages, Mapping(phys, index, attr)));
      r := if ok then Ok(start) else Err(ENOSPC);
    }

    /** virt.rs:322-335: without an address, a random free range is taken; `entropy` and `random` are
        the values of the random generator. */
    method MapAnywhere(phys: nat, index: nat, count: nat, attr: nat, entropy: nat, random: nat) returns (r: Placed)
      requires ranges.Valid()
      modifies ranges
      ensures !r.Mapped? ==> ranges.es == old(ranges.es)
      ensures r == Refused(ENOMEM) <==> count >= LAYOUT_PAGES
      ensures r != Refused(EINVAL)
      // the map is as it should be exactly for a positive number of pages, and where there is no room at all
      ensures r != Panic && ranges.Valid() <==> count > 0 || Full(old(ranges.es), ranges.lo, ranges.hi)
      ensures 0 < count < LAYOUT_PAGES ==>
                (r == Refused(ENOSPC) <==> forall x :: !FreeAt(old(ranges.es), ranges.lo, ranges.hi, 1, count, x))
      ensures count > 0 && r.Mapped? ==>
                && FreeAt(old(ranges.es), ranges.lo, ranges.hi, 1, count, r.start)
                && forall p: nat ::
                     At(ranges.es, p) ==
                     if r.start <= p < r.start + count then Some(Mapping(phys, index + (p - r.start), attr))
                     else At(old(ranges.es), p)
      ensures count == 0 ==>
                if Full(old(ranges.es), ranges.lo, ranges.hi) then r == Refused(ENOSPC)
                else && Total(Gaps(old(ranges.es), ranges.lo, ranges.hi), 1, 0) > 0
                     && var x := EmptyPlace(old(ranges.es), ranges.lo, ranges.hi, entropy, random);
                        if HasKey(old(ranges.es), x) then r == Panic
                        else r == Mapped(x) && Ent(x, x, Mapping(phys, index, attr)) in ranges.es
    {
      hide At, Owner, Total, Slot, Gaps, AllRegular, Full, Sorted, Within, HasKey, FreeAt, EmptyPlace;
      ghost var es := ranges.es;
      if count >= LAYOUT_PAGES {
        return Refused(ENOMEM);
      }
      var found, _ := FindFree(ranges.es, ranges.lo, ranges.hi, entropy, random, 1, count);
      PagesRegular(es, ranges.lo, ranges.hi, count);
      FullIff(es, ranges.lo, ranges.hi);
      if count > 0 {
        TotalIff(es, ranges.lo, ranges.hi, 1, count);
      }
      if found == NotFound {
        return Refused(ENOSPC);
      }
      var e := Ent(found.start, found.end, Mapping(phys, index, attr));
      var vacant, k := ranges.InsertVacant(found.start, found.end, e.v);
      if count > 0 {
        PagesPlaced(es, ranges.lo, ranges.hi, count, entropy, random, k, e);
      } else {
        NothingPlaced(es, ranges.lo, ranges.hi, entropy, random, k, e);
      }
      r := if vacant then Mapped(found.start) else Panic;
    }

    /** virt.rs:493-544 */
    method Unmap(lo: nat, hi: nat)
      requires ranges.Valid()
      modifies ranges
      ensures ranges.Valid()
      ensures forall p: nat ::
                At(ranges.es, p) == if Hit(old(ranges.es), lo, hi, p) then None else At(old(ranges.es), p)
    {
      hide Owner, Sorted, Within, IsCut, Drained, Hit;
      ghost var es := ranges.es;
      assert Sorted(es) by { SortedOf(ranges); }
      var _, i, j := ranges.Drain(lo, hi);
      DrainOwner(es, i, j, lo, hi) by { SortedOf(ranges); }
      ghost var es1 := ranges.es;
      SplitAt(lo, Same, Gone);
      ghost var es2 := ranges.es;
      SplitAt(hi, Gone, Same);
      forall p: nat ensures At(ranges.es, p) == if Hit(es, lo, hi, p) then None else At(es, p) {
        UnmapIs(es, es1, es2, ranges.es, lo, hi, p);
      }
    }

    /** Splits the entry that straddles `key`, and keeps or drops its sides. */
    method SplitAt(key: nat, former: Side, latter: Side)
      requires ranges.Valid()
      modifies ranges
      ensures ranges.Valid() && IsCut(old(ranges.es), ranges.es, key, former, latter)
    {
      hide Owner, IsCut, Sorted, Within;
      ghost var es := ranges.es;
      assert Sorted(es) && Within(es, ranges.lo, ranges.hi) by { SortedOf(ranges); }
      var e, k := ranges.TakeSplit(key);
      if e.Some? {
        var m := e.value.v;
        var offset := key - e.value.lo;
        var a, b := NewAttr(former, m.attr), NewAttr(latter, m.attr);
        TakenFits(es, ranges.es, k);
        WithinAt(es, ranges.lo, ranges.hi, k);
        ranges.PutSplit(key, e.value, if a.Some? then Some(m.(attr := a.value)) else None,
                     if b.Some? then Some(Mapping(m.phys, m.index + offset, b.value)) else None, k);
        assert ranges.es == es[..k] + PartsOf(es[k], key, a, b) + es[k + 1..];
        CutOwner(es, ranges.es, key, k, former, latter) by { SortedOf(ranges); }
      } else {
        NoCut(es, key, former, latter);
      }
    }

    /** virt.rs:425-491 */
    method Reprotect(lo: nat, hi: nat, attr: nat)
      requires ranges.Valid()
      modifies ranges
      ensures ranges.Valid()
      ensures forall p: nat ::
                At(ranges.es, p) ==
                if Hit(old(ranges.es), lo, hi, p) then WithAttr(At(old(ranges.es), p), attr) else At(old(ranges.es), p)
    {
      hide Owner, Sorted, Within, IsCut, IsRecolored, Hit;
      ghost var es := ranges.es;
      assert Sorted(es) by { SortedOf(ranges); }
      Recolor(lo, hi, attr);
      ghost var es1 := ranges.es;
      SplitAt(lo, Same, With(attr));
      ghost var es2 := ranges.es;
      SplitAt(hi, With(attr), Same);
      forall p: nat ensures At(ranges.es, p) == if Hit(es, lo, hi, p) then WithAttr(At(es, p), attr) else At(es, p) {
        ReprotectIs(es, es1, es2, ranges.es, lo, hi, attr, p);
      }
    }

    /** The entries inside the range get the new attributes (virt.rs:436-446). */
    method Recolor(lo: nat, hi: nat, attr: nat)
      requires ranges.Valid()
      modifies ranges
      ensures ranges.Valid() && IsRecolored(old(ranges.es), ranges.es, lo, hi, attr)
    {
      hide Owner, IsRecolored;
      ghost var es := ranges.es;
      var i := ranges.CountBelow(lo);
      var j := i;
      while j < |ranges.es| && ranges.es[j].hi <= hi
        invariant i <= j <= |ranges.es| == |es| && ranges.Valid()
        invariant forall k :: 0 <= k < |es| ==> ranges.es[k] == if i <= k < j then Recolored(es[k], attr) else es[k]
        invariant forall k :: i <= k < j ==> es[k].hi <= hi
      {
        ranges.es := ranges.es[j := Recolored(ranges.es[j], attr)];
        j := j + 1;
      }
      InsideIs(es, i, j, lo, hi);
      RecolorOwner(es, ranges.es, i, j, lo, hi, attr);
    }
  }

  lemma SortedOf(ranges: Ranges<Mapping>)
    requires ranges.Valid()
    ensures Sorted(ranges.es) && Within(ranges.es, ranges.lo, ranges.hi)
  {
  }

  lemma WithinAt(es: Entries, lo: nat, hi: nat, k: nat)
    requires Within(es, lo, hi) && k < |es|
    ensures lo <= es[k].lo && es[k].hi <= hi
  {
  }

  lemma TakenFits(es: Entries, es': Entries, k: nat)
    requires Sorted(es) && k < |es| && es' == es[..k] + es[k + 1..]
    ensures Fits(es', k, es[k])
  {
  }

  /** An entry in a free range keeps the map sorted, and its key is new. */
  lemma FreeInsert(es: Entries, lo: nat, hi: nat, k: nat, e: Ent<Mapping>)
    requires Sorted(es) && Within(es, lo, hi) && lo <= e.lo < e.hi <= hi && Clear(es, e.lo, e.hi) && k <= |es|
    requires (forall i :: 0 <= i < k ==> es[i].lo < e.lo) && (forall i :: k <= i < |es| ==> e.lo <= es[i].lo)
    ensures var es' := es[..k] + [e] + es[k..]; Sorted(es') && Within(es', lo, hi)
    ensures !HasKey(es, e.lo)
  {
    forall i | 0 <= i < |es| ensures if i < k then es[i].hi <= e.lo else e.hi <= es[i].lo {
      assert !Meets(es[i], e.lo, e.hi);
    }
    SortedInsert(es, k, e);
  }

  lemma FreeMeans(es: Entries, lo: nat, hi: nat)
    requires Sorted(es)
    ensures lo < hi ==>
            ((forall p :: lo <= p < hi ==> At(es, p) == None) <==> forall i :: 0 <= i < |es| ==> !Meets(es[i], lo, hi))
  {
    hide Owner;
    if lo < hi {
      forall i | 0 <= i < |es| && Meets(es[i], lo, hi) ensures exists p :: lo <= p < hi && At(es, p) != None {
        var p := if es[i].lo < lo then lo else es[i].lo;
        OwnerIs(es, i, p);
        assert At(es, p) != None;
      }
      forall p | lo <= p < hi && At(es, p) != None ensures exists i :: 0 <= i < |es| && Meets(es[i], lo, hi) {
        var k := OwnerWhere(es, p);
        assert Meets(es[k], lo, hi);
      }
    }
  }

  lemma InsertOwner(es: Entries, es': Entries, k: nat, e: Ent<Mapping>)
    requires Sorted(es') && k <= |es| && es' == es[..k] + [e] + es[k..]
    ensures forall p :: At(es', p) == if Contains(e, p) then Some(PageOf(e, p)) else At(es, p)
  {
    hide Owner, Sorted;
    forall p ensures At(es', p) == if Contains(e, p) then Some(PageOf(e, p)) else At(es, p) {
      if Contains(e, p) {
        assert es'[k] == e;
        OwnerIs(es', k, p);
      } else {
        var n := OwnerWhere(es, p);
        if n < |es| {
          assert es'[if n < k then n else n + 1] == es[n];
          OwnerIs(es', if n < k then n else n + 1, p);
        } else {
          forall j | 0 <= j < |es'| ensures !Contains(es'[j], p) {
            assert es'[j] == if j < k then es[j] else if j == k then e else es[j - 1];
          }
          OwnerNone(es', p);
        }
      }
    }
  }

  // ---- Pages that are hit by accident, and maps that break ----

  /** Unmapping the middle page of three unmaps the last, and reprotecting it reprotects the last. */
  method MiddlePage(unmap: bool) returns (virt: Virt)
    ensures fresh(virt) && fresh(virt.ranges) && virt.ranges.Valid()
    ensures At(virt.ranges.es, 2) == if unmap then None else Some(Mapping(0, 2, 1))
  {
    virt := new Virt(0, 8);
    var _ := virt.MapAt(0, 0, 0, 3, 0);
    ghost var es := virt.ranges.es;
    assert es == [Ent(0, 3, Mapping(0, 0, 0))];
    assert Torn(es, 1, 2, 2);
    if unmap {
      virt.Unmap(1, 2);
    } else {
      virt.Reprotect(1, 2, 1);
    }
  }

  /** With one page mapped, a mapping of no pages is put at the key of that page, which panics, or
      leaves an empty entry. */
  method NoPages(entropy: nat) returns (virt: Virt, r: Placed)
    requires entropy <= 8
    ensures fresh(virt) && fresh(virt.ranges)
    ensures if entropy == 5 then r == Panic else r.Mapped? && !virt.ranges.Valid()
  {
    virt := new Virt(0, 8);
    var _ := virt.MapAt(5, 0, 0, 1, 0);
    ghost var es := virt.ranges.es;
    OnePage(es, entropy);
    r := virt.MapAnywhere(0, 0, 0, 0, entropy, 0);
  }

  lemma OnePage(es: Entries, entropy: nat)
    requires es == [Ent(5, 6, Mapping(0, 0, 0))] && entropy <= 8
    ensures Total(Gaps(es, 0, 8), 1, 0) == 9 && !Full(es, 0, 8)
    ensures HasKey(es, EmptyPlace(es, 0, 8, entropy, 0)) <==> entropy == 5
  {
    assert es[1..] == [];
    var gaps := [Gap(0, 5), Gap(6, 8)];
    assert Gaps(es, 0, 8) == gaps;
    assert gaps[1..] == [Gap(6, 8)] && gaps[1..][1..] == [];
    assert Positions(Gap(0, 5), 1, 0) == 6 && Positions(Gap(6, 8), 1, 0) == 3;
    assert Total(gaps[1..], 1, 0) == 3;
    assert Owner(es[1..], 0) == None && Owner(es, 0) == None;
    assert At(es, 0) == None;
    assert Chosen(9, entropy, 0) == entropy;
    var place := EmptyPlace(es, 0, 8, entropy, 0);
    assert Slot(gaps, 1, 0, entropy) == if entropy < 6 then entropy else Slot(gaps[1..], 1, 0, entropy - 6);
    assert place == entropy;
    assert es[0].lo == 5;
  }

  /** A count of 2^52 + 1 maps one page. */
  method HugeCount() returns (virt: Virt)
    ensures fresh(virt) && fresh(virt.ranges) && virt.ranges.Valid()
    ensures At(virt.ranges.es, 0).Some? && forall p: nat :: p > 0 ==> At(virt.ranges.es, p) == None
  {
    hide At, Owner, Sorted, Within, Inserted;
    virt := new Virt(0, 8);
    NothingMapped();
    assert (PAGES + 1) % PAGES == 1;
    var _ := virt.MapAt(0, 0, 0, PAGES + 1, 0);
  }

  lemma NothingMapped()
    ensures forall p: nat :: At([], p) == None
  {
  }
}
