/** The randomised search for a free range (range-map/src/lib.rs:124-213, 463-524).  Sizes are
    multiples `size` of the alignment `a`, 0 included. */
module Aslr {
  import opened Arithmetic
  import opened RangeMap

  datatype Gap = Gap(start: nat, end: nat)

  // ---- Gaps ----

  /** The gaps between the entries, from `start` to `hi`. */
  function Gaps<V>(es: seq<Ent<V>>, start: nat, hi: nat): seq<Gap> {
    if es == [] then (if start < hi then [Gap(start, hi)] else [])
    else (if start < es[0].lo then [Gap(start, es[0].lo)] else []) + Gaps(es[1..], es[0].hi, hi)
  }

  /** Gaps are not empty and in order. */
  predicate InOrder(gaps: seq<Gap>, start: nat) {
    gaps == [] || (start <= gaps[0].start < gaps[0].end && InOrder(gaps[1..], gaps[0].end))
  }

  lemma {:induction false} GapsInOrder<V>(es: seq<Ent<V>>, start: nat, hi: nat)
    requires Sorted(es) && (es != [] ==> start <= es[0].lo)
    ensures InOrder(Gaps(es, start, hi), start)
  {
    if es != [] {
      GapsInOrder(es[1..], es[0].hi, hi);
      var rest := Gaps(es[1..], es[0].hi, hi);
      if start < es[0].lo {
        assert ([Gap(start, es[0].lo)] + rest)[1..] == rest;
        InOrderFrom(rest, es[0].hi, es[0].lo);
      } else {
        assert [] + rest == rest;
        InOrderFrom(rest, es[0].hi, start);
      }
    }
  }

  lemma InOrderFrom(gaps: seq<Gap>, start: nat, start': nat)
    requires InOrder(gaps, start) && start' <= start
    ensures InOrder(gaps, start')
  {
  }

  predicate Clear<V>(es: seq<Ent<V>>, lo: nat, hi: nat) { forall i :: 0 <= i < |es| ==> !Meets(es[i], lo, hi) }

  /** No entry meets a gap. */
  lemma {:induction false} GapClear<V>(es: seq<Ent<V>>, start: nat, hi: nat, k: nat)
    requires Sorted(es) && Within(es, start, hi) && k < |Gaps(es, start, hi)|
    ensures var g := Gaps(es, start, hi)[k]; start <= g.start < g.end <= hi && Clear(es, g.start, g.end)
  {
    if es != [] {
      var rest := Gaps(es[1..], es[0].hi, hi);
      assert forall i :: 0 < i < |es| ==> es[i] == es[1..][i - 1] && es[0].hi <= es[i].lo;
      var first := if start < es[0].lo then 1 else 0;
      if k >= first {
        assert Within(es[1..], es[0].hi, hi);
        GapClear(es[1..], es[0].hi, hi, k - first);
        assert Gaps(es, start, hi)[k] == rest[k - first];
      }
    }
  }

  /** Every range that no entry meets lies in one gap. */
  lemma {:induction false} ClearInGap<V>(es: seq<Ent<V>>, start: nat, hi: nat, s: nat, t: nat) returns (k: nat)
    requires Sorted(es) && Within(es, start, hi) && start <= s < t <= hi && Clear(es, s, t)
    ensures k < |Gaps(es, start, hi)| && Gaps(es, start, hi)[k].start <= s && t <= Gaps(es, start, hi)[k].end
  {
    if es == [] {
      k := 0;
    } else if s < es[0].lo {
      assert !Meets(es[0], s, t);
      k := 0;
    } else {
      assert !Meets(es[0], s, t);
      assert forall i :: 0 < i < |es| ==> es[i] == es[1..][i - 1] && es[0].hi <= es[i].lo;
      k := ClearInGap(es[1..], es[0].hi, hi, s, t);
      var rest := Gaps(es[1..], es[0].hi, hi);
      var first := if start < es[0].lo then 1 else 0;
      assert Gaps(es, start, hi)[k + first] == rest[k];
      k := k + first;
    }
  }

  // ---- Aligned slots ----

  /** `x / a`, rounded up. */
  function Up(x: nat, a: nat): nat
    requires a > 0
  {
    (x + a - 1) / a
  }

  lemma UpIs(x: nat, a: nat, k: nat)
    requires a > 0
    ensures k * a >= x <==> k >= Up(x, a)
  {
    var q := Up(x, a);
    assert x + a - 1 == a * q + (x + a - 1) % a;
    if k >= q {
      Times(q, k, a);
    } else {
      Times(k + 1, q, a);
      assert (k + 1) * a == k * a + a;
    }
  }

  lemma DownIs(x: nat, a: nat, k: nat)
    requires a > 0
    ensures k * a <= x <==> k <= x / a
  {
    var q := x / a;
    assert x == a * q + x % a;
    if k <= q {
      Times(k, q, a);
    } else {
      Times(q + 1, k, a);
      assert (q + 1) * a == q * a + a;
    }
  }

  lemma Times(i: nat, j: nat, a: nat)
    requires i <= j
    ensures i * a <= j * a
  {
    assert (j - i) * a >= 0;
    assert j * a == i * a + (j - i) * a;
  }

  /** The number of aligned places for `size` units in a gap. */
  function Positions(g: Gap, a: nat, size: nat): nat
    requires a > 0
  {
    var (base, end) := (Up(g.start, a), g.end / a);
    if base + size <= end then end - base - size + 1 else 0
  }

  /** The aligned places in a gap are counted by `Positions`, from its first aligned address on. */
  lemma PlaceIs(g: Gap, a: nat, size: nat, k: nat)
    requires a > 0
    ensures g.start <= k * a && (k + size) * a <= g.end <==>
            Up(g.start, a) <= k < Up(g.start, a) + Positions(g, a, size)
  {
    UpIs(g.start, a, k);
    DownIs(g.end, a, k + size);
  }

  function Total(gaps: seq<Gap>, a: nat, size: nat): nat
    requires a > 0
  {
    if gaps == [] then 0 else Positions(gaps[0], a, size) + Total(gaps[1..], a, size)
  }

  /** The number of the unit where slot `k` starts. */
  function Slot(gaps: seq<Gap>, a: nat, size: nat, k: nat): nat
    requires a > 0 && k < Total(gaps, a, size)
  {
    var n := Positions(gaps[0], a, size);
    if k < n then Up(gaps[0].start, a) + k else Slot(gaps[1..], a, size, k - n)
  }

  predicate Fit(g: Gap, a: nat, size: nat, x: nat) { g.start <= x * a && (x + size) * a <= g.end }

  /** Every slot lies in one gap ... */
  lemma {:induction false} SlotFits(gaps: seq<Gap>, a: nat, size: nat, k: nat)
    requires a > 0 && k < Total(gaps, a, size)
    ensures exists i :: 0 <= i < |gaps| && Fit(gaps[i], a, size, Slot(gaps, a, size, k))
  {
    var n := Positions(gaps[0], a, size);
    if k < n {
      PlaceIs(gaps[0], a, size, Up(gaps[0].start, a) + k);
      assert Fit(gaps[0], a, size, Slot(gaps, a, size, k));
    } else {
      SlotFits(gaps[1..], a, size, k - n);
      var i :| 0 <= i < |gaps| - 1 && Fit(gaps[1..][i], a, size, Slot(gaps[1..], a, size, k - n));
      assert Fit(gaps[i + 1], a, size, Slot(gaps, a, size, k));
    }
  }

  /** ... every place in a gap is a slot ... */
  lemma {:induction false} SlotsCover(gaps: seq<Gap>, a: nat, size: nat, i: nat, x: nat) returns (k: nat)
    requires a > 0 && i < |gaps| && Fit(gaps[i], a, size, x)
    ensures k < Total(gaps, a, size) && Slot(gaps, a, size, k) == x
  {
    var n := Positions(gaps[0], a, size);
    if i == 0 {
      PlaceIs(gaps[0], a, size, x);
      k := x - Up(gaps[0].start, a);
    } else {
      k := SlotsCover(gaps[1..], a, size, i - 1, x);
      k := k + n;
    }
  }

  /** ... and different numbers give different slots, in the order of the gaps. */
  lemma {:induction false} SlotsIncrease(gaps: seq<Gap>, a: nat, size: nat, start: nat, j: nat, k: nat)
    requires a > 0 && size > 0 && InOrder(gaps, start) && j < k < Total(gaps, a, size)
    ensures Slot(gaps, a, size, j) < Slot(gaps, a, size, k)
  {
    hide Positions, Up;
    var n := Positions(gaps[0], a, size);
    if j >= n {
      SlotsIncrease(gaps[1..], a, size, gaps[0].end, j - n, k - n);
    } else if k >= n {
      PlaceIs(gaps[0], a, size, Up(gaps[0].start, a) + j);
      SlotAfter(gaps[1..], a, size, gaps[0].end, k - n);
      var x, y := Slot(gaps, a, size, j), Slot(gaps, a, size, k);
      Times(x + 1, x + size, a);
      assert (x + 1) * a == x * a + a;
      if y <= x {
        Times(y, x, a);
      }
    }
  }

  lemma {:induction false} SlotAfter(gaps: seq<Gap>, a: nat, size: nat, start: nat, k: nat)
    requires a > 0 && InOrder(gaps, start) && k < Total(gaps, a, size)
    ensures start <= Slot(gaps, a, size, k) * a
  {
    var n := Positions(gaps[0], a, size);
    if k < n {
      PlaceIs(gaps[0], a, size, Up(gaps[0].start, a) + k);
    } else {
      SlotAfter(gaps[1..], a, size, gaps[0].end, k - n);
    }
  }

  /** An aligned range of the wanted size that no entry meets. */
  predicate FreeAt<V>(es: seq<Ent<V>>, lo: nat, hi: nat, a: nat, size: nat, x: nat) {
    lo <= x * a && (x + size) * a <= hi && Clear(es, x * a, (x + size) * a)
  }

  lemma Grows(x: nat, size: nat, a: nat)
    requires a > 0 && size > 0
    ensures x * a < (x + size) * a
  {
    Times(x + 1, x + size, a);
    assert (x + 1) * a == x * a + a;
  }

  /** The slots below the total are, one to one, all the aligned free ranges. */
  lemma SlotIsFree<V>(es: seq<Ent<V>>, lo: nat, hi: nat, a: nat, size: nat, k: nat)
    requires Sorted(es) && Within(es, lo, hi) && a > 0 && size > 0 && k < Total(Gaps(es, lo, hi), a, size)
    ensures FreeAt(es, lo, hi, a, size, Slot(Gaps(es, lo, hi), a, size, k))
  {
    hide Total, Slot, Gaps;
    var gaps := Gaps(es, lo, hi);
    SlotFits(gaps, a, size, k);
    var x := Slot(gaps, a, size, k);
    var i :| 0 <= i < |gaps| && Fit(gaps[i], a, size, x);
    GapClear(es, lo, hi, i);
    forall n | 0 <= n < |es| ensures !Meets(es[n], x * a, (x + size) * a) {
      assert !Meets(es[n], gaps[i].start, gaps[i].end);
    }
  }

  lemma FreeIsSlot<V>(es: seq<Ent<V>>, lo: nat, hi: nat, a: nat, size: nat, x: nat) returns (k: nat)
    requires Sorted(es) && Within(es, lo, hi) && a > 0 && size > 0 && FreeAt(es, lo, hi, a, size, x)
    ensures k < Total(Gaps(es, lo, hi), a, size) && Slot(Gaps(es, lo, hi), a, size, k) == x
  {
    hide Total, Slot, Gaps;
    Grows(x, size, a);
    var i := ClearInGap(es, lo, hi, x * a, (x + size) * a);
    k := SlotsCover(Gaps(es, lo, hi), a, size, i, x);
  }

  lemma SlotOnce<V>(es: seq<Ent<V>>, lo: nat, hi: nat, a: nat, size: nat, j: nat, k: nat)
    requires Sorted(es) && Within(es, lo, hi) && a > 0 && size > 0 && j < k < Total(Gaps(es, lo, hi), a, size)
    ensures Slot(Gaps(es, lo, hi), a, size, j) < Slot(Gaps(es, lo, hi), a, size, k)
  {
    hide Total, Slot, Gaps;
    GapsInOrder(es, lo, hi);
    SlotsIncrease(Gaps(es, lo, hi), a, size, lo, j, k);
  }

  /** The search has a slot to find exactly if there is an aligned free range. */
  lemma TotalIff<V>(es: seq<Ent<V>>, lo: nat, hi: nat, a: nat, size: nat)
    requires Sorted(es) && Within(es, lo, hi) && a > 0 && size > 0
    ensures Total(Gaps(es, lo, hi), a, size) > 0 <==> exists x :: FreeAt(es, lo, hi, a, size, x)
  {
    hide Total, Slot, Gaps, FreeAt;
    if Total(Gaps(es, lo, hi), a, size) > 0 {
      SlotIsFree(es, lo, hi, a, size, 0);
    }
    if x :| FreeAt(es, lo, hi, a, size, x) {
      var _ := FreeIsSlot(es, lo, hi, a, size, x);
    }
  }

  // ---- The search ----

  /** `Overflow`: the difference of the ends of a gap, rounded inwards, is negative. */
  datatype FindResult = Found(start: nat, end: nat) | Next | NotFound | Overflow

  /** The gap has an aligned address, or the size is positive. */
  predicate Regular(g: Gap, a: nat, size: nat)
    requires a > 0
  {
    size > 0 || Up(g.start, a) <= g.end / a
  }

  /** What the entropy names in one gap. */
  function InGap(g: Gap, a: nat, size: nat, entropy: nat): (r: FindResult)
    requires a > 0
    ensures r == Next ==> Positions(g, a, size) <= entropy
  {
    if !Regular(g, a, size) then Overflow
    else if entropy < Positions(g, a, size) then
      var x := Up(g.start, a) + entropy;
      Found(x * a, (x + size) * a)
    else Next
  }

  predicate AllRegular(gaps: seq<Gap>, a: nat, size: nat)
    requires a > 0
  {
    forall i :: 0 <= i < |gaps| ==> Regular(gaps[i], a, size)
  }

  /** Gaps between pages are regular for any size. */
  lemma {:induction false} PagesRegular<V>(es: seq<Ent<V>>, start: nat, hi: nat, size: nat)
    ensures AllRegular(Gaps(es, start, hi), 1, size)
  {
    if es != [] {
      PagesRegular(es[1..], es[0].hi, hi, size);
    }
  }

  class AslrKey {
    var retried: bool
    var entropy: nat
    var count: nat
    const a: nat
    /** The size in units of the alignment. */
    const size: nat

    constructor (entropy: nat, a: nat, size: nat)
      ensures this.a == a && this.size == size && this.entropy == entropy && count == 0 && !retried
    {
      this.a, this.size, this.entropy := a, size, entropy;
      count, retried := 0, false;
    }

    /** One gap (lib.rs:499-522). */
    method FindInGap(g: Gap) returns (r: FindResult)
      requires a > 0
      modifies this`entropy, this`count
      ensures count == old(count) + if Regular(g, a, size) then Positions(g, a, size) else 0
      ensures r == InGap(g, a, size, old(entropy))
      ensures r == Next ==> entropy == old(entropy) - Positions(g, a, size)
    {
      var base, end := (g.start + a - 1) / a * a, g.end / a * a;
      GapUnits(g, a, size);
      if size * a <= if base <= end then end - base else 0 {
        if end < base {
          return Overflow;
        }
        var positions := (end - base - size * a) / a + 1;
        count := count + positions;
        if entropy < positions {
          Spread(Up(g.start, a), entropy, size, a);
          return Found(base + entropy * a, base + entropy * a + size * a);
        }
        entropy := entropy - positions;
      }
      r := Next;
    }

    /** The end of a round (lib.rs:485-497); `random` is the next value of the generator. */
    method EndRound(random: nat) returns (r: FindResult)
      modifies this`entropy, this`count, this`retried
      ensures if old(retried) || old(count) == 0 then r == NotFound
              else r == Next && retried && entropy == random % old(count) && count == 0
    {
      if retried || count == 0 {
        return NotFound;
      }
      retried := true;
      entropy := random % count;
      count := 0;
      r := Next;
    }
  }

  lemma GapUnits(g: Gap, a: nat, size: nat)
    requires a > 0
    ensures var (base, end) := (Up(g.start, a), g.end / a);
            && (base * a + size * a <= end * a <==> base + size <= end) && (base * a <= end * a <==> base <= end)
            && (size * a <= 0 <==> size == 0)
            && (base + size <= end ==> (end * a - base * a - size * a) / a == end - base - size)
  {
    Units(Up(g.start, a), g.end / a, size, a);
    Units(Up(g.start, a), g.end / a, 0, a);
    if size > 0 {
      Times(1, size, a);
    }
  }

  lemma Units(base: nat, end: nat, size: nat, a: nat)
    requires a > 0
    ensures base * a + size * a <= end * a <==> base + size <= end
    ensures base + size <= end ==> (end * a - base * a - size * a) / a == end - base - size
  {
    Spread(base, size, 0, a);
    if base + size <= end {
      var n := end - base - size;
      Spread(base + size, n, 0, a);
      DivisionUnique(n * a, a, n, 0);
    } else {
      Times(end + 1, base + size, a);
      Spread(end, 1, 0, a);
    }
  }

  lemma Spread(base: nat, k: nat, size: nat, a: nat)
    ensures base * a + k * a == (base + k) * a && (base + k) * a + size * a == (base + k + size) * a
  {
  }

  /** One round over the gaps. */
  function Round(gaps: seq<Gap>, a: nat, size: nat, entropy: nat): FindResult
    requires a > 0
  {
    if gaps == [] then Next
    else
      var r := InGap(gaps[0], a, size, entropy);
      if r == Next then Round(gaps[1..], a, size, entropy - Positions(gaps[0], a, size)) else r
  }

  lemma RoundStep(g: Gap, rest: seq<Gap>, a: nat, size: nat, entropy: nat)
    requires a > 0
    ensures Total([g] + rest, a, size) == Positions(g, a, size) + Total(rest, a, size)
    ensures Round([g] + rest, a, size, entropy) ==
            var r := InGap(g, a, size, entropy);
            if r == Next then Round(rest, a, size, entropy - Positions(g, a, size)) else r
  {
    hide Positions, Up, Regular, InGap;
    assert ([g] + rest)[1..] == rest;
  }

  /** Over regular gaps, a round finds the slot that the entropy names, if there are so many. */
  lemma {:induction false} RoundIs(gaps: seq<Gap>, a: nat, size: nat, entropy: nat)
    requires a > 0 && AllRegular(gaps, a, size)
    ensures Round(gaps, a, size, entropy) ==
            if entropy < Total(gaps, a, size)
            then Found(Slot(gaps, a, size, entropy) * a, (Slot(gaps, a, size, entropy) + size) * a) else Next
  {
    hide Positions, Up;
    if gaps != [] && entropy >= Positions(gaps[0], a, size) {
      RoundIs(gaps[1..], a, size, entropy - Positions(gaps[0], a, size));
    }
  }

  /** Otherwise it finds a slot before the first irregular gap, or overflows there. */
  lemma {:induction false} RoundStops(gaps: seq<Gap>, a: nat, size: nat, entropy: nat)
    requires a > 0 && !AllRegular(gaps, a, size)
    ensures Round(gaps, a, size, entropy).Found? || Round(gaps, a, size, entropy) == Overflow
  {
    if Regular(gaps[0], a, size) && entropy >= Positions(gaps[0], a, size) {
      var i :| 0 <= i < |gaps| && !Regular(gaps[i], a, size);
      assert !Regular(gaps[1..][i - 1], a, size);
      RoundStops(gaps[1..], a, size, entropy - Positions(gaps[0], a, size));
    }
  }

  /** One round (`find_gap`, lib.rs:124-143). */
  method FindGap<V>(es: seq<Ent<V>>, lo: nat, hi: nat, key: AslrKey) returns (r: FindResult)
    requires key.a > 0
    modifies key`entropy, key`count
    ensures r == Round(Gaps(es, lo, hi), key.a, key.size, old(key.entropy))
    ensures r == Next ==> key.count == old(key.count) + Total(Gaps(es, lo, hi), key.a, key.size)
  {
    hide Total, Round, Positions, Up;
    ghost var gaps := Gaps(es, lo, hi);
    var start: nat, i: nat := lo, 0;
    assert es[0..] == es;
    while i < |es|
      invariant 0 <= i <= |es|
      invariant Round(Gaps(es[i..], start, hi), key.a, key.size, key.entropy) ==
                Round(gaps, key.a, key.size, old(key.entropy))
      invariant key.count + Total(Gaps(es[i..], start, hi), key.a, key.size) ==
                old(key.count) + Total(gaps, key.a, key.size)
    {
      var e := es[i];
      assert es[i..][0] == e && es[i..][1..] == es[i + 1..];
      ghost var rest := Gaps(es[i + 1..], e.hi, hi);
      if start < e.lo {
        RoundStep(Gap(start, e.lo), rest, key.a, key.size, key.entropy);
        r := key.FindInGap(Gap(start, e.lo));
        if r != Next {
          return;
        }
      } else {
        assert [] + rest == rest;
      }
      start := e.hi;
      i := i + 1;
    }
    r := Next;
    EmptyTotal(key.a, key.size);
    if start < hi {
      RoundStep(Gap(start, hi), [], key.a, key.size, key.entropy);
      assert [Gap(start, hi)] + [] == [Gap(start, hi)];
      EmptyRound(key.a, key.size, key.entropy);
      r := key.FindInGap(Gap(start, hi));
      if r == Next {
        EmptyRound(key.a, key.size, key.entropy);
      }
    } else {
      EmptyRound(key.a, key.size, key.entropy);
    }
  }

  lemma EmptyRound(a: nat, size: nat, entropy: nat)
    requires a > 0
    ensures Round([], a, size, entropy) == Next
  {
  }

  lemma EmptyTotal(a: nat, size: nat)
    requires a > 0
    ensures Total([], a, size) == 0
  {
  }

  /** The slot that a search ends with, if there are any: the first value of the generator names it,
      or the second, if the first is too large. */
  function Chosen(total: nat, entropy: nat, random: nat): (slot: nat)
    requires total > 0
    ensures slot < total
  {
    if entropy < total then entropy else random % total
  }

  /** The search (`find_free_with_aslr`, lib.rs:147-174).  Over regular gaps it takes at most two
      rounds, succeeds exactly if some gap has an aligned place, and the entropy picks the slot.  With
      an irregular gap the first round is the only one. */
  method FindFree<V>(es: seq<Ent<V>>, lo: nat, hi: nat, entropy: nat, random: nat, a: nat, size: nat)
    returns (r: FindResult, ghost rounds: nat)
    requires a > 0
    ensures 1 <= rounds <= 2 && r != Next
    ensures var gaps := Gaps(es, lo, hi); AllRegular(gaps, a, size) ==>
              if Total(gaps, a, size) == 0 then r == NotFound
              else
                var x := Slot(gaps, a, size, Chosen(Total(gaps, a, size), entropy, random));
                r == Found(x * a, x * a + size * a)
    ensures !AllRegular(Gaps(es, lo, hi), a, size) ==> r == Round(Gaps(es, lo, hi), a, size, entropy)
  {
    hide Total, Slot, Gaps, Round, AllRegular;
    var key := new AslrKey(entropy, a, size);
    rounds := 1;
    ghost var gaps := Gaps(es, lo, hi);
    r := FindGap(es, lo, hi, key);
    if AllRegular(gaps, a, size) {
      RoundIs(gaps, a, size, entropy);
      Place(gaps, a, size, entropy);
    } else {
      RoundStops(gaps, a, size, entropy);
    }
    if r == Next {
      r := key.EndRound(random);
      if r == Next {
        rounds := 2;
        RoundIs(gaps, a, size, key.entropy);
        Place(gaps, a, size, key.entropy);
        r := FindGap(es, lo, hi, key);
      }
    }
  }

  lemma Place(gaps: seq<Gap>, a: nat, size: nat, k: nat)
    requires a > 0
    ensures k < Total(gaps, a, size) ==>
              (Slot(gaps, a, size, k) + size) * a == Slot(gaps, a, size, k) * a + size * a
  {
    hide Total, Slot;
    if k < Total(gaps, a, size) {
      Spread(Slot(gaps, a, size, k), 0, size, a);
    }
  }
}
