/** Ordered maps from disjoint ranges to values (range-map/src/lib.rs). */
module RangeMap {
  import opened Common

  datatype Ent<V> = Ent(lo: nat, hi: nat, v: V)

  /** Entries are not empty, and each ends before the next starts. */
  predicate Sorted<V>(es: seq<Ent<V>>) {
    && (forall i :: 0 <= i < |es| ==> es[i].lo < es[i].hi)
    && (forall i, j :: 0 <= i < j < |es| ==> es[i].hi <= es[j].lo)
  }

  predicate Within<V>(es: seq<Ent<V>>, lo: nat, hi: nat) {
    forall i :: 0 <= i < |es| ==> lo <= es[i].lo && es[i].hi <= hi
  }

  predicate Meets<V>(e: Ent<V>, lo: nat, hi: nat) { e.lo < hi && lo < e.hi }

  predicate Inside<V>(e: Ent<V>, lo: nat, hi: nat) { lo <= e.lo && e.hi <= hi }

  predicate Straddles<V>(e: Ent<V>, key: nat) { e.lo < key < e.hi }

  /** `r` is the entries `[i, k)` from the last to the first, and these are all that meet the range. */
  ghost predicate AreMeeting<V>(r: seq<Ent<V>>, es: seq<Ent<V>>, i: nat, k: nat, lo: nat, hi: nat) {
    && i <= k <= |es| && |r| == k - i
    && (forall j :: 0 <= j < |r| ==> r[j] == es[k - 1 - j])
    && (forall j :: 0 <= j < |es| ==> (Meets(es[j], lo, hi) <==> i <= j < k))
  }

  lemma SortedParts<V>(es: seq<Ent<V>>, i: nat, j: nat)
    requires Sorted(es) && i <= j <= |es|
    ensures Sorted(es[..i] + es[j..])
  {
  }

  lemma SortedInsert<V>(es: seq<Ent<V>>, k: nat, e: Ent<V>)
    requires Sorted(es) && k <= |es| && e.lo < e.hi && Fits(es, k, e)
    ensures Sorted(es[..k] + [e] + es[k..])
  {
  }

  class Ranges<V> {
    const lo: nat
    const hi: nat
    /** The entries in the order of their keys. */
    var es: seq<Ent<V>>

    ghost predicate Valid()
      reads this
    {
      Sorted(es) && Within(es, lo, hi)
    }

    constructor (lo: nat, hi: nat)
      ensures Valid() && es == [] && this.lo == lo && this.hi == hi
    {
      this.lo, this.hi, es := lo, hi, [];
    }

    /** The number of entries that start below `key`. */
    method CountBelow(key: nat) returns (k: nat)
      requires Valid()
      ensures k <= |es| && (forall i :: 0 <= i < k ==> es[i].lo < key)
      ensures forall i :: k <= i < |es| ==> key <= es[i].lo
    {
      k := 0;
      while k < |es| && es[k].lo < key
        invariant k <= |es| && forall i :: 0 <= i < k ==> es[i].lo < key
      {
        k := k + 1;
      }
    }

    /** lib.rs:44-61: succeeds exactly if the range is not empty, lies in the root range and meets no
        entry. */
    method TryInsert(start: nat, end: nat, v: V) returns (ok: bool)
      requires Valid()
      modifies this
      ensures Valid()
      ensures ok <==>
                && start < end && lo <= start && end <= hi
                && forall i :: 0 <= i < |old(es)| ==> !Meets(old(es)[i], start, end)
      ensures !ok ==> es == old(es)
      ensures ok ==> exists k :: 0 <= k <= |old(es)| && es == old(es)[..k] + [Ent(start, end, v)] + old(es)[k..]
    {
      if start >= end || !(lo <= start && end <= hi) {
        return false;
      }
      var k := CountBelow(end);
      if k > 0 && es[k - 1].hi > start {
        assert Meets(es[k - 1], start, end);
        return false;
      }
      SortedInsert(es, k, Ent(start, end, v));
      es := es[..k] + [Ent(start, end, v)] + es[k..];
      ok := true;
    }

    /** `allocate_with` after the search, and the insertion into the entry (lib.rs:176-195): fails if
        there is an entry at `start` already, which the source takes to be impossible. */
    method InsertVacant(start: nat, end: nat, v: V) returns (vacant: bool, ghost k: nat)
      requires Valid()
      modifies this
      ensures vacant <==> forall i :: 0 <= i < |old(es)| ==> old(es)[i].lo != start
      ensures k <= |old(es)| && (forall i :: 0 <= i < k ==> old(es)[i].lo < start)
      ensures forall i :: k <= i < |old(es)| ==> start <= old(es)[i].lo
      ensures es == if vacant then old(es)[..k] + [Ent(start, end, v)] + old(es)[k..] else old(es)
    {
      var n := CountBelow(start);
      k := n;
      vacant := n == |es| || es[n].lo != start;
      assert forall i :: n < i < |es| ==> es[n].lo < es[n].hi <= es[i].lo;
      if vacant {
        es := es[..n] + [Ent(start, end, v)] + es[n..];
      }
    }

    /** The entries that meet a range, from the last to the first (lib.rs:301-312). */
    method Intersection(start: nat, end: nat) returns (r: seq<Ent<V>>)
      requires Valid()
      ensures exists i, k :: AreMeeting(r, es, i, k, start, end)
    {
      r := [];
      var k := CountBelow(end);
      var n := k;
      while n > 0 && start < es[n - 1].hi
        invariant 0 <= n <= k <= |es| && |r| == k - n && forall j :: 0 <= j < |r| ==> r[j] == es[k - 1 - j]
        invariant forall j :: n <= j < k ==> start < es[j].hi
      {
        r := r + [es[n - 1]];
        n := n - 1;
      }
      assert AreMeeting(r, es, n, k, start, end);
    }

    /** Removes the entries inside a range, and only those (lib.rs:344-361). */
    method Drain(start: nat, end: nat) returns (removed: seq<Ent<V>>, ghost from: nat, ghost limit: nat)
      requires Valid()
      modifies this
      ensures Valid() && AreInside(old(es), from, limit, start, end)
      ensures removed == old(es)[from..limit] && es == old(es)[..from] + old(es)[limit..]
    {
      var i := CountBelow(start);
      var j := CountBelow(end);
      if j < i {
        j := i;
      }
      // `[i, j)` start inside the range; the last of them may reach beyond its end.
      if i < j && end < es[j - 1].hi {
        j := j - 1;
      }
      InsideIs(es, i, j, start, end);
      from, limit := i, j;
      removed := es[i..j];
      SortedParts(es, i, j);
      es := es[..i] + es[j..];
    }

    /** Takes out the entry that strictly contains `key`, if any (lib.rs:427-449). */
    method TakeSplit(key: nat) returns (r: Option<Ent<V>>, ghost k: nat)
      requires Valid()
      modifies this
      ensures Valid() && k <= |old(es)|
      ensures r == None ==> es == old(es) && forall i :: 0 <= i < |es| ==> !Straddles(es[i], key)
      ensures r.Some? ==>
              k < |old(es)| && r.value == old(es)[k] && Straddles(r.value, key) && es == old(es)[..k] + old(es)[k + 1..]
    {
      var n := CountBelow(key);
      k := n;
      if n > 0 && key < es[n - 1].hi {
        k := n - 1;
        r := Some(es[n - 1]);
        SortedParts(es, k, k + 1);
        es := es[..n - 1] + es[n..];
      } else {
        r := None;
      }
    }

    /** Puts back the parts of a split entry (lib.rs:385-398). */
    method PutSplit(key: nat, e: Ent<V>, former: Option<V>, latter: Option<V>, ghost k: nat)
      requires Valid() && Straddles(e, key) && lo <= e.lo && e.hi <= hi && k <= |es|
      requires Fits(es, k, e)
      modifies this
      ensures Valid() && es == old(es)[..k] + Parts(e, key, former, latter) + old(es)[k..]
    {
      hide Sorted, Within;
      if former.Some? {
        assert Fits(es, k, Ent(e.lo, key, former.value));
        Insert(Ent(e.lo, key, former.value), k);
      }
      if latter.Some? {
        ghost var m := if former.Some? then k + 1 else k;
        assert Fits(es, m, Ent(key, e.hi, latter.value));
        Insert(Ent(key, e.hi, latter.value), m);
      }
    }

    /** `BTreeMap::insert` of an entry that comes after the first `k`. */
    method Insert(e: Ent<V>, ghost k: nat)
      requires Valid() && k <= |es| && e.lo < e.hi && lo <= e.lo && e.hi <= hi && Fits(es, k, e)
      modifies this
      ensures Valid() && es == old(es)[..k] + [e] + old(es)[k..]
    {
      var n := CountBelow(e.lo);
      FitsBelow(es, k, e);
      CountIs(es, e.lo, n, k);
      SortedInsert(es, k, e);
      es := es[..n] + [e] + es[n..];
    }
  }

  predicate Fits<V>(es: seq<Ent<V>>, k: nat, e: Ent<V>)
    requires k <= |es|
  {
    (forall i :: 0 <= i < k ==> es[i].hi <= e.lo) && (forall i :: k <= i < |es| ==> e.hi <= es[i].lo)
  }

  lemma FitsBelow<V>(es: seq<Ent<V>>, k: nat, e: Ent<V>)
    requires Sorted(es) && k <= |es| && e.lo < e.hi && Fits(es, k, e)
    ensures (forall i :: 0 <= i < k ==> es[i].lo < e.lo) && (forall i :: k <= i < |es| ==> e.lo <= es[i].lo)
  {
  }

  lemma CountIs<V>(es: seq<Ent<V>>, key: nat, n: nat, k: nat)
    requires n <= |es| && k <= |es|
    requires (forall i :: 0 <= i < n ==> es[i].lo < key) && (forall i :: n <= i < |es| ==> key <= es[i].lo)
    requires (forall i :: 0 <= i < k ==> es[i].lo < key) && (forall i :: k <= i < |es| ==> key <= es[i].lo)
    ensures n == k
  {
    var _ := if n < |es| then es[n].lo else 0;
    var _ := if k < |es| then es[k].lo else 0;
  }

  function Parts<V>(e: Ent<V>, key: nat, former: Option<V>, latter: Option<V>): seq<Ent<V>> {
    (if former.Some? then [Ent(e.lo, key, former.value)] else [])
    + (if latter.Some? then [Ent(key, e.hi, latter.value)] else [])
  }

  /** The entries inside the range are `[i, j)`. */
  predicate AreInside<V>(es: seq<Ent<V>>, i: nat, j: nat, lo: nat, hi: nat) {
    i <= j <= |es| && forall n :: 0 <= n < |es| ==> (Inside(es[n], lo, hi) <==> i <= n < j)
  }

  lemma InsideIs<V>(es: seq<Ent<V>>, i: nat, j: nat, start: nat, end: nat)
    requires Sorted(es) && i <= j <= |es|
    requires (forall n :: 0 <= n < i ==> es[n].lo < start) && (forall n :: i <= n < |es| ==> start <= es[n].lo)
    requires (forall n :: i <= n < j ==> es[n].lo < end) && (j < |es| ==> end < es[j].hi)
    requires i < j ==> es[j - 1].hi <= end
    ensures AreInside(es, i, j, start, end)
  {
    forall n | 0 <= n < |es| ensures Inside(es[n], start, end) <==> i <= n < j {
      assert i <= n < j - 1 ==> es[n].hi <= es[j - 1].lo;
      assert j < n ==> es[j].hi <= es[n].lo < es[n].hi;
    }
  }
}
