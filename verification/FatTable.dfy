/** The table on the device, its allocation and reclamation, and the free-cluster count of the file
    system (afat32/src/table.rs:145-422, afat32/src/fs.rs:98-150). */
module FatTable {
  import opened Arithmetic
  import opened Common
  import opened Sums
  import opened FatEntry

  const ALLOCATE_BATCH_LEN := 1024
  const BATCH_LEN := 64

  function Load(raw: seq<nat>): Table { seq(|raw|, i requires 0 <= i < |raw| => FromRaw(raw[i], i)) }

  // ---- What the operations do to the entries ----

  /** `[c, c + n)` is a run of free clusters. */
  predicate FreeRun(t: Table, c: nat, n: nat) {
    RESERVED <= c && c + n <= |t| && forall i :: c <= i < c + n ==> t[i].Free?
  }

  /** The run `[c, c + n)` linked up, and nothing else changed. */
  function Linked(t: Table, c: nat, n: nat): Table
    requires c + n <= |t| && n > 0
  {
    seq(|t|, i requires 0 <= i < |t| =>
      if c <= i < c + n - 1 then Next(i + 1) else if i == c + n - 1 then End else t[i])
  }

  function Allocated(t: Table, prev: Option<nat>, c: nat, n: nat): Table
    requires c + n <= |t| && n > 0 && (prev.Some? ==> prev.value < |t|)
  {
    Linked(if prev.Some? then t[prev.value := Next(c)] else t, c, n)
  }

  function Run(c: nat, n: nat): seq<nat> { seq(n, i requires 0 <= i < n => c + i) }

  /** The new run is a chain of its own. */
  lemma RunIsChain(t: Table, prev: Option<nat>, c: nat, n: nat)
    requires c + n <= |t| && n > 0 && (prev.Some? ==> prev.value < |t|)
    ensures IsChain(Allocated(t, prev, c, n), Run(c, n))
  {
  }

  /** The chain that ended in `prev` is extended by the run. */
  lemma AllocateExtends(t: Table, s: seq<nat>, c: nat, n: nat)
    requires IsChain(t, s) && FreeRun(t, c, n) && n > 0 && forall i :: 0 <= i < |s| ==> !t[s[i]].Free?
    ensures IsChain(Allocated(t, Some(s[|s| - 1]), c, n), s + Run(c, n))
  {
    var prev := s[|s| - 1];
    var t' := Allocated(t, Some(prev), c, n);
    var s' := s + Run(c, n);
    RunIsChain(t, Some(prev), c, n);
    forall i | 0 <= i < |s| - 1 ensures t'[s[i]] == t[s[i]] {
      ChainDistinct(t, s, i, |s| - 1);
    }
    forall i | 0 <= i < |s'| - 1 ensures t'[s'[i]] == Next(s'[i + 1]) {
      if i < |s| - 1 {
        assert t[s[i]] == Next(s[i + 1]);
      } else if i >= |s| {
        assert t'[Run(c, n)[i - |s|]] == Next(Run(c, n)[i - |s| + 1]);
      }
    }
  }

  /** Every other chain is left as it was, and has nothing in common with the run. */
  lemma AllocateKeepsOthers(t: Table, prev: Option<nat>, c: nat, n: nat, s: seq<nat>)
    requires FreeRun(t, c, n) && n > 0 && (prev.Some? ==> prev.value < |t|)
    requires IsChain(t, s) && forall i :: 0 <= i < |s| ==> !t[s[i]].Free? && prev != Some(s[i])
    ensures IsChain(Allocated(t, prev, c, n), s) && forall i :: 0 <= i < |s| ==> s[i] !in Run(c, n)
  {
    ChainFrame(t, Allocated(t, prev, c, n), s);
  }

  lemma {:induction false} LinkedCount(t: Table, c: nat, n: nat)
    requires FreeRun(t, c, n) && n > 0
    ensures CountFree(Linked(t, c, n)) + n == CountFree(t)
    decreases n
  {
    var t1 := t[c := if n == 1 then End else Next(c + 1)];
    CountFreeUpdate(t, c, if n == 1 then End else Next(c + 1));
    if n == 1 {
      assert Linked(t, c, n) == t1;
    } else {
      LinkedCount(t1, c + 1, n - 1);
      assert Linked(t1, c + 1, n - 1) == Linked(t, c, n);
    }
  }

  /** `prev` is lost to the count when it was itself free and is not in the run. */
  predicate CountsPrev(t: Table, prev: Option<nat>, c: nat, n: nat)
    requires prev.Some? ==> prev.value < |t|
  {
    prev.Some? && RESERVED <= prev.value && t[prev.value].Free? && prev.value !in Run(c, n)
  }

  /** The number of free clusters falls by the length of the run, if and only if `prev` is not a
      free cluster outside it. */
  lemma AllocatedCount(t: Table, prev: Option<nat>, c: nat, n: nat)
    requires FreeRun(t, c, n) && n > 0 && (prev.Some? ==> prev.value < |t|)
    ensures CountFree(Allocated(t, prev, c, n)) + n + (if CountsPrev(t, prev, c, n) then 1 else 0) == CountFree(t)
  {
    LinkedCount(t, c, n);
    if prev.Some? {
      var p := prev.value;
      var linked := Linked(t, c, n);
      if c <= p < c + n {
        assert Run(c, n)[p - c] == p;
        assert Allocated(t, prev, c, n) == linked;
      } else {
        assert Allocated(t, prev, c, n) == linked[p := Next(c)];
        if p < RESERVED {
          CountFreeReserved(linked, p, Next(c));
        } else {
          CountFreeUpdate(linked, p, Next(c));
        }
      }
    }
  }

  // ---- The run that a search finds ----

  /** The first free cluster in `[from, limit)`. */
  function FirstFree(t: Table, from: nat, limit: nat): (r: Option<nat>)
    requires limit <= |t|
    ensures r.Some? ==> from <= r.value < limit && t[r.value].Free?
    ensures forall i :: from <= i < (if r.Some? then r.value else limit) ==> !t[i].Free?
    decreases limit - from
  {
    if from >= limit then None else if t[from].Free? then Some(from) else FirstFree(t, from + 1, limit)
  }

  /** The number of free clusters in a row from `c` on, below `limit`. */
  function FreeLength(t: Table, c: nat, limit: nat): (n: nat)
    requires limit <= |t|
    ensures if c <= limit then c + n <= limit else n == 0
    ensures forall i :: c <= i < c + n ==> t[i].Free?
    ensures c + n < limit ==> !t[c + n].Free?
    decreases limit - c
  {
    if c >= limit || !t[c].Free? then 0 else 1 + FreeLength(t, c + 1, limit)
  }

  /** Where the batch of cluster `c` ends, if batches of `batch` clusters start at `from`. */
  function BatchEnd(from: nat, batch: nat, limit: nat, c: nat): nat
    requires batch > 0 && from <= c
  {
    Min(from + ((c - from) / batch + 1) * batch, limit)
  }

  /** The run found in `[from, limit)`: from the first free cluster on, as far as clusters are free,
      cut at the end of the batch (table.rs:251-299). */
  function SearchIn(t: Table, from: nat, limit: nat, batch: nat): Option<(nat, nat)>
    requires batch > 0 && limit <= |t|
  {
    var first := FirstFree(t, from, limit);
    if first == None then None
    else Some((first.value, FreeLength(t, first.value, BatchEnd(from, batch, limit, first.value))))
  }

  lemma SearchMeans(t: Table, from: nat, limit: nat, batch: nat)
    requires batch > 0 && limit <= |t| && RESERVED <= from
    ensures SearchIn(t, from, limit, batch) == None <==> forall i :: from <= i < limit ==> !t[i].Free?
    ensures var r := SearchIn(t, from, limit, batch); r.Some? ==>
              && from <= r.value.0 < limit && 1 <= r.value.1 <= batch && FreeRun(t, r.value.0, r.value.1)
              && forall i :: from <= i < r.value.0 ==> !t[i].Free?
  {
    var first := FirstFree(t, from, limit);
    if first.Some? {
      var c := first.value;
      var k := (c - from) / batch;
      assert c - from == k * batch + (c - from) % batch;
      assert (k + 1) * batch == k * batch + batch;
      assert t[c].Free?;
    }
  }

  /** The run that `allocate` picks: clusters below the hint are not searched (table.rs:307-336). */
  function Pick(t: Table, hint: Option<nat>, num: nat): Option<(nat, nat)>
    requires num > 0
  {
    SearchIn(t, Max(hint.GetOr(RESERVED), RESERVED), |t|, Min(ALLOCATE_BATCH_LEN, num))
  }

  lemma PickMeans(t: Table, hint: Option<nat>, num: nat)
    requires num > 0
    ensures Pick(t, hint, num) == None <==> forall i :: Max(hint.GetOr(RESERVED), RESERVED) <= i < |t| ==> !t[i].Free?
    ensures var r := Pick(t, hint, num); r.Some? ==> 1 <= r.value.1 <= num && FreeRun(t, r.value.0, r.value.1)
  {
    SearchMeans(t, Max(hint.GetOr(RESERVED), RESERVED), |t|, Min(ALLOCATE_BATCH_LEN, num));
  }

  // ---- Freeing ----

  function IsNext(): Entry -> bool { (e: Entry) => e.Next? }

  lemma FreeingEnds(t: Table, c: nat)
    requires c < |t| && t[c].Next?
    ensures Count(t[c := Free], IsNext()) < Count(t, IsNext())
  {
    CountUpdate(t, IsNext(), c, Free);
  }

  /** What freeing from cluster `c` on does, in any table: clusters are followed and freed until
      one links no other, or one is out of range. */
  function FreeWalk(t: Table, c: nat): (r: (Table, Result<nat, Error>))
    ensures |r.0| == |t|
    decreases Count(t, IsNext())
  {
    if c >= |t| then (t, Err(EINVAL))
    else if t[c].Next? then
      FreeingEnds(t, c);
      var (t', r) := FreeWalk(t[c := Free], t[c].n);
      (t', if r.Ok? then Ok(r.value + 1) else r)
    else (t[c := Free], Ok(1))
  }

  /** The walk stays among the clusters that can be allocated. */
  predicate WalkInside(t: Table, c: nat)
    decreases Count(t, IsNext())
  {
    RESERVED <= c < |t| && (if t[c].Next? then FreeingEnds(t, c); WalkInside(t[c := Free], t[c].n) else true)
  }

  /** The last cluster of the walk is free already: the chain dangles, or closes a cycle. */
  predicate EndsFree(t: Table, c: nat)
    decreases Count(t, IsNext())
  {
    c < |t| && (if t[c].Next? then FreeingEnds(t, c); EndsFree(t[c := Free], t[c].n) else t[c].Free?)
  }

  /** The walk frees a cluster that can be allocated before it comes to the end. */
  predicate PassesAllocable(t: Table, c: nat)
    decreases Count(t, IsNext())
  {
    c < |t| && t[c].Next? && (RESERVED <= c || (FreeingEnds(t, c); PassesAllocable(t[c := Free], t[c].n)))
  }

  lemma CountFreed(t: Table, c: nat)
    requires c < |t| && |t| >= RESERVED
    ensures CountFree(t[c := Free]) == CountFree(t) + if RESERVED <= c && !t[c].Free? then 1 else 0
  {
    if RESERVED <= c {
      CountFreeUpdate(t, c, Free);
    } else {
      CountFreeReserved(t, c, Free);
    }
  }

  /** In any table: freeing reports at least as many clusters as become free, and exactly as many if
      and only if the walk stays among allocable clusters and its last one was not free already.  A
      walk that fails has not freed any allocable cluster if and only if it passed none. */
  lemma {:induction false} FreeWalkCount(t: Table, c: nat)
    requires |t| >= RESERVED
    ensures var (t', r) := FreeWalk(t, c);
            && CountFree(t) <= CountFree(t')
            && (r.Ok? ==> CountFree(t') <= CountFree(t) + r.value)
            && (r.Ok? ==> (CountFree(t') == CountFree(t) + r.value <==> WalkInside(t, c) && !EndsFree(t, c)))
            && (r.Err? ==> (CountFree(t') == CountFree(t) <==> !PassesAllocable(t, c)))
    decreases Count(t, IsNext())
  {
    hide CountFree;
    if c < |t| {
      CountFreed(t, c);
      if t[c].Next? {
        FreeingEnds(t, c);
        FreeWalkCount(t[c := Free], t[c].n);
      }
    }
  }

  /** A link past the end of the table: cluster 2 is freed before the error. */
  lemma FreePastEnd()
    ensures var t := [End, End, Next(100)];
            FreeWalk(t, 2) == ([End, End, Free], Err(EINVAL)) && CountFree([End, End, Free]) == CountFree(t) + 1
  {
    var t := [End, End, Next(100)];
    FreeingEnds(t, 2);
    CountFreed(t, 2);
    assert t[2 := Free] == [End, End, Free];
  }

  /** A link to a reserved cluster: two clusters are reported, and one can be allocated. */
  lemma FreeReserved()
    ensures var t := [End, End, Next(1)];
            FreeWalk(t, 2) == ([End, Free, Free], Ok(2)) && CountFree([End, Free, Free]) == CountFree(t) + 1
  {
    var t := [End, End, Next(1)];
    FreeingEnds(t, 2);
    CountFreed(t, 2);
    CountFreed(t[2 := Free], 1);
    assert t[2 := Free] == [End, End, Free] && [End, End, Free][1 := Free] == [End, Free, Free];
    assert FreeWalk(t[2 := Free], 1) == ([End, Free, Free], Ok(1));
  }

  /** A free cluster is reported again. */
  lemma FreeTwice()
    ensures var t := [End, End, Free]; FreeWalk(t, 2) == (t, Ok(1))
  {
    var t := [End, End, Free];
    assert t[2 := Free] == t;
  }

  /** Freeing the first cluster leaves the rest of a chain a chain. */
  lemma ChainRest(t: Table, s: seq<nat>)
    requires IsChain(t, s) && |s| > 1
    ensures t[s[0]] == Next(s[1]) && IsChain(t[s[0] := Free], s[1..]) && s[0] !in s[1..]
  {
    ChainTail(t, s, 1);
    forall i | 0 <= i < |s| - 1 ensures s[1..][i] != s[0] {
      ChainDistinct(t, s, 0, i + 1);
    }
    ChainFrame(t, t[s[0] := Free], s[1..]);
  }

  /** A chain is freed as a whole, and nothing else. */
  lemma {:induction false} FreeWalkChain(t: Table, s: seq<nat>)
    requires IsChain(t, s)
    ensures FreeWalk(t, s[0]).1 == Ok(|s|)
    ensures forall i :: 0 <= i < |t| ==> FreeWalk(t, s[0]).0[i] == if i in s then Free else t[i]
    decreases |s|
  {
    hide FreeWalk, IsChain;
    ChainFirst(t, s);
    var c := s[0];
    WalkStep(t, c);
    if |s| > 1 {
      ChainRest(t, s);
      FreeWalkChain(t[c := Free], s[1..]);
      assert s[1..][0] == s[1] && s == [c] + s[1..];
    } else {
      assert s == [c];
    }
  }

  lemma ChainFirst(t: Table, s: seq<nat>)
    requires IsChain(t, s)
    ensures s != [] && s[0] < |t| && (|s| == 1 ==> !t[s[0]].Next?)
  {
  }

  /** For a chain, the walk ends free if its last cluster is free, and stays inside if the chain does. */
  lemma {:induction false} ChainEnds(t: Table, s: seq<nat>)
    requires IsChain(t, s)
    ensures EndsFree(t, s[0]) == t[s[|s| - 1]].Free?
    ensures (forall i :: 0 <= i < |s| ==> RESERVED <= s[i]) ==> WalkInside(t, s[0])
    decreases |s|
  {
    hide Count;
    if |s| > 1 {
      ChainRest(t, s);
      FreeingEnds(t, s[0]);
      ChainEnds(t[s[0] := Free], s[1..]);
    }
  }

  // ---- Runs of consecutive clusters in a chain ----

  /** The index of the last cluster of the run of consecutive clusters that starts at `i`. */
  function RunEnd(s: seq<nat>, i: nat): (j: nat)
    requires i < |s|
    ensures i <= j < |s| && (forall k :: i <= k <= j ==> s[k] == s[i] + (k - i))
    ensures j + 1 < |s| ==> s[j + 1] != s[j] + 1
    decreases |s| - i
  {
    if i + 1 < |s| && s[i + 1] == s[i] + 1 then RunEnd(s, i + 1) else i
  }

  // ---- The table ----

  class Fat {
    /** The entries on the device, with the two reserved ones.  A volume has at most 0x0FFFFFF5
        clusters. */
    var raw: seq<nat>

    ghost predicate Valid()
      reads this
    {
      RESERVED <= |raw| <= BAD && forall i :: 0 <= i < |raw| ==> raw[i] < WORD
    }

    ghost function T(): Table
      reads this
    {
      Load(raw)
    }

    constructor (raw: seq<nat>)
      ensures this.raw == raw
    {
      this.raw := raw;
    }

    /** table.rs:145-155, 229-233 */
    method Get(c: nat) returns (r: Result<Entry, Error>)
      requires Valid()
      ensures r == if c < |T()| then Ok(T()[c]) else Err(EINVAL)
    {
      r := if c >= |raw| then Err(EINVAL) else Ok(FromRaw(raw[c], c));
    }

    /** table.rs:235-249; the mirrors are written alike. */
    method Set(c: nat, e: Entry) returns (r: Result<(), Error>)
      requires Valid() && (e.Next? ==> 0 < e.n < BAD)
      modifies this
      ensures Valid() && r == if c < |old(T())| then Ok(()) else Err(EINVAL)
      ensures T() == if c < |old(T())| then old(T())[c := e] else old(T())
    {
      if c >= |raw| {
        return Err(EINVAL);
      }
      StoreThenLoad(e, c, raw[c]);
      raw := raw[c := IntoRaw(e, High(raw[c]))];
      r := Ok(());
    }

    /** Looks for free clusters in one batch `[start, end)` (table.rs:277-293). */
    method FindInBatch(start: nat, end: nat, num: nat) returns (found: Option<nat>, count: nat)
      requires Valid() && start <= end <= |raw| && end - start <= num
      ensures found == None <==> count == 0
      ensures found == None ==> forall i :: start <= i < end ==> !T()[i].Free?
      ensures found.Some? ==>
                && start <= found.value && found.value + count <= end
                && (forall i :: start <= i < found.value ==> !T()[i].Free?)
                && (forall i :: found.value <= i < found.value + count ==> T()[i].Free?)
                && (found.value + count == end || !T()[found.value + count].Free?)
    {
      found, count := None, 0;
      var c := start;
      while c < end
        invariant start <= c <= end && count <= c - start
        invariant found == None <==> count == 0
        invariant found.Some? ==> start <= found.value && found.value + count == c
        invariant forall i :: start <= i < (if found.Some? then found.value else c) ==> !T()[i].Free?
        invariant found.Some? ==> forall i :: found.value <= i < c ==> T()[i].Free?
      {
        if FromRaw(raw[c], c).Free? {
          if count >= num {
            return;
          } else if count == 0 {
            found := Some(c);
          }
          count := count + 1;
        } else if found.Some? {
          return;
        }
        c := c + 1;
      }
    }

    /** Looks for free clusters in `[from, limit)`, in batches of `batch` (table.rs:251-299). */
    method FindFree(from: nat, limit: nat, num: nat, batch: nat) returns (r: Result<nat, Error>, n: nat)
      requires Valid() && 1 <= batch <= num && RESERVED <= from && limit <= |raw|
      ensures match SearchIn(T(), from, limit, batch)
              case Some(run) => r == Ok(run.0) && n == run.1
              case None => r == Err(ENOSPC) && n == num
    {
      hide SearchIn;
      n := num;
      var start := from;
      ghost var k := 0;
      while start < limit
        invariant from <= start && n == num && start == from + k * batch && 0 <= k
        invariant forall i :: from <= i < start && i < limit ==> !T()[i].Free?
        decreases limit - start
      {
        var len := Min(batch, limit - start);
        var found, count := FindInBatch(start, start + len, num);
        if found.Some? {
          SearchIs(T(), from, limit, batch, k, found.value, count);
          return Ok(found.value), count;
        }
        start := start + batch;
        k := k + 1;
      }
      SearchMeans(T(), from, limit, batch);
      r := Err(ENOSPC);
    }

    /** Links up the run `[c, c + n)` (table.rs:326-334). */
    method LinkRun(c: nat, n: nat)
      requires Valid() && c + n <= |raw| && n > 0 && RunStorable(c, n)
      modifies this
      ensures Valid() && T() == Linked(old(T()), c, n)
    {
      var i := 0;
      while i < n - 1
        invariant 0 <= i < n && Valid() && |raw| == |old(raw)|
        invariant forall j :: 0 <= j < |raw| ==> T()[j] == if c <= j < c + i then Next(j + 1) else old(T())[j]
      {
        var _ := Set(c + i, Next(c + i + 1));
        i := i + 1;
      }
      var _ := Set(c + n - 1, End);
    }

    /** table.rs:307-336.  Only clusters from the hint on are searched: the range of the second
        search is empty, since a missing lower bound is taken to be the end of the table. */
    method Allocate(prev: Option<nat>, hint: Option<nat>, num: nat) returns (r: Result<nat, Error>, n: nat)
      requires Valid() && num >= 1
      modifies this
      ensures Valid()
      ensures match Pick(old(T()), hint, num)
              case None => r == Err(ENOSPC) && n == num && T() == old(T())
              case Some(run) =>
                && n == run.1 && FreeRun(old(T()), run.0, n) && n > 0
                && if prev.Some? && prev.value >= |old(T())| then r == Err(EINVAL) && T() == old(T())
                   else r == Ok(run.0) && T() == Allocated(old(T()), prev, run.0, n)
    {
      hide SearchIn;
      PickMeans(T(), hint, num);
      var from := Max(hint.GetOr(RESERVED), RESERVED);
      var batch := Min(ALLOCATE_BATCH_LEN, num);
      r, n := FindFree(from, |raw|, num, batch);
      if r.Err? {
        var top := |raw|;
        SearchMeans(T(), top, Min(hint.GetOr(RESERVED), |raw|), batch);
        r, n := FindFree(top, Min(hint.GetOr(RESERVED), |raw|), num, batch);
        return;
      }
      RunNotSpecial(raw, r.value, n);
      if prev.Some? {
        var done := Set(prev.value, Next(r.value));
        if done.Err? {
          return Err(done.error), n;
        }
      }
      LinkRun(r.value, n);
    }

    /** table.rs:338-343, 370-380, 407-414 */
    method FreeChain(start: nat) returns (r: Result<nat, Error>)
      requires Valid()
      modifies this
      ensures Valid() && T() == FreeWalk(old(T()), start).0 && r == FreeWalk(old(T()), start).1
    {
      hide FreeWalk, Count;
      var c: nat, freed: nat := start, 0;
      while true
        invariant Valid() && |raw| == |old(raw)|
        invariant FreeWalk(T(), c).0 == FreeWalk(old(T()), start).0
        invariant FreeWalk(old(T()), start).1 == Plus(FreeWalk(T(), c).1, freed)
        decreases Count(T(), IsNext())
      {
        ghost var t := T();
        WalkStep(t, c);
        var e := Get(c);
        var done := Set(c, Free);
        if done.Err? {
          return Err(done.error);
        }
        freed := freed + 1;
        match e.value {
          case Next(n) =>
            FreeingEnds(t, c);
            c := n;
          case _ =>
            return Ok(freed);
        }
      }
    }

    /** table.rs:416-422: the chain is cut before it is followed, so that there is nothing left to
        free. */
    method Truncate(start: nat) returns (r: Result<nat, Error>)
      requires Valid()
      modifies this
      ensures Valid() && r == if start < |old(T())| then Ok(0) else Err(EINVAL)
      ensures T() == if start < |old(T())| then old(T())[start := End] else old(T())
    {
      var done := Set(start, End);
      if done.Err? {
        return Err(done.error);
      }
      var e := Get(start);
      assert e == Ok(End);   // so there is no cluster to go on freeing from
      r := Ok(0);
    }

    /** table.rs:370-380 */
    method ClusterChain(start: nat, ghost s: seq<nat>) returns (r: seq<nat>)
      requires Valid() && IsChain(T(), s) && s[0] == start
      ensures r == s
    {
      r := [start];
      while FromRaw(raw[r[|r| - 1]], r[|r| - 1]).Next?
        invariant 0 < |r| <= |s| && r == s[..|r|]
        invariant |r| < |s| ==> T()[s[|r| - 1]] == Next(s[|r|])
        decreases |s| - |r|
      {
        r := r + [FromRaw(raw[r[|r| - 1]], r[|r| - 1]).n];
      }
    }

    /** One batch: the links of consecutive clusters from `start` on, as far as they are the chain
        (table.rs:345-368). */
    method RangedNext(start: nat, ghost s: seq<nat>) returns (r: seq<nat>)
      requires Valid() && IsChain(T(), s) && s[0] == start
      ensures |r| < |s| && r == s[1..|r| + 1] && (|s| > 1 ==> r != [])
    {
      r := [];
      var last := Next(start);
      var c := start;
      while c < Min(start + BATCH_LEN, |raw|)
        invariant c == start + |r| && |r| < |s| && r == s[1..|r| + 1] && last == Next(s[|r|])
      {
        if last.n != c {
          return;
        }
        var e := FromRaw(raw[c], c);
        assert |r| + 1 < |s| ==> T()[s[|r|]] == Next(s[|r| + 1]);
        if !e.Next? {
          return;
        }
        r := r + [e.n];
        last := e;
        c := c + 1;
      }
    }

    /** table.rs:382-405 */
    method AllClusters(start: nat, ghost s: seq<nat>) returns (r: seq<(nat, nat)>)
      requires Valid() && IsChain(T(), s) && s[0] == start
      ensures |r| == |s| && forall i :: 0 <= i < |s| ==> r[i] == (s[i], s[RunEnd(s, i)])
    {
      r := [(start, start)];
      var cur := start;
      while true
        invariant 0 < |r| <= |s| && cur == s[|r| - 1] && forall i :: 0 <= i < |r| ==> r[i] == (s[i], s[i])
        decreases |s| - |r|
      {
        ChainTail(T(), s, |r| - 1);
        var more := RangedNext(cur, s[|r| - 1..]);
        if more == [] {
          break;
        }
        r := r + seq(|more|, i requires 0 <= i < |more| => (more[i], more[i]));
        cur := r[|r| - 1].0;
      }
      hide IsChain;
      r := MarkRuns(r, s);
    }

    /** Gives every cluster the last one of its run (table.rs:395-403). */
    method MarkRuns(pairs: seq<(nat, nat)>, ghost s: seq<nat>) returns (r: seq<(nat, nat)>)
      requires |pairs| == |s| && forall i :: 0 <= i < |s| ==> pairs[i] == (s[i], s[i])
      ensures |r| == |s| && forall i :: 0 <= i < |s| ==> r[i] == (s[i], s[RunEnd(s, i)])
    {
      r := pairs;
      var i := |r|;
      while i > 0
        invariant 0 <= i <= |r| == |s|
        invariant forall k :: 0 <= k < i ==> r[k] == (s[k], s[k])
        invariant forall k :: i <= k < |s| ==> r[k] == (s[k], s[RunEnd(s, k)])
      {
        i := i - 1;
        if i + 1 < |r| && r[i].0 + 1 == r[i + 1].0 {
          r := r[i := (r[i].0, r[i + 1].1)];
        }
      }
    }
  }

  // ---- The file system's count of free clusters ----

  class FileSystem {
    const fat: Fat
    /** Missing when the volume does not record it. */
    var freeCount: Option<nat>
    var nextFree: Option<nat>

    constructor (fat: Fat, freeCount: Option<nat>, nextFree: Option<nat>)
      ensures this.fat == fat && this.freeCount == freeCount && this.nextFree == nextFree
    {
      this.fat, this.freeCount, this.nextFree := fat, freeCount, nextFree;
    }

    ghost predicate Valid()
      reads this, fat
    {
      fat.Valid()
    }

    /** The recorded number of free clusters is right, if there is one. */
    ghost predicate Counted()
      reads this, fat
      requires Valid()
    {
      freeCount.Some? ==> freeCount.value == CountFree(fat.T())
    }

    /** fs.rs:98-120 */
    method AllocCluster(prev: Option<nat>, num: nat) returns (r: Result<nat, Error>, n: nat)
      requires Valid() && Counted() && num >= 1
      modifies this, fat
      ensures Valid() && freeCount.Some? == old(freeCount.Some?)
      ensures match Pick(old(fat.T()), old(nextFree), num)
              case None =>
                r == Err(ENOSPC) && n == num && fat.T() == old(fat.T()) && nextFree == old(nextFree) && Counted()
              case Some(run) =>
                && n == run.1 && FreeRun(old(fat.T()), run.0, n) && n > 0
                && if prev.Some? && prev.value >= |old(fat.T())|
                   then r == Err(EINVAL) && fat.T() == old(fat.T()) && nextFree == old(nextFree) && Counted()
                   else && r == Ok(run.0) && nextFree == Some(run.0 + n)
                        && fat.T() == Allocated(old(fat.T()), prev, run.0, n)
                        && (freeCount.Some? ==> (Counted() <==> !CountsPrev(old(fat.T()), prev, run.0, n)))
    {
      hide Pick, CountFree, Allocated, CountsPrev;
      r, n := fat.Allocate(prev, nextFree, num);
      if r.Ok? {
        AllocatedCount(old(fat.T()), prev, r.value, n);
        nextFree := Some(r.value + n);
        if freeCount.Some? {
          freeCount := Some(freeCount.value - n);
        }
      }
    }

    /** fs.rs:143-150 */
    method FreeClusterChain(start: nat) returns (r: Result<(), Error>)
      requires Valid() && Counted()
      modifies this, fat
      ensures Valid() && freeCount.Some? == old(freeCount.Some?) && nextFree == old(nextFree)
      ensures fat.T() == FreeWalk(old(fat.T()), start).0
      ensures r == if FreeWalk(old(fat.T()), start).1.Ok? then Ok(()) else Err(EINVAL)
      ensures freeCount.Some? && r.Ok? ==>
                (Counted() <==> WalkInside(old(fat.T()), start) && !EndsFree(old(fat.T()), start))
      ensures freeCount.Some? && r.Err? ==> (Counted() <==> !PassesAllocable(old(fat.T()), start))
    {
      hide FreeWalk, CountFree, WalkInside, EndsFree, PassesAllocable;
      FreeWalkCount(fat.T(), start);
      FreeWalkError(fat.T(), start);
      var freed := fat.FreeChain(start);
      if freed.Err? {
        return Err(freed.error);
      }
      if freeCount.Some? {
        freeCount := Some(freeCount.value + freed.value);
      }
      r := Ok(());
    }

    /** fs.rs:134-141 */
    method TruncateClusterChain(start: nat) returns (r: Result<(), Error>)
      requires Valid() && Counted()
      modifies this, fat
      ensures Valid() && freeCount == old(freeCount) && nextFree == old(nextFree)
      ensures r == if start < |old(fat.T())| then Ok(()) else Err(EINVAL)
      ensures r.Ok? ==> fat.T() == old(fat.T())[start := End]
      ensures r.Ok? && freeCount.Some? ==> (Counted() <==> start < RESERVED || !old(fat.T())[start].Free?)
      ensures r.Err? ==> fat.T() == old(fat.T()) && Counted()
    {
      var freed := fat.Truncate(start);
      if freed.Err? {
        return Err(freed.error);
      }
      if start < RESERVED {
        CountFreeReserved(old(fat.T()), start, End);
      } else {
        CountFreeUpdate(old(fat.T()), start, End);
      }
      if freeCount.Some? {
        freeCount := Some(freeCount.value + freed.value);
      }
      r := Ok(());
    }
  }

  // ---- Operations that spoil the count ----

  /** A word that ends a chain. */
  const END_WORD := 0x0FFF_FFFF

  lemma CountFreeNone(t: Table)
    requires |t| >= RESERVED && forall i :: RESERVED <= i < |t| ==> !t[i].Free?
    ensures CountFree(t) == 0
  {
    CountNone(t[RESERVED..], IsFree());
  }

  /** Freeing cluster 2 spoils the count if the cluster is free, links the reserved cluster 1, or links
      a cluster past the end of the table. */
  method FreeSpoils(word: nat) returns (fs: FileSystem, r: Result<(), Error>)
    requires word in {0, 1, 100}
    ensures fresh(fs) && fs.Valid() && !fs.Counted() && (r.Err? <==> word == 100)
  {
    hide FreeWalk, CountFree, WalkInside, EndsFree, PassesAllocable, Count;
    var fat := new Fat([END_WORD, END_WORD, word]);
    var free := if word == 0 then 1 else 0;
    fs := new FileSystem(fat, Some(free), None);
    ghost var t := fat.T();
    SmallTable(word);
    FreeWalkCount(t, 2);
    r := fs.FreeClusterChain(2);
  }

  lemma SmallTable(word: nat)
    requires word in {0, 1, 100}
    ensures var t := Load([END_WORD, END_WORD, word]);
            && CountFree(t) == (if word == 0 then 1 else 0)
            && (FreeWalk(t, 2).1.Err? <==> word == 100)
            && (word == 100 ==> PassesAllocable(t, 2)) && (word != 100 ==> !WalkInside(t, 2) || EndsFree(t, 2))
  {
    var t := Load([END_WORD, END_WORD, word]);
    assert t == [End, End, if word == 0 then Free else Next(word)];
    var full := [End, End, End];
    CountFreeNone(full);
    CountFreeUpdate(full, 2, t[2]);
    assert full[2 := t[2]] == t;
    if word != 0 {
      FreeingEnds(t, 2);
    }
    FreePastEnd();
    FreeReserved();
    FreeTwice();
  }

  /** Cluster 3 is the run that is picked, and cluster 4, which it is to follow, is free. */
  lemma ExtendTable()
    ensures var t := Load([END_WORD, END_WORD, END_WORD, 0, 0]);
            && Pick(t, None, 1) == Some((3, 1)) && |t| == 5 && CountsPrev(t, Some(4), 3, 1) && CountFree(t) == 2
  {
    var t := Load([END_WORD, END_WORD, END_WORD, 0, 0]);
    assert t == [End, End, End, Free, Free];
    assert FirstFree(t, 4, 5) == Some(4) && FirstFree(t, 3, 5) == Some(3);
    assert BatchEnd(2, 1, 5, 3) == 4;
    assert FreeLength(t, 4, 4) == 0;
    assert Run(3, 1) == [3];
    var full := [End, End, End, End, End];
    CountFreeNone(full);
    CountFreeUpdate(full, 3, Free);
    CountFreeUpdate(full[3 := Free], 4, Free);
    assert full[3 := Free][4 := Free] == t;
  }

  /** Extending a free cluster spoils the count. */
  method ExtendFree() returns (fs: FileSystem)
    ensures fresh(fs) && fs.Valid() && !fs.Counted()
  {
    hide Pick, CountsPrev, CountFree, Allocated;
    var fat := new Fat([END_WORD, END_WORD, END_WORD, 0, 0]);
    fs := new FileSystem(fat, Some(2), None);
    ExtendTable();
    var _, _ := fs.AllocCluster(Some(4), 1);
  }

  /** Truncating a free cluster spoils the count. */
  method TruncateFree() returns (fs: FileSystem)
    ensures fresh(fs) && fs.Valid() && !fs.Counted()
  {
    hide CountFree;
    var fat := new Fat([END_WORD, END_WORD, 0]);
    fs := new FileSystem(fat, Some(1), None);
    SmallTable(0);
    var _ := fs.TruncateClusterChain(2);
  }

  /** Truncation frees nothing: the clusters after the cut keep their entries, as a chain that no
      longer belongs to any file. */
  lemma TruncateLeaks(t: Table, s: seq<nat>, k: nat)
    requires IsChain(t, s) && k + 1 < |s|
    ensures IsChain(t[s[k] := End], s[..k + 1]) && IsChain(t[s[k] := End], s[k + 1..])
  {
    var t' := t[s[k] := End];
    forall i | 0 <= i < |s| && i != k ensures s[i] != s[k] {
      if i < k {
        ChainDistinct(t, s, i, k);
      } else {
        ChainDistinct(t, s, k, i);
      }
    }
    ChainTail(t, s, k + 1);
    ChainFrame(t, t', s[k + 1..]);
    assert s[..k + 1][k] == s[k];
  }

  function Plus(r: Result<nat, Error>, n: nat): Result<nat, Error> { if r.Ok? then Ok(r.value + n) else r }

  lemma WalkStep(t: Table, c: nat)
    ensures c >= |t| ==> FreeWalk(t, c) == (t, Err(EINVAL))
    ensures c < |t| && t[c].Next? ==>
              FreeWalk(t, c).0 == FreeWalk(t[c := Free], t[c].n).0
                && FreeWalk(t, c).1 == Plus(FreeWalk(t[c := Free], t[c].n).1, 1)
    ensures c < |t| && !t[c].Next? ==> FreeWalk(t, c) == (t[c := Free], Ok(1))
  {
  }

  lemma {:induction false} FreeWalkError(t: Table, c: nat)
    ensures FreeWalk(t, c).1.Ok? || FreeWalk(t, c).1 == Err(EINVAL)
    decreases Count(t, IsNext())
  {
    if c < |t| && t[c].Next? {
      FreeingEnds(t, c);
      FreeWalkError(t[c := Free], t[c].n);
    }
  }

  /** What the search has found when it comes to the end of a run of free clusters, or of batch `k`. */
  lemma SearchIs(t: Table, from: nat, limit: nat, batch: nat, k: nat, c: nat, n: nat)
    requires batch > 0 && limit <= |t| && from + k * batch <= c < limit && 0 < n
    requires forall i :: from <= i < c ==> !t[i].Free?
    requires c + n <= Min(from + k * batch + batch, limit) && forall i :: c <= i < c + n ==> t[i].Free?
    requires c + n == Min(from + k * batch + batch, limit) || !t[c + n].Free?
    ensures SearchIn(t, from, limit, batch) == Some((c, n))
  {
    hide FirstFree, FreeLength;
    var first := FirstFree(t, from, limit);
    assert t[c].Free? && first == Some(c);
    DivisionUnique(c - from, batch, k, c - from - k * batch);
    assert (k + 1) * batch == k * batch + batch;
    var end := BatchEnd(from, batch, limit, c);
    var len := FreeLength(t, c, end);
    assert c + len <= end && c + n <= end;
  }

  predicate RunStorable(c: nat, n: nat) { 0 < c && c + n <= BAD }

  lemma RunNotSpecial(raw: seq<nat>, c: nat, n: nat)
    requires |raw| <= BAD && FreeRun(Load(raw), c, n) && n > 0
    ensures RunStorable(c, n)
  {
    assert Load(raw)[c + n - 1].Free?;
  }
}
