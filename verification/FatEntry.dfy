/** The entries of a FAT32 table and the chains they link (afat32/src/table.rs). */
module FatEntry {
  import opened Sums

  const RESERVED := 2
  const LOW28 := 0x1000_0000
  const BAD := 0x0FFF_FFF7
  const WORD := 0x1_0000_0000

  datatype Error = EINVAL | ENOSPC

  datatype Entry = Free | Next(n: nat) | Bad | End

  /** Cluster numbers that double as entry values. */
  predicate Special(cluster: nat) { BAD <= cluster < LOW28 }

  /** table.rs:26-56 */
  function FromRaw(raw: nat, cluster: nat): Entry {
    var low := raw % LOW28;
    if low == 0 then if Special(cluster) then Bad else Free
    else if low == BAD then Bad
    else if low > BAD then End
    else if Special(cluster) then Bad
    else Next(low)
  }

  /** table.rs:58-80; `high` is the upper four bits of the word replaced. */
  function IntoRaw(e: Entry, high: nat): nat {
    high + match e
           case Free => 0
           case Bad => BAD
           case End => 0x0FFF_FFFF
           case Next(n) => n
  }

  /** The entries that can be stored for a cluster. */
  predicate Storable(e: Entry, cluster: nat) {
    match e
    case Free => !Special(cluster)
    case Next(n) => 0 < n < BAD && !Special(cluster)
    case _ => true
  }

  function High(raw: nat): nat { raw - raw % LOW28 }

  /** A stored entry reads back as itself, exactly when it is storable, and the upper four bits of
      the old word are kept. */
  lemma StoreThenLoad(e: Entry, cluster: nat, raw: nat)
    requires raw < WORD && (e.Next? ==> e.n < LOW28)
    ensures IntoRaw(e, High(raw)) < WORD && High(IntoRaw(e, High(raw))) == High(raw)
    ensures FromRaw(IntoRaw(e, High(raw)), cluster) == e <==> Storable(e, cluster)
  {
    var v := IntoRaw(e, 0);
    assert IntoRaw(e, High(raw)) == High(raw) + v;
    assert (High(raw) + v) % LOW28 == v;
  }

  // ---- Chains ----

  type Table = seq<Entry>

  /** `s` is the whole chain from `s[0]` on: each cluster is in the table and links the next, and
      the last links none. */
  predicate IsChain(t: Table, s: seq<nat>) {
    && |s| > 0 && (forall i :: 0 <= i < |s| ==> s[i] < |t|)
    && (forall i :: 0 <= i < |s| - 1 ==> t[s[i]] == Next(s[i + 1]))
    && !t[s[|s| - 1]].Next?
  }

  /** The tails of a chain are chains. */
  lemma ChainTail(t: Table, s: seq<nat>, k: nat)
    requires IsChain(t, s) && k < |s|
    ensures IsChain(t, s[k..])
  {
  }

  /** A chain is determined by its first cluster. */
  lemma {:induction false} ChainUnique(t: Table, s: seq<nat>, s': seq<nat>)
    requires IsChain(t, s) && IsChain(t, s') && s[0] == s'[0]
    ensures s == s'
    decreases |s|
  {
    assert |s| > 1 ==> t[s[0]] == Next(s[1]);
    assert |s'| > 1 ==> t[s'[0]] == Next(s'[1]);
    if |s| > 1 && |s'| > 1 {
      ChainTail(t, s, 1);
      ChainTail(t, s', 1);
      ChainUnique(t, s[1..], s'[1..]);
      assert s == [s[0]] + s[1..] && s' == [s'[0]] + s'[1..];
    }
  }

  /** No cluster occurs twice in a chain. */
  lemma ChainDistinct(t: Table, s: seq<nat>, i: nat, j: nat)
    requires IsChain(t, s) && i < j < |s|
    ensures s[i] != s[j]
  {
    assert |s[i..]| > |s[j..]|;
    if s[i] == s[j] {
      ChainTail(t, s, i);
      ChainTail(t, s, j);
      ChainUnique(t, s[i..], s[j..]);
    }
  }

  /** Chains that avoid the changed entries stay as they are. */
  lemma ChainFrame(t: Table, t': Table, s: seq<nat>)
    requires IsChain(t, s) && |t'| == |t| && forall i :: 0 <= i < |s| ==> t'[s[i]] == t[s[i]]
    ensures IsChain(t', s)
  {
  }

  /** Two chains with different ends share no cluster. */
  lemma ChainsDisjoint(t: Table, s: seq<nat>, s': seq<nat>, i: nat, j: nat)
    requires IsChain(t, s) && IsChain(t, s') && i < |s| && j < |s'| && s[|s| - 1] != s'[|s'| - 1]
    ensures s[i] != s'[j]
  {
    assert s[i..][|s| - i - 1] == s[|s| - 1] && s'[j..][|s'| - j - 1] == s'[|s'| - 1];
    if s[i] == s'[j] {
      ChainTail(t, s, i);
      ChainTail(t, s', j);
      ChainUnique(t, s[i..], s'[j..]);
    }
  }

  // ---- Free clusters ----

  function IsFree(): Entry -> bool { (e: Entry) => e.Free? }

  /** The number of free clusters (`count_free`, table.rs:301-305). */
  function CountFree(t: Table): nat
    requires |t| >= RESERVED
  {
    Count(t[RESERVED..], IsFree())
  }

  lemma CountFreeUpdate(t: Table, c: nat, e: Entry)
    requires RESERVED <= c < |t|
    ensures CountFree(t[c := e]) + (if t[c].Free? then 1 else 0) == CountFree(t) + (if e.Free? then 1 else 0)
  {
    assert t[c := e][RESERVED..] == t[RESERVED..][c - RESERVED := e];
    CountUpdate(t[RESERVED..], IsFree(), c - RESERVED, e);
  }

  lemma CountFreeReserved(t: Table, c: nat, e: Entry)
    requires c < RESERVED <= |t|
    ensures CountFree(t[c := e]) == CountFree(t)
  {
    assert t[c := e][RESERVED..] == t[RESERVED..];
  }
}
