/** Which handles can affect which: two handles on different sides of a copy-on-write branch
    never see each other's writes, and no operation undoes such a fork. */
module PhysForks {
  import opened Common
  import opened PhysTree
  import opened PhysViews
  import opened PhysClone

  // ---- Ancestors ----

  predicate Under(s: State, n: Id, a: Id)
    requires Linked(s) && n in s.nodes
    decreases s.nodes[n].rank
  {
    || n == a
    || (s.nodes[n].parent.Window? && assert LinkOk(s, n); Under(s, s.nodes[n].parent.id, a))
  }

  lemma {:induction false} UnderRank(s: State, n: Id, a: Id)
    requires Linked(s) && n in s.nodes && Under(s, n, a)
    ensures a in s.nodes && s.nodes[a].rank <= s.nodes[n].rank && (n != a ==> s.nodes[a].rank < s.nodes[n].rank)
    decreases s.nodes[n].rank
  {
    if n != a {
      assert LinkOk(s, n);
      UnderRank(s, s.nodes[n].parent.id, a);
    }
  }

  lemma {:induction false} UnderTrans(s: State, n: Id, a: Id, b: Id)
    requires Linked(s) && n in s.nodes && Under(s, n, a) && a in s.nodes && Under(s, a, b)
    ensures Under(s, n, b)
    decreases s.nodes[n].rank
  {
    if n != a {
      assert LinkOk(s, n);
      UnderTrans(s, s.nodes[n].parent.id, a, b);
    }
  }

  /** The ancestors of a node form a chain. */
  lemma {:induction false} UnderChain(s: State, n: Id, a: Id, b: Id)
    requires Linked(s) && n in s.nodes && Under(s, n, a) && Under(s, n, b)
    ensures a in s.nodes && b in s.nodes && (Under(s, a, b) || Under(s, b, a))
    decreases s.nodes[n].rank
  {
    UnderRank(s, n, a);
    UnderRank(s, n, b);
    if n != a && n != b {
      assert LinkOk(s, n);
      UnderChain(s, s.nodes[n].parent.id, a, b);
    }
  }

  lemma {:induction false} PassesUnder(s: State, n: Id, i: nat, z: Id, y: nat)
    requires Linked(s) && n in s.nodes && Passes(s, n, i, z, y)
    ensures Under(s, n, z)
    decreases s.nodes[n].rank
  {
    if n != z || i != y {
      assert LinkOk(s, n);
      PassesUnder(s, Up(s, n, i).value.0, Up(s, n, i).value.1, z, y);
    }
  }

  // ---- Forks and writes ----

  predicate ForkAt(s: State, h: Id, c: Id, b: Id, c1: Id, c2: Id)
    requires Linked(s)
  {
    && h in s.nodes && c in s.nodes && b in s.nodes && s.nodes[b].cow
    && c1 != c2 && IsChild(s, c1, b) && IsChild(s, c2, b) && Under(s, h, c1) && Under(s, c, c2)
  }

  /** `h` and `c` are on different sides of a copy-on-write branch. */
  ghost predicate CowFork(s: State, h: Id, c: Id)
    requires Linked(s)
  {
    exists b, c1, c2 :: ForkAt(s, h, c, b, c1, c2)
  }

  /** The lookup of page `i` of `n` visits `(z, y)`, and no node up to there copies on write. */
  predicate PlainTrail(s: State, n: Id, i: nat, z: Id, y: nat)
    requires Linked(s) && n in s.nodes
    decreases s.nodes[n].rank
  {
    && !s.nodes[n].cow
    && (|| (n == z && i == y)
        || (i !in s.nodes[n].frames
            && assert LinkOk(s, n);
               match Up(s, n, i)
               case None => false
               case Some(next) => PlainTrail(s, next.0, next.1, z, y)))
  }

  lemma {:induction false} PlainPasses(s: State, n: Id, i: nat, z: Id, y: nat)
    requires Linked(s) && n in s.nodes && PlainTrail(s, n, i, z, y)
    ensures Passes(s, n, i, z, y)
    decreases s.nodes[n].rank
  {
    if n != z || i != y {
      assert LinkOk(s, n);
      PlainPasses(s, Up(s, n, i).value.0, Up(s, n, i).value.1, z, y);
    }
  }

  lemma {:induction false} PlainUnder(s: State, n: Id, i: nat, z: Id, y: nat, a: Id)
    requires Linked(s) && n in s.nodes && PlainTrail(s, n, i, z, y) && Under(s, n, a) && a in s.nodes && Under(s, a, z)
    ensures !s.nodes[a].cow
    decreases s.nodes[n].rank
  {
    if n != a {
      assert LinkOk(s, n);
      UnderRank(s, n, a);
      UnderRank(s, a, z);
      PlainUnder(s, Up(s, n, i).value.0, Up(s, n, i).value.1, z, y, a);
    }
  }

  /** Where a write through page `i` of handle `h` may go: to its own slot, or to a slot that is
      shared with it without copy-on-write in between. */
  predicate MayWrite(s: State, h: Id, i: nat, z: Id, y: nat)
    requires Linked(s) && h in s.nodes
  {
    (z == h && y == i) || PlainTrail(s, h, i, z, y)
  }

  /** Such a slot is not above the other side of a fork. */
  lemma ForkSeparates(s: State, h: Id, c: Id, b: Id, c1: Id, c2: Id, i: nat, z: Id, y: nat)
    requires Linked(s) && ForkAt(s, h, c, b, c1, c2) && PlainTrail(s, h, i, z, y)
    ensures !Under(s, c, z)
  {
    if Under(s, c, z) {
      assert LinkOk(s, c1) && LinkOk(s, c2);
      PlainPasses(s, h, i, z, y);
      PassesUnder(s, h, i, z, y);
      UnderChain(s, h, c1, z);
      if Under(s, b, z) {
        UnderTrans(s, h, c1, b);
        PlainUnder(s, h, i, z, y, b);
      } else {
        assert Under(s, z, c1);
        UnderChain(s, c, c2, z);
        assert Under(s, z, c2);
        UnderChain(s, z, c1, c2);
        if Under(s, c1, c2) {
          UnderRank(s, b, c2);
        } else {
          UnderRank(s, b, c1);
        }
      }
    }
  }

  /** A write through a copy-on-write handle is seen by no other handle; a write through any
      handle is not seen across a fork. */
  lemma WriteIsolated(s: State, h: Id, i: nat, z: Id, y: nat, c: Id, j: nat)
    requires Linked(s) && IsLeaf(s, h) && IsLeaf(s, c) && c != h && MayWrite(s, h, i, z, y)
    requires s.nodes[h].cow || CowFork(s, h, c)
    ensures Find(s, c, j) != At(z, y)
  {
    if Find(s, c, j) == At(z, y) {
      FindPasses(s, c, j);
      if z == h {
        NotAncestor(s, c, j, h, y);
      } else {
        PassesUnder(s, c, j, z, y);
        var b, c1, c2 :| ForkAt(s, h, c, b, c1, c2);
        ForkSeparates(s, h, c, b, c1, c2, i, z, y);
      }
    }
  }

  // ---- Forks are kept ----

  /** Handles keep their mode, and forks between handles that are still there remain. */
  ghost predicate KeepsForks(s: State, s': State)
    requires Linked(s) && Linked(s')
  {
    && (forall h :: IsLeaf(s, h) && IsLeaf(s', h) ==> s'.nodes[h].cow == s.nodes[h].cow)
    && (forall h, c :: IsLeaf(s, h) && IsLeaf(s, c) && IsLeaf(s', h) && IsLeaf(s', c) && CowFork(s, h, c) ==>
      CowFork(s', h, c))
  }

  lemma {:induction false} SameLinksUnder(s: State, s': State, n: Id, a: Id)
    requires Linked(s) && Linked(s') && SameLinks(s, s') && n in s.nodes
    ensures Under(s', n, a) == Under(s, n, a)
    decreases s.nodes[n].rank
  {
    if s.nodes[n].parent.Window? {
      assert LinkOk(s, n);
      SameLinksUnder(s, s', s.nodes[n].parent.id, a);
    }
  }

  lemma SameLinksForks(s: State, s': State)
    requires Linked(s) && Linked(s') && SameLinks(s, s')
    ensures KeepsForks(s, s')
  {
    hide Under, Linked;
    forall h, c | IsLeaf(s, h) && IsLeaf(s, c) && CowFork(s, h, c) ensures CowFork(s', h, c) {
      var b, c1, c2 :| ForkAt(s, h, c, b, c1, c2);
      SameLinksUnder(s, s', h, c1);
      SameLinksUnder(s, s', c, c2);
      assert ForkAt(s', h, c, b, c1, c2);
    }
  }

  lemma {:induction false} MergeUnder(s: State, n: Id, x: Id, a: Id)
    requires Linked(s) && Sole(s, n) && Linked(Merge(s, n)) && x in s.nodes && x != s.nodes[n].parent.id
    requires Under(s, x, a)
    ensures Under(Merge(s, n), x, if a == s.nodes[n].parent.id then n else a)
    decreases s.nodes[x].rank
  {
    hide MergedFrames;
    var p := s.nodes[n].parent.id;
    assert LinkOk(s, x) && LinkOk(s, n) && LinkOk(s, p) && LinkOk(Merge(s, n), x);
    if x != a {
      var q := s.nodes[x].parent.id;
      if q == p {
        assert IsChild(s, x, p);
        if a != p {
          MergeUnder(s, n, s.nodes[p].parent.id, a);
        }
      } else {
        MergeUnder(s, n, q, a);
      }
    }
  }

  lemma MergeForks(s: State, n: Id)
    requires Linked(s) && Sole(s, n) && Linked(Merge(s, n))
    ensures KeepsForks(s, Merge(s, n))
  {
    hide MergedFrames, Under, Linked;
    var s' := Merge(s, n);
    var p := s.nodes[n].parent.id;
    assert s.nodes[p].branch && p != n by { LinkAt(s, n); }
    forall h, c | IsLeaf(s, h) && IsLeaf(s, c) && CowFork(s, h, c) ensures CowFork(s', h, c) {
      var b, c1, c2 :| ForkAt(s, h, c, b, c1, c2);
      MergeUnder(s, n, h, c1);
      MergeUnder(s, n, c, c2);
      assert ForkAt(s', h, c, b, if c1 == p then n else c1, if c2 == p then n else c2);
    }
  }

  /** Ancestors after a clone; the clone has those of the handle. */
  lemma {:induction false} CloneUnder(s: State, h: Id, b: Id, c: Id, cow: bool, offset: nat, count: Option<nat>, x: Id,
        a: Id)
    requires Linked(s) && Fresh(s, h, b, c) && Linked(CloneAs(s, h, b, c, cow, offset, count)) && x in s.nodes
    requires Under(s, x, a)
    ensures var s' := CloneAs(s, h, b, c, cow, offset, count); var a' := if a == h then b else a;
            && Under(s', x, a') && (x == h ==> Under(s', c, a'))
    decreases s.nodes[x].rank
  {
    var s' := CloneAs(s, h, b, c, cow, offset, count);
    assert LinkOk(s, x);
    if x != a {
      var q := s.nodes[x].parent.id;
      NotAParent(s, x, h);
      CloneUnder(s, h, b, c, cow, offset, count, q, a);
      assert x == h ==> Under(s', b, a);
    } else if x == h {
      assert Under(s', b, b);
    }
  }

  /** A clone forks from its origin when either copies on write, and from all that its origin was
      forked from. */
  lemma CloneForks(s: State, h: Id, b: Id, c: Id, cow: bool, offset: nat, count: Option<nat>)
    requires Linked(s) && Fresh(s, h, b, c) && Linked(CloneAs(s, h, b, c, cow, offset, count))
    ensures var s' := CloneAs(s, h, b, c, cow, offset, count);
            && KeepsForks(s, s')
            && (cow || s.nodes[h].cow ==> CowFork(s', h, c) && CowFork(s', c, h))
            && (forall x :: IsLeaf(s, x) && CowFork(s, h, x) ==> CowFork(s', c, x))
            && (forall x :: IsLeaf(s, x) && CowFork(s, x, h) ==> CowFork(s', x, c))
  {
    hide Linked;
    var s' := CloneAs(s, h, b, c, cow, offset, count);
    if cow || s.nodes[h].cow {
      assert ForkAt(s', h, c, b, h, c) && ForkAt(s', c, h, b, c, h);
    }
    forall x1, x2 | IsLeaf(s, x1) && IsLeaf(s, x2) && CowFork(s, x1, x2)
      ensures CowFork(s', x1, x2) && (x1 == h ==> CowFork(s', c, x2)) && (x2 == h ==> CowFork(s', x1, c))
    {
      CloneFork(s, h, b, c, cow, offset, count, x1, x2);
    }
  }

  lemma CloneFork(s: State, h: Id, b: Id, c: Id, cow: bool, offset: nat, count: Option<nat>, x1: Id, x2: Id)
    requires Linked(s) && Fresh(s, h, b, c) && Linked(CloneAs(s, h, b, c, cow, offset, count))
    requires IsLeaf(s, x1) && IsLeaf(s, x2) && CowFork(s, x1, x2)
    ensures var s' := CloneAs(s, h, b, c, cow, offset, count);
            CowFork(s', x1, x2) && (x1 == h ==> CowFork(s', c, x2)) && (x2 == h ==> CowFork(s', x1, c))
  {
    hide Linked, Under;
    var s' := CloneAs(s, h, b, c, cow, offset, count);
    var top, c1, c2 :| ForkAt(s, x1, x2, top, c1, c2);
    NotAParent(s, c1, h);
    CloneUnder(s, h, b, c, cow, offset, count, x1, c1);
    CloneUnder(s, h, b, c, cow, offset, count, x2, c2);
    var (d1, d2) := (if c1 == h then b else c1, if c2 == h then b else c2);
    assert ForkAt(s', x1, x2, top, d1, d2);
    assert x1 == h ==> ForkAt(s', c, x2, top, d1, d2);
    assert x2 == h ==> ForkAt(s', x1, c, top, d1, d2);
  }

  lemma {:induction false} RemoveUnder(s: State, n: Id, x: Id, a: Id)
    requires Linked(s) && Childless(s, n) && Linked(RemoveNode(s, n)) && x in s.nodes && x != n && Under(s, x, a)
    ensures a != n && Under(RemoveNode(s, n), x, a)
    decreases s.nodes[x].rank
  {
    assert LinkOk(s, x) && !IsChild(s, x, n);
    if x != a {
      RemoveUnder(s, n, s.nodes[x].parent.id, a);
    }
  }

  lemma RemoveForks(s: State, n: Id)
    requires Linked(s) && Childless(s, n) && Linked(RemoveNode(s, n))
    ensures KeepsForks(s, RemoveNode(s, n))
  {
    hide Linked, Under;
    var s' := RemoveNode(s, n);
    forall h, c | IsLeaf(s, h) && IsLeaf(s, c) && h != n && c != n && CowFork(s, h, c) ensures CowFork(s', h, c) {
      var b, c1, c2 :| ForkAt(s, h, c, b, c1, c2);
      RemoveUnder(s, n, h, c1);
      RemoveUnder(s, n, c, c2);
      assert ForkAt(s', h, c, b, c1, c2);
    }
  }
}
