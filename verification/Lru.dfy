/** The cache with least-recently-used eviction (kmem/src/lru.rs): a doubly linked list of nodes
    between two sentinels, and an index from keys to nodes. */
module Lru {
  import opened Common

  // ---- The recency sequence ----

  /** Every key once, the most recently used first. */
  predicate Distinct<K(==), V>(items: seq<(K, V)>) { forall i, j :: 0 <= i < j < |items| ==> items[i].0 != items[j].0 }

  function Without<T>(s: seq<T>, i: nat): seq<T>
    requires i < |s|
  {
    s[..i] + s[i + 1..]
  }

  /** The position of a key. */
  function Find<K(==), V>(items: seq<(K, V)>, k: K): (r: Option<nat>)
    ensures r.Some? ==> r.value < |items| && items[r.value].0 == k
    ensures r == None ==> forall i :: 0 <= i < |items| ==> items[i].0 != k
  {
    if items == [] then None
    else if items[|items| - 1].0 == k then Some(|items| - 1)
    else Find(items[..|items| - 1], k)
  }

  lemma FindIs<K, V>(items: seq<(K, V)>, i: nat)
    requires Distinct(items) && i < |items|
    ensures Find(items, items[i].0) == Some(i)
  {
    var r := Find(items, items[i].0);
    assert r.Some? && items[r.value].0 == items[i].0;
  }

  /** What `put` does (lru.rs:261-324): the pair comes first; if the key was there its old pair goes,
      otherwise, in a full cache, the last pair. */
  function Putted<K(==), V>(items: seq<(K, V)>, cap: nat, k: K, v: V): seq<(K, V)> {
    var i := Find(items, k);
    if i.Some? then [(k, v)] + Without(items, i.value)
    else if |items| == cap && items != [] then [(k, v)] + items[..|items| - 1]
    else [(k, v)] + items
  }

  function Promoted<K(==), V>(items: seq<(K, V)>, k: K): seq<(K, V)> {
    var i := Find(items, k);
    if i.Some? then [items[i.value]] + Without(items, i.value) else items
  }

  function Demoted<K(==), V>(items: seq<(K, V)>, k: K): seq<(K, V)> {
    var i := Find(items, k);
    if i.Some? then Without(items, i.value) + [items[i.value]] else items
  }

  function Popped<K(==), V>(items: seq<(K, V)>, k: K): seq<(K, V)> {
    var i := Find(items, k);
    if i.Some? then Without(items, i.value) else items
  }

  /** The value of a key. */
  function Value<K(==), V>(items: seq<(K, V)>, k: K): Option<V> {
    var i := Find(items, k);
    if i.Some? then Some(items[i.value].1) else None
  }

  lemma {:induction false} ValueIs<K, V>(items: seq<(K, V)>, k: K, i: nat)
    requires Distinct(items) && i < |items| && items[i].0 == k
    ensures Value(items, k) == Some(items[i].1)
  {
    FindIs(items, i);
  }

  /** After `put` the key is first, with its new value; every other key keeps its value, except the
      last one if the cache was full and the key new; and the sequence stays within its limits. */
  lemma PutMeans<K, V>(items: seq<(K, V)>, cap: nat, k: K, v: V, other: K)
    requires Distinct(items) && |items| <= cap && cap >= 1 && other != k
    ensures var after := Putted(items, cap, k, v);
            && Distinct(after) && |after| <= cap && after[0] == (k, v)
            && Value(after, other) ==
               if Find(items, k) == None && |items| == cap && items[|items| - 1].0 == other then None
                 else Value(items, other)
  {
    hide Find;
    var after := Putted(items, cap, k, v);
    PutDistinct(items, cap, k, v);
    var i, j := Find(items, other), Find(after, other);
    if j.Some? {
      var m := PutFrom(items, cap, k, v, j.value);
      ValueIs(after, other, j.value);
      ValueIs(items, other, m);
      if Find(items, k) == None && |items| == cap {
        assert m < |items| - 1;
      }
    } else if i.Some? && (Find(items, k) == None && |items| == cap ==> i.value < |items| - 1) {
      var to := PutTo(items, cap, k, v, i.value);
    }
  }

  lemma PutDistinct<K, V>(items: seq<(K, V)>, cap: nat, k: K, v: V)
    requires Distinct(items) && |items| <= cap && cap >= 1
    ensures var after := Putted(items, cap, k, v); Distinct(after) && |after| <= cap && after[0] == (k, v)
  {
    hide Find;
    var i := Find(items, k);
    if i.Some? {
      DistinctFirst(items, i.value, v);
    }
  }

  /** Where a pair after `put` was before. */
  lemma PutFrom<K, V>(items: seq<(K, V)>, cap: nat, k: K, v: V, j: nat) returns (m: nat)
    requires Distinct(items) && j < |Putted(items, cap, k, v)| && Putted(items, cap, k, v)[j].0 != k
    ensures m < |items| && items[m] == Putted(items, cap, k, v)[j]
    ensures Find(items, k) == None && |items| == cap ==> m < |items| - 1
  {
    hide Find;
    var i := Find(items, k);
    m := if i.Some? && i.value < j then j else j - 1;
  }

  /** Where it goes, unless it is evicted. */
  lemma PutTo<K, V>(items: seq<(K, V)>, cap: nat, k: K, v: V, m: nat) returns (j: nat)
    requires m < |items| && items[m].0 != k && (Find(items, k) == None && |items| == cap ==> m < |items| - 1)
    ensures j < |Putted(items, cap, k, v)| && Putted(items, cap, k, v)[j] == items[m]
  {
    hide Find;
    var i := Find(items, k);
    j := if i.Some? && i.value < m then m else m + 1;
  }

  // ---- The list ----

  class Node<K, V> {
    /** Missing in the sentinels. */
    var kv: Option<(K, V)>
    var prev: Node?<K, V>
    var next: Node?<K, V>

    constructor (kv: Option<(K, V)>)
      ensures this.kv == kv
    {
      this.kv, prev, next := kv, null, null;
    }
  }

  /** The nodes are different and linked both ways, in this order. */
  ghost predicate Linked<K, V>(c: seq<Node<K, V>>)
    reads c`next, c`prev
  {
    && (forall i, j :: 0 <= i < j < |c| ==> c[i] != c[j])
    && (forall i :: 0 <= i < |c| - 1 ==> c[i].next == c[i + 1])
    && (forall i :: 0 < i < |c| ==> c[i].prev == c[i - 1])
  }

  /** lru.rs:975-980 */
  method Detach<K, V>(node: Node<K, V>, ghost c: seq<Node<K, V>>, ghost i: nat,
                      ghost before: Node<K, V>, ghost after: Node<K, V>)
    requires Linked(c) && 0 < i < |c| - 1 && c[i] == node && c[i - 1] == before && c[i + 1] == after
    modifies before`next, after`prev
    ensures Linked(Without(c, i)) && node !in Without(c, i)
  {
    node.prev.next := node.next;
    node.next.prev := node.prev;
    ghost var d := Without(c, i);
    assert forall j :: 0 <= j < |d| ==> d[j] == if j < i then c[j] else c[j + 1];
  }

  /** lru.rs:983-990 */
  method Attach<K, V>(head: Node<K, V>, node: Node<K, V>, ghost c: seq<Node<K, V>>, ghost first: Node<K, V>)
    requires Linked(c) && |c| >= 2 && c[0] == head && c[1] == first && node !in c
    modifies node`next, node`prev, head`next, first`prev
    ensures Linked([head, node] + c[1..])
  {
    node.next := head.next;
    node.prev := head;
    head.next := node;
    node.next.prev := node;
    ghost var d := [head, node] + c[1..];
    assert forall j :: 0 <= j < |d| ==> d[j] == if j == 0 then c[0] else if j == 1 then node else c[j - 1];
  }

  /** lru.rs:993-1000 */
  method AttachLast<K, V>(tail: Node<K, V>, node: Node<K, V>, ghost c: seq<Node<K, V>>, ghost last: Node<K, V>)
    requires Linked(c) && |c| >= 2 && c[|c| - 1] == tail && c[|c| - 2] == last && node !in c
    modifies node`next, node`prev, last`next, tail`prev
    ensures Linked(c[..|c| - 1] + [node, tail])
  {
    node.next := tail;
    node.prev := tail.prev;
    tail.prev := node;
    node.prev.next := node;
    ghost var d := c[..|c| - 1] + [node, tail];
    assert forall j :: 0 <= j < |d| ==> d[j] == if j < |c| - 1 then c[j] else if j == |c| - 1 then node else tail;
  }

  // ---- The cache ----

  /** The index leads from the keys of the items to their nodes. */
  ghost predicate Keyed<K, V>(nodes: seq<Node<K, V>>, items: seq<(K, V)>, index: map<K, Node<K, V>>) {
    && |nodes| == |items| == |index|
    && (forall i :: 0 <= i < |nodes| ==> items[i].0 in index && index[items[i].0] == nodes[i])
    && (forall k :: k in index ==> exists i :: 0 <= i < |items| && items[i].0 == k)
  }

  /** The nodes hold the items. */
  ghost predicate Carry<K, V>(nodes: seq<Node<K, V>>, items: seq<(K, V)>)
    reads nodes`kv
  {
    |nodes| == |items| && forall i :: 0 <= i < |nodes| ==> nodes[i].kv == Some(items[i])
  }

  ghost predicate Indexed<K, V>(nodes: seq<Node<K, V>>, items: seq<(K, V)>, index: map<K, Node<K, V>>)
    reads nodes`kv
  {
    Keyed(nodes, items, index) && Carry(nodes, items)
  }

  class LruCache<K(==), V> {
    const head: Node<K, V>
    const tail: Node<K, V>
    var index: map<K, Node<K, V>>
    var cap: nat
    /** The nodes between the sentinels, and the recency sequence. */
    ghost var nodes: seq<Node<K, V>>
    ghost var items: seq<(K, V)>

    ghost function Chain(): seq<Node<K, V>>
      reads this
    {
      [head] + nodes + [tail]
    }

    ghost predicate Valid()
      reads this, head, tail, nodes
    {
      1 <= cap && |items| <= cap && Linked(Chain()) && Indexed(nodes, items, index) && Distinct(items)
    }

    /** lru.rs:186-205 */
    constructor (cap: nat)
      requires cap >= 1
      ensures Valid() && items == [] && this.cap == cap && fresh(head) && fresh(tail)
    {
      var h := new Node<K, V>(None);
      var t := new Node<K, V>(None);
      h.next := t;
      t.prev := h;
      head, tail, index, this.cap, nodes, items := h, t, map[], cap, [], [];
    }

    /** The node of a key, with its place. */
    method Lookup(k: K) returns (node: Option<Node<K, V>>, ghost i: nat)
      requires Valid()
      ensures node == None <==> Find(items, k) == None
      ensures node.Some? ==>
                && i < |items| && node.value == nodes[i] && items[i].0 == k && Find(items, k) == Some(i)
                && k in index && index[k] == nodes[i]
    {
      if k in index {
        node := Some(index[k]);
        i :| 0 <= i < |items| && items[i].0 == k;
        FindIs(items, i);
      } else {
        node := None;
        i := 0;
      }
    }

    /** Moves a node to the front. */
    method MoveFirst(node: Node<K, V>, ghost i: nat)
      requires Valid() && i < |nodes| && nodes[i] == node
      modifies this`nodes, this`items, head`next, tail`prev, nodes`next, nodes`prev
      ensures Valid() && items == [old(items)[i]] + Without(old(items), i)
      ensures nodes == [node] + Without(old(nodes), i)
    {
      hide Linked, Indexed, Distinct;
      ghost var c := Chain();
      Detach(node, c, i + 1, c[i], c[i + 2]);
      Around(head, nodes, tail, i, node);
      ghost var d := Without(c, i + 1);
      Attach(head, node, d, d[1]);
      MovedFirst(nodes, items, index, i);
      SameSize(nodes, items, index);
      DistinctFirst(items, i, items[i].1);
      nodes, items := [node] + Without(nodes, i), [items[i]] + Without(items, i);
    }

    /** Moves a node to the back. */
    method MoveLast(node: Node<K, V>, ghost i: nat)
      requires Valid() && i < |nodes| && nodes[i] == node
      modifies this`nodes, this`items, head`next, tail`prev, nodes`next, nodes`prev
      ensures Valid() && items == Without(old(items), i) + [old(items)[i]]
      ensures nodes == Without(old(nodes), i) + [node]
    {
      hide Linked, Indexed, Distinct;
      ghost var c := Chain();
      Detach(node, c, i + 1, c[i], c[i + 2]);
      Around(head, nodes, tail, i, node);
      ghost var d := Without(c, i + 1);
      AttachLast(tail, node, d, d[|d| - 2]);
      MovedLast(nodes, items, index, i);
      SameSize(nodes, items, index);
      DistinctLast(items, i);
      nodes, items := Without(nodes, i) + [node], Without(items, i) + [items[i]];
    }

    /** Takes a node out of the list and the index. */
    method Remove(node: Node<K, V>, ghost i: nat)
      requires Valid() && i < |nodes| && nodes[i] == node
      modifies this`nodes, this`items, this`index, head`next, tail`prev, nodes`next, nodes`prev
      ensures Valid() && items == Without(old(items), i) && nodes == Without(old(nodes), i) && node !in Chain()
      ensures node.kv == Some(old(items)[i])
    {
      hide Linked, Indexed, Distinct;
      SameSize(nodes, items, index);
      ItemAt(nodes, items, index, i);
      ghost var c := Chain();
      Detach(node, c, i + 1, c[i], c[i + 2]);
      Around(head, nodes, tail, i, node);
      DistinctFirst(items, i, items[i].1);
      Removed(nodes, items, index, i);
      index := index - {node.kv.value.0};
      nodes, items := Without(nodes, i), Without(items, i);
    }

    /** Puts a node for a new key in front. */
    method AddFirst(node: Node<K, V>, k: K, v: V)
      requires Valid() && node !in Chain() && node.kv == Some((k, v)) && Find(items, k) == None && |items| < cap
      modifies this`nodes, this`items, this`index, head`next, tail`prev, nodes`prev, node`next, node`prev
      ensures Valid() && items == [(k, v)] + old(items) && nodes == [node] + old(nodes)
    {
      hide Linked, Indexed, Distinct;
      ghost var c := Chain();
      Attach(head, node, c, c[1]);
      assert [head, node] + c[1..] == [head] + ([node] + nodes) + [tail];
      Added(nodes, items, index, node, k, v);
      DistinctAdd(items, k, v);
      index := index[k := node];
      nodes, items := [node] + nodes, [(k, v)] + items;
    }

    // ---- The operations ----

    /** lru.rs:261-324: `capture` says whether an evicted pair is returned. */
    method CapturingPut(k: K, v: V, capture: bool) returns (r: Option<(K, V)>)
      requires Valid()
      modifies this, head, tail, nodes
      ensures Valid() && cap == old(cap) && items == Putted(old(items), cap, k, v)
      ensures forall i :: 0 <= i < |nodes| ==> nodes[i] in old(nodes) || fresh(nodes[i])
      ensures r == if Find(old(items), k).Some? then Some(old(items)[Find(old(items), k).value])
                   else if capture && |old(items)| == cap then Some(old(items)[|old(items)| - 1]) else None
    {
      hide Linked, Distinct, Indexed;
      SameSize(nodes, items, index);
      var found, i := Lookup(k);
      if found.Some? {
        r := ReplaceValue(found.value, k, v, i);
        MoveFirst(found.value, i);
        assert Without(old(items)[i := (k, v)], i) == Without(old(items), i);
      } else if |index| == cap {
        r := Evict(k, v);
        r := if capture then r else None;
      } else {
        var node := new Node<K, V>(Some((k, v)));
        AddFirst(node, k, v);
        r := None;
      }
    }

    /** Uses the node of the last pair for a new one (lru.rs:298-316). */
    method Evict(k: K, v: V) returns (r: Option<(K, V)>)
      requires Valid() && |items| == cap && Find(items, k) == None
      modifies this, head, tail, nodes
      ensures Valid() && cap == old(cap) && items == [(k, v)] + old(items)[..|old(items)| - 1]
      ensures r == Some(old(items)[|old(items)| - 1])
      ensures forall i :: 0 <= i < |nodes| ==> nodes[i] in old(nodes)
    {
      hide Linked, Distinct, Indexed, Find;
      SameSize(nodes, items, index);
      LastNode(Chain(), nodes, items, index);
      var last := tail.prev;
      ghost var n := |nodes| - 1;
      FindLess(items, k, n);
      Remove(last, n);
      r := last.kv;
      assert Without(old(items), n) == old(items)[..n];
      last.kv := Some((k, v));
      AddFirst(last, k, v);
    }

    /** Gives a key a new value, and returns the pair it had. */
    method ReplaceValue(node: Node<K, V>, k: K, v: V, ghost i: nat) returns (r: Option<(K, V)>)
      requires Valid() && i < |nodes| && nodes[i] == node && i < |items| && items[i].0 == k
      modifies this`items, node`kv
      ensures Valid() && items == old(items)[i := (k, v)] && r == Some(old(items)[i])
    {
      hide Linked, Distinct, Keyed;
      r := node.kv;
      DistinctValue(items, i, v);
      KeyedValue(nodes, items, index, i, v);
      NodesDistinct(head, nodes, tail);
      node.kv := Some((k, v));
      items := items[i := (k, v)];
    }

    /** lru.rs:346-361 */
    method Get(k: K) returns (r: Option<V>)
      requires Valid()
      modifies this, head, tail, nodes
      ensures Valid() && cap == old(cap) && items == Promoted(old(items), k)
      ensures forall i :: 0 <= i < |nodes| ==> nodes[i] in old(nodes)
      ensures r == if Find(old(items), k).Some? then Some(old(items)[Find(old(items), k).value].1) else None
    {
      hide Linked, Distinct;
      var node, i := Lookup(k);
      if node == None {
        return None;
      }
      SameSize(nodes, items, index);
      ItemAt(nodes, items, index, i);
      MoveFirst(node.value, i);
      r := Some(node.value.kv.value.1);
    }

    /** lru.rs:733-743 */
    method Promote(k: K)
      requires Valid()
      modifies this, head, tail, nodes
      ensures Valid() && cap == old(cap) && items == Promoted(old(items), k)
      ensures forall i :: 0 <= i < |nodes| ==> nodes[i] in old(nodes)
    {
      hide Linked, Distinct, Indexed;
      SameSize(nodes, items, index);
      var node, i := Lookup(k);
      if node.Some? {
        MoveFirst(node.value, i);
      }
    }

    /** lru.rs:769-779 */
    method Demote(k: K)
      requires Valid()
      modifies this, head, tail, nodes
      ensures Valid() && cap == old(cap) && items == Demoted(old(items), k)
      ensures forall i :: 0 <= i < |nodes| ==> nodes[i] in old(nodes)
    {
      hide Linked, Distinct, Indexed;
      SameSize(nodes, items, index);
      var node, i := Lookup(k);
      if node.Some? {
        MoveLast(node.value, i);
      }
    }

    /** lru.rs:623-681 */
    method Pop(k: K) returns (r: Option<(K, V)>)
      requires Valid()
      modifies this, head, tail, nodes
      ensures Valid() && cap == old(cap) && items == Popped(old(items), k)
      ensures forall i :: 0 <= i < |nodes| ==> nodes[i] in old(nodes)
      ensures r == if Find(old(items), k).Some? then Some(old(items)[Find(old(items), k).value]) else None
    {
      hide Linked, Distinct, Indexed;
      SameSize(nodes, items, index);
      var node, i := Lookup(k);
      if node == None {
        return None;
      }
      Remove(node.value, i);
      r := node.value.kv;
    }

    /** lru.rs:703-709, 959-973: removes the pair that was used least recently. */
    method PopLru() returns (r: Option<(K, V)>)
      requires Valid()
      modifies this, head, tail, nodes
      ensures Valid() && cap == old(cap)
      ensures if old(items) == [] then r == None && items == []
              else r == Some(old(items)[|old(items)| - 1]) && items == old(items)[..|old(items)| - 1]
      ensures forall i :: 0 <= i < |nodes| ==> nodes[i] in old(nodes)
    {
      hide Linked, Distinct, Indexed;
      SameSize(nodes, items, index);
      EmptyList(head, nodes, tail);
      var last := tail.prev;
      if last == head {
        return None;
      }
      LastNode(Chain(), nodes, items, index);
      Remove(last, |nodes| - 1);
      r := last.kv;
    }

    /** lru.rs:858-870: only the most recently used pairs that fit remain. */
    method Resize(newCap: nat)
      requires Valid() && newCap >= 1
      modifies this, head, tail, nodes
      ensures Valid() && cap == newCap
      ensures items == if |old(items)| <= newCap then old(items) else old(items)[..newCap]
      ensures forall i :: 0 <= i < |nodes| ==> nodes[i] in old(nodes)
    {
      hide Linked, Distinct, Indexed;
      if newCap == cap {
        return;
      }
      SameSize(nodes, items, index);
      while |index| > newCap
        invariant Valid() && |items| == |index| && (|items| >= newCap || items == old(items))
        invariant |items| <= |old(items)| && items == old(items)[..|items|]
        invariant forall i :: 0 <= i < |nodes| ==> nodes[i] in old(nodes)
        decreases |index|
      {
        var _ := PopLru();
        SameSize(nodes, items, index);
      }
      cap := newCap;
    }

    /** lru.rs:891-893 */
    method Clear()
      requires Valid()
      modifies this, head, tail, nodes
      ensures Valid() && cap == old(cap) && items == []
    {
      hide Linked, Distinct, Indexed;
      var going := true;
      while going
        invariant Valid() && cap == old(cap) && (!going ==> items == [])
        invariant forall i :: 0 <= i < |nodes| ==> nodes[i] in old(nodes)
        decreases |items|, going
      {
        var r := PopLru();
        going := r.Some?;
      }
    }
  }

  // ---- Facts about the list ----

  lemma Around<K, V>(h: Node<K, V>, nodes: seq<Node<K, V>>, t: Node<K, V>, i: nat, node: Node<K, V>)
    requires i < |nodes|
    ensures var d := Without([h] + nodes + [t], i + 1);
            && d == [h] + Without(nodes, i) + [t] && |d| >= 2
            && [h, node] + d[1..] == [h] + ([node] + Without(nodes, i)) + [t]
            && d[..|d| - 1] + [node, t] == [h] + (Without(nodes, i) + [node]) + [t]
  {
  }

  lemma SameSize<K, V>(nodes: seq<Node<K, V>>, items: seq<(K, V)>, index: map<K, Node<K, V>>)
    requires Indexed(nodes, items, index)
    ensures |nodes| == |items| == |index|
  {
  }

  lemma ItemAt<K, V>(nodes: seq<Node<K, V>>, items: seq<(K, V)>, index: map<K, Node<K, V>>, i: nat)
    requires Indexed(nodes, items, index) && i < |nodes| && i < |items|
    ensures nodes[i].kv == Some(items[i])
  {
  }

  lemma LastNode<K, V>(c: seq<Node<K, V>>, nodes: seq<Node<K, V>>, items: seq<(K, V)>, index: map<K, Node<K, V>>)
    requires Linked(c) && |c| >= 2 && Indexed(nodes, items, index) && nodes != [] && c == [c[0]] + nodes + [c[|c| - 1]]
    ensures c[|c| - 1].prev == nodes[|nodes| - 1] && |items| == |nodes|
    ensures nodes[|nodes| - 1].kv == Some(items[|items| - 1])
  {
    assert c[|c| - 2] == nodes[|nodes| - 1];
  }

  lemma EmptyList<K, V>(h: Node<K, V>, nodes: seq<Node<K, V>>, t: Node<K, V>)
    requires Linked([h] + nodes + [t])
    ensures t.prev == h <==> nodes == []
  {
    var c := [h] + nodes + [t];
    assert c[|c| - 1] == t && c[0] == h && t.prev == c[|c| - 2];
    if nodes != [] {
      assert c[|c| - 2] == nodes[|nodes| - 1];
    }
  }

  lemma MovedLast<K, V>(nodes: seq<Node<K, V>>, items: seq<(K, V)>, index: map<K, Node<K, V>>, i: nat)
    requires Indexed(nodes, items, index) && i < |nodes|
    ensures Indexed(Without(nodes, i) + [nodes[i]], Without(items, i) + [items[i]], index)
  {
    var (ns, xs) := (Without(nodes, i) + [nodes[i]], Without(items, i) + [items[i]]);
    forall j | 0 <= j < |ns| ensures ns[j].kv == Some(xs[j]) && xs[j].0 in index && index[xs[j].0] == ns[j] {
      var m := if j == |ns| - 1 then i else if j < i then j else j + 1;
      assert ns[j] == nodes[m] && xs[j] == items[m];
    }
    forall k | k in index ensures exists j :: 0 <= j < |xs| && xs[j].0 == k {
      var m :| 0 <= m < |items| && items[m].0 == k;
      assert xs[if m == i then |xs| - 1 else if m < i then m else m - 1] == items[m];
    }
  }

  lemma DistinctLast<K, V>(items: seq<(K, V)>, i: nat)
    requires Distinct(items) && i < |items|
    ensures Distinct(Without(items, i) + [items[i]])
  {
    var w := Without(items, i) + [items[i]];
    assert forall j :: 0 <= j < |w| ==> w[j] == items[if j == |w| - 1 then i else if j < i then j else j + 1];
  }

  lemma DistinctValue<K, V>(items: seq<(K, V)>, i: nat, v: V)
    requires Distinct(items) && i < |items|
    ensures Distinct(items[i := (items[i].0, v)])
  {
  }

  lemma DistinctAdd<K, V>(items: seq<(K, V)>, k: K, v: V)
    requires Distinct(items) && Find(items, k) == None
    ensures Distinct([(k, v)] + items)
  {
  }

  lemma Removed<K, V>(nodes: seq<Node<K, V>>, items: seq<(K, V)>, index: map<K, Node<K, V>>, i: nat)
    requires Indexed(nodes, items, index) && i < |nodes|
    requires forall j :: 0 <= j < |items| - 1 ==> Without(items, i)[j].0 != items[i].0
    ensures Indexed(Without(nodes, i), Without(items, i), index - {items[i].0})
  {
    var (ns, xs, less) := (Without(nodes, i), Without(items, i), index - {items[i].0});
    assert less.Keys == index.Keys - {items[i].0};
    forall j | 0 <= j < |ns| ensures ns[j].kv == Some(xs[j]) && xs[j].0 in less && less[xs[j].0] == ns[j] {
      var m := if j < i then j else j + 1;
      assert ns[j] == nodes[m] && xs[j] == items[m];
    }
    forall k | k in less ensures exists j :: 0 <= j < |xs| && xs[j].0 == k {
      var m :| 0 <= m < |items| && items[m].0 == k;
      assert xs[if m < i then m else m - 1] == items[m];
    }
  }

  lemma Added<K, V>(nodes: seq<Node<K, V>>, items: seq<(K, V)>, index: map<K, Node<K, V>>, node: Node<K, V>, k: K, v: V)
    requires Indexed(nodes, items, index) && Find(items, k) == None && node.kv == Some((k, v))
    ensures Indexed([node] + nodes, [(k, v)] + items, index[k := node])
  {
    var (ns, xs, more) := ([node] + nodes, [(k, v)] + items, index[k := node]);
    assert k !in index;
    assert more.Keys == index.Keys + {k};
    forall j | 0 <= j < |ns| ensures ns[j].kv == Some(xs[j]) && xs[j].0 in more && more[xs[j].0] == ns[j] {
      if j > 0 {
        assert ns[j] == nodes[j - 1] && xs[j] == items[j - 1];
      }
    }
    forall k' | k' in more ensures exists j :: 0 <= j < |xs| && xs[j].0 == k' {
      if k' != k {
        var m :| 0 <= m < |items| && items[m].0 == k';
        assert xs[m + 1] == items[m];
      } else {
        assert xs[0].0 == k;
      }
    }
  }

  /** A key that is not in a sequence is not in a part of it. */
  lemma FindLess<K, V>(items: seq<(K, V)>, k: K, i: nat)
    requires Find(items, k) == None && i < |items|
    ensures Find(Without(items, i), k) == None
  {
    hide Find;
    var w := Without(items, i);
    assert forall j :: 0 <= j < |w| ==> w[j] == items[if j < i then j else j + 1];
    assert forall j :: 0 <= j < |w| ==> w[j].0 != k;
  }

  lemma KeyedValue<K, V>(nodes: seq<Node<K, V>>, items: seq<(K, V)>, index: map<K, Node<K, V>>, i: nat, v: V)
    requires Keyed(nodes, items, index) && i < |items|
    ensures Keyed(nodes, items[i := (items[i].0, v)], index)
  {
    var xs := items[i := (items[i].0, v)];
    forall k | k in index ensures exists j :: 0 <= j < |xs| && xs[j].0 == k {
      var m :| 0 <= m < |items| && items[m].0 == k;
      assert xs[m].0 == k;
    }
  }

  lemma NodesDistinct<K, V>(h: Node<K, V>, nodes: seq<Node<K, V>>, t: Node<K, V>)
    requires Linked([h] + nodes + [t])
    ensures forall i, j :: 0 <= i < j < |nodes| ==> nodes[i] != nodes[j]
  {
    var c := [h] + nodes + [t];
    assert forall i :: 0 <= i < |nodes| ==> c[i + 1] == nodes[i];
  }

  lemma MovedFirst<K, V>(nodes: seq<Node<K, V>>, items: seq<(K, V)>, index: map<K, Node<K, V>>, i: nat)
    requires Indexed(nodes, items, index) && i < |nodes|
    ensures Indexed([nodes[i]] + Without(nodes, i), [items[i]] + Without(items, i), index)
  {
    var (ns, xs) := ([nodes[i]] + Without(nodes, i), [items[i]] + Without(items, i));
    forall j | 0 <= j < |ns| ensures ns[j].kv == Some(xs[j]) && xs[j].0 in index && index[xs[j].0] == ns[j] {
      var m := if j == 0 then i else if j <= i then j - 1 else j;
      assert ns[j] == nodes[m] && xs[j] == items[m];
    }
    forall k | k in index ensures exists j :: 0 <= j < |xs| && xs[j].0 == k {
      var m :| 0 <= m < |items| && items[m].0 == k;
      assert xs[if m == i then 0 else if m < i then m + 1 else m] == items[m];
    }
  }

  lemma DistinctFirst<K, V>(items: seq<(K, V)>, i: nat, v: V)
    requires Distinct(items) && i < |items|
    ensures Distinct([(items[i].0, v)] + Without(items, i)) && Distinct(Without(items, i))
    ensures forall j :: 0 <= j < |items| - 1 ==> Without(items, i)[j].0 != items[i].0
  {
    var w := Without(items, i);
    assert forall j :: 0 <= j < |w| ==> w[j] == items[if j < i then j else j + 1];
  }
}
