/** Pipes (kernel/src/fs/pipe.rs): bytes pass from the writer's page through a queue of full pages to
    the reader's page, and must come out as one stream. */
module Pipe {
  import opened Common

  // ---- One page (pipe.rs:24-93) ----

  datatype End = End(frame: seq<byte>, start: nat, end: nat)

  predicate EndOk(e: End) { |e.frame| == PAGE && e.start <= e.end <= PAGE }

  /** The bytes that were written to the page and not yet read. */
  function Bytes(e: End): seq<byte> { if EndOk(e) then e.frame[e.start..e.end] else [] }

  predicate IsFull(e: End) { e.end == PAGE }

  predicate IsEmpty(e: End) { e.start == e.end }

  function Taken(e: End, n: nat): End { e.(start := e.start + n) }

  /** With `data`, as far as it fits. */
  function Put(e: End, data: seq<byte>): End {
    if EndOk(e) && e.end + |data| <= PAGE
    then End(e.frame[..e.end] + data + e.frame[e.end + |data|..], e.start, e.end + |data|)
    else e
  }

  /** How many of `n` bytes can be read, and written. */
  function Readable(e: End, n: nat): nat { if e.start <= e.end then Min(n, e.end - e.start) else 0 }

  function Writable(e: End, n: nat): nat { if e.end <= PAGE then Min(n, PAGE - e.end) else 0 }

  lemma TakenBytes(e: End, n: nat)
    requires EndOk(e) && n <= e.end - e.start
    ensures EndOk(Taken(e, n)) && Bytes(e) == Bytes(e)[..n] + Bytes(Taken(e, n)) && |Bytes(e)[..n]| == n
  {
  }

  lemma PutBytes(e: End, data: seq<byte>)
    requires EndOk(e) && e.end + |data| <= PAGE
    ensures EndOk(Put(e, data)) && Bytes(Put(e, data)) == Bytes(e) + data
  {
  }

  function Sum(sizes: seq<nat>): nat { if sizes == [] then 0 else sizes[0] + Sum(sizes[1..]) }

  lemma SumStep(sizes: seq<nat>, i: nat)
    requires i < |sizes|
    ensures Sum(sizes[i..]) == sizes[i] + Sum(sizes[i + 1..])
  {
    assert sizes[i..][1..] == sizes[i + 1..];
  }

  lemma SumEnd(sizes: seq<nat>)
    ensures Sum(sizes[|sizes|..]) == 0
  {
  }

  lemma NoFlat()
    ensures Flat([]) == []
  {
  }

  function Flat(slices: seq<seq<byte>>): seq<byte> { if slices == [] then [] else slices[0] + Flat(slices[1..]) }

  lemma {:induction false} FlatConcat(a: seq<seq<byte>>, b: seq<seq<byte>>)
    ensures Flat(a + b) == Flat(a) + Flat(b)
  {
    if a == [] {
      assert a + b == b;
    } else {
      assert (a + b)[1..] == a[1..] + b;
      FlatConcat(a[1..], b);
    }
  }

  lemma FlatMore(a: seq<seq<byte>>, x: seq<byte>)
    ensures Flat(a + [x]) == Flat(a) + x
  {
    FlatConcat(a, [x]);
    assert Flat([x]) == x + Flat([x][1..]) == x;
  }

  lemma FlatStep(slices: seq<seq<byte>>, i: nat)
    requires i < |slices|
    ensures Flat(slices[i..]) == slices[i] + Flat(slices[i + 1..])
  {
    assert slices[i..][1..] == slices[i + 1..];
  }

  lemma FlatEnd(slices: seq<seq<byte>>)
    ensures Flat(slices[|slices|..]) == []
  {
  }

  lemma PutNothing(e: End)
    requires EndOk(e)
    ensures Put(e, []) == e
  {
  }

  lemma Joined(page: seq<byte>, a: nat, b: nat, c: nat)
    requires a <= b <= c <= |page|
    ensures page[a..b] + page[b..c] == page[a..c]
  {
  }

  lemma Prefix(page: seq<byte>, a: nat, b: nat, c: nat)
    requires a <= b <= c <= |page|
    ensures page[a..c][..b - a] == page[a..b]
  {
  }

  class Buffer {
    const frame: array<byte>
    var start: nat
    var end: nat

    ghost predicate Valid()
      reads this, frame
    {
      frame.Length == PAGE && start <= end <= PAGE
    }

    ghost function E(): End
      reads this, frame
    {
      End(frame[..], start, end)
    }

    constructor ()
      ensures Valid() && fresh(frame) && start == end == 0
    {
      frame := new byte[PAGE](_ => 0);
      start, end := 0, 0;
    }

    /** Fills slices of the given sizes (pipe.rs:58-74). */
    method Read(sizes: seq<nat>) returns (out: seq<seq<byte>>, n: nat)
      requires Valid()
      modifies this`start
      ensures Valid() && n == Min(Sum(sizes), old(end - start)) && E() == Taken(old(E()), n)
      ensures Flat(out) == Bytes(old(E()))[..n]
    {
      hide Sum, Flat;
      ghost var page, from := frame[..], start;
      NoFlat();
      out, n := [], 0;
      var i := 0;
      assert sizes[0..] == sizes;
      SumEnd(sizes);
      while i < |sizes|
        invariant 0 <= i <= |sizes| && Valid() && start == from + n && frame[..] == page
        invariant Flat(out) == page[from..start]
        invariant n + Sum(sizes[i..]) == Sum(sizes)
      {
        SumStep(sizes, i);
        var len := Min(sizes[i], end - start);
        var slice := frame[start..start + len];
        FlatMore(out, slice);
        Joined(page, from, start, start + len);
        out := out + [slice];
        n := n + len;
        start := start + len;
        if len < sizes[i] {
          break;
        }
        i := i + 1;
      }
      Prefix(page, from, start, end);
    }

    /** Takes as many bytes of the slices as fit (pipe.rs:76-92). */
    method Write(slices: seq<seq<byte>>) returns (n: nat)
      requires Valid()
      modifies this`end, frame
      ensures Valid() && n == Min(|Flat(slices)|, old(PAGE - end)) && E() == Put(old(E()), Flat(slices)[..n])
    {
      hide Flat, Put;
      n := 0;
      var i := 0;
      ghost var data, e := Flat(slices), E();
      assert slices[0..] == slices && data[0..] == data && data[..0] == [];
      PutNothing(e);
      FlatEnd(slices);
      while i < |slices|
        invariant 0 <= i <= |slices| && Valid() && end == e.end + n && n <= |data|
        invariant data[n..] == Flat(slices[i..])
        invariant E() == Put(e, data[..n])
      {
        FlatStep(slices, i);
        var first := slices[i];
        var len := Min(|first|, PAGE - end);
        Advance(data, n, first, Flat(slices[i + 1..]), len);
        PutMore(e, data, n, len);
        CopyIn(first[..len]);
        n := n + len;
        if len < |first| {
          break;
        }
        i := i + 1;
      }
    }

    /** Appends bytes to the page. */
    method CopyIn(data: seq<byte>)
      requires Valid() && end + |data| <= PAGE
      modifies this`end, frame
      ensures Valid() && E() == Put(old(E()), data) && end == old(end) + |data|
    {
      forall k | 0 <= k < |data| {
        frame[end + k] := data[k];
      }
      end := end + |data|;
      assert frame[..] == old(frame[..])[..old(end)] + data + old(frame[..])[old(end) + |data|..];
    }
  }

  lemma Advance(data: seq<byte>, n: nat, first: seq<byte>, rest: seq<byte>, len: nat)
    requires n <= |data| && data[n..] == first + rest && len <= |first|
    ensures n + len <= |data| && data[n..n + len] == first[..len]
    ensures len == |first| ==> data[n + len..] == rest
  {
    assert data[n..][..len] == (first + rest)[..len];
    if len == |first| {
      assert data[n..][len..] == (first + rest)[len..];
    }
  }

  lemma PasteSplits(frame: seq<byte>, at: nat, data: seq<byte>, len: nat)
    requires at + |data| + len <= |frame|
    ensures var put := frame[..at] + data + frame[at + |data|..];
            |put| == |frame| && put[..at + |data|] == frame[..at] + data
              && put[at + |data| + len..] == frame[at + |data| + len..]
  {
  }

  lemma PutAgain(e: End, a: seq<byte>, b: seq<byte>)
    requires EndOk(e) && e.end + |a| + |b| <= PAGE
    ensures EndOk(Put(e, a)) && Put(Put(e, a), b) == Put(e, a + b)
  {
    PasteSplits(e.frame, e.end, a, |b|);
    assert (e.frame[..e.end] + a) + b == e.frame[..e.end] + (a + b);
  }

  lemma PutMore(e: End, data: seq<byte>, n: nat, len: nat)
    requires EndOk(e) && n + len <= |data| && e.end + n + len <= PAGE
    ensures EndOk(Put(e, data[..n])) && Put(Put(e, data[..n]), data[n..n + len]) == Put(e, data[..n + len])
  {
    hide Put, EndOk;
    PutAgain(e, data[..n], data[n..n + len]);
    assert data[..n] + data[n..n + len] == data[..n + len];
  }
}
