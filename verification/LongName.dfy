/** Long file names in FAT directories: splitting a name into entries, their 32 bytes on disk, and
    putting the name together again (afat32/src/dir.rs:734-898, afat32/src/dirent.rs:305-418;
    section 7 of the 2005 Microsoft FAT Specification). */
module LongName {
  import opened Common

  type unit = x: int | 0 <= x < 0x1_0000

  const ATTR_LFN: byte := 0x0F

  /** One entry holds 13 units; a name takes up to 20 entries. */
  datatype Entry = Entry(order: byte, checksum: byte, kind: byte, units: seq<unit>)

  predicate EntryOk(e: Entry) { |e.units| == 13 }

  /** The position of the part in the name, from 1 on: the low five bits of the order. */
  function Index(e: Entry): nat { e.order % 0x20 }

  /** The entry with the end of the name, which comes first in the directory. */
  predicate IsLast(e: Entry) { e.order / 0x40 % 2 == 1 }

  // ---- The bytes of an entry ----

  function Low(u: unit): byte { u % 0x100 }

  function High(u: unit): byte { u / 0x100 }

  function Unit(low: byte, high: byte): unit { low + 0x100 * high }

  function Bytes(units: seq<unit>): (b: seq<byte>)
    ensures |b| == 2 * |units|
  {
    if units == [] then []
    else
      var rest := Bytes(units[..|units| - 1]);
      rest + [Low(units[|units| - 1]), High(units[|units| - 1])]
  }

  function Units(b: seq<byte>): (u: seq<unit>)
    requires |b| % 2 == 0
    ensures |u| == |b| / 2
  {
    seq(|b| / 2, i requires 0 <= i < |b| / 2 => Unit(b[2 * i], b[2 * i + 1]))
  }

  lemma {:induction false} BytesAt(units: seq<unit>, i: nat)
    requires i < |units|
    ensures Bytes(units)[2 * i] == Low(units[i]) && Bytes(units)[2 * i + 1] == High(units[i])
  {
    if i < |units| - 1 {
      BytesAt(units[..|units| - 1], i);
    }
  }

  lemma UnitsOfBytes(units: seq<unit>)
    ensures Units(Bytes(units)) == units
  {
    forall i | 0 <= i < |units| ensures Units(Bytes(units))[i] == units[i] {
      BytesAt(units, i);
    }
  }

  /** dirent.rs:329-348 */
  function ToBytes(e: Entry): (b: seq<byte>)
    requires EntryOk(e)
    ensures |b| == 32
  {
    [e.order] + Bytes(e.units[..5]) + [ATTR_LFN, e.kind, e.checksum] + Bytes(e.units[5..11])
    + [0, 0] + Bytes(e.units[11..])
  }

  /** A long-name entry, if the attributes say so (dirent.rs:385-418). */
  function Parse(b: seq<byte>): (e: Option<Entry>)
    requires |b| == 32
    ensures e.Some? ==> EntryOk(e.value)
  {
    if b[11] % 0x10 != ATTR_LFN then None
    else Some(Entry(b[0], b[13], b[12], Units(b[1..11]) + Units(b[14..26]) + Units(b[28..32])))
  }

  lemma ParseToBytes(e: Entry)
    requires EntryOk(e)
    ensures Parse(ToBytes(e)) == Some(e)
  {
    hide Bytes, Units;
    var b := ToBytes(e);
    assert b[1..11] == Bytes(e.units[..5]) && b[14..26] == Bytes(e.units[5..11]) && b[28..32] == Bytes(e.units[11..]);
    UnitsOfBytes(e.units[..5]);
    UnitsOfBytes(e.units[5..11]);
    UnitsOfBytes(e.units[11..]);
    assert e.units[..5] + e.units[5..11] + e.units[11..] == e.units;
  }

  // ---- Splitting a name ----

  function Parts(name: seq<unit>): nat { (|name| + 12) / 13 }

  /** The name, ended by 0 and filled up with 0xFFFF to whole parts. */
  function Padded(name: seq<unit>): (p: seq<unit>)
    ensures |p| == 13 * Parts(name)
  {
    seq(13 * Parts(name), i => if 0 <= i < |name| then name[i] else if i == |name| then 0 else 0xFFFF)
  }

  /** Part `k` of a name of `n` parts, counted from 1. */
  function EntryFor(name: seq<unit>, checksum: byte, k: nat): Entry
    requires 1 <= k <= Parts(name) <= 20
  {
    Entry(if k == Parts(name) then k + 0x40 else k, checksum, 0, Padded(name)[13 * (k - 1)..13 * k])
  }

  lemma EntryForIs(name: seq<unit>, checksum: byte, k: nat)
    requires 1 <= k <= Parts(name) <= 20
    ensures var e := EntryFor(name, checksum, k);
            EntryOk(e) && Index(e) == k && (IsLast(e) <==> k == Parts(name)) && e.checksum == checksum
  {
  }

  /** The entries of a name, in the order of the directory. */
  function Split(name: seq<unit>, checksum: byte): seq<Entry>
    requires Parts(name) <= 20
  {
    seq(Parts(name), t requires 0 <= t < Parts(name) => EntryFor(name, checksum, Parts(name) - t))
  }

  lemma PartIs(name: seq<unit>, k: nat, part: seq<unit>, units: seq<unit>)
    requires 1 <= k <= Parts(name) && part == name[13 * (k - 1)..if 13 * k < |name| then 13 * k else |name|]
    requires |part| <= 13 && units == part + if |part| < 13 then [0] + seq(12 - |part|, _ => 0xFFFF) else []
    ensures units == Padded(name)[13 * (k - 1)..13 * k]
  {
    var p := Padded(name)[13 * (k - 1)..13 * k];
    forall i | 0 <= i < 13 ensures units[i] == p[i] {
      assert p[i] == Padded(name)[13 * (k - 1) + i];
    }
  }

  /** dir.rs:842-893 */
  method GenerateEntries(name: seq<unit>, checksum: byte) returns (es: seq<Entry>)
    requires |name| <= 260
    ensures es == Split(name, checksum)
  {
    es := [];
    var num := (|name| + 12) / 13;
    var index := 0;
    while index < num
      invariant index <= num && |es| == index
      invariant forall t :: 0 <= t < index ==> es[t] == EntryFor(name, checksum, num - t)
    {
      var k := num - index;
      var order := if index == 0 then k + 0x40 else k;
      var part := name[13 * (k - 1)..if 13 * k < |name| then 13 * k else |name|];
      var units := part + if |part| < 13 then [0] + seq(12 - |part|, _ => 0xFFFF) else [];
      PartIs(name, k, part, units);
      es := es + [Entry(order, checksum, 0, units)];
      index := index + 1;
    }
  }

  // ---- Putting a name together ----

  predicate IsPad(u: unit) { u == 0 || u == 0xFFFF }

  /** The name without the padding at its end. */
  function Trimmed(units: seq<unit>): seq<unit> {
    if units == [] then [] else if IsPad(units[|units| - 1]) then Trimmed(units[..|units| - 1]) else units
  }

  /** It is the longest prefix that does not end in padding. */
  lemma {:induction false} TrimmedMeans(units: seq<unit>)
    ensures var r := Trimmed(units);
            && |r| <= |units| && r == units[..|r|] && (r == [] || !IsPad(r[|r| - 1]))
            && forall i :: |r| <= i < |units| ==> IsPad(units[i])
  {
    if units != [] && IsPad(units[|units| - 1]) {
      TrimmedMeans(units[..|units| - 1]);
    }
  }

  lemma TrimOne(units: seq<unit>, len: nat)
    requires len < |units| && IsPad(units[len])
    ensures Trimmed(units[..len + 1]) == Trimmed(units[..len])
  {
    assert units[..len + 1][..len] == units[..len];
  }

  lemma TrimNothing(units: seq<unit>)
    requires units == [] || !IsPad(units[|units| - 1])
    ensures Trimmed(units) == units
  {
  }

  lemma {:induction false} TrimmedPadding(name: seq<unit>, pad: seq<unit>)
    requires forall i :: 0 <= i < |pad| ==> IsPad(pad[i])
    ensures Trimmed(name + pad) == Trimmed(name)
    decreases |pad|
  {
    if pad == [] {
      assert name + pad == name;
    } else {
      assert (name + pad)[..|name + pad| - 1] == name + pad[..|pad| - 1];
      TrimmedPadding(name, pad[..|pad| - 1]);
    }
  }

  /** dir.rs:765-773 */
  method TrimEnd(units: seq<unit>) returns (r: seq<unit>)
    ensures r == Trimmed(units)
  {
    hide Trimmed;
    var len := |units|;
    assert units[..len] == units;
    while len > 0 && IsPad(units[len - 1])
      invariant 0 <= len <= |units| && Trimmed(units[..len]) == Trimmed(units)
      decreases len
    {
      len := len - 1;
      TrimOne(units, len);
    }
    r := units[..len];
    TrimNothing(r);
  }

  /** The entries of one name as far as they have come: the part with the end of the name, then the
      parts before it, down to part `Index(run[|run| - 1])`, all with one checksum. */
  predicate IsRun(run: seq<Entry>) {
    && |run| > 0 && IsLast(run[0]) && Index(run[0]) <= 20 && |run| <= Index(run[0])
    && forall t :: 0 <= t < |run| ==>
         EntryOk(run[t]) && Index(run[t]) == Index(run[0]) - t && run[t].checksum == run[0].checksum
           && (t > 0 ==> !IsLast(run[t]))
  }

  /** The parts of the run are at their places in the buffer. */
  predicate Holds(buf: seq<unit>, run: seq<Entry>)
    requires IsRun(run)
  {
    && |buf| == 13 * Index(run[0])
    && forall t :: 0 <= t < |run| ==> buf[13 * (Index(run[0]) - t - 1)..13 * (Index(run[0]) - t)] == run[t].units
  }

  predicate EndsWith(stream: seq<Entry>, run: seq<Entry>) { |run| <= |stream| && stream[|stream| - |run|..] == run }

  lemma EndsWithMore(stream: seq<Entry>, run: seq<Entry>, e: Entry)
    requires EndsWith(stream, run)
    ensures EndsWith(stream + [e], run + [e]) && EndsWith(stream + [e], [e]) && EndsWith(stream + [e], [])
  {
    assert (stream + [e])[|stream| - |run|..] == stream[|stream| - |run|..] + [e];
  }

  predicate Complete(run: seq<Entry>) { IsRun(run) && |run| == Index(run[0]) }

  /** The name that a complete run spells. */
  function Joined(run: seq<Entry>): (name: seq<unit>)
  {
    if run == [] then [] else run[|run| - 1].units + Joined(run[..|run| - 1])
  }

  class Builder {
    var buf: seq<unit>
    var chksum: byte
    var index: nat
    /** All entries processed, and the run at their end that is in the buffer. */
    ghost var stream: seq<Entry>
    ghost var run: seq<Entry>

    ghost predicate Valid()
      reads this
    {
      && EndsWith(stream, run)
      && (index == 0 <==> run == []) && (index == 0 ==> buf == [])
      && (run != [] ==>
        IsRun(run) && Holds(buf, run) && index == Index(run[0]) - |run| + 1 && chksum == run[0].checksum)
    }

    constructor ()
      ensures Valid() && stream == [] && run == []
    {
      buf, chksum, index := [], 0, 0;
      stream, run := [], [];
    }

    /** dir.rs:749-752 */
    method Clear()
      requires Valid()
      modifies this
      ensures Valid() && stream == old(stream) && run == [] && buf == [] && index == 0
    {
      buf, index := [], 0;
      run := [];
    }

    /** `Vec::resize` (dir.rs:725-727) */
    method SetLen(len: nat)
      modifies `buf
      ensures |buf| == len
    {
      buf := if len <= |buf| then buf[..len] else buf + seq(len - |buf|, _ => 0);
    }

    /** dir.rs:782-814, for any entry in any state */
    method Process(e: Entry)
      requires Valid() && EntryOk(e)
      modifies this
      ensures Valid() && stream == old(stream) + [e]
      ensures run == if 1 <= Index(e) <= 20 && IsLast(e) then [e]
                     else if IsRun(old(run) + [e]) then old(run) + [e] else []
    {
      hide IsRun, Holds, Index, IsLast, EndsWith;
      ghost var older := run;
      EndsWithMore(stream, run, e);
      stream := stream + [e];
      var i := Index(e);
      NoRun(run, e, index, chksum);
      if i == 0 || i > 20 {
        buf, index := [], 0;
        run := [];
        return;
      }
      if IsLast(e) {
        index, chksum := i, e.checksum;
        SetLen(i * 13);
        run := [e];
        RunStarts(e);
      } else if index == 0 || i != index - 1 || e.checksum != chksum {
        buf, index := [], 0;
        run := [];
        return;
      } else {
        index := index - 1;
        RunSize(buf, run);
        RunMore(run, e);
        run := run + [e];
        assert run[..|run| - 1] == older;
      }
      var pos := 13 * (i - 1);
      ghost var before := buf;
      buf := buf[..pos] + e.units + buf[pos + 13..];
      PlacePart(before, buf, run, pos);
    }

    /** Ends the name (dir.rs:754-773): only a complete run gives one. */
    method IntoName() returns (name: seq<unit>)
      requires Valid()
      modifies this
      ensures name == if Complete(old(run)) then Trimmed(Joined(old(run))) else []
    {
      assert !Complete([]);
      hide IsRun, Holds, Joined, Index, Trimmed;
      if index == 1 {
        CompleteBuffer(buf, run);
        name := TrimEnd(buf);
      } else {
        assert !Complete(run);
        if index != 0 {
          Clear();
        }
        name := buf;
      }
    }

    /** dir.rs:816-831 */
    method ValidateChecksum(checksum: byte)
      requires Valid()
      modifies this
      ensures Valid() && stream == old(stream)
      ensures run == if old(run) == [] || old(run)[0].checksum == checksum then old(run) else []
    {
      if index != 0 && checksum != chksum {
        Clear();
      }
    }
  }

  /** `e` goes on with the run exactly if its index and checksum fit. */
  lemma NoRun(run: seq<Entry>, e: Entry, index: nat, chksum: byte)
    requires index == 0 <==> run == []
    requires run != [] ==> IsRun(run) && index == Index(run[0]) - |run| + 1 && chksum == run[0].checksum
    requires EntryOk(e)
    ensures !IsLast(e) ==> (IsRun(run + [e]) <==> index != 0 && Index(e) == index - 1 >= 1 && e.checksum == chksum)
    ensures Index(e) == 0 || Index(e) > 20 ==> !IsRun(run + [e])
  {
    var more := run + [e];
    assert more[|run|] == e;
    assert run != [] ==> more[0] == run[0];
  }

  lemma RunStarts(e: Entry)
    requires EntryOk(e) && IsLast(e) && 1 <= Index(e) <= 20
    ensures IsRun([e])
  {
  }

  lemma RunSize(buf: seq<unit>, run: seq<Entry>)
    requires IsRun(run) && Holds(buf, run)
    ensures |buf| == 13 * Index(run[0]) && Index(run[0]) <= 20 && |run| <= Index(run[0])
  {
  }

  lemma RunMore(run: seq<Entry>, e: Entry)
    requires IsRun(run) && EntryOk(e) && !IsLast(e) && 1 <= Index(e) == Index(run[0]) - |run|
    requires e.checksum == run[0].checksum
    ensures IsRun(run + [e]) && Index((run + [e])[0]) == Index(run[0])
  {
  }

  /** Writing the last part of a run into the buffer. */
  lemma PlacePart(before: seq<unit>, buf: seq<unit>, run: seq<Entry>, pos: nat)
    requires IsRun(run) && |before| == 13 * Index(run[0]) && pos == 13 * (Index(run[|run| - 1]) - 1)
    requires |run| > 1 ==> IsRun(run[..|run| - 1]) && Holds(before, run[..|run| - 1])
    requires buf == before[..pos] + run[|run| - 1].units + before[pos + 13..]
    ensures Holds(buf, run)
  {
    var k := Index(run[0]);
    forall t | 0 <= t < |run| ensures buf[13 * (k - t - 1)..13 * (k - t)] == run[t].units {
      if t < |run| - 1 {
        var older := run[..|run| - 1];
        assert older[t] == run[t];
        assert before[13 * (k - t - 1)..13 * (k - t)] == run[t].units;
        assert buf[13 * (k - t - 1)..13 * (k - t)] == before[13 * (k - t - 1)..13 * (k - t)];
      }
    }
  }

  /** The last `t` parts in the buffer are the first `t` entries of the run. */
  lemma {:induction false} JoinedBuffer(buf: seq<unit>, run: seq<Entry>, t: nat)
    requires IsRun(run) && Holds(buf, run) && t <= |run|
    ensures Joined(run[..t]) == buf[13 * (Index(run[0]) - t)..]
    decreases t
  {
    if t > 0 {
      JoinedBuffer(buf, run, t - 1);
      assert run[..t][..t - 1] == run[..t - 1];
      var k := Index(run[0]);
      assert buf[13 * (k - t)..] == buf[13 * (k - t)..13 * (k - t + 1)] + buf[13 * (k - t + 1)..];
      assert buf[13 * (k - (t - 1) - 1)..13 * (k - (t - 1))] == run[t - 1].units;
    }
  }

  lemma CompleteBuffer(buf: seq<unit>, run: seq<Entry>)
    requires IsRun(run) && Holds(buf, run) && Complete(run)
    ensures Joined(run) == buf
  {
    JoinedBuffer(buf, run, |run|);
    assert run[..|run|] == run;
  }

  // ---- There and back ----

  lemma SplitIsRun(name: seq<unit>, checksum: byte)
    requires 1 <= |name| <= 260
    ensures Complete(Split(name, checksum)) && |Split(name, checksum)| > 0
    ensures Split(name, checksum)[0].checksum == checksum
  {
    hide EntryFor, Index, IsLast;
    var es := Split(name, checksum);
    forall t | 0 <= t < |es|
      ensures EntryOk(es[t]) && Index(es[t]) == |es| - t && es[t].checksum == checksum && (IsLast(es[t]) <==> t == 0)
    {
      EntryForIs(name, checksum, |es| - t);
    }
  }

  lemma {:induction false} SplitJoined(name: seq<unit>, checksum: byte, t: nat)
    requires 1 <= |name| <= 260 && t <= Parts(name)
    ensures Joined(Split(name, checksum)[..t]) == Padded(name)[13 * (Parts(name) - t)..]
    decreases t
  {
    if t > 0 {
      SplitJoined(name, checksum, t - 1);
      var es := Split(name, checksum);
      assert es[..t][..t - 1] == es[..t - 1];
      var k := Parts(name) - t + 1;
      assert es[t - 1] == EntryFor(name, checksum, k);
      assert Padded(name)[13 * (k - 1)..] == Padded(name)[13 * (k - 1)..13 * k] + Padded(name)[13 * k..];
    }
  }

  /** A name comes back without the padding units at its end, so exactly names that do not end in 0
      or 0xFFFF come back unchanged. */
  lemma NameReturns(name: seq<unit>, checksum: byte)
    requires 1 <= |name| <= 260
    ensures Trimmed(Joined(Split(name, checksum))) == Trimmed(name)
    ensures Trimmed(name) == name <==> !IsPad(name[|name| - 1])
  {
    hide Split, Joined, Padded, Trimmed, Parts;
    SplitWhole(name, checksum);
    var pad := PaddingOf(name);
    TrimmedPadding(name, pad);
    if !IsPad(name[|name| - 1]) {
      TrimNothing(name);
    } else {
      TrimmedMeans(name);
    }
  }

  lemma SplitWhole(name: seq<unit>, checksum: byte)
    requires 1 <= |name| <= 260
    ensures Joined(Split(name, checksum)) == Padded(name)
  {
    hide Joined, Padded, EntryFor;
    SplitJoined(name, checksum, Parts(name));
    assert Split(name, checksum)[..Parts(name)] == Split(name, checksum);
    assert Padded(name)[0..] == Padded(name);
  }

  lemma PaddingOf(name: seq<unit>) returns (pad: seq<unit>)
    ensures Padded(name) == name + pad && forall i :: 0 <= i < |pad| ==> IsPad(pad[i])
  {
    pad := Padded(name)[|name|..];
  }

  /** Generating, writing, reading and rebuilding a name, after any other entries. */
  method RoundTrip(name: seq<unit>, checksum: byte, before: seq<Entry>) returns (result: seq<unit>)
    requires 1 <= |name| <= 255 && forall k :: 0 <= k < |before| ==> EntryOk(before[k])
    ensures result == Trimmed(name)
    ensures result == name <==> !IsPad(name[|name| - 1])
  {
    hide Complete, IsRun, Trimmed, Joined, Index, IsLast, ToBytes, Parse, Split, Holds, Parts, EntryOk;
    NameReturns(name, checksum);
    SplitIsRun(name, checksum);
    var b := new Builder();
    for k := 0 to |before|
      invariant b.Valid() && fresh(b)
    {
      b.Process(before[k]);
    }
    var es := GenerateEntries(name, checksum);
    for k := 0 to |es|
      invariant b.Valid() && fresh(b) && (k > 0 ==> b.run == es[..k])
    {
      PrefixRun(es, k);
      ParseToBytes(es[k]);
      var e := Parse(ToBytes(es[k])).value;
      b.Process(e);
      assert es[..k] + [es[k]] == es[..k + 1];
    }
    assert es[..|es|] == es;
    b.ValidateChecksum(checksum);
    result := b.IntoName();
  }

  /** A prefix of a complete run is a run. */
  lemma PrefixRun(es: seq<Entry>, k: nat)
    requires Complete(es) && k < |es|
    ensures EntryOk(es[k]) && IsRun(es[..k + 1]) && 1 <= Index(es[k]) <= 20 && (IsLast(es[k]) <==> k == 0)
  {
    assert forall t :: 0 <= t <= k ==> es[..k + 1][t] == es[t];
  }

  /** A name that ends in 0xFFFF comes back shorter. */
  method NameCut(checksum: byte) returns (result: seq<unit>)
    ensures result == [0x41]
  {
    var name := [0x41, 0xFFFF];
    result := RoundTrip(name, checksum, []);
    assert name[..1] == [0x41];
    TrimOne(name, 1);
    assert name[..2] == name;
  }
}
