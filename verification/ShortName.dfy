/** Choosing an 8.3 name that does not collide (afat32/src/dir.rs:139-166, 903-1109). */
module ShortName {
  import opened Common

  /** Eight bytes of base name and three of extension. */
  type Name = s: seq<byte> | |s| == 11 witness seq(11, _ => 0x20)

  const TILDE: byte := 0x7E
  const CHECKSUMS := 0x1_0000

  // ---- Digits ----

  function Digit(b: byte): Option<nat> { if 0x30 <= b <= 0x39 then Some(b - 0x30) else None }

  function DigitByte(d: nat): byte
    requires d <= 9
  {
    0x30 + d
  }

  function HexByte(d: nat): byte
    requires d < 16
  {
    if d < 10 then 0x30 + d else 0x37 + d
  }

  function HexValue(b: byte): Option<nat> {
    if 0x30 <= b <= 0x39 then Some(b - 0x30)
    else if 0x41 <= b <= 0x46 then Some(b - 0x37)
    else if 0x61 <= b <= 0x66 then Some(b - 0x57)
    else None
  }

  /** dir.rs:1096-1108 */
  function Hex(x: nat): (h: seq<byte>)
    requires x < CHECKSUMS
    ensures |h| == 4
  {
    [HexByte(x / 0x1000), HexByte(x / 0x100 % 16), HexByte(x / 16 % 16), HexByte(x % 16)]
  }

  function Join(high: Option<nat>, b: byte): Option<nat> {
    if high.Some? && HexValue(b).Some? then Some(16 * high.value + HexValue(b).value) else None
  }

  /** `from_str_radix` of four bytes: a leading plus sign and lower case are accepted. */
  function FromHex(h: seq<byte>): Option<nat>
    requires |h| == 4
  {
    Join(Join(Join(if h[0] == 0x2B then Some(0) else HexValue(h[0]), h[1]), h[2]), h[3])
  }

  lemma DigitReadsBack(d: nat)
    requires d < 16
    ensures HexValue(HexByte(d)) == Some(d) && HexByte(d) != 0x2B
  {
  }

  lemma FourDigits(x: nat)
    requires x < CHECKSUMS
    ensures x / 0x1000 < 16 && 16 * (16 * (16 * (x / 0x1000) + x / 0x100 % 16) + x / 16 % 16) + x % 16 == x
  {
    assert x / 0x100 == x / 16 / 16;
    assert x / 0x1000 == x / 0x100 / 16;
  }

  lemma HexReadsBack(x: nat)
    requires x < CHECKSUMS
    ensures FromHex(Hex(x)) == Some(x)
  {
    hide HexByte, HexValue;
    FourDigits(x);
    DigitReadsBack(x / 0x1000);
    DigitReadsBack(x / 0x100 % 16);
    DigitReadsBack(x / 16 % 16);
    DigitReadsBack(x % 16);
  }

  // ---- The generator ----

  datatype State = State(chksum: nat, long: set<nat>, short: set<nat>, fits: bool, lossy: bool, exact: bool,
    baseLen: nat, name: Name)

  predicate StateOk(g: State) { g.chksum < CHECKSUMS && g.baseLen <= 8 }

  /** The digit of `s` if it has the form of a long prefix, a tilde and a digit (dir.rs:1001-1015). */
  function LongDigit(g: State, s: Name): Option<nat> {
    var n := Min(g.baseLen, 6);
    if s[n] == TILDE && s[..n] == g.name[..n] && s[8..] == g.name[8..] then Digit(s[n + 1]) else None
  }

  /** The checksum and digit of `s` if it has the form of a short prefix, a checksum, a tilde and a
      digit (dir.rs:1017-1037). */
  function ShortKey(g: State, s: Name): Option<(nat, nat)> {
    var n := Min(g.baseLen, 2);
    if s[n + 4] == TILDE && Digit(s[n + 5]).Some? && s[..n] == g.name[..n] && s[8..] == g.name[8..]
      && FromHex(s[n..n + 4]).Some?
    then Some((FromHex(s[n..n + 4]).value, Digit(s[n + 5]).value))
    else None
  }

  /** The digit that a name takes in the long form. */
  function LongOf(g: State, s: Name): set<nat> { if LongDigit(g, s).Some? then {LongDigit(g, s).value} else {} }

  /** The digit that a name takes in the short form with the checksum of the generator. */
  function ShortOf(g: State, s: Name): set<nat> {
    if ShortKey(g, s).Some? && ShortKey(g, s).value.0 == g.chksum then {ShortKey(g, s).value.1} else {}
  }

  /** dir.rs:1078-1094 */
  function Build(g: State, d: nat, withChecksum: bool): (s: seq<byte>)
    requires StateOk(g) && 1 <= d <= 9
    ensures |s| == 11
  {
    var head := if withChecksum then g.name[..Min(g.baseLen, 2)] + Hex(g.chksum) else g.name[..Min(g.baseLen, 6)];
    head + [TILDE, DigitByte(d)] + seq(6 - |head|, _ => 0x20) + g.name[8..]
  }

  lemma BuildLong(g: State, d: nat)
    requires StateOk(g) && 1 <= d <= 9
    ensures LongDigit(g, Build(g, d, false)) == Some(d)
  {
    var n := Min(g.baseLen, 6);
    var s := Build(g, d, false);
    assert s[..n] == g.name[..n] && s[8..] == g.name[8..];
  }

  lemma BuildShort(g: State, d: nat)
    requires StateOk(g) && 1 <= d <= 9
    ensures ShortKey(g, Build(g, d, true)) == Some((g.chksum, d))
  {
    var n := Min(g.baseLen, 2);
    var s := Build(g, d, true);
    assert s[..n] == g.name[..n] && s[8..] == g.name[8..] && s[n..n + 4] == Hex(g.chksum);
    HexReadsBack(g.chksum);
  }

  /** The digits found among the first `k` names of the directory. */
  function LongDigits(g: State, dir: seq<Name>, k: nat): set<nat>
    requires k <= |dir|
  {
    set i | 0 <= i < k && LongDigit(g, dir[i]).Some? :: LongDigit(g, dir[i]).value
  }

  function ShortDigits(g: State, dir: seq<Name>, k: nat): set<nat>
    requires k <= |dir|
  {
    set i | 0 <= i < k && ShortKey(g, dir[i]).Some?
      && ShortKey(g, dir[i]).value.0 == g.chksum :: ShortKey(g, dir[i]).value.1
  }

  /** `Wrong`: entry `k` has the name, but is a file where a directory is expected, or the other way
      round.  `Endless`: the source never returns. */
  datatype Outcome = Existing(k: nat) | Wrong(k: nat) | Short(name: Name) | Endless

  datatype Search = Found(k: nat) | Mismatch(k: nat) | Missing

  /** The generator cannot make a name: the digits of both forms are taken, and the name does not do
      as it is. */
  predicate Stuck(g: State) {
    && (forall d :: 1 <= d <= 4 ==> d in g.long) && (forall d :: 1 <= d <= 9 ==> d in g.short)
    && (g.lossy || !g.fits || g.exact)
  }

  class Generator {
    var g: State

    constructor (chksum: nat, fits: bool, lossy: bool, baseLen: nat, name: Name)
      requires chksum < CHECKSUMS && baseLen <= 8
      ensures g == State(chksum, {}, {}, fits, lossy, false, baseLen, name)
    {
      g := State(chksum, {}, {}, fits, lossy, false, baseLen, name);
    }

    /** dir.rs:989-999 */
    method AddExisting(s: Name)
      modifies this
      ensures g == old(g).(exact := old(g).exact || s == old(g).name,
                           long := old(g).long + LongOf(old(g), s), short := old(g).short + ShortOf(old(g), s))
    {
      var long, short := LongDigit(g, s), ShortKey(g, s);
      if s == g.name {
        g := g.(exact := true);
      }
      if long.Some? {
        g := g.(long := g.long + {long.value});
      }
      if short.Some? && short.value.0 == g.chksum {
        g := g.(short := g.short + {short.value.1});
      }
    }

    /** dir.rs:1048-1068; fails when every digit is taken. */
    method Generate() returns (r: Option<Name>)
      requires StateOk(g)
      ensures r == None <==> Stuck(g)
      ensures r.Some? ==> || (r.value == g.name && !g.exact)
                          || (exists d :: 1 <= d <= 4 && d !in g.long && r.value == Build(g, d, false))
                          || (exists d :: 1 <= d <= 9 && d !in g.short && r.value == Build(g, d, true))
    {
      if !g.lossy && g.fits && !g.exact {
        return Some(g.name);
      }
      for i := 1 to 5
        invariant forall d :: 1 <= d < i ==> d in g.long
      {
        if i !in g.long {
          return Some(Build(g, i, false));
        }
      }
      for i := 1 to 10
        invariant forall d :: 1 <= d < i ==> d in g.short
      {
        if i !in g.short {
          return Some(Build(g, i, true));
        }
      }
      r := None;
    }

    /** dir.rs:1070-1076 */
    method NextIteration()
      requires StateOk(g)
      modifies this
      ensures g == old(g).(chksum := (old(g).chksum + 1) % CHECKSUMS, long := {}, short := {})
    {
      g := g.(chksum := (g.chksum + 1) % CHECKSUMS, long := {}, short := {});
    }
  }

  // ---- No collision ----

  /** The generator has seen all names of the directory. */
  ghost predicate Scanned(g: State, dir: seq<Name>, k: nat)
    requires k <= |dir|
  {
    && g.long == LongDigits(g, dir, k) && g.short == ShortDigits(g, dir, k)
    && forall i :: 0 <= i < k && dir[i] == g.name ==> g.exact
  }

  lemma LongTaken(g: State, dir: seq<Name>, i: nat, d: nat)
    requires i < |dir| && LongDigit(g, dir[i]) == Some(d)
    ensures d in LongDigits(g, dir, |dir|)
  {
  }

  lemma ShortTaken(g: State, dir: seq<Name>, i: nat, d: nat)
    requires i < |dir| && ShortKey(g, dir[i]) == Some((g.chksum, d))
    ensures d in ShortDigits(g, dir, |dir|)
  {
  }

  /** A name with a digit that was not found is not in the directory. */
  lemma BuiltIsNew(g: State, dir: seq<Name>, d: nat)
    requires StateOk(g) && Scanned(g, dir, |dir|) && 1 <= d <= 9
    ensures d !in g.long ==> Build(g, d, false) !in dir
    ensures d !in g.short ==> Build(g, d, true) !in dir
  {
    hide Build, LongDigit, ShortKey, LongDigits, ShortDigits;
    BuildLong(g, d);
    BuildShort(g, d);
    forall i | 0 <= i < |dir|
      ensures d !in g.long ==> dir[i] != Build(g, d, false)
      ensures d !in g.short ==> dir[i] != Build(g, d, true)
    {
      if dir[i] == Build(g, d, false) {
        LongTaken(g, dir, i, d);
      }
      if dir[i] == Build(g, d, true) {
        ShortTaken(g, dir, i, d);
      }
    }
  }

  // ---- Every round that fails uses up nine names ----

  /** Name `i` carries checksum `c` and a digit from 1 to `n`. */
  predicate Carries(g: State, dir: seq<Name>, i: nat, c: nat, n: nat) {
    i < |dir| && ShortKey(g, dir[i]).Some? && ShortKey(g, dir[i]).value.0 == c && 1 <= ShortKey(g, dir[i]).value.1 <= n
  }

  lemma {:induction false} NineNames(g: State, dir: seq<Name>, n: nat) returns (found: set<nat>)
    requires n <= 9 && forall d :: 1 <= d <= 9 ==> d in ShortDigits(g, dir, |dir|)
    ensures |found| == n && forall i :: i in found ==> Carries(g, dir, i, g.chksum, n)
  {
    if n == 0 {
      found := {};
    } else {
      var less := NineNames(g, dir, n - 1);
      assert n in ShortDigits(g, dir, |dir|);
      var i :| 0 <= i < |dir| && ShortKey(g, dir[i]).Some? && ShortKey(g, dir[i]).value.0 == g.chksum
        && ShortKey(g, dir[i]).value.1 == n;
      assert i !in less;
      found := less + {i};
    }
  }

  lemma {:induction false} SmallSet(s: set<nat>, n: nat)
    requires forall x :: x in s ==> x < n
    ensures |s| <= n
  {
    if n == 0 {
      assert s == {};
    } else {
      var rest := s - {n - 1};
      SmallSet(rest, n - 1);
      assert s <= rest + {n - 1};
      SubsetSize(s, rest, n - 1);
    }
  }

  lemma SubsetSize(s: set<nat>, rest: set<nat>, x: nat)
    requires rest == s - {x}
    ensures |s| <= |rest| + 1
  {
    if x in s {
      assert s == rest + {x};
    } else {
      assert s == rest;
    }
  }

  function Nth(c: nat, n: nat): nat { (c + n) % CHECKSUMS }

  lemma NthDistinct(c: nat, j: nat, n: nat)
    requires j < n < CHECKSUMS
    ensures Nth(c, j) != Nth(c, n)
  {
  }

  /** The names that made the first `n` rounds fail. */
  ghost predicate UsedUp(g: State, dir: seq<Name>, used: set<nat>, c: nat, n: nat) {
    && |used| == 9 * n
    && forall i :: i in used ==> exists j :: 0 <= j < n && Carries(g, dir, i, Nth(c, j), 9)
  }

  lemma MoreUsed(g: State, dir: seq<Name>, used: set<nat>, c: nat, n: nat) returns (used': set<nat>)
    requires UsedUp(g, dir, used, c, n) && n < CHECKSUMS && g.chksum == Nth(c, n)
    requires forall d :: 1 <= d <= 9 ==> d in ShortDigits(g, dir, |dir|)
    ensures UsedUp(g, dir, used', c, n + 1) && 9 * (n + 1) <= |dir|
  {
    hide Nth, ShortDigits, ShortKey;
    var found := NineNames(g, dir, 9);
    forall i | i in used ensures i !in found {
      var j :| 0 <= j < n && Carries(g, dir, i, Nth(c, j), 9);
      NthDistinct(c, j, n);
    }
    used' := used + found;
    assert |used'| == |used| + |found|;
    forall i | i in used' ensures exists j :: 0 <= j < n + 1 && Carries(g, dir, i, Nth(c, j), 9) {
      if i in used {
        var j :| 0 <= j < n && Carries(g, dir, i, Nth(c, j), 9);
        assert Carries(g, dir, i, Nth(c, j), 9);
      } else {
        assert Carries(g, dir, i, Nth(c, n), 9);
      }
    }
    SmallSet(used', |dir|);
  }

  /** One pass over the directory (dir.rs:110-137): `matches` says which entries have the name that is
      looked for, `dirs` which are directories, and `wanted` what is expected, if anything. */
  method FindEntry(gen: Generator, dir: seq<Name>, matches: seq<bool>, dirs: seq<bool>, wanted: Option<bool>)
    returns (r: Search)
    requires |matches| == |dirs| == |dir| && gen.g.long == {} && gen.g.short == {}
    modifies gen
    ensures gen.g == old(gen.g).(exact := gen.g.exact, long := gen.g.long, short := gen.g.short)
    ensures !r.Missing? ==> r.k < |dir| && matches[r.k] && forall i :: 0 <= i < r.k ==> !matches[i]
    ensures !r.Missing? ==> (r.Mismatch? <==> wanted.Some? && wanted.value != dirs[r.k])
    ensures r == Missing ==> Scanned(gen.g, dir, |dir|) && forall i :: 0 <= i < |dir| ==> !matches[i]
    ensures gen.g.exact ==> old(gen.g.exact) || gen.g.name in dir
  {
    hide LongDigit, ShortKey;
    var k := 0;
    while k < |dir|
      invariant k <= |dir| && gen.g == old(gen.g).(exact := gen.g.exact, long := gen.g.long, short := gen.g.short)
      invariant Scanned(gen.g, dir, k) && forall i :: 0 <= i < k ==> !matches[i]
      invariant gen.g.exact ==> old(gen.g.exact) || gen.g.name in dir
    {
      if matches[k] {
        return if wanted.Some? && wanted.value != dirs[k] then Mismatch(k) else Found(k);
      }
      ghost var g := gen.g;
      gen.AddExisting(dir[k]);
      ScanOne(g, gen.g, dir, k);
      k := k + 1;
    }
    r := Missing;
  }

  lemma SameForms(g: State, g': State, s: Name)
    requires g'.baseLen == g.baseLen && g'.name == g.name
    ensures LongDigit(g', s) == LongDigit(g, s) && ShortKey(g', s) == ShortKey(g, s)
  {
  }

  lemma ScanOne(g: State, g': State, dir: seq<Name>, k: nat)
    requires k < |dir| && Scanned(g, dir, k)
    requires g' == g.(exact := g.exact || dir[k] == g.name,
                      long := g.long + LongOf(g, dir[k]), short := g.short + ShortOf(g, dir[k]))
    ensures Scanned(g', dir, k + 1)
  {
    hide LongDigit, ShortKey;
    forall i | 0 <= i < |dir|
      ensures LongDigit(g', dir[i]) == LongDigit(g, dir[i]) && ShortKey(g', dir[i]) == ShortKey(g, dir[i])
    {
      SameForms(g, g', dir[i]);
    }
    assert g'.long == LongDigits(g', dir, k + 1);
    assert g'.short == ShortDigits(g', dir, k + 1);
  }

  predicate ShortUsed(g: State, dir: seq<Name>, c: nat, d: nat) {
    exists i :: 0 <= i < |dir| && ShortKey(g, dir[i]) == Some((c, d))
  }

  predicate ChecksumUsed(g: State, dir: seq<Name>, c: nat) { forall d :: 1 <= d <= 9 ==> ShortUsed(g, dir, c, d) }

  predicate LongUsed(g: State, dir: seq<Name>) {
    && (forall d :: 1 <= d <= 4 ==> d in LongDigits(g, dir, |dir|))
    && (g.lossy || !g.fits || g.name in dir)
  }

  /** No name is left: all digits are taken, with each of the 65536 checksums. */
  predicate NoNameLeft(g: State, dir: seq<Name>) {
    LongUsed(g, dir) && forall c :: 0 <= c < CHECKSUMS ==> ChecksumUsed(g, dir, c)
  }

  /** After a pass, the generator is stuck exactly if this checksum and the long form are used up. */
  lemma StuckIff(g: State, g': State, dir: seq<Name>)
    requires Scanned(g', dir, |dir|)
    requires g' == g.(exact := g'.exact, long := g'.long, short := g'.short, chksum := g'.chksum)
    requires g'.exact ==> g.name in dir
    ensures Stuck(g') <==> LongUsed(g, dir) && ChecksumUsed(g, dir, g'.chksum)
  {
    hide LongDigit, ShortKey;
    forall i | 0 <= i < |dir|
      ensures LongDigit(g', dir[i]) == LongDigit(g, dir[i]) && ShortKey(g', dir[i]) == ShortKey(g, dir[i])
    {
      SameForms(g, g', dir[i]);
    }
    assert g'.long == LongDigits(g, dir, |dir|);
    forall d ensures d in g'.short <==> ShortUsed(g, dir, g'.chksum, d) {
      if i :| 0 <= i < |dir| && ShortKey(g, dir[i]) == Some((g'.chksum, d)) {
        assert ShortKey(g', dir[i]).value.1 in ShortDigits(g', dir, |dir|);
      }
    }
  }

  /** dir.rs:139-166: a matching entry, or a short name that no entry has, after at most one round
      more than a ninth of the number of entries; or no end, exactly if no name is left.  After 65536
      rounds the generator is in the state it started from. */
  method CheckForExistence(gen: Generator, dir: seq<Name>, matches: seq<bool>, dirs: seq<bool>, wanted: Option<bool>)
    returns (r: Outcome, ghost rounds: nat)
    requires |matches| == |dirs| == |dir| && StateOk(gen.g) && gen.g.long == {} && gen.g.short == {} && !gen.g.exact
    modifies gen
    ensures r.Existing? || r.Wrong? ==> r.k < |dir| && matches[r.k] && forall i :: 0 <= i < r.k ==> !matches[i]
    ensures r.Existing? || r.Wrong? ==> (r.Wrong? <==> wanted.Some? && wanted.value != dirs[r.k])
    ensures r.Short? ==> r.name !in dir && forall i :: 0 <= i < |dir| ==> !matches[i]
    ensures r == Endless <==> (forall i :: 0 <= i < |dir| ==> !matches[i]) && NoNameLeft(old(gen.g), dir)
    ensures r == Endless ==> rounds == CHECKSUMS && 9 * CHECKSUMS <= |dir| && gen.g == old(gen.g).(exact := gen.g.exact)
    ensures r != Endless ==> 1 <= rounds <= |dir| / 9 + 1
  {
    hide LongDigit, ShortKey, LongDigits, ShortDigits, Build, Nth, UsedUp, LongUsed, ChecksumUsed, Stuck;
    ghost var g := gen.g;
    ghost var used: set<nat> := {};
    rounds := 0;
    NoneUsed(g, dir);
    assert g.chksum == Nth(g.chksum, 0) by { NthZero(g.chksum); }
    var round := 0;
    while round < CHECKSUMS
      invariant 0 <= round == rounds <= CHECKSUMS
      invariant gen.g == g.(exact := gen.g.exact, chksum := Nth(g.chksum, rounds)) && StateOk(gen.g)
      invariant UsedUp(g, dir, used, g.chksum, rounds) && 9 * rounds <= |dir| && (gen.g.exact ==> g.name in dir)
      invariant rounds > 0 ==> LongUsed(g, dir) && forall i :: 0 <= i < |dir| ==> !matches[i]
      invariant forall j :: 0 <= j < rounds ==> ChecksumUsed(g, dir, Nth(g.chksum, j))
    {
      var found := FindEntry(gen, dir, matches, dirs, wanted);
      if !found.Missing? {
        rounds := rounds + 1;
        return if found.Found? then Existing(found.k) else Wrong(found.k), rounds;
      }
      StuckIff(g, gen.g, dir);
      var name := gen.Generate();
      if name.Some? {
        GeneratedIsNew(gen.g, dir, name.value);
        rounds := rounds + 1;
        return Short(name.value), rounds;
      }
      used := SameUsed(g, gen.g, dir, used, g.chksum, rounds);
      StuckShort(gen.g, dir);
      used := MoreUsed(gen.g, dir, used, g.chksum, rounds);
      used := SameUsed(gen.g, g, dir, used, g.chksum, rounds + 1);
      NthNext(g.chksum, rounds);
      gen.NextIteration();
      round, rounds := round + 1, rounds + 1;
    }
    forall c | 0 <= c < CHECKSUMS ensures ChecksumUsed(g, dir, c) {
      var j := NthOnto(g.chksum, c);
      assert ChecksumUsed(g, dir, Nth(g.chksum, j));
    }
    NthRound(g.chksum);
    r := Endless;
  }

  lemma StuckShort(g: State, dir: seq<Name>)
    requires Stuck(g) && Scanned(g, dir, |dir|)
    ensures forall d :: 1 <= d <= 9 ==> d in ShortDigits(g, dir, |dir|)
  {
  }

  lemma NthOnto(c: nat, c': nat) returns (j: nat)
    requires c < CHECKSUMS && c' < CHECKSUMS
    ensures j < CHECKSUMS && Nth(c, j) == c'
  {
    j := if c <= c' then c' - c else c' + CHECKSUMS - c;
  }

  lemma NthRound(c: nat)
    requires c < CHECKSUMS
    ensures Nth(c, CHECKSUMS) == c
  {
  }

  lemma GeneratedIsNew(g: State, dir: seq<Name>, name: Name)
    requires StateOk(g) && Scanned(g, dir, |dir|)
    requires || (name == g.name && !g.exact)
             || (exists d :: 1 <= d <= 4 && d !in g.long && name == Build(g, d, false))
             || (exists d :: 1 <= d <= 9 && d !in g.short && name == Build(g, d, true))
    ensures name !in dir
  {
    hide LongDigits, ShortDigits, Build;
    if name != g.name || g.exact {
      if d :| 1 <= d <= 4 && d !in g.long && name == Build(g, d, false) {
        BuiltIsNew(g, dir, d);
      } else {
        var d :| 1 <= d <= 9 && d !in g.short && name == Build(g, d, true);
        BuiltIsNew(g, dir, d);
      }
    }
  }

  lemma NoneUsed(g: State, dir: seq<Name>)
    ensures UsedUp(g, dir, {}, g.chksum, 0)
  {
  }

  lemma NthZero(c: nat)
    requires c < CHECKSUMS
    ensures Nth(c, 0) == c
  {
  }

  lemma NthNext(c: nat, n: nat)
    ensures (Nth(c, n) + 1) % CHECKSUMS == Nth(c, n + 1) < CHECKSUMS
  {
  }

  /** Which names carry which checksum depends on the base name only. */
  lemma SameUsed(g: State, g': State, dir: seq<Name>, used: set<nat>, c: nat, n: nat) returns (used': set<nat>)
    requires UsedUp(g, dir, used, c, n) && g'.baseLen == g.baseLen && g'.name == g.name
    ensures used' == used && UsedUp(g', dir, used', c, n)
  {
    hide ShortKey, LongDigit, Nth;
    used' := used;
    forall i | i in used ensures exists j :: 0 <= j < n && Carries(g', dir, i, Nth(c, j), 9) {
      var j :| 0 <= j < n && Carries(g, dir, i, Nth(c, j), 9);
      SameForms(g, g', dir[i]);
      assert Carries(g', dir, i, Nth(c, j), 9);
    }
  }

  // ---- A search without end ----

  /** A directory with every digit of every checksum, and the first four of the long form. */
  function Crowded(g: State): seq<Name>
    requires StateOk(g)
  {
    seq(9 * CHECKSUMS, i requires 0 <= i < 9 * CHECKSUMS => ShortNumber(g, i))
    + seq(4, i requires 0 <= i < 4 => Build(g, i + 1, false))
  }

  function ShortNumber(g: State, i: nat): Name
    requires StateOk(g) && i < 9 * CHECKSUMS
  {
    Build(g.(chksum := i / 9), i % 9 + 1, true)
  }

  lemma CrowdedShort(g: State, c: nat, d: nat)
    requires StateOk(g) && c < CHECKSUMS && 1 <= d <= 9
    ensures ShortUsed(g, Crowded(g), c, d)
  {
    hide Build, ShortKey;
    var i := 9 * c + d - 1;
    assert i / 9 == c && i % 9 == d - 1;
    assert Crowded(g)[i] == ShortNumber(g, i);
    BuildShort(g.(chksum := c), d);
    SameForms(g.(chksum := c), g, Crowded(g)[i]);
  }

  lemma CrowdedLong(g: State, d: nat)
    requires StateOk(g) && 1 <= d <= 4
    ensures d in LongDigits(g, Crowded(g), |Crowded(g)|)
  {
    hide Build, LongDigit;
    var i := 9 * CHECKSUMS + d - 1;
    assert Crowded(g)[i] == Build(g, d, false);
    BuildLong(g, d);
    LongTaken(g, Crowded(g), i, d);
  }

  /** Looking in such a directory for a name whose base name has more than eight bytes, none of them
      replaced, such as "ABCDEFGHI": the generator has its first eight bytes and its checksum. */
  method SearchForever(chksum: nat, name: Name) returns (r: Outcome)
    requires chksum < CHECKSUMS
    ensures r == Endless
  {
    hide Build, LongDigit, ShortKey, Crowded, LongDigits, ShortUsed;
    var gen := new Generator(chksum, false, false, 8, name);
    ghost var g := gen.g;
    var dir := Crowded(gen.g);
    forall c, d | 0 <= c < CHECKSUMS && 1 <= d <= 9 ensures ShortUsed(g, dir, c, d) {
      CrowdedShort(g, c, d);
    }
    forall d | 1 <= d <= 4 ensures d in LongDigits(g, dir, |dir|) {
      CrowdedLong(g, d);
    }
    var none := seq(|dir|, _ => false);
    ghost var rounds;
    r, rounds := CheckForExistence(gen, dir, none, none, None);
  }
}
