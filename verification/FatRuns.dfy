/** Files on a FAT volume over whole runs of allocation, freeing and truncation. */
module FatRuns {
  import opened Common
  import opened FatEntry
  import opened FatTable

  function Last(s: seq<nat>): nat
    requires |s| > 0
  {
    s[|s| - 1]
  }

  /** A file is a chain of allocable clusters that ends properly. */
  predicate IsFile(t: Table, s: seq<nat>) {
    IsChain(t, s) && t[Last(s)] == End && forall i :: 0 <= i < |s| ==> RESERVED <= s[i]
  }

  predicate Volume(t: Table, files: seq<seq<nat>>) {
    && |t| >= RESERVED
    && (forall k :: 0 <= k < |files| ==> IsFile(t, files[k]))
    && (forall j, k :: 0 <= j < k < |files| ==> Last(files[j]) != Last(files[k]))
  }

  lemma FileNotFree(t: Table, s: seq<nat>, i: nat)
    requires IsFile(t, s) && i < |s|
    ensures !t[s[i]].Free?
  {
    if i < |s| - 1 {
      assert t[s[i]] == Next(s[i + 1]);
    }
  }

  /** No two files share a cluster. */
  lemma FilesDisjoint(t: Table, files: seq<seq<nat>>, j: nat, k: nat, a: nat, b: nat)
    requires Volume(t, files) && j < |files| && k < |files| && j != k && a < |files[j]| && b < |files[k]|
    ensures files[j][a] != files[k][b]
  {
    var (lo, hi) := if j < k then (j, k) else (k, j);
    assert Last(files[lo]) != Last(files[hi]);
    ChainsDisjoint(t, files[j], files[k], a, b);
  }

  // ---- Runs ----

  datatype Op =
    | Extend(k: nat, c: nat, n: nat)   // append the free run `[c, c + n)` to file `k`
    | Create(c: nat, n: nat)           // a new file of the free run
    | Delete(k: nat)
    | Cut(k: nat, i: nat)              // truncate file `k` after its cluster `i`

  datatype State = State(t: Table, files: seq<seq<nat>>, count: nat)

  /** The operations on files, with the free runs that the allocator may find. */
  predicate Enabled(st: State, op: Op) {
    match op
    case Extend(k, c, n) => k < |st.files| && InFile(st, k, |st.files[k]| - 1) && n > 0 && FreeRun(st.t, c, n)
    case Create(c, n) => n > 0 && FreeRun(st.t, c, n)
    case Delete(k) => k < |st.files| && InFile(st, k, 0)
    case Cut(k, i) => k < |st.files| && InFile(st, k, i)
  }

  /** Cluster `i` of file `k` exists; so do the first and last cluster of each file of a volume. */
  predicate InFile(st: State, k: nat, i: int)
    requires k < |st.files|
  {
    0 <= i < |st.files[k]| && st.files[k][i] < |st.t|
  }

  lemma FileEnds(st: State, k: nat)
    requires Volume(st.t, st.files) && k < |st.files|
    ensures InFile(st, k, 0) && InFile(st, k, |st.files[k]| - 1)
  {
    assert IsFile(st.t, st.files[k]);
  }

  function Sub(a: nat, b: nat): nat { if a < b then 0 else a - b }

  /** Table and recorded count as `Fat.Allocate`, `Fat.FreeChain` and `Fat.Truncate` leave them. */
  function Do(st: State, op: Op): State
    requires Enabled(st, op)
  {
    match op
    case Extend(k, c, n) =>
      State(Allocated(st.t, Some(Last(st.files[k])), c, n), st.files[k := st.files[k] + Run(c, n)], Sub(st.count, n))
    case Create(c, n) => State(Allocated(st.t, None, c, n), st.files + [Run(c, n)], Sub(st.count, n))
    case Delete(k) =>
      var (t, freed) := FreeWalk(st.t, st.files[k][0]);
      State(t, st.files[..k] + st.files[k + 1..], st.count + freed.GetOr(0))
    case Cut(k, i) => State(st.t[st.files[k][i] := End], st.files[k := st.files[k][..i + 1]], st.count)
  }

  ghost predicate Sound(st: State) { Volume(st.t, st.files) && st.count == CountFree(st.t) }

  lemma OtherFileKept(t: Table, prev: Option<nat>, c: nat, n: nat, s: seq<nat>)
    requires FreeRun(t, c, n) && n > 0 && (prev.Some? ==> prev.value < |t|)
    requires IsFile(t, s) && forall i :: 0 <= i < |s| ==> prev != Some(s[i])
    ensures IsFile(Allocated(t, prev, c, n), s) && Last(s) != c + n - 1
  {
    forall i | 0 <= i < |s| ensures !t[s[i]].Free? {
      FileNotFree(t, s, i);
    }
    AllocateKeepsOthers(t, prev, c, n, s);
    assert Run(c, n)[n - 1] == c + n - 1;
    assert s[|s| - 1] !in Run(c, n);
  }

  lemma NewFile(t: Table, prev: Option<nat>, c: nat, n: nat)
    requires FreeRun(t, c, n) && n > 0 && (prev.Some? ==> prev.value < |t|)
    ensures IsFile(Allocated(t, prev, c, n), Run(c, n)) && Last(Run(c, n)) == c + n - 1
  {
    RunIsChain(t, prev, c, n);
  }

  lemma ExtendKeeps(st: State, k: nat, c: nat, n: nat)
    requires Sound(st) && Enabled(st, Extend(k, c, n))
    ensures Sound(Do(st, Extend(k, c, n)))
  {
    hide Allocated, CountFree;
    var s := st.files[k];
    var prev := Some(Last(s));
    assert IsFile(st.t, s) && Last(s) < |st.t| by { LastIn(st.t, s); }
    var st' := Do(st, Extend(k, c, n));
    forall i | 0 <= i < |s| ensures !st.t[s[i]].Free? {
      FileNotFree(st.t, s, i);
    }
    AllocateExtends(st.t, s, c, n);
    NewFile(st.t, prev, c, n);
    assert Last(s + Run(c, n)) == c + n - 1;
    forall j | 0 <= j < |st.files| && j != k ensures IsFile(st'.t, st.files[j]) && Last(st.files[j]) != c + n - 1 {
      forall i | 0 <= i < |st.files[j]| ensures prev != Some(st.files[j][i]) {
        FilesDisjoint(st.t, st.files, k, j, |s| - 1, i);
      }
      OtherFileKept(st.t, prev, c, n, st.files[j]);
    }
    assert IsFile(st'.t, s + Run(c, n)) by { ExtendedFile(st.t, s, c, n); }
    AllocatedCount(st.t, prev, c, n);
  }

  lemma LastIn(t: Table, s: seq<nat>)
    requires IsChain(t, s)
    ensures Last(s) < |t|
  {
  }

  lemma ExtendedFile(t: Table, s: seq<nat>, c: nat, n: nat)
    requires IsFile(t, s) && FreeRun(t, c, n) && n > 0 && Last(s) < |t|
    requires IsChain(Allocated(t, Some(Last(s)), c, n), s + Run(c, n))
    ensures IsFile(Allocated(t, Some(Last(s)), c, n), s + Run(c, n))
  {
  }

  lemma CreateKeeps(st: State, c: nat, n: nat)
    requires Sound(st) && Enabled(st, Create(c, n))
    ensures Sound(Do(st, Create(c, n)))
  {
    hide Allocated, CountFree;
    NewFile(st.t, None, c, n);
    forall j | 0 <= j < |st.files|
      ensures IsFile(Allocated(st.t, None, c, n), st.files[j]) && Last(st.files[j]) != c + n - 1
    {
      OtherFileKept(st.t, None, c, n, st.files[j]);
    }
    AllocatedCount(st.t, None, c, n);
  }

  lemma DeleteKeeps(st: State, k: nat)
    requires Sound(st) && Enabled(st, Delete(k))
    ensures Sound(Do(st, Delete(k)))
  {
    hide FreeWalk, CountFree, EndsFree, WalkInside;
    var s := st.files[k];
    FreeWalkChain(st.t, s);
    ChainEnds(st.t, s);
    FreeWalkCount(st.t, s[0]);
    var t := FreeWalk(st.t, s[0]).0;
    forall j | 0 <= j < |st.files| && j != k ensures IsFile(t, st.files[j]) {
      forall i | 0 <= i < |st.files[j]| ensures t[st.files[j][i]] == st.t[st.files[j][i]] {
        NotInFile(st.t, st.files, j, k, i);
      }
      ChainFrame(st.t, t, st.files[j]);
    }
  }

  lemma NotInFile(t: Table, files: seq<seq<nat>>, j: nat, k: nat, i: nat)
    requires Volume(t, files) && j < |files| && k < |files| && j != k && i < |files[j]|
    ensures files[j][i] !in files[k]
  {
    forall b | 0 <= b < |files[k]| ensures files[k][b] != files[j][i] {
      FilesDisjoint(t, files, j, k, i, b);
    }
  }

  lemma CutKeeps(st: State, k: nat, i: nat)
    requires Sound(st) && Enabled(st, Cut(k, i))
    ensures Sound(Do(st, Cut(k, i)))
  {
    hide CountFree;
    var s := st.files[k];
    var t := st.t[s[i] := End];
    assert IsFile(t, s[..i + 1]) by { CutFile(st.t, s, i); }
    forall j | 0 <= j < |st.files| && j != k ensures IsFile(t, st.files[j]) && Last(st.files[j]) != s[i] {
      forall a | 0 <= a < |st.files[j]| ensures st.files[j][a] != s[i] {
        FilesDisjoint(st.t, st.files, j, k, a, i);
      }
      ChainFrame(st.t, t, st.files[j]);
    }
    FileNotFree(st.t, s, i);
    CountFreeUpdate(st.t, s[i], End);
  }

  lemma CutFile(t: Table, s: seq<nat>, i: nat)
    requires IsFile(t, s) && i < |s|
    ensures IsFile(t[s[i] := End], s[..i + 1])
  {
    forall a | 0 <= a < i ensures s[a] != s[i] {
      ChainDistinct(t, s, a, i);
    }
  }

  predicate Legal(st: State, ops: seq<Op>)
    decreases |ops|
  {
    ops == [] || (Enabled(st, ops[0]) && Legal(Do(st, ops[0]), ops[1..]))
  }

  function Final(st: State, ops: seq<Op>): State
    requires Legal(st, ops)
    decreases |ops|
  {
    if ops == [] then st else Final(Do(st, ops[0]), ops[1..])
  }

  lemma OpKeeps(st: State, op: Op)
    requires Sound(st) && Enabled(st, op)
    ensures Sound(Do(st, op))
  {
    hide Sound, Do, Enabled;
    match op {
      case Extend(k, c, n) => ExtendKeeps(st, k, c, n);
      case Create(c, n) => CreateKeeps(st, c, n);
      case Delete(k) => DeleteKeeps(st, k);
      case Cut(k, i) => CutKeeps(st, k, i);
    }
  }

  /** Over every sequence of operations on files, the files stay well-formed and disjoint, and the
      recorded count is the number of free clusters. */
  lemma {:induction false} FilesKept(st: State, ops: seq<Op>)
    requires Sound(st) && Legal(st, ops)
    ensures Sound(Final(st, ops))
    decreases |ops|
  {
    hide Do, Enabled;
    if ops != [] {
      OpKeeps(st, ops[0]);
      FilesKept(Do(st, ops[0]), ops[1..]);
    }
  }

  // ---- The operations make such runs ----

  /** What a user of the file system asks for: files are given by their numbers. */
  datatype Request =
    | ExtendFile(k: nat, num: nat)
    | CreateFile(num: nat)
    | DeleteFile(k: nat)
    | CutFileAt(k: nat, i: nat)

  /** A volume with its files; if it does not record the count, the count is the right one. */
  ghost function StateOf(fs: FileSystem, files: seq<seq<nat>>): State
    reads fs, fs.fat
    requires fs.Valid()
  {
    State(fs.fat.T(), files, fs.freeCount.GetOr(CountFree(fs.fat.T())))
  }

  /** The operation was performed, or nothing was done. */
  ghost predicate Performed(st: State, op: Option<Op>, st': State) {
    if op.Some? then Enabled(st, op.value) && st' == Do(st, op.value) else st' == st
  }

  method Grow(fs: FileSystem, files: seq<seq<nat>>, k: nat, num: nat)
    returns (files': seq<seq<nat>>, ghost op: Option<Op>)
    requires fs.Valid() && Sound(StateOf(fs, files)) && k < |files| && num > 0
    modifies fs, fs.fat
    ensures fs.Valid() && Sound(StateOf(fs, files')) && Performed(old(StateOf(fs, files)), op, StateOf(fs, files'))
  {
    hide Volume, Sound, CountFree, Allocated, Pick, FreeRun, CountsPrev;
    ghost var st := StateOf(fs, files);
    SoundMeans(st);
    FileEnds(st, k);
    LastTaken(st, k);
    var r, n := fs.AllocCluster(Some(Last(files[k])), num);
    files', op := files, None;
    if r.Ok? {
      files', op := files[k := files[k] + Run(r.value, n)], Some(Extend(k, r.value, n));
      NotCounted(st.t, Some(Last(files[k])), r.value, n);
      OpKeeps(st, op.value);
      SoundMeans(Do(st, op.value));
    }
  }

  method NewFileOf(fs: FileSystem, files: seq<seq<nat>>, num: nat) returns (files': seq<seq<nat>>, ghost op: Option<Op>)
    requires fs.Valid() && Sound(StateOf(fs, files)) && num > 0
    modifies fs, fs.fat
    ensures fs.Valid() && Sound(StateOf(fs, files')) && Performed(old(StateOf(fs, files)), op, StateOf(fs, files'))
  {
    hide Volume, Sound, CountFree, Allocated, Pick, FreeRun, CountsPrev;
    ghost var st := StateOf(fs, files);
    SoundMeans(st);
    var r, n := fs.AllocCluster(None, num);
    files', op := files, None;
    if r.Ok? {
      files', op := files + [Run(r.value, n)], Some(Create(r.value, n));
      NotCounted(st.t, None, r.value, n);
      OpKeeps(st, op.value);
      SoundMeans(Do(st, op.value));
    }
  }

  method Remove(fs: FileSystem, files: seq<seq<nat>>, k: nat) returns (files': seq<seq<nat>>, ghost op: Op)
    requires fs.Valid() && Sound(StateOf(fs, files)) && k < |files|
    modifies fs, fs.fat
    ensures fs.Valid() && Sound(StateOf(fs, files'))
    ensures Performed(old(StateOf(fs, files)), Some(op), StateOf(fs, files'))
  {
    hide Volume, Sound, CountFree, FreeWalk, EndsFree, WalkInside, PassesAllocable;
    ghost var st := StateOf(fs, files);
    SoundMeans(st);
    FileEnds(st, k);
    op := Delete(k);
    WholeWalk(st, k);
    var _ := fs.FreeClusterChain(files[k][0]);
    files' := files[..k] + files[k + 1..];
    OpKeeps(st, op);
    SoundMeans(Do(st, op));
  }

  method Shorten(fs: FileSystem, files: seq<seq<nat>>, k: nat, i: nat) returns (files': seq<seq<nat>>, ghost op: Op)
    requires fs.Valid() && Sound(StateOf(fs, files)) && k < |files| && i < |files[k]|
    modifies fs, fs.fat
    ensures fs.Valid() && Sound(StateOf(fs, files'))
    ensures Performed(old(StateOf(fs, files)), Some(op), StateOf(fs, files'))
  {
    hide Volume, Sound, CountFree;
    ghost var st := StateOf(fs, files);
    SoundMeans(st);
    InVolume(st, k, i);
    op := Cut(k, i);
    var _ := fs.TruncateClusterChain(files[k][i]);
    files' := files[k := files[k][..i + 1]];
    OpKeeps(st, op);
    SoundMeans(Do(st, op));
  }

  /** One request; requests for files that do not exist, or for no clusters, are not made. */
  method Serve(fs: FileSystem, files: seq<seq<nat>>, request: Request)
    returns (files': seq<seq<nat>>, ghost op: Option<Op>)
    requires fs.Valid() && Sound(StateOf(fs, files))
    modifies fs, fs.fat
    ensures fs.Valid() && Sound(StateOf(fs, files')) && Performed(old(StateOf(fs, files)), op, StateOf(fs, files'))
  {
    hide Sound, Do, Enabled, StateOf;
    files', op := files, None;
    match request {
      case ExtendFile(k, num) =>
        if k < |files| && num > 0 {
          files', op := Grow(fs, files, k, num);
        }
      case CreateFile(num) =>
        if num > 0 {
          files', op := NewFileOf(fs, files, num);
        }
      case DeleteFile(k) =>
        if k < |files| {
          ghost var done;
          files', done := Remove(fs, files, k);
          op := Some(done);
        }
      case CutFileAt(k, i) =>
        if k < |files| && i < |files[k]| {
          ghost var done;
          files', done := Shorten(fs, files, k, i);
          op := Some(done);
        }
    }
  }

  /** Any sequence of requests to a file system with files: after each of them the files are disjoint
      chains and the recorded count is right, and each is one of the operations above. */
  method Perform(fs: FileSystem, files: seq<seq<nat>>, requests: seq<Request>)
    returns (files': seq<seq<nat>>, ghost run: seq<State>, ghost ops: seq<Option<Op>>)
    requires fs.Valid() && Sound(StateOf(fs, files))
    modifies fs, fs.fat
    ensures fs.Valid() && fs.Counted() && |ops| == |requests| && |run| == |requests| + 1
    ensures run[0] == old(StateOf(fs, files)) && run[|requests|] == StateOf(fs, files')
    ensures forall k :: 0 <= k <= |requests| ==> Sound(run[k])
    ensures forall k :: 0 <= k < |requests| ==> Performed(run[k], ops[k], run[k + 1])
  {
    hide Sound, Performed, StateOf;
    files', run, ops := files, [StateOf(fs, files)], [];
    var i := 0;
    while i < |requests|
      invariant 0 <= i <= |requests| && fs.Valid() && |ops| == i && |run| == i + 1
      invariant run[0] == old(StateOf(fs, files)) && run[i] == StateOf(fs, files')
      invariant forall k :: 0 <= k <= i ==> Sound(run[k])
      invariant forall k :: 0 <= k < i ==> Performed(run[k], ops[k], run[k + 1])
    {
      ghost var op;
      files', op := Serve(fs, files', requests[i]);
      run, ops := run + [StateOf(fs, files')], ops + [op];
      i := i + 1;
    }
    CountedOf(fs, files');
  }

  lemma CountedOf(fs: FileSystem, files: seq<seq<nat>>)
    requires fs.Valid() && Sound(StateOf(fs, files))
    ensures fs.Counted()
  {
  }

  lemma SoundMeans(st: State)
    requires Sound(st)
    ensures Volume(st.t, st.files) && |st.t| >= RESERVED && st.count == CountFree(st.t)
  {
  }

  lemma InVolume(st: State, k: nat, i: nat)
    requires Volume(st.t, st.files) && k < |st.files| && i < |st.files[k]|
    ensures InFile(st, k, i) && RESERVED <= st.files[k][i] && !st.t[st.files[k][i]].Free?
  {
    assert IsFile(st.t, st.files[k]);
    FileNotFree(st.t, st.files[k], i);
  }

  lemma LastTaken(st: State, k: nat)
    requires Volume(st.t, st.files) && k < |st.files|
    ensures |st.files[k]| > 0 && Last(st.files[k]) < |st.t| && !st.t[Last(st.files[k])].Free?
  {
    assert IsFile(st.t, st.files[k]);
  }

  lemma NotCounted(t: Table, prev: Option<nat>, c: nat, n: nat)
    requires prev.Some? ==> prev.value < |t| && !t[prev.value].Free?
    ensures !CountsPrev(t, prev, c, n)
  {
  }

  lemma WholeWalk(st: State, k: nat)
    requires Volume(st.t, st.files) && k < |st.files| && |st.files[k]| > 0
    ensures var c := st.files[k][0]; FreeWalk(st.t, c).1.Ok? && WalkInside(st.t, c) && !EndsFree(st.t, c)
  {
    hide FreeWalk, WalkInside, EndsFree;
    assert IsFile(st.t, st.files[k]);
    FreeWalkChain(st.t, st.files[k]);
    ChainEnds(st.t, st.files[k]);
  }
}
