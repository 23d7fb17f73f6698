/** The frame arena (kmem/src/frame.rs) as a state machine: a lock-free list of runs of free
    pages, from which allocations are split, above a region that was never used.

    Memory is measured in pages.  Every atomic operation, and every access to the node at the
    start of a free run, is one step, and the steps of any number of threads interleave freely. */
module Arena {
  /** The number of pages in the 64-bit address range. */
  const PAGES := 0x10_0000_0000_0000

  /** The values of the tag in the head word. */
  const TAGS := 32

  // ---- The head word (frame.rs:20-32) ----

  /** A page address in the upper bits, an unused count of 7 bits, and a tag of 5 bits. */
  function Compose(addr: bv64, count: bv64, id: bv64): bv64 { (addr & !0xFFF) | (count << 5) | Tag(id) }

  function Decompose(word: bv64): (bv64, bv64, bv64) { (word & !0xFFF, (word & 0xFE0) >> 5, word & 0x1F) }

  function Tag(id: bv64): bv64 { id & 0x1F }

  predicate IsPage(addr: bv64) { addr & 0xFFF == 0 }

  /** The parts come back, the tag modulo 32. */
  lemma ComposeThenDecompose(addr: bv64, count: bv64, id: bv64)
    requires IsPage(addr) && count < 128
    ensures Decompose(Compose(addr, count, id)) == (addr, count, Tag(id))
  {
  }

  lemma TagOnly(addr: bv64, i: bv64, j: bv64)
    requires Tag(i) == Tag(j)
    ensures Compose(addr, 0, i) == Compose(addr, 0, j)
  {
    hide Tag;
  }

  /** Head words are equal exactly when their addresses and tags are. */
  lemma SameWordMeans(a: bv64, b: bv64, i: bv64, j: bv64)
    requires IsPage(a) && IsPage(b)
    ensures Compose(a, 0, i) == Compose(b, 0, j) <==> a == b && Tag(i) == Tag(j)
  {
    hide Compose, Decompose, Tag, IsPage;
    ComposeThenDecompose(a, 0, i);
    ComposeThenDecompose(b, 0, j);
    if Tag(i) == Tag(j) {
      TagOnly(a, i, j);
    }
  }

  // ---- The state ----

  datatype Run = Run(addr: nat, pages: nat)

  /** The words at the start of a page; they mean this only in a page that starts a free run. */
  datatype Node = Node(next: nat, count: nat)

  /** What a thread does after putting a run on the list: hand out the pages before it, or
      finish a deallocation. */
  datatype Then = Return(addr: nat, n: nat) | Release(n: nat)

  /** `v` is the version of the head word that the thread saw. */
  datatype Pc =
    | Idle
    | ListLoad(n: nat)
    | ListCount(n: nat, h: nat, v: nat)
    | ListNext(n: nat, h: nat, v: nat, c: nat)
    | ListCas(n: nat, h: nat, v: nat, c: nat, x: nat)
    | FreshLoad(n: nat)
    | FreshCas(n: nat, t: nat)
    | PushLoad(run: Run, next: Then)
    | PushWrite(run: Run, next: Then, x: nat, v: nat)
    | PushCas(run: Run, next: Then, x: nat, v: nat)
    | Clear(addr: nat, n: nat)
    | CountUp(addr: nat, n: nat)
    | CountDown(n: nat)

  /** `head` and the tag `ver % TAGS` make up the head word; `ver` counts its changes and `free`
      lists the runs that the nodes link (auxiliary). */
  datatype Shared = Shared(
    base: nat, end: nat, top: nat, head: nat, ver: nat, count: int, mem: map<nat, Node>, free: seq<Run>)

  function NodeAt(mem: map<nat, Node>, p: nat): Node { if p in mem then mem[p] else Node(0, 0) }

  function Rest(free: seq<Run>): seq<Run> { if free == [] then [] else free[1..] }

  /** The head word is the one that was loaded as `(h, v)`. */
  predicate SameWord(sh: Shared, h: nat, v: nat) { sh.head == h && sh.ver % TAGS == v % TAGS }

  function Looked(sh: Shared, n: nat): Pc { if sh.head == 0 then FreshLoad(n) else ListCount(n, sh.head, sh.ver) }

  /** The range check of `allocate_fresh`, in 64-bit arithmetic (frame.rs:79-84). */
  predicate FreshFits(sh: Shared, t: nat, n: nat) { n >= 1 && sh.base <= (t + n - 1) % PAGES < sh.end }

  function After(next: Then): Pc {
    match next
    case Return(addr, n) => Clear(addr, n)
    case Release(n) => CountDown(n)
  }

  /** One step of a thread: the shared state, the thread, and the runs handed to the user. */
  function Step(sh: Shared, pc: Pc): (Shared, Pc, seq<Run>) {
    match pc
    case Idle => (sh, pc, [])
    case ListLoad(n) => (sh, Looked(sh, n), [])
    case ListCount(n, h, v) =>
      var c := NodeAt(sh.mem, h).count;
      (sh, if c < n then FreshLoad(n) else ListNext(n, h, v, c), [])
    case ListNext(n, h, v, c) => (sh, ListCas(n, h, v, c, NodeAt(sh.mem, h).next), [])
    case ListCas(n, h, v, c, x) =>
      if SameWord(sh, h, v)
      then (sh.(head := x, ver := sh.ver + 1, free := Rest(sh.free)),
            if c > n then PushLoad(Run(h + n, c - n), Return(h, n)) else Clear(h, n), [])
      else (sh, Looked(sh, n), [])
    case FreshLoad(n) => (sh, FreshCas(n, sh.top), [])
    case FreshCas(n, t) =>
      if !FreshFits(sh, t, n) then (sh, Idle, [])
      else if sh.top == t then (sh.(top := (t + n) % PAGES), Clear(t, n), [])
      else (sh, FreshCas(n, sh.top), [])
    case PushLoad(run, next) => (sh, PushWrite(run, next, sh.head, sh.ver), [])
    case PushWrite(run, next, x, v) =>
      (sh.(mem := sh.mem[run.addr := Node(x, run.pages)]), PushCas(run, next, x, v), [])
    case PushCas(run, next, x, v) =>
      if SameWord(sh, x, v)
      then (sh.(head := run.addr, ver := sh.ver + 1, free := [run] + sh.free), After(next), [])
      else (sh, PushWrite(run, next, sh.head, sh.ver), [])
    case Clear(addr, n) => (sh.(mem := sh.mem[addr := Node(0, 0)]), CountUp(addr, n), [])
    case CountUp(addr, n) => (sh.(count := sh.count + n), Idle, [Run(addr, n)])
    case CountDown(n) => (sh.(count := sh.count - n), Idle, [])
  }

  // ---- Runs ----

  datatype State = State(sh: Shared, live: seq<Run>, threads: seq<Pc>)

  datatype Event =
    | Advance(t: nat)
    | Allocate(t: nat, n: nat)
    | Deallocate(t: nat, k: nat, skip: nat, n: nat)   // pages `[skip, skip + n)` of a live run
    | Scribble(k: nat, page: nat, node: Node)         // the user writes to a live page

  /** The compare-and-swap of a pop finds the head word it expects, but the node there is not as it was
      read. */
  predicate Stale(sh: Shared, pc: Pc) {
    pc.ListCas? && SameWord(sh, pc.h, pc.v) && NodeAt(sh.mem, pc.h) != Node(pc.x, pc.c)
  }

  /** A request that passes the range check does not wrap around the address range. */
  predicate NoWrap(sh: Shared, pc: Pc) { pc.FreshCas? && FreshFits(sh, pc.t, pc.n) ==> pc.t + pc.n <= PAGES }

  predicate Enabled(st: State, e: Event) {
    match e
    case Advance(t) =>
      t < |st.threads| && !st.threads[t].Idle? && !Stale(st.sh, st.threads[t]) && NoWrap(st.sh, st.threads[t])
    case Allocate(t, n) => t < |st.threads| && st.threads[t].Idle? && 1 <= n
    case Deallocate(t, k, skip, n) =>
      t < |st.threads| && st.threads[t].Idle? && k < |st.live| && 1 <= n && skip + n <= st.live[k].pages
    case Scribble(k, page, node) => k < |st.live| && st.live[k].addr <= page < st.live[k].addr + st.live[k].pages
  }

  /** What is left of a live run when pages `[skip, skip + n)` are freed. */
  function Cut(live: seq<Run>, k: nat, skip: nat, n: nat): seq<Run>
    requires k < |live| && skip + n <= live[k].pages
  {
    live[k := Run(live[k].addr, skip)] + [Run(live[k].addr + skip + n, live[k].pages - skip - n)]
  }

  function Next(st: State, e: Event): State
    requires Enabled(st, e)
  {
    match e
    case Advance(t) =>
      var (sh, pc, gained) := Step(st.sh, st.threads[t]);
      State(sh, st.live + gained, st.threads[t := pc])
    case Allocate(t, n) => st.(threads := st.threads[t := ListLoad(n)])
    case Deallocate(t, k, skip, n) =>
      st.(live := Cut(st.live, k, skip, n),
        threads := st.threads[t := PushLoad(Run(st.live[k].addr + skip, n), Release(n))])
    case Scribble(k, page, node) => st.(sh := st.sh.(mem := st.sh.mem[page := node]))
  }

  predicate Init(st: State) {
    && 0 < st.sh.base == st.sh.top <= st.sh.end < PAGES && st.sh.head == 0 && st.sh.count == 0
    && st.sh.free == [] && st.live == []
    && forall t :: 0 <= t < |st.threads| ==> st.threads[t].Idle?
  }

  predicate Legal(st: State, events: seq<Event>)
    decreases |events|
  {
    events == [] || (Enabled(st, events[0]) && Legal(Next(st, events[0]), events[1..]))
  }

  function Final(st: State, events: seq<Event>): State
    requires Legal(st, events)
    decreases |events|
  {
    if events == [] then st else Final(Next(st, events[0]), events[1..])
  }
}
