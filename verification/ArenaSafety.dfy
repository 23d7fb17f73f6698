/** The runs of the arena partition its used pages in every interleaving. */
module ArenaSafety {
  import opened Sums
  import opened Arena

  // ---- Who has a page ----

  function Has(run: Run, p: nat): nat { if run.addr <= p < run.addr + run.pages then 1 else 0 }

  function Cover(runs: seq<Run>, p: nat): nat { if runs == [] then 0 else Has(runs[0], p) + Cover(runs[1..], p) }

  lemma {:induction false} CoverConcat(a: seq<Run>, b: seq<Run>, p: nat)
    ensures Cover(a + b, p) == Cover(a, p) + Cover(b, p)
  {
    if a == [] {
      assert a + b == b;
    } else {
      assert (a + b)[1..] == a[1..] + b;
      CoverConcat(a[1..], b, p);
    }
  }

  lemma CoverOne(run: Run, p: nat)
    ensures Cover([run], p) == Has(run, p)
  {
    assert Cover([run][1..], p) == 0;
  }

  lemma {:induction false} CoverUpdate(runs: seq<Run>, k: nat, run: Run, p: nat)
    requires k < |runs|
    ensures Cover(runs[k := run], p) + Has(runs[k], p) == Cover(runs, p) + Has(run, p)
  {
    if k == 0 {
      assert runs[k := run][1..] == runs[1..];
    } else {
      assert runs[k := run][1..] == runs[1..][k - 1 := run];
      CoverUpdate(runs[1..], k - 1, run, p);
    }
  }

  lemma {:induction false} CoverHas(runs: seq<Run>, k: nat, p: nat)
    requires k < |runs|
    ensures Cover(runs, p) >= Has(runs[k], p)
  {
    if k > 0 {
      CoverHas(runs[1..], k - 1, p);
    }
  }

  lemma {:induction false} CoverHasTwo(runs: seq<Run>, j: nat, k: nat, p: nat)
    requires j < k < |runs|
    ensures Cover(runs, p) >= Has(runs[j], p) + Has(runs[k], p)
  {
    if j == 0 {
      CoverHas(runs[1..], k - 1, p);
    } else {
      CoverHasTwo(runs[1..], j - 1, k - 1, p);
    }
  }

  /** The pages a thread has taken and not yet handed on. */
  function Holds(pc: Pc): seq<Run> {
    if pc.PushLoad? || pc.PushWrite? || pc.PushCas? then [pc.run] + HeldBy(pc.next)
    else if pc.Clear? || pc.CountUp? then [Run(pc.addr, pc.n)]
    else []
  }

  function HeldBy(next: Then): seq<Run> { if next.Return? then [Run(next.addr, next.n)] else [] }

  function Held(p: nat): Pc -> nat { pc => Cover(Holds(pc), p) }

  function Used(sh: Shared, p: nat): nat { if sh.base <= p < sh.top then 1 else 0 }

  /** Each page between `base` and `top` is in one free run, one live run, or one thread's hands. */
  predicate PageOnce(st: State, p: nat) {
    Cover(st.sh.free, p) + Cover(st.live, p) + NatSum(st.threads, Held(p)) == Used(st.sh, p)
  }

  // ---- The list ----

  /** The nodes starting at `head` link the runs in `free`. */
  predicate Chain(mem: map<nat, Node>, head: nat, free: seq<Run>)
    decreases |free|
  {
    if free == [] then head == 0
    else
      && head != 0 && free[0].addr == head && free[0].pages > 0 && NodeAt(mem, head).count == free[0].pages
      && Chain(mem, NodeAt(mem, head).next, free[1..])
  }

  lemma {:induction false} ChainFrame(mem: map<nat, Node>, head: nat, free: seq<Run>, w: nat, node: Node)
    requires Chain(mem, head, free) && Cover(free, w) == 0
    ensures Chain(mem[w := node], head, free)
    decreases |free|
  {
    if free != [] {
      ChainFrame(mem, NodeAt(mem, head).next, free[1..], w, node);
    }
  }

  // ---- The invariant ----

  predicate BoundsOk(sh: Shared) { 0 < sh.base <= sh.top <= sh.end < PAGES && Chain(sh.mem, sh.head, sh.free) }

  /** What a thread knows of the list, as long as the head word has not changed. */
  predicate ThreadOk(sh: Shared, pc: Pc) {
    match pc
    case ListLoad(n) => 1 <= n
    case ListCount(n, h, v) => 1 <= n && v <= sh.ver && h != 0 && (v == sh.ver ==> sh.head == h)
    case ListNext(n, h, v, c) =>
      1 <= n && v <= sh.ver && h != 0 && n <= c && (v == sh.ver ==> sh.head == h && NodeAt(sh.mem, h).count == c)
    case ListCas(n, h, v, c, x) =>
      1 <= n && v <= sh.ver && h != 0 && n <= c && (v == sh.ver ==> sh.head == h && NodeAt(sh.mem, h) == Node(x, c))
    case FreshLoad(n) => 1 <= n
    case FreshCas(n, t) => 1 <= n && t <= sh.end
    case PushLoad(run, next) => PushOk(run, next)
    case PushWrite(run, next, x, v) => PushOk(run, next) && v <= sh.ver && (v == sh.ver ==> sh.head == x)
    case PushCas(run, next, x, v) =>
      PushOk(run, next) && v <= sh.ver && (v == sh.ver ==> sh.head == x)
        && NodeAt(sh.mem, run.addr) == Node(x, run.pages)
    case Clear(_, n) => n >= 1
    case _ => true
  }

  predicate PushOk(run: Run, next: Then) { run.pages > 0 && run.addr > 0 && (next.Return? ==> next.n >= 1) }

  function Size(runs: seq<Run>): nat { if runs == [] then 0 else runs[0].pages + Size(runs[1..]) }

  /** Pages freed by a thread that `count` still includes. */
  function Owed(pc: Pc): nat {
    if (pc.PushLoad? || pc.PushWrite? || pc.PushCas?) && pc.next.Release? then pc.next.n
    else if pc.CountDown? then pc.n
    else 0
  }

  function OwedBy(): Pc -> nat { pc => Owed(pc) }

  ghost predicate Inv(st: State) {
    && BoundsOk(st.sh)
    && (forall p :: PageOnce(st, p))
    && (forall t :: 0 <= t < |st.threads| ==> ThreadOk(st.sh, st.threads[t]))
    && st.sh.count == Size(st.live) + NatSum(st.threads, OwedBy())
  }

  // ---- One step of one thread ----

  predicate Ordinary(sh: Shared, pc: Pc) { !Stale(sh, pc) && NoWrap(sh, pc) }

  lemma HoldsPush(pc: Pc, p: nat)
    requires pc.PushLoad? || pc.PushWrite? || pc.PushCas?
    ensures Cover(Holds(pc), p) == Has(pc.run, p) + if pc.next.Return? then Has(Run(pc.next.addr, pc.next.n), p) else 0
  {
    CoverConcat([pc.run], HeldBy(pc.next), p);
    CoverOne(pc.run, p);
    if pc.next.Return? {
      CoverOne(Run(pc.next.addr, pc.next.n), p);
    }
  }

  lemma HoldsOne(pc: Pc, p: nat)
    requires pc.Clear? || pc.CountUp?
    ensures Cover(Holds(pc), p) == Has(Run(pc.addr, pc.n), p)
  {
    CoverOne(Run(pc.addr, pc.n), p);
  }

  lemma CoverFirst(run: Run, runs: seq<Run>, p: nat)
    ensures Cover([run] + runs, p) == Has(run, p) + Cover(runs, p)
  {
    assert ([run] + runs)[1..] == runs;
  }

  lemma TakeCover(sh: Shared, pc: Pc, p: nat)
    requires BoundsOk(sh) && ThreadOk(sh, pc) && Ordinary(sh, pc) && pc.ListCas? && SameWord(sh, pc.h, pc.v)
    ensures Cover(Rest(sh.free), p) + Cover(Holds(Step(sh, pc).1), p) == Cover(sh.free, p)
  {
    hide Chain, Cover, Holds;
    ChainHead(sh.mem, sh.head, sh.free);
    CoverFirst(sh.free[0], sh.free[1..], p);
    assert sh.free == [sh.free[0]] + sh.free[1..];
    if pc.c > pc.n {
      HoldsPush(Step(sh, pc).1, p);
    } else {
      HoldsOne(Step(sh, pc).1, p);
    }
  }

  /** Pages pass between the list, the thread and the user, or come from the fresh region. */
  lemma StepCover(sh: Shared, pc: Pc, p: nat)
    requires BoundsOk(sh) && ThreadOk(sh, pc) && Ordinary(sh, pc)
    ensures var (sh', pc', gained) := Step(sh, pc);
            Cover(sh'.free, p) + Cover(Holds(pc'), p) + Cover(gained, p) + Used(sh, p)
            == Cover(sh.free, p) + Cover(Holds(pc), p) + Used(sh', p)
  {
    hide Chain, Cover;
    CoverNone(p);
    match pc {
      case ListCas(n, h, v, c, x) =>
        if SameWord(sh, h, v) {
          TakeCover(sh, pc, p);
        }
      case FreshCas(n, t) =>
        if FreshFits(sh, t, n) && sh.top == t {
          FreshInRange(sh, t, n);
          HoldsOne(Clear(t, n), p);
        }
      case PushCas(run, next, x, v) =>
        HoldsPush(pc, p);
        CoverFirst(run, sh.free, p);
        if next.Return? {
          HoldsOne(After(next), p);
        }
      case CountUp(addr, n) => CoverOne(Run(addr, n), p);
      case _ =>
    }
  }

  lemma ChainHead(mem: map<nat, Node>, head: nat, free: seq<Run>)
    requires Chain(mem, head, free) && head != 0
    ensures free != [] && free[0] == Run(head, NodeAt(mem, head).count) && Chain(mem, NodeAt(mem, head).next, free[1..])
  {
  }

  /** Without wrap-around the range check means what it says. */
  lemma FreshInRange(sh: Shared, t: nat, n: nat)
    requires t <= sh.end < PAGES && FreshFits(sh, t, n) && t + n <= PAGES
    ensures (t + n) % PAGES == t + n && t + n <= sh.end
  {
    assert (t + n - 1) % PAGES == t + n - 1;
    assert t + n < PAGES;
  }

  /** The page a thread is about to write is its own. */
  lemma WritesOwn(sh: Shared, pc: Pc)
    requires ThreadOk(sh, pc) && (pc.PushWrite? || pc.PushCas? || pc.Clear?)
    ensures Cover(Holds(pc), if pc.Clear? then pc.addr else pc.run.addr) >= 1
  {
    if pc.Clear? {
      CoverOne(Run(pc.addr, pc.n), pc.addr);
    } else {
      CoverConcat([pc.run], HeldBy(pc.next), pc.run.addr);
      CoverOne(pc.run, pc.run.addr);
    }
  }

  lemma StepBounds(sh: Shared, pc: Pc)
    requires BoundsOk(sh) && ThreadOk(sh, pc) && Ordinary(sh, pc)
    requires forall w :: Cover(Holds(pc), w) + Cover(sh.free, w) <= 1
    ensures BoundsOk(Step(sh, pc).0)
  {
    hide Cover;
    match pc {
      case ListCas(n, h, v, c, x) =>
        if SameWord(sh, h, v) {
          ChainHead(sh.mem, sh.head, sh.free);
        }
      case FreshCas(n, t) =>
        if FreshFits(sh, t, n) && sh.top == t {
          FreshInRange(sh, t, n);
        }
      case PushWrite(run, next, x, v) =>
        WritesOwn(sh, pc);
        ChainFrame(sh.mem, sh.head, sh.free, run.addr, Node(x, run.pages));
      case PushCas(run, next, x, v) =>
        if SameWord(sh, x, v) {
          assert ([run] + sh.free)[1..] == sh.free;
        }
      case Clear(addr, n) =>
        WritesOwn(sh, pc);
        ChainFrame(sh.mem, sh.head, sh.free, addr, Node(0, 0));
      case _ =>
    }
  }

  lemma StepThread(sh: Shared, pc: Pc)
    requires BoundsOk(sh) && ThreadOk(sh, pc) && Ordinary(sh, pc)
    ensures ThreadOk(Step(sh, pc).0, Step(sh, pc).1)
  {
    hide Chain;
    if pc.PushCas? {
      assert After(pc.next).Clear? ==> pc.next.n >= 1;
    }
  }

  /** What another thread knows is not affected. */
  lemma StepOther(sh: Shared, pc: Pc, other: Pc)
    requires BoundsOk(sh) && ThreadOk(sh, pc) && Ordinary(sh, pc) && ThreadOk(sh, other)
    requires forall w :: Cover(Holds(pc), w) + Cover(Holds(other), w) + Cover(sh.free, w) <= 1
    ensures ThreadOk(Step(sh, pc).0, other)
  {
    if pc.PushWrite? || pc.Clear? {
      var w := if pc.Clear? then pc.addr else pc.run.addr;
      assert Cover(Holds(pc), w) >= 1 by { WritesOwn(sh, pc); }
      WriteOther(sh, w, if pc.Clear? then Node(0, 0) else Node(pc.x, pc.run.pages), other);
    }
  }

  lemma WriteOther(sh: Shared, w: nat, node: Node, other: Pc)
    requires BoundsOk(sh) && ThreadOk(sh, other) && Cover(Holds(other), w) + Cover(sh.free, w) == 0
    ensures ThreadOk(sh.(mem := sh.mem[w := node]), other)
  {
    if other.PushCas? {
      WritesOwn(sh, other);
    }
    if sh.head != 0 {
      ChainHead(sh.mem, sh.head, sh.free);
      assert sh.head != w;
    }
  }

  lemma StepCount(sh: Shared, pc: Pc)
    ensures var (sh', pc', gained) := Step(sh, pc); sh'.count + Owed(pc) == sh.count + Size(gained) + Owed(pc')
  {
  }

  // ---- All threads ----

  lemma TwoThreads(st: State, t: nat, u: nat, w: nat)
    requires PageOnce(st, w) && t < |st.threads| && u < |st.threads| && t != u
    ensures Cover(Holds(st.threads[t]), w) + Cover(Holds(st.threads[u]), w) + Cover(st.sh.free, w)
            + Cover(st.live, w) <= 1
  {
    NatSumHasTwo(st.threads, Held(w), if t < u then t else u, if t < u then u else t);
  }

  lemma OneThread(st: State, t: nat, w: nat)
    requires PageOnce(st, w) && t < |st.threads|
    ensures Cover(Holds(st.threads[t]), w) + Cover(st.sh.free, w) + Cover(st.live, w) <= 1
  {
    NatSumHas(st.threads, Held(w), t);
  }

  lemma AdvancePages(st: State, t: nat, p: nat)
    requires t < |st.threads| && BoundsOk(st.sh) && ThreadOk(st.sh, st.threads[t])
    requires Ordinary(st.sh, st.threads[t]) && PageOnce(st, p)
    ensures var (sh, pc, gained) := Step(st.sh, st.threads[t]);
            PageOnce(State(sh, st.live + gained, st.threads[t := pc]), p)
  {
    hide Cover, NatSum, Step, BoundsOk, ThreadOk, Holds;
    var (sh, pc, gained) := Step(st.sh, st.threads[t]);
    StepCover(st.sh, st.threads[t], p);
    CoverConcat(st.live, gained, p);
    NatSumUpdate(st.threads, Held(p), t, pc);
  }

  lemma {:induction false} SizeConcat(a: seq<Run>, b: seq<Run>)
    ensures Size(a + b) == Size(a) + Size(b)
  {
    if a == [] {
      assert a + b == b;
    } else {
      assert (a + b)[1..] == a[1..] + b;
      SizeConcat(a[1..], b);
    }
  }

  lemma {:induction false} SizeUpdate(runs: seq<Run>, k: nat, run: Run)
    requires k < |runs|
    ensures Size(runs[k := run]) + runs[k].pages == Size(runs) + run.pages
  {
    if k == 0 {
      assert runs[k := run][1..] == runs[1..];
    } else {
      assert runs[k := run][1..] == runs[1..][k - 1 := run];
      SizeUpdate(runs[1..], k - 1, run);
    }
  }

  lemma AdvanceKeeps(st: State, t: nat)
    requires Inv(st) && Enabled(st, Advance(t))
    ensures Inv(Next(st, Advance(t)))
  {
    hide Cover, NatSum, Step, BoundsOk, ThreadOk, Holds, Size, PageOnce;
    var (sh, pc, gained) := Step(st.sh, st.threads[t]);
    var st' := State(sh, st.live + gained, st.threads[t := pc]);
    forall p ensures PageOnce(st', p) {
      AdvancePages(st, t, p);
    }
    forall w ensures Cover(Holds(st.threads[t]), w) + Cover(st.sh.free, w) <= 1 {
      OneThread(st, t, w);
    }
    StepBounds(st.sh, st.threads[t]);
    StepThread(st.sh, st.threads[t]);
    forall u | 0 <= u < |st'.threads| && u != t ensures ThreadOk(sh, st'.threads[u]) {
      forall w ensures Cover(Holds(st.threads[t]), w) + Cover(Holds(st.threads[u]), w) + Cover(st.sh.free, w) <= 1 {
        TwoThreads(st, t, u, w);
      }
      StepOther(st.sh, st.threads[t], st.threads[u]);
    }
    StepCount(st.sh, st.threads[t]);
    NatSumUpdate(st.threads, OwedBy(), t, pc);
    SizeConcat(st.live, gained);
  }

  lemma AllocateKeeps(st: State, t: nat, n: nat)
    requires Inv(st) && Enabled(st, Allocate(t, n))
    ensures Inv(Next(st, Allocate(t, n)))
  {
    hide Cover, NatSum, BoundsOk, Size;
    forall p ensures PageOnce(Next(st, Allocate(t, n)), p) {
      assert PageOnce(st, p);
      NatSumUpdate(st.threads, Held(p), t, ListLoad(n));
    }
    NatSumUpdate(st.threads, OwedBy(), t, ListLoad(n));
  }

  lemma CutCover(live: seq<Run>, k: nat, skip: nat, n: nat, p: nat)
    requires k < |live| && skip + n <= live[k].pages
    ensures Cover(Cut(live, k, skip, n), p) + Has(Run(live[k].addr + skip, n), p) == Cover(live, p)
  {
    hide Cover;
    var run := live[k];
    CoverUpdate(live, k, Run(run.addr, skip), p);
    CoverConcat(live[k := Run(run.addr, skip)], [Run(run.addr + skip + n, run.pages - skip - n)], p);
    CoverOne(Run(run.addr + skip + n, run.pages - skip - n), p);
  }

  lemma CutSize(live: seq<Run>, k: nat, skip: nat, n: nat)
    requires k < |live| && skip + n <= live[k].pages
    ensures Size(Cut(live, k, skip, n)) + n == Size(live)
  {
    hide Size;
    var run := live[k];
    SizeUpdate(live, k, Run(run.addr, skip));
    SizeConcat(live[k := Run(run.addr, skip)], [Run(run.addr + skip + n, run.pages - skip - n)]);
    SizeOne(Run(run.addr + skip + n, run.pages - skip - n));
  }

  lemma SizeOne(run: Run)
    ensures Size([run]) == run.pages
  {
    assert Size([run][1..]) == 0;
  }

  lemma DeallocateKeeps(st: State, t: nat, k: nat, skip: nat, n: nat)
    requires Inv(st) && Enabled(st, Deallocate(t, k, skip, n))
    ensures Inv(Next(st, Deallocate(t, k, skip, n)))
  {
    hide Cover, NatSum, Chain, Size, Cut;
    var run := Run(st.live[k].addr + skip, n);
    var pc := PushLoad(run, Release(n));
    var st' := Next(st, Deallocate(t, k, skip, n));
    forall p ensures PageOnce(st', p) {
      assert PageOnce(st, p);
      CutCover(st.live, k, skip, n, p);
      NatSumUpdate(st.threads, Held(p), t, pc);
      CoverOne(run, p);
      CoverConcat([run], [], p);
      assert Cover([], p) == 0 by { CoverNone(p); }
    }
    CutSize(st.live, k, skip, n);
    NatSumUpdate(st.threads, OwedBy(), t, pc);
    LivePage(st, k, run.addr);
  }

  lemma CoverNone(p: nat)
    ensures Cover([], p) == 0
  {
  }

  /** Live pages lie between `base` and `top`, and in no other run. */
  lemma LivePage(st: State, k: nat, p: nat)
    requires PageOnce(st, p) && k < |st.live| && st.live[k].addr <= p < st.live[k].addr + st.live[k].pages
    ensures st.sh.base <= p < st.sh.top && Cover(st.sh.free, p) == 0 && NatSum(st.threads, Held(p)) == 0
  {
    CoverHas(st.live, k, p);
  }

  lemma ScribbleKeeps(st: State, k: nat, page: nat, node: Node)
    requires Inv(st) && Enabled(st, Scribble(k, page, node))
    ensures Inv(Next(st, Scribble(k, page, node)))
  {
    hide Cover, NatSum, Size;
    var st' := Next(st, Scribble(k, page, node));
    assert PageOnce(st, page);
    LivePage(st, k, page);
    ChainFrame(st.sh.mem, st.sh.head, st.sh.free, page, node);
    forall p ensures PageOnce(st', p) {
      assert PageOnce(st, p);
    }
    forall t | 0 <= t < |st'.threads| ensures ThreadOk(st'.sh, st'.threads[t]) {
      OneThreadZero(st, t, page);
      WriteOther(st.sh, page, node, st.threads[t]);
    }
  }

  lemma OneThreadZero(st: State, t: nat, w: nat)
    requires t < |st.threads| && NatSum(st.threads, Held(w)) == 0
    ensures Cover(Holds(st.threads[t]), w) == 0
  {
    NatSumHas(st.threads, Held(w), t);
  }

  lemma StepKeepsInv(st: State, e: Event)
    requires Inv(st) && Enabled(st, e)
    ensures Inv(Next(st, e))
  {
    hide Inv, Next, Enabled;
    match e {
      case Advance(t) => AdvanceKeeps(st, t);
      case Allocate(t, n) => AllocateKeeps(st, t, n);
      case Deallocate(t, k, skip, n) => DeallocateKeeps(st, t, k, skip, n);
      case Scribble(k, page, node) => ScribbleKeeps(st, k, page, node);
    }
  }

  lemma InitInv(st: State)
    requires Init(st)
    ensures Inv(st)
  {
    forall p ensures PageOnce(st, p) {
      NatSumZero(st.threads, Held(p));
    }
    NatSumZero(st.threads, OwedBy());
  }

  lemma {:induction false} RunKeepsInv(st: State, events: seq<Event>)
    requires Inv(st) && Legal(st, events)
    ensures Inv(Final(st, events))
    decreases |events|
  {
    hide Inv, Next, Enabled;
    if events != [] {
      StepKeepsInv(st, events[0]);
      RunKeepsInv(Next(st, events[0]), events[1..]);
    }
  }

  // ---- The theorems ----

  /** In every run, each page between `base` and `top` is in exactly one free run, live run or
      thread's hands, and no other page is in any. */
  lemma PagesPartitioned(st: State, events: seq<Event>, p: nat)
    requires Init(st) && Legal(st, events)
    ensures PageOnce(Final(st, events), p) && BoundsOk(Final(st, events).sh)
  {
    InitInv(st);
    RunKeepsInv(st, events);
  }

  /** In every run, live allocations are inside the arena and do not overlap. */
  lemma LiveDisjoint(st: State, events: seq<Event>, j: nat, p: nat)
    requires Init(st) && Legal(st, events) && j < |Final(st, events).live| && Has(Final(st, events).live[j], p) == 1
    ensures Final(st, events).sh.base <= p < Final(st, events).sh.end
    ensures forall k :: 0 <= k < |Final(st, events).live| && k != j ==> Has(Final(st, events).live[k], p) == 0
  {
    PagesPartitioned(st, events, p);
    var live := Final(st, events).live;
    CoverHas(live, j, p);
    forall k | 0 <= k < |live| && k != j ensures Has(live[k], p) == 0 {
      CoverHasTwo(live, if j < k then j else k, if j < k then k else j, p);
    }
  }

  /** When no operation is under way, `used_count` is the number of live pages. */
  lemma CountAtRest(st: State, events: seq<Event>)
    requires Init(st) && Legal(st, events)
    requires forall t :: 0 <= t < |Final(st, events).threads| ==> Final(st, events).threads[t].Idle?
    ensures Final(st, events).sh.count == Size(Final(st, events).live)
  {
    InitInv(st);
    RunKeepsInv(st, events);
    NatSumZero(Final(st, events).threads, OwedBy());
  }

  /** The range check of a fresh allocation admits every request that fits; one that it admits fits,
      if and only if its end does not wrap around the address range. */
  lemma FreshExact(sh: Shared, t: nat, n: nat)
    requires sh.base <= t <= sh.end < PAGES && n >= 1
    ensures t + n <= sh.end ==> FreshFits(sh, t, n)
    ensures FreshFits(sh, t, n) ==> (t + n <= sh.end <==> t + n - 1 < PAGES)
  {
    if t + n <= PAGES {
      assert (t + n - 1) % PAGES == t + n - 1;
    }
  }

  /** A request for all pages but one passes the range check, although nothing of it fits, and moves
      `top` back onto a page that was granted before. */
  lemma FreshCanWrap(sh: Shared)
    requires BoundsOk(sh) && sh.base + 2 <= sh.top
    ensures FreshFits(sh, sh.top, PAGES - 1)
    ensures Step(sh, FreshCas(PAGES - 1, sh.top)) == (sh.(top := sh.top - 1), Clear(sh.top, PAGES - 1), [])
  {
    assert (sh.top + PAGES - 2) % PAGES == sh.top - 2;
    assert (sh.top + PAGES - 1) % PAGES == sh.top - 1;
  }

  /** Only a cycle of the tag makes a pop stale: the head word has changed at least 32 times since. */
  lemma StaleNeedsCycle(sh: Shared, pc: Pc)
    requires BoundsOk(sh) && ThreadOk(sh, pc) && Stale(sh, pc)
    ensures sh.ver >= pc.v + TAGS
  {
  }

  lemma ChainStart(mem: map<nat, Node>, x: nat, y: nat, free: seq<Run>)
    requires Chain(mem, x, free) && Chain(mem, y, free)
    ensures x == y
  {
  }

  /** A pop that succeeds keeps the invariant exactly if it is not stale. */
  lemma StaleExact(st: State, t: nat)
    requires Inv(st) && t < |st.threads| && st.threads[t].ListCas?
    requires SameWord(st.sh, st.threads[t].h, st.threads[t].v)
    ensures var (sh, pc, gained) := Step(st.sh, st.threads[t]);
            Inv(State(sh, st.live + gained, st.threads[t := pc])) <==> !Stale(st.sh, st.threads[t])
  {
    hide Cover, NatSum, Chain, Size;
    var (sh, pc, gained) := Step(st.sh, st.threads[t]);
    var st' := State(sh, st.live + gained, st.threads[t := pc]);
    if !Stale(st.sh, st.threads[t]) {
      AdvanceKeeps(st, t);
    } else if Inv(st') {
      StaleBreaks(st, st', t);
    }
  }

  lemma StaleBreaks(st: State, st': State, t: nat)
    requires Inv(st) && t < |st.threads| && Stale(st.sh, st.threads[t])
    requires var (sh, pc, gained) := Step(st.sh, st.threads[t]); st' == State(sh, st.live + gained, st.threads[t := pc])
    ensures !Inv(st')
  {
    hide Cover, NatSum, Chain, Size, Holds;
    var pc := st.threads[t];
    ChainHead(st.sh.mem, st.sh.head, st.sh.free);
    var node := NodeAt(st.sh.mem, pc.h);
    assert st'.live == st.live;
    if Inv(st') {
      ChainStart(st.sh.mem, pc.x, node.next, st.sh.free[1..]);
      var p := pc.h + if node.count < pc.c then node.count else pc.c;
      assert PageOnce(st, p) && PageOnce(st', p);
      NatSumUpdate(st.threads, Held(p), t, st'.threads[t]);
      CoverFirst(st.sh.free[0], st.sh.free[1..], p);
      assert st.sh.free == [st.sh.free[0]] + st.sh.free[1..];
      HeldAfterPop(pc, p);
      assert Holds(pc) == [] by { HoldsNothing(pc); }
      CoverNone(p);
    }
  }

  lemma HoldsNothing(pc: Pc)
    requires pc.ListCas?
    ensures Holds(pc) == []
  {
  }

  lemma HeldAfterPop(pc: Pc, p: nat)
    requires pc.ListCas? && 1 <= pc.n <= pc.c
    ensures var after := if pc.c > pc.n then PushLoad(Run(pc.h + pc.n, pc.c - pc.n), Return(pc.h, pc.n))
            else Clear(pc.h, pc.n);
            Cover(Holds(after), p) == Has(Run(pc.h, pc.c), p)
  {
    hide Cover, Holds;
    if pc.c > pc.n {
      HoldsPush(PushLoad(Run(pc.h + pc.n, pc.c - pc.n), Return(pc.h, pc.n)), p);
    } else {
      HoldsOne(Clear(pc.h, pc.n), p);
    }
  }
}
