/** A run of two threads in which the tag of the free list comes round, and a live page gets on it. */
module ArenaCycle {
  import opened Arena
  import opened ArenaSafety

  ghost predicate Reachable(init: State, st: State) {
    exists events :: Legal(init, events) && Final(init, events) == st
  }

  lemma {:induction false} Extend(init: State, events: seq<Event>, e: Event)
    requires Legal(init, events) && Enabled(Final(init, events), e)
    ensures Legal(init, events + [e]) && Final(init, events + [e]) == Next(Final(init, events), e)
    decreases |events|
  {
    hide Enabled, Next;
    if events == [] {
      assert ([] + [e])[1..] == [];
    } else {
      assert (events + [e])[1..] == events[1..] + [e];
      Extend(Next(init, events[0]), events[1..], e);
    }
  }

  lemma Reach(init: State, st: State, e: Event) returns (st': State)
    requires Reachable(init, st) && Enabled(st, e)
    ensures st' == Next(st, e) && Reachable(init, st')
  {
    hide Enabled, Next;
    var events :| Legal(init, events) && Final(init, events) == st;
    Extend(init, events, e);
    st' := Next(st, e);
  }

  // ---- Whole operations of the second thread, while the first is at `pc` ----

  /** A state that is reached, with the first thread at `pc` and the second at `pc1`. */
  ghost predicate At(init: State, sh: Shared, live: seq<Run>, pc: Pc, pc1: Pc) {
    Reachable(init, State(sh, live, [pc, pc1]))
  }

  lemma StepAt(init: State, sh: Shared, live: seq<Run>, pc: Pc, pc1: Pc, sh': Shared, pc1': Pc, gained: seq<Run>)
    requires At(init, sh, live, pc, pc1) && !pc1.Idle? && !Stale(sh, pc1) && NoWrap(sh, pc1)
    requires Step(sh, pc1) == (sh', pc1', gained)
    ensures At(init, sh', live + gained, pc, pc1')
  {
    hide Step, Stale, NoWrap, Reachable;
    var st := State(sh, live, [pc, pc1]);
    var st' := Reach(init, st, Advance(1));
    assert [pc, pc1][1 := pc1'] == [pc, pc1'];
  }

  lemma LookAt(init: State, sh: Shared, live: seq<Run>, pc: Pc, pc1: Pc, sh': Shared, pc1': Pc)
    requires At(init, sh, live, pc, pc1) && !pc1.Idle? && !Stale(sh, pc1) && NoWrap(sh, pc1)
    requires Step(sh, pc1) == (sh', pc1', [])
    ensures At(init, sh', live, pc, pc1')
  {
    hide At, Step, Stale, NoWrap;
    StepAt(init, sh, live, pc, pc1, sh', pc1', []);
    assert live + [] == live;
  }

  lemma BeginAllocate(init: State, sh: Shared, live: seq<Run>, pc: Pc)
    requires At(init, sh, live, pc, Idle)
    ensures At(init, sh, live, pc, ListLoad(1))
  {
    hide Reachable;
    var st' := Reach(init, State(sh, live, [pc, Idle]), Allocate(1, 1));
    assert [pc, Idle][1 := ListLoad(1)] == [pc, ListLoad(1)];
  }

  /** The page at the head of the list is cleared and handed out. */
  function Popped(sh: Shared): Shared {
    sh.(head := NodeAt(sh.mem, sh.head).next, ver := sh.ver + 1, free := Rest(sh.free),
        mem := sh.mem[sh.head := Node(0, 0)], count := sh.count + 1)
  }

  lemma HandOut(init: State, sh: Shared, live: seq<Run>, pc: Pc, addr: nat)
    requires At(init, sh, live, pc, Clear(addr, 1))
    ensures At(init, sh.(mem := sh.mem[addr := Node(0, 0)], count := sh.count + 1), live + [Run(addr, 1)], pc, Idle)
  {
    hide At;
    var sh1 := sh.(mem := sh.mem[addr := Node(0, 0)]);
    LookAt(init, sh, live, pc, Clear(addr, 1), sh1, CountUp(addr, 1));
    StepAt(init, sh1, live, pc, CountUp(addr, 1), sh1.(count := sh.count + 1), Idle, [Run(addr, 1)]);
  }

  lemma Pop(init: State, sh: Shared, live: seq<Run>, pc: Pc)
    requires At(init, sh, live, pc, Idle) && sh.head != 0 && NodeAt(sh.mem, sh.head).count == 1
    ensures At(init, Popped(sh), live + [Run(sh.head, 1)], pc, Idle)
  {
    hide At;
    var (h, v, x) := (sh.head, sh.ver, NodeAt(sh.mem, sh.head).next);
    BeginAllocate(init, sh, live, pc);
    LookAt(init, sh, live, pc, ListLoad(1), sh, ListCount(1, h, v));
    LookAt(init, sh, live, pc, ListCount(1, h, v), sh, ListNext(1, h, v, 1));
    LookAt(init, sh, live, pc, ListNext(1, h, v, 1), sh, ListCas(1, h, v, 1, x));
    var sh1 := sh.(head := x, ver := v + 1, free := Rest(sh.free));
    LookAt(init, sh, live, pc, ListCas(1, h, v, 1, x), sh1, Clear(h, 1));
    HandOut(init, sh1, live, pc, h);
  }

  /** A page that was never used is cleared and handed out. */
  function Grown(sh: Shared): Shared {
    sh.(top := sh.top + 1, mem := sh.mem[sh.top := Node(0, 0)], count := sh.count + 1)
  }

  lemma Grow(init: State, sh: Shared, live: seq<Run>, pc: Pc)
    requires At(init, sh, live, pc, Idle) && sh.head == 0 && sh.base <= sh.top < sh.end < PAGES
    ensures At(init, Grown(sh), live + [Run(sh.top, 1)], pc, Idle)
  {
    hide At;
    var t := sh.top;
    assert (t + 1 - 1) % PAGES == t && (t + 1) % PAGES == t + 1;
    BeginAllocate(init, sh, live, pc);
    LookAt(init, sh, live, pc, ListLoad(1), sh, FreshLoad(1));
    LookAt(init, sh, live, pc, FreshLoad(1), sh, FreshCas(1, t));
    LookAt(init, sh, live, pc, FreshCas(1, t), sh.(top := t + 1), Clear(t, 1));
    HandOut(init, sh.(top := t + 1), live, pc, t);
  }

  /** A page is put on the list. */
  function Pushed(sh: Shared, addr: nat): Shared {
    sh.(head := addr, ver := sh.ver + 1, free := [Run(addr, 1)] + sh.free,
        mem := sh.mem[addr := Node(sh.head, 1)], count := sh.count - 1)
  }

  lemma Push(init: State, sh: Shared, live: seq<Run>, pc: Pc, k: nat)
    requires At(init, sh, live, pc, Idle) && k < |live| && live[k].pages == 1
    ensures At(init, Pushed(sh, live[k].addr), Cut(live, k, 0, 1), pc, Idle)
  {
    var (run, next) := (Run(live[k].addr, 1), Release(1));
    var live' := Cut(live, k, 0, 1);
    assert At(init, sh, live', pc, PushLoad(run, next)) by {
      var st' := Reach(init, State(sh, live, [pc, Idle]), Deallocate(1, k, 0, 1));
      assert [pc, Idle][1 := PushLoad(run, next)] == [pc, PushLoad(run, next)];
    }
    hide At, Cut;
    LookAt(init, sh, live', pc, PushLoad(run, next), sh, PushWrite(run, next, sh.head, sh.ver));
    var sh1 := sh.(mem := sh.mem[run.addr := Node(sh.head, 1)]);
    LookAt(init, sh, live', pc, PushWrite(run, next, sh.head, sh.ver), sh1, PushCas(run, next, sh.head, sh.ver));
    var sh2 := sh1.(head := run.addr, ver := sh.ver + 1, free := [run] + sh.free);
    LookAt(init, sh1, live', pc, PushCas(run, next, sh.head, sh.ver), sh2, CountDown(1));
    LookAt(init, sh2, live', pc, CountDown(1), sh2.(count := sh.count - 1), Idle);
  }

  // ---- The run ----

  /** Page 1 alone is on the list and page 2 is live, `ver` changes after the start. */
  function OneFree(ver: nat): Shared { Shared(1, 3, 3, 1, ver, 1, map[1 := Node(0, 1), 2 := Node(0, 0)], [Run(1, 1)]) }

  /** Popping page 1 and pushing it again takes two changes and leaves everything else. */
  lemma {:induction false} Rounds(init: State, ver: nat, live: seq<Run>, pc: Pc, n: nat) returns (live': seq<Run>)
    requires At(init, OneFree(ver), live, pc, Idle)
    ensures At(init, OneFree(ver + 2 * n), live', pc, Idle) && |live| <= |live'| && live'[..|live|] == live
  {
    hide At;
    if n == 0 {
      live' := live;
    } else {
      var before := Rounds(init, ver, live, pc, n - 1);
      var sh := OneFree(ver + 2 * (n - 1));
      Pop(init, sh, before, pc);
      live' := before + [Run(1, 1)];
      Push(init, Popped(sh), live', pc, |before|);
      assert Pushed(Popped(sh), 1) == OneFree(ver + 2 * n);
      live' := Cut(live', |before|, 0, 1);
      assert live'[..|before|] == before;
    }
  }

  /** Both pages are taken, and page 1 is freed. */
  lemma Start() returns (init: State, live: seq<Run>)
    ensures Init(init) && At(init, OneFree(1), live, Idle, Idle) && |live| > 1 && live[1] == Run(2, 1)
  {
    var sh := Shared(1, 3, 1, 0, 0, 0, map[], []);
    init := State(sh, [], [Idle, Idle]);
    assert Legal(init, []) && Final(init, []) == init;
    hide At;
    live := [];
    Grow(init, sh, live, Idle);
    live := live + [Run(1, 1)];
    Grow(init, Grown(sh), live, Idle);
    live := live + [Run(2, 1)];
    Push(init, Grown(Grown(sh)), live, Idle, 0);
    live := Cut(live, 0, 0, 1);
    assert Pushed(Grown(Grown(sh)), 1) == OneFree(1);
  }

  /** A step of the first thread that only looks. */
  lemma FirstLooks(init: State, sh: Shared, live: seq<Run>, pc: Pc, pc': Pc)
    requires At(init, sh, live, pc, Idle) && !pc.Idle? && !Stale(sh, pc) && NoWrap(sh, pc)
    requires Step(sh, pc) == (sh, pc', [])
    ensures At(init, sh, live, pc', Idle)
  {
    hide Step, Stale, NoWrap, Reachable;
    var st' := Reach(init, State(sh, live, [pc, Idle]), Advance(0));
    assert [pc, Idle][0 := pc'] == [pc', Idle] && live + [] == live;
  }

  /** The first thread loads the head. */
  lemma FirstLoads(init: State, live: seq<Run>)
    requires At(init, OneFree(1), live, Idle, Idle)
    ensures At(init, OneFree(1), live, ListCount(1, 1, 1), Idle)
  {
    assert At(init, OneFree(1), live, ListLoad(1), Idle) by {
      var st' := Reach(init, State(OneFree(1), live, [Idle, Idle]), Allocate(0, 1));
      assert [Idle, Idle][0 := ListLoad(1)] == [ListLoad(1), Idle];
    }
    hide At;
    FirstLooks(init, OneFree(1), live, ListLoad(1), ListCount(1, 1, 1));
  }

  /** Both pages are on the list, page 1 in front. */
  function BothFree(ver: nat): Shared {
    Shared(1, 3, 3, 1, ver, 0, map[1 := Node(2, 1), 2 := Node(0, 1)], [Run(1, 1), Run(2, 1)])
  }

  /** The second thread takes page 1 and frees page 2 and page 1. */
  lemma SwapPages(init: State, live: seq<Run>, pc: Pc) returns (live': seq<Run>)
    requires At(init, OneFree(1), live, pc, Idle) && |live| > 1 && live[1] == Run(2, 1)
    ensures At(init, BothFree(4), live', pc, Idle)
  {
    hide At;
    var sh := Popped(OneFree(1));
    Pop(init, OneFree(1), live, pc);
    live' := live + [Run(1, 1)];
    Push(init, sh, live', pc, 1);
    live' := Cut(live', 1, 0, 1);
    Push(init, Pushed(sh, 2), live', pc, |live|);
    live' := Cut(live', |live|, 0, 1);
    assert Pushed(Pushed(sh, 2), 1) == BothFree(4);
  }

  /** The first thread reads the node at the head. */
  lemma FirstReads(init: State, live: seq<Run>)
    requires At(init, BothFree(4), live, ListCount(1, 1, 1), Idle)
    ensures At(init, BothFree(4), live, ListCas(1, 1, 1, 1, 2), Idle)
  {
    hide At;
    FirstLooks(init, BothFree(4), live, ListCount(1, 1, 1), ListNext(1, 1, 1, 1));
    FirstLooks(init, BothFree(4), live, ListNext(1, 1, 1, 1), ListCas(1, 1, 1, 1, 2));
  }

  /** The second thread takes both pages and frees page 1. */
  lemma TakeBoth(init: State, live: seq<Run>, pc: Pc) returns (live': seq<Run>)
    requires At(init, BothFree(4), live, pc, Idle)
    ensures At(init, OneFree(7), live', pc, Idle) && |live| + 1 < |live'| && live'[|live| + 1] == Run(2, 1)
  {
    hide At;
    var sh := BothFree(4);
    Pop(init, sh, live, pc);
    live' := live + [Run(1, 1)];
    Pop(init, Popped(sh), live', pc);
    live' := live' + [Run(2, 1)];
    Push(init, Popped(Popped(sh)), live', pc, |live|);
    live' := Cut(live', |live|, 0, 1);
    assert Pushed(Popped(Popped(sh)), 1) == OneFree(7);
  }

  /** One thread sees page 1 in front of page 2.  Before its compare-and-swap the other takes both
      pages, frees page 1, and takes and frees it thirteen more times.  The tag has come round, the
      pop succeeds, and page 2, which is live, is the head of the list. */
  lemma TagCycleBreaks() returns (init: State, events: seq<Event>)
    ensures Init(init) && Legal(init, events)
    ensures var st := Final(init, events);
            && |st.threads| == 2 && Stale(st.sh, st.threads[0])
            && Step(st.sh, st.threads[0]).0.head == 2 && exists k :: 0 <= k < |st.live| && st.live[k] == Run(2, 1)
  {
    hide At, Init, Legal, Final;
    var live;
    init, live := Start();
    FirstLoads(init, live);
    live := SwapPages(init, live, ListCount(1, 1, 1));
    FirstReads(init, live);
    var pc := ListCas(1, 1, 1, 1, 2);
    var both := TakeBoth(init, live, pc);
    var k := |live| + 1;
    live := Rounds(init, 7, both, pc, 13);
    assert live[..|both|][k] == Run(2, 1);
    events := Events(init, OneFree(33), live, pc);
    assert live[k] == Run(2, 1);
  }

  lemma Events(init: State, sh: Shared, live: seq<Run>, pc: Pc) returns (events: seq<Event>)
    requires At(init, sh, live, pc, Idle)
    ensures Legal(init, events) && Final(init, events) == State(sh, live, [pc, Idle])
  {
    events :| Legal(init, events) && Final(init, events) == State(sh, live, [pc, Idle]);
  }
}
