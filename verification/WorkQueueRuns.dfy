/** What every run of the run queues guarantees, and the one thing it does not. */
module WorkQueueRuns {
  import opened Sums
  import opened WorkQueue
  import opened WorkQueueSafety

  lemma InitInv(st: State)
    requires Init(st)
    ensures Inv(st)
  {
    forall t ensures Occ(st.pushed, t) == Places(st, t) {
      NatSumZero(st.qs, InWindow(t));
      NatSumZero(st.ws, InHand(t));
    }
  }

  lemma {:induction false} RunKeepsInv(st: State, steps: seq<Step>)
    requires Inv(st) && Legal(st, steps)
    ensures Inv(After(st, steps))
    decreases |steps|
  {
    if steps != [] {
      StepKeepsInv(st, steps[0]);
      RunKeepsInv(Next(st, steps[0]), steps[1..]);
    }
  }

  /** In every run of every system of workers, each copy of each pushed task is in exactly one
      place, and no slot that still holds an unread task has been overwritten. */
  lemma TasksConserved(init: State, steps: seq<Step>)
    requires Init(init) && Legal(init, steps)
    ensures var st := After(init, steps);
            && (forall t :: multiset(st.pushed)[t] == Places(st, t))
            && (forall k, p :: 0 <= k < |st.qs| && st.qs[k].head.s <= p < |st.qs[k].log| ==>
                  |st.qs[k].buf| == st.cap && st.cap > 0 && st.qs[k].buf[Slot(st.cap, p)] == st.qs[k].log[p])
  {
    InitInv(init);
    RunKeepsInv(init, steps);
    var st := After(init, steps);
    forall t ensures multiset(st.pushed)[t] == Places(st, t) {
      OccMultiset(st.pushed, t);
    }
    forall k, p | 0 <= k < |st.qs| && st.qs[k].head.s <= p < |st.qs[k].log|
      ensures |st.qs[k].buf| == st.cap && st.cap > 0 && st.qs[k].buf[Slot(st.cap, p)] == st.qs[k].log[p]
    {
      assert QueueInv(st.cap, st.qs[k]);
    }
  }

  /** In every run the wrapped counters stay ordered within one ring, and none of the five
      assertions of the code has failed.  A claim that is too large can only come up when 2^32 tasks
      have been claimed since the thief loaded the head. */
  lemma AssertionsHold(init: State, steps: seq<Step>)
    requires Init(init) && Legal(init, steps)
    ensures var st := After(init, steps);
            && (forall w :: 0 <= w < |st.ws| ==> !st.ws[w].Panicked?)
            && (forall k :: 0 <= k < |st.qs| ==>
                  var q := st.qs[k];
                  WSub(q.head.front, q.head.steal) <= WSub(q.tail, q.head.steal) <= st.cap)
            && (forall w :: 0 <= w < |st.ws| && st.ws[w].StealCas? ==>
                  && st.ws[w].victim < |st.qs|
                  && (Overclaims(st.cap, st.qs[st.ws[w].victim], st.ws[w]) ==>
                        st.qs[st.ws[w].victim].head.r - st.ws[w].h.r >= WORD))
  {
    InitInv(init);
    RunKeepsInv(init, steps);
    var st := After(init, steps);
    forall w | 0 <= w < |st.ws| ensures !st.ws[w].Panicked? {
      assert WorkerInv(st.cap, st.qs, w, st.ws[w]);
    }
    forall k | 0 <= k < |st.qs|
      ensures var q := st.qs[k]; WSub(q.head.front, q.head.steal) <= WSub(q.tail, q.head.steal) <= st.cap
    {
      var q := st.qs[k];
      assert QueueInv(st.cap, q);
      WordDiff(q.head.r, q.head.s);
      WordDiff(|q.log|, q.head.s);
    }
    forall w | 0 <= w < |st.ws| && st.ws[w].StealCas?
      ensures && st.ws[w].victim < |st.qs|
              && (Overclaims(st.cap, st.qs[st.ws[w].victim], st.ws[w]) ==>
                    st.qs[st.ws[w].victim].head.r - st.ws[w].h.r >= WORD)
    {
      LateClaims(st, w);
    }
  }

  lemma LateClaims(st: State, w: nat)
    requires Inv(st) && w < |st.ws| && st.ws[w].StealCas?
    ensures st.ws[w].victim < |st.qs|
    ensures Overclaims(st.cap, st.qs[st.ws[w].victim], st.ws[w]) ==>
              st.qs[st.ws[w].victim].head.r - st.ws[w].h.r >= WORD
  {
    hide Conserved, Overclaims;
    var pc := st.ws[w];
    assert WorkerInv(st.cap, st.qs, w, pc);
    if Overclaims(st.cap, st.qs[pc.victim], pc) {
      OverclaimNeedsCycle(st.cap, st.qs[w], st.qs[pc.victim], pc.victim == w, pc);
    }
  }

  // ---- The contended push at the end of the counter range (queue.rs:131) ----

  /** A contended push that has just claimed half a ring starting at a head word so large that
      its end wraps: the plain range from start to end is then empty. */
  predicate Wraps(st: State, step: Step) {
    && step.Advance? && step.w < |st.ws| && st.ws[step.w].PushInject?
    && st.ws[step.w].cur + st.cap / 2 >= WORD
  }

  function WrapCount(st: State, steps: seq<Step>): nat
    requires Legal(st, steps)
    decreases |steps|
  {
    if steps == [] then 0
    else (if Wraps(st, steps[0]) then 1 else 0) + WrapCount(Next(st, steps[0]), steps[1..])
  }

  lemma EffectLosses(cap: nat, own: Queue, src: Queue, self: bool, pc: Pc)
    requires Before(cap, own, src, self, pc)
    ensures |Effect(cap, own, src, pc).lost| == if pc.PushInject? && pc.cur + cap / 2 >= WORD then cap / 2 else 0
  {
    hide PowerOfTwo, Slot, Word, WSub;
  }

  lemma StepLosses(st: State, step: Step)
    requires Inv(st) && Enabled(st, step)
    ensures |Next(st, step).lost| == |st.lost| + (if Wraps(st, step) then st.cap / 2 else 0)
    ensures Next(st, step).cap == st.cap
  {
    hide Conserved, Effect;
    if step.Advance? {
      var (w, pc) := (step.w, st.ws[step.w]);
      assert WorkerInv(st.cap, st.qs, w, pc);
      EffectLosses(st.cap, st.qs[w], st.qs[Source(w, pc)], Source(w, pc) == w, pc);
    }
  }

  lemma {:induction false} RunLosses(st: State, steps: seq<Step>)
    requires Inv(st) && Legal(st, steps)
    ensures |After(st, steps).lost| == |st.lost| + st.cap / 2 * WrapCount(st, steps)
    decreases |steps|
  {
    hide Inv, Enabled, Next, Wraps;
    if steps != [] {
      StepLosses(st, steps[0]);
      StepKeepsInv(st, steps[0]);
      RunLosses(Next(st, steps[0]), steps[1..]);
      Distribute(st.cap / 2, WrapCount(Next(st, steps[0]), steps[1..]));
    }
  }

  lemma Distribute(half: nat, later: nat)
    ensures half * (1 + later) == half + half * later && half * (0 + later) == half * later
  {
  }

  /** Tasks are lost exactly when some contended push claims across the wrap of the 32-bit
      counter, and then each such push loses half a ring. */
  lemma LossesAreWraps(init: State, steps: seq<Step>)
    requires Init(init) && Legal(init, steps)
    ensures |After(init, steps).lost| == init.cap / 2 * WrapCount(init, steps)
    ensures After(init, steps).lost == [] <==> WrapCount(init, steps) == 0
  {
    hide Inv, Legal, After, WrapCount;
    InitInv(init);
    RunLosses(init, steps);
    NoneIff(init.cap / 2, WrapCount(init, steps)) by { HalfOfCap(init); }
  }

  lemma NoneIff(half: nat, n: nat)
    requires half >= 1
    ensures half * n == 0 <==> n == 0
  {
    assert n >= 1 ==> half * n >= half;
  }

  lemma HalfOfCap(init: State)
    requires Init(init)
    ensures init.cap / 2 >= 1
  {
  }

  // ---- Such a run exists ----

  ghost predicate Reachable(init: State, st: State) {
    exists steps :: Legal(init, steps) && After(init, steps) == st
  }

  lemma {:induction false} Extend(init: State, steps: seq<Step>, step: Step)
    requires Legal(init, steps) && Enabled(After(init, steps), step)
    ensures Legal(init, steps + [step]) && After(init, steps + [step]) == Next(After(init, steps), step)
    decreases |steps|
  {
    if steps == [] {
      assert ([] + [step])[1..] == [];
    } else {
      assert (steps + [step])[1..] == steps[1..] + [step];
      Extend(Next(init, steps[0]), steps[1..], step);
    }
  }

  lemma Reach(init: State, st: State, step: Step) returns (st': State)
    requires Reachable(init, st) && Enabled(st, step)
    ensures st' == Next(st, step) && Reachable(init, st')
  {
    var steps :| Legal(init, steps) && After(init, steps) == st;
    Extend(init, steps, step);
    st' := Next(st, step);
  }

  /** Workers that stand still. */
  datatype Others = Others(qs: seq<Queue>, ws: seq<Pc>)

  /** The first worker, with a ring of two, is at `pc`, reached from `init` and with nothing lost. */
  ghost predicate At(init: State, o: Others, st: State, q: Queue, pc: Pc) {
    && Reachable(init, st)
    && st.cap == 2 && st.qs == [q] + o.qs && st.ws == [pc] + o.ws && |q.buf| == 2 && st.lost == []
    && Shape(st)
  }

  lemma BeginAt(init: State, o: Others, st: State, q: Queue, op: Op) returns (st': State)
    requires At(init, o, st, q, Idle) && !op.Steal?
    ensures At(init, o, st', q, BeginPc(op))
  {
    st' := Reach(init, st, Begin(0, op));
    assert st'.ws == [BeginPc(op)] + o.ws;
  }

  lemma StepAt(init: State, o: Others, st: State, q: Queue, pc: Pc, d: Delta) returns (st': State)
    requires At(init, o, st, q, pc) && !IsStealing(pc) && !pc.Idle? && !pc.Panicked?
    requires d == Effect(2, q, q, pc) && !d.onSrc && |d.q.buf| == 2 && !IsStealing(d.pc)
    ensures d.lost == [] ==> At(init, o, st', d.q, d.pc)
    ensures Reachable(init, st') && st'.lost == d.lost
  {
    hide Effect, Reachable, ValidCap;
    st' := Reach(init, st, Advance(0));
    assert st'.qs == [d.q] + o.qs && st'.ws == [d.pc] + o.ws;
  }

  lemma PushAt(init: State, o: Others, st: State, q: Queue, pc: Pc, d: Delta) returns (st': State)
    requires At(init, o, st, q, pc)
    requires pc.PushLoadHead? || pc.PushLoadTail? || pc.PushCas? || pc.PushInject? || pc.PushWrite? || pc.PushPublish?
    requires d == PushStep(2, q, pc) && !d.onSrc && |d.q.buf| == 2 && !IsStealing(d.pc)
    ensures d.lost == [] ==> At(init, o, st', d.q, d.pc)
    ensures Reachable(init, st') && st'.lost == d.lost
  {
    hide PushStep;
    st' := StepAt(init, o, st, q, pc, d);
  }

  lemma PopAt(init: State, o: Others, st: State, q: Queue, pc: Pc, d: Delta) returns (st': State)
    requires At(init, o, st, q, pc) && IsPopping(pc)
    requires d == PopStep(2, q, pc) && !d.onSrc && |d.q.buf| == 2 && d.lost == [] && !IsStealing(d.pc)
    ensures At(init, o, st', d.q, d.pc)
  {
    hide PopStep;
    st' := StepAt(init, o, st, q, pc, d);
  }

  /** The queue after `k` tasks went through, with `waiting` more in the ring. */
  predicate Holding(q: Queue, k: nat, waiting: nat) {
    |q.buf| == 2 && |q.log| == k + waiting && q.head == Head(Word(k), Word(k), k, k) && q.tail == Word(k + waiting)
  }

  lemma PushFinish(init: State, o: Others, st: State, q: Queue, k: nat, waiting: nat) returns (st': State, q': Queue)
    requires At(init, o, st, q, PushWrite(0, q.tail)) && Holding(q, k, waiting)
    ensures At(init, o, st', q', Idle) && Holding(q', k, waiting + 1)
  {
    WordAdd(k + waiting, 1);
    hide Word, WSub, WAdd, At, Reachable, Slot;
    var tail := q.tail;
    q' := q.(buf := q.buf[Slot(2, tail) := 0]);
    st' := PushAt(init, o, st, q, PushWrite(0, tail), Own(q', PushPublish(0, tail)));
    var p := q'.(tail := WAdd(tail, 1), log := q.log + [0]);
    st' := PushAt(init, o, st', q', PushPublish(0, tail), Own(p, Idle));
    q' := p;
  }

  /** Pushing one task into a ring with room. */
  lemma PushOne(init: State, o: Others, st: State, q: Queue, k: nat, waiting: nat) returns (st': State, q': Queue)
    requires At(init, o, st, q, Idle) && Holding(q, k, waiting) && waiting < 2
    ensures At(init, o, st', q', Idle) && Holding(q', k, waiting + 1)
  {
    WordDiff(k + waiting, k);
    hide Word, WSub, WAdd, At, Reachable, Slot;
    st' := BeginAt(init, o, st, q, Push(0));
    st' := PushAt(init, o, st', q, PushLoadHead(0), Own(q, PushLoadTail(0, q.head)));
    st' := PushAt(init, o, st', q, PushLoadTail(0, q.head), Own(q, PushWrite(0, q.tail)));
    st', q' := PushFinish(init, o, st', q, k, waiting);
  }

  lemma PopFinish(init: State, o: Others, st: State, q: Queue, k: nat) returns (st': State, q': Queue)
    requires At(init, o, st, q, PopCas(q.head)) && Holding(q, k, 1)
    ensures At(init, o, st', q', Idle) && Holding(q', k + 1, 0)
  {
    WordAdd(k, 1);
    hide Word, WSub, WAdd, At, Reachable, Slot;
    var (h, v) := (q.head, q.log[k]);
    q' := q.(head := Head(Word(k + 1), Word(k + 1), k + 1, k + 1));
    st' := PopAt(init, o, st, q, PopCas(h), Own(q', PopRead(h.front, v)));
    st' := PopAt(init, o, st', q', PopRead(h.front, v), Own(q', Idle).(popped := [q.buf[Slot(2, h.front)]]));
  }

  lemma PopOne(init: State, o: Others, st: State, q: Queue, k: nat) returns (st': State, q': Queue)
    requires At(init, o, st, q, Idle) && Holding(q, k, 1)
    ensures At(init, o, st', q', Idle) && Holding(q', k + 1, 0)
  {
    assert Word(k + 1) != Word(k);
    hide Word, WSub, WAdd, At, Reachable, Slot;
    st' := BeginAt(init, o, st, q, Pop);
    st' := PopAt(init, o, st', q, PopLoadHead, Own(q, PopLoadTail(q.head)));
    st' := PopAt(init, o, st', q, PopLoadTail(q.head), Own(q, PopCas(q.head)));
    st', q' := PopFinish(init, o, st', q, k);
  }

  lemma {:induction false} Turns(init: State, o: Others, st: State, q: Queue, from: nat, k: nat)
    returns (st': State, q': Queue)
    requires At(init, o, st, q, Idle) && Holding(q, from, 0)
    ensures At(init, o, st', q', Idle) && Holding(q', from + k, 0)
  {
    hide At, Holding;
    if k == 0 {
      st', q' := st, q;
    } else {
      st', q' := Turns(init, o, st, q, from, k - 1);
      st', q' := PushOne(init, o, st', q', from + k - 1, 0);
      st', q' := PopOne(init, o, st', q', from + k - 1);
    }
  }

  /** A push into the full ring whose head word is 2^32 - 1. */
  lemma PushAcrossWrap(init: State, o: Others, st: State, q: Queue) returns (st': State)
    requires At(init, o, st, q, Idle) && Holding(q, WORD - 1, 2)
    ensures Reachable(init, st') && |st'.lost| == 1
  {
    assert WAdd(WORD - 1, 1) == 0 && WSub(1, WORD - 1) == 2 && Word(WORD - 1) == WORD - 1 && Word(WORD + 1) == 1;
    hide Word, WSub, WAdd, At, Reachable, Slot;
    var h := q.head;
    st' := BeginAt(init, o, st, q, Push(0));
    st' := PushAt(init, o, st', q, PushLoadHead(0), Own(q, PushLoadTail(0, h)));
    st' := PushAt(init, o, st', q, PushLoadTail(0, h), Own(q, PushCas(0, 1, h)));
    var q' := q.(head := Head(0, 0, WORD, WORD));
    var items := Run(q.log, WORD - 1, 1);
    st' := PushAt(init, o, st', q, PushCas(0, 1, h), Own(q', PushInject(0, WORD - 1, 0, items)));
    st' := PushAt(init, o, st', q', PushInject(0, WORD - 1, 0, items), Own(q', Idle).(injected := [0], lost := items));
  }

  /** The loss is real: a single worker with a ring of two reaches it. */
  lemma WrapLosesTask() returns (init: State, steps: seq<Step>)
    ensures Init(init) && Legal(init, steps) && |After(init, steps).lost| == 1
  {
    var q := Queue(Head(0, 0, 0, 0), 0, [0, 0], []);
    init := State(2, [q], [Idle], [], [], [], []);
    assert PowerOfTwo(2);
    assert Legal(init, []) && After(init, []) == init;
    var (k, o) := (WORD - 1, Others([], []));
    assert [q] + [] == [q] && [Idle] + [] == [Idle];
    var st, q' := Turns(init, o, init, q, 0, k);
    st, q' := PushOne(init, o, st, q', k, 0);
    st, q' := PushOne(init, o, st, q', k, 1);
    st := PushAcrossWrap(init, o, st, q');
    steps :| Legal(init, steps) && After(init, steps) == st;
  }

  // ---- The word of the head comes round ----

  /** The second worker looks at the first, which stands still. */
  lemma ThiefStep(init: State, st: State, q: Queue, q1: Queue, pc: Pc, pc': Pc) returns (st': State)
    requires At(init, Others([q1], [pc]), st, q, Idle) && IsStealing(pc) && !pc.StealCas? && pc.victim == 0
    requires |q1.buf| == 2 && StealStep(2, q1, q, pc) == Own(q1, pc') && VictimOk(pc', 2)
    ensures At(init, Others([q1], [pc']), st', q, Idle)
  {
    hide StealStep, Reachable, ValidCap;
    assert st.qs[0] == q && st.qs[1] == q1 && st.ws[1] == pc;
    st' := Reach(init, st, Advance(1));
    assert st'.qs == [q] + [q1] && st'.ws == [Idle] + [pc'];
  }

  lemma BeginSteal(init: State, st: State, q: Queue, q1: Queue) returns (st': State)
    requires At(init, Others([q1], [Idle]), st, q, Idle)
    ensures At(init, Others([q1], [StealCheck(0, false)]), st', q, Idle)
  {
    hide Reachable, ValidCap;
    st' := Reach(init, st, Begin(1, Steal(0, false)));
    assert st'.ws == [Idle] + [StealCheck(0, false)];
  }

  lemma StealLooks(q: Queue, q1: Queue)
    requires Holding(q, 0, 1) && Holding(q1, 0, 0)
    ensures ValidCap(2)
    ensures StealStep(2, q1, q, StealCheck(0, false)) == Own(q1, StealLoadHead(0, false, 0))
    ensures StealStep(2, q1, q, StealLoadHead(0, false, 0)) == Own(q1, StealLoadTail(0, false, 0, q.head))
    ensures StealStep(2, q1, q, StealLoadTail(0, false, 0, q.head)) == Own(q1, StealCas(0, false, 0, q.head, 1))
  {
    assert Word(0) == 0 && Word(1) == 1 && WSub(0, 0) == 0 && WSub(1, 0) == 1 && WAdd(0, 1) == 1;
    hide Word, WSub, WAdd, Slot;
  }

  /** The second worker begins to steal from the first, and stops before its compare-exchange. */
  lemma StealUpToCas(init: State, st: State, q: Queue, q1: Queue) returns (st': State)
    requires At(init, Others([q1], [Idle]), st, q, Idle) && Holding(q, 0, 1) && Holding(q1, 0, 0)
    ensures At(init, Others([q1], [StealCas(0, false, 0, q.head, 1)]), st', q, Idle)
  {
    hide At, StealStep;
    StealLooks(q, q1);
    st' := BeginSteal(init, st, q, q1);
    st' := ThiefStep(init, st', q, q1, StealCheck(0, false), StealLoadHead(0, false, 0));
    st' := ThiefStep(init, st', q, q1, StealLoadHead(0, false, 0), StealLoadTail(0, false, 0, q.head));
    st' := ThiefStep(init, st', q, q1, StealLoadTail(0, false, 0, q.head), StealCas(0, false, 0, q.head, 1));
  }

  /** Two workers with rings of two reach a claim of a task that is not there: the thief finds one
      task, and 2^32 tasks go through the ring before its compare-exchange. */
  lemma WordComesRound() returns (init: State, steps: seq<Step>)
    ensures Init(init) && Legal(init, steps)
    ensures var st := After(init, steps); |st.ws| == |st.qs| == 2 && Overclaims(st.cap, st.qs[0], st.ws[1])
  {
    hide At, Init, Legal, After, Overclaims, Holding;
    var q;
    init, q := TwoWorkers();
    var st := CycleOnce(init, q);
    steps :| Legal(init, steps) && After(init, steps) == st;
  }

  lemma TwoWorkers() returns (init: State, q: Queue)
    ensures Init(init) && At(init, Others([q], [Idle]), init, q, Idle) && Holding(q, 0, 0)
  {
    q := Queue(Head(0, 0, 0, 0), 0, [0, 0], []);
    init := State(2, [q, q], [Idle, Idle], [], [], [], []);
    assert PowerOfTwo(2) && Word(0) == 0;
    assert Legal(init, []) && After(init, []) == init;
    assert [q] + [q] == [q, q] && [Idle] + [Idle] == [Idle, Idle];
  }

  lemma CycleOnce(init: State, q: Queue) returns (st: State)
    requires At(init, Others([q], [Idle]), init, q, Idle) && Holding(q, 0, 0)
    ensures Reachable(init, st) && |st.ws| == |st.qs| == 2 && Overclaims(st.cap, st.qs[0], st.ws[1])
  {
    hide At;
    var q';
    st, q' := PushOne(init, Others([q], [Idle]), init, q, 0, 0);
    st := StealUpToCas(init, st, q', q);
    var pc := StealCas(0, false, 0, q'.head, 1);
    st, q' := PopOne(init, Others([q], [pc]), st, q', 0);
    st, q' := Turns(init, Others([q], [pc]), st, q', 1, WORD - 1);
    AtMeans(init, q, st, q', pc);
    assert Word(WORD) == 0 && Word(0) == 0;
  }

  lemma AtMeans(init: State, q1: Queue, st: State, q: Queue, pc: Pc)
    requires At(init, Others([q1], [pc]), st, q, Idle)
    ensures Reachable(init, st) && st.cap == 2 && st.qs == [q, q1] && st.ws == [Idle, pc]
  {
  }
}
