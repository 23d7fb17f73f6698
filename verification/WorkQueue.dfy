/** The work-stealing run queues of the executor (art/src/queue.rs) as one state machine.

    Worker `w` owns queue `w` and is in the middle of at most one operation; its program
    counter says where.  Every load, compare-exchange, slot access and store is one step, and
    the steps of all workers interleave freely.  A worker may steal from any queue, its own
    included, as the scheduler does.  All counters are 32-bit words that wrap.

    Fields marked "auxiliary" record history for the proofs: the code never looks at them. */
module WorkQueue {
  const WORD := 0x1_0000_0000

  type u32 = x: int | 0 <= x < 0x1_0000_0000

  type Task = nat

  /** A counter as the code sees it. */
  function Word(a: nat): u32 { a % WORD }

  function WAdd(a: u32, b: u32): u32 { (a + b) % WORD }

  function WSub(a: u32, b: u32): u32 { (a - b) % WORD }

  /** The capacities that the compile-time assertions admit. */
  predicate ValidCap(n: nat) { 2 <= n <= 256 && n % 2 == 0 && PowerOfTwo(n) }

  predicate PowerOfTwo(n: nat) { n in {2, 4, 8, 16, 32, 64, 128, 256} }

  /** The ring slot of a counter: the code masks with `cap - 1`, which for a power of two is
      the remainder modulo `cap` (see `WorkQueueSafety.SlotIsRemainder`). */
  function Slot(cap: nat, p: nat): (i: nat)
    requires cap > 0
    ensures i < cap
  {
    if p < cap then p else Slot(cap, p - cap)
  }

  /** The packed head: `front` is the code's `real`.  Auxiliary: `s` and `r` count without wrapping. */
  datatype Head = Head(steal: u32, front: u32, s: nat, r: nat)

  /** One ring.  Auxiliary: `log` holds every task ever published, oldest first. */
  datatype Queue = Queue(head: Head, tail: u32, buf: seq<Task>, log: seq<Task>)

  datatype Place = Push115 | Pop156 | Steal252 | Steal261 | Steal284

  /** Where a worker is.  Auxiliary parts: `items`, `f`, the `v` of PushPublish and PopRead,
      and the unwrapped counters inside each `Head`. */
  datatype Pc =
    | Idle
    | PushLoadHead(v: Task)
    | PushLoadTail(v: Task, h: Head)
    | PushCas(v: Task, tail: u32, h: Head)
    | PushInject(v: Task, cur: u32, end: u32, items: seq<Task>)
    | PushBatch(cur: u32, end: u32, items: seq<Task>)
    | PushWrite(v: Task, tail: u32)
    | PushPublish(v: Task, tail: u32)
    | PopLoadHead
    | PopLoadTail(h: Head)
    | PopCas(h: Head)
    | PopRead(front: u32, v: Task)
    | StealCheck(victim: nat, andPop: bool)
    | StealLoadHead(victim: nat, andPop: bool, dstTail: u32)
    | StealLoadTail(victim: nat, andPop: bool, dstTail: u32, h: Head)
    | StealCas(victim: nat, andPop: bool, dstTail: u32, h: Head, n: u32)
    | StealCopy(victim: nat, andPop: bool, dstTail: u32, h: Head, n: u32, i: u32, f: nat, items: seq<Task>)
    | StealFinish(victim: nat, andPop: bool, dstTail: u32, h: Head, n: u32, f: nat, items: seq<Task>)
    | StealDone(andPop: bool, dstTail: u32, n: u32, items: seq<Task>)
    | StealPublish(dstTail: u32, n: u32, items: seq<Task>)
    | Panicked(place: Place)

  /** `pushed` records what entered the queues, `injected` and `popped` what left them, and
      `lost` what a contended push claimed but never handed to the injector, each in order. */
  datatype State = State(
    cap: nat, qs: seq<Queue>, ws: seq<Pc>,
    pushed: seq<Task>, injected: seq<Task>, popped: seq<Task>, lost: seq<Task>)

  datatype Op = Push(v: Task) | Pop | Steal(victim: nat, andPop: bool)

  datatype Step = Begin(w: nat, op: Op) | Advance(w: nat)

  /** What one step of a worker changes: its own queue or the one it steals from, its own
      program counter, and the outlets. */
  datatype Delta = Delta(onSrc: bool, q: Queue, pc: Pc, injected: seq<Task>, popped: seq<Task>, lost: seq<Task>)

  /** The worker moves on and its own queue becomes `q`. */
  function Own(q: Queue, pc: Pc): Delta { Delta(false, q, pc, [], [], []) }

  /** The worker moves on and the queue it steals from becomes `q`. */
  function Src(q: Queue, pc: Pc): Delta { Delta(true, q, pc, [], [], []) }

  predicate SameWord(a: Head, b: Head) { a.steal == b.steal && a.front == b.front }

  function BeginPc(op: Op): Pc {
    match op
    case Push(v) => PushLoadHead(v)
    case Pop => PopLoadHead
    case Steal(victim, andPop) => StealCheck(victim, andPop)
  }

  /** Tasks `[from, from + n)` of a log; empty parts beyond its end are dropped. */
  function Run(log: seq<Task>, from: nat, n: nat): seq<Task> {
    if from + n <= |log| then log[from..from + n] else []
  }

  // ---- Local::push and push_contended (queue.rs:82-139) ----

  function PushStep(cap: nat, q: Queue, pc: Pc): Delta
    requires ValidCap(cap) && |q.buf| == cap
  {
    match pc
    case PushLoadHead(v) => Own(q, PushLoadTail(v, q.head))
    case PushLoadTail(v, h) =>
      if WSub(q.tail, h.steal) < cap then Own(q, PushWrite(v, q.tail))
      else if h.steal != h.front then Own(q, Idle).(injected := [v])
      else if WSub(q.tail, h.front) != cap then Own(q, Panicked(Push115))
      else Own(q, PushCas(v, q.tail, h))
    case PushCas(v, tail, h) =>
      if SameWord(q.head, Head(h.front, h.front, 0, 0)) then
        var next := WAdd(h.front, cap / 2);
        Own(q.(head := Head(next, next, q.head.r + cap / 2, q.head.r + cap / 2)),
            PushInject(v, h.front, next, Run(q.log, q.head.r, cap / 2)))
      else Own(q, PushLoadHead(v))
    case PushInject(v, cur, end, items) =>
      if cur < end then Own(q, PushBatch(cur, end, items)).(injected := [v])
      else Own(q, Idle).(injected := [v], lost := items)
    case PushBatch(cur, end, items) =>
      if cur < end then
        Own(q, PushBatch(cur + 1, end, if items == [] then [] else items[1..])).(injected := [q.buf[Slot(cap, cur)]])
      else Own(q, Idle)
    case PushWrite(v, tail) => Own(q.(buf := q.buf[Slot(cap, tail) := v]), PushPublish(v, tail))
    case PushPublish(v, tail) => Own(q.(tail := WAdd(tail, 1), log := q.log + [v]), Idle)
    case _ => Own(q, pc)
  }

  // ---- Local::pop (queue.rs:141-167) ----

  function PopStep(cap: nat, q: Queue, pc: Pc): Delta
    requires ValidCap(cap) && |q.buf| == cap
  {
    match pc
    case PopLoadHead => Own(q, PopLoadTail(q.head))
    case PopLoadTail(h) =>
      if h.front == q.tail then Own(q, Idle)
      else if h.steal != h.front && h.steal == WAdd(h.front, 1) then Own(q, Panicked(Pop156))
      else Own(q, PopCas(h))
    case PopCas(h) =>
      if SameWord(q.head, h) then
        var next := WAdd(h.front, 1);
        var head := if h.steal == h.front then Head(next, next, q.head.r + 1, q.head.r + 1)
                    else Head(h.steal, next, q.head.s, q.head.r + 1);
        Own(q.(head := head), PopRead(h.front, if q.head.r < |q.log| then q.log[q.head.r] else 0))
      else Own(q, PopLoadTail(q.head))
    case PopRead(front, v) => Own(q, Idle).(popped := [q.buf[Slot(cap, front)]])
    case _ => Own(q, pc)
  }

  // ---- Stealer::{steal_into, steal_into_and_pop, steal_n} (queue.rs:195-289) ----

  function StealStep(cap: nat, own: Queue, src: Queue, pc: Pc): Delta
    requires ValidCap(cap) && |own.buf| == cap && |src.buf| == cap
  {
    match pc
    case StealCheck(victim, andPop) =>
      if WSub(own.tail, own.head.steal) > cap / 2 then Own(own, Idle)
      else Own(own, StealLoadHead(victim, andPop, own.tail))
    case StealLoadHead(victim, andPop, dstTail) =>
      Own(own, StealLoadTail(victim, andPop, dstTail, src.head))
    case StealLoadTail(victim, andPop, dstTail, h) =>
      if h.steal != h.front then Own(own, Idle)
      else
        var all := WSub(src.tail, h.front);
        var n := all - all / 2;
        if n == 0 then Own(own, Idle)
        else if h.steal == WAdd(h.front, n) then Own(own, Panicked(Steal252))
        else Own(own, StealCas(victim, andPop, dstTail, h, n))
    case StealCas(victim, andPop, dstTail, h, n) =>
      if SameWord(src.head, h) then
        var head := Head(h.steal, WAdd(h.front, n), src.head.s, src.head.r + n);
        if n > cap / 2 then Src(src.(head := head), Panicked(Steal261))
        else Src(src.(head := head),
                 StealCopy(victim, andPop, dstTail, head, n, 0, src.head.r, Run(src.log, src.head.r, n)))
      else Own(own, StealLoadTail(victim, andPop, dstTail, src.head))
    case StealCopy(victim, andPop, dstTail, h, n, i, f, items) =>
      if i < n then
        var value := src.buf[Slot(cap, WAdd(h.steal, i))];
        Own(own.(buf := own.buf[Slot(cap, WAdd(dstTail, i)) := value]),
            StealCopy(victim, andPop, dstTail, h, n, i + 1, f, items))
      else Own(own, StealFinish(victim, andPop, dstTail, h, n, f, items))
    case StealFinish(victim, andPop, dstTail, h, n, f, items) =>
      if SameWord(src.head, h) then
        Src(src.(head := Head(h.front, h.front, src.head.r, src.head.r)), StealDone(andPop, dstTail, n, items))
      else if src.head.steal == src.head.front then Own(own, Panicked(Steal284))
      else Own(own, StealFinish(victim, andPop, dstTail, src.head, n, f, items))
    case StealDone(andPop, dstTail, n, items) =>
      if !andPop then Own(own.(tail := WAdd(dstTail, n), log := own.log + items), Idle)
      else if n == 0 then Own(own, Idle)
      else
        var rest := if items == [] then [] else items[..|items| - 1];
        Own(own, if n - 1 == 0 then Idle else StealPublish(dstTail, n - 1, rest))
          .(popped := [own.buf[Slot(cap, WAdd(dstTail, n - 1))]])
    case StealPublish(dstTail, n, items) =>
      Own(own.(tail := WAdd(dstTail, n), log := own.log + items), Idle)
    case _ => Own(own, pc)
  }

  // ---- The machine ----

  predicate Shape(st: State) {
    && ValidCap(st.cap) && |st.qs| == |st.ws|
    && (forall k :: 0 <= k < |st.qs| ==> |st.qs[k].buf| == st.cap)
    && (forall w :: 0 <= w < |st.ws| ==> VictimOk(st.ws[w], |st.qs|))
  }

  /** Between the start of a steal and the release of the claim. */
  predicate IsStealing(pc: Pc) {
    pc.StealCheck? || pc.StealLoadHead? || pc.StealLoadTail? || pc.StealCas? || pc.StealCopy? || pc.StealFinish?
  }

  predicate IsPopping(pc: Pc) { pc.PopLoadHead? || pc.PopLoadTail? || pc.PopCas? || pc.PopRead? }

  predicate VictimOk(pc: Pc, n: nat) { IsStealing(pc) ==> pc.victim < n }

  /** What the worker at `pc` does next, given its own queue and the one it steals from. */
  function Effect(cap: nat, own: Queue, src: Queue, pc: Pc): Delta
    requires ValidCap(cap) && |own.buf| == cap && |src.buf| == cap
  {
    if IsStealing(pc) || pc.StealDone? || pc.StealPublish? then StealStep(cap, own, src, pc)
    else if IsPopping(pc) then PopStep(cap, own, pc)
    else PushStep(cap, own, pc)
  }

  /** The queue that worker `w` steals from; its own when it is not stealing. */
  function Source(w: nat, pc: Pc): nat { if IsStealing(pc) then pc.victim else w }

  function Put(st: State, w: nat, d: Delta): State
    requires w < |st.ws| && w < |st.qs| && Source(w, st.ws[w]) < |st.qs|
  {
    st.(qs := st.qs[(if d.onSrc then Source(w, st.ws[w]) else w) := d.q], ws := st.ws[w := d.pc],
        injected := st.injected + d.injected, popped := st.popped + d.popped, lost := st.lost + d.lost)
  }

  /** The compare-exchange of a thief finds the head word it expects, but the number of tasks it made
      out earlier is more than half a ring, or more than there are. */
  predicate Overclaims(cap: nat, src: Queue, pc: Pc) {
    pc.StealCas? && SameWord(src.head, pc.h) && (pc.n > cap / 2 || src.head.r + pc.n > |src.log|)
  }

  predicate Enabled(st: State, step: Step) {
    && Shape(st) && step.w < |st.ws|
    && match step
       case Begin(w, op) => st.ws[w].Idle? && (op.Steal? ==> op.victim < |st.qs|)
       case Advance(w) =>
         !st.ws[w].Idle? && !st.ws[w].Panicked? && !Overclaims(st.cap, st.qs[Source(w, st.ws[w])], st.ws[w])
  }

  function Next(st: State, step: Step): State
    requires Enabled(st, step)
  {
    match step
    case Begin(w, op) =>
      st.(ws := st.ws[w := BeginPc(op)], pushed := if op.Push? then st.pushed + [op.v] else st.pushed)
    case Advance(w) =>
      Put(st, w, Effect(st.cap, st.qs[w], st.qs[Source(w, st.ws[w])], st.ws[w]))
  }

  ghost predicate Init(st: State) {
    && ValidCap(st.cap) && |st.qs| == |st.ws|
    && (forall k :: 0 <= k < |st.qs| ==>
          |st.qs[k].buf| == st.cap && st.qs[k].head == Head(0, 0, 0, 0) && st.qs[k].tail == 0 && st.qs[k].log == [])
    && (forall w :: 0 <= w < |st.ws| ==> st.ws[w] == Idle)
    && st.pushed == st.injected == st.popped == st.lost == []
  }

  /** A run: each step is enabled where it is taken. */
  predicate Legal(st: State, steps: seq<Step>)
    decreases |steps|
  {
    steps == [] || (Enabled(st, steps[0]) && Legal(Next(st, steps[0]), steps[1..]))
  }

  function After(st: State, steps: seq<Step>): State
    requires Legal(st, steps)
    decreases |steps|
  {
    if steps == [] then st else After(Next(st, steps[0]), steps[1..])
  }
}
