/** Safety of the run queues over every interleaving of any number of workers. */
module WorkQueueSafety {
  import opened Arithmetic
  import opened Sums
  import opened WorkQueue

  // ---- Wrapped words and ring slots ----

  lemma WordDiff(a: nat, b: nat)
    requires b <= a < b + WORD
    ensures WSub(Word(a), Word(b)) == a - b
  {
  }

  lemma WordEq(a: nat, b: nat)
    requires b <= a < b + WORD && Word(a) == Word(b)
    ensures a == b
  {
    WordDiff(a, b);
  }

  lemma WordAdd(a: nat, n: u32)
    ensures WAdd(Word(a), n) == Word(a + n)
    ensures Word(Word(a) + n) == Word(a + n)
  {
  }

  lemma {:induction false} SlotIsRemainder(cap: nat, p: nat)
    requires cap > 0
    ensures Slot(cap, p) == p % cap
  {
    if p >= cap {
      SlotIsRemainder(cap, p - cap);
      DivisionUnique(p, cap, (p - cap) / cap + 1, (p - cap) % cap);
    } else {
      DivisionUnique(p, cap, 0, p);
    }
  }

  lemma {:induction false} SlotLaps(cap: nat, p: nat, laps: nat)
    requires cap > 0
    ensures Slot(cap, p + laps * cap) == Slot(cap, p)
  {
    if laps > 0 {
      assert p + laps * cap == p + (laps - 1) * cap + cap;
      SlotLaps(cap, p, laps - 1);
    }
  }

  lemma CapDividesWord(cap: nat)
    requires PowerOfTwo(cap)
    ensures WORD / cap * cap == WORD
  {
  }

  /** The ring size divides 2^32, so wrapping a counter keeps its slot. */
  lemma WordSlot(cap: nat, a: nat)
    requires ValidCap(cap)
    ensures Slot(cap, Word(a)) == Slot(cap, a)
  {
    hide PowerOfTwo;
    CapDividesWord(cap);
    var laps := WORD / cap;
    assert a == a % WORD + (a / WORD) * laps * cap;
    SlotLaps(cap, a % WORD, (a / WORD) * laps);
  }

  lemma {:induction false} SlotsDiffer(cap: nat, a: nat, b: nat)
    requires cap > 0 && b < a < b + cap
    ensures Slot(cap, a) != Slot(cap, b)
  {
    if b >= cap {
      SlotsDiffer(cap, a - cap, b - cap);
    }
  }

  // ---- The invariant ----

  predicate HeadWords(h: Head) { h.steal == Word(h.s) && h.front == Word(h.r) }

  /** Slots hold all tasks of positions `[s, |log|)`, at most one ring of them. */
  predicate QueueInv(cap: nat, q: Queue)
    requires ValidCap(cap)
  {
    && |q.buf| == cap && HeadWords(q.head) && q.tail == Word(|q.log|)
    && q.head.s <= q.head.r <= |q.log| <= q.head.s + cap
    && (forall p {:trigger q.log[p]} :: q.head.s <= p < |q.log| ==> q.buf[Slot(cap, p)] == q.log[p])
  }

  /** A head loaded earlier: the queue has only moved forward since. */
  predicate Loaded(cap: nat, q: Queue, h: Head) {
    HeadWords(h) && h.s <= h.r <= h.s + cap && h.r <= q.head.r && h.s <= q.head.s
  }

  /** A head loaded by the owner, whose own tail cannot have moved since. */
  predicate OwnerLoaded(cap: nat, q: Queue, h: Head) {
    Loaded(cap, q, h) && h.r <= |q.log| <= h.s + cap
  }

  predicate Holds(buf: seq<Task>, cap: nat, from: nat, items: seq<Task>)
    requires ValidCap(cap) && |buf| == cap
  {
    forall j {:trigger items[j]} :: 0 <= j < |items| ==> buf[Slot(cap, from + j)] == items[j]
  }

  predicate HasClaim(pc: Pc) { pc.StealCopy? || pc.StealFinish? }

  predicate HasRoom(cap: nat, q: Queue, dstTail: u32) {
    dstTail == Word(|q.log|) && |q.log| - q.head.s <= cap / 2
  }

  /** The thief's claim `[f, f + n)` on `src`. */
  predicate ClaimInv(cap: nat, src: Queue, f: nat, n: nat, items: seq<Task>) {
    && 1 <= n <= cap / 2 && n == |items|
    && src.head.s == f && f + n <= src.head.r <= |src.log|
    && src.log[f..f + n] == items
  }

  predicate PushInv(cap: nat, own: Queue, pc: Pc)
    requires ValidCap(cap) && QueueInv(cap, own)
  {
    match pc
    case PushLoadTail(v, h) => OwnerLoaded(cap, own, h)
    case PushCas(v, tail, h) => OwnerLoaded(cap, own, h) && h.s == h.r && |own.log| == h.r + cap && tail == own.tail
    case PushInject(v, cur, end, items) => |items| == cap / 2 && end == WAdd(cur, cap / 2)
      && Holds(own.buf, cap, cur, items)
    case PushBatch(cur, end, items) => cur <= end && |items| == end - cur && Holds(own.buf, cap, cur, items)
    case PushWrite(v, tail) => tail == own.tail && |own.log| < own.head.s + cap
    case PushPublish(v, tail) => tail == own.tail && |own.log| < own.head.s + cap && own.buf[Slot(cap, |own.log|)] == v
    case _ => true
  }

  predicate PopInv(cap: nat, own: Queue, pc: Pc)
    requires ValidCap(cap) && QueueInv(cap, own)
  {
    match pc
    case PopLoadTail(h) => OwnerLoaded(cap, own, h)
    case PopCas(h) => OwnerLoaded(cap, own, h) && h.r < |own.log|
    case PopRead(front, v) => own.buf[Slot(cap, front)] == v
    case _ => true
  }

  predicate StealInv(cap: nat, own: Queue, src: Queue, pc: Pc)
    requires ValidCap(cap) && QueueInv(cap, own)
  {
    match pc
    case StealLoadHead(_, _, dstTail) => HasRoom(cap, own, dstTail)
    case StealLoadTail(_, _, dstTail, h) => HasRoom(cap, own, dstTail) && Loaded(cap, src, h)
    case StealCas(_, _, dstTail, h, n) =>
      && HasRoom(cap, own, dstTail) && Loaded(cap, src, h) && h.s == h.r && n >= 1
      && (src.head.r == h.r ==> n <= cap / 2 && h.r + n <= |src.log|)
    case StealCopy(_, _, dstTail, h, n, i, f, items) =>
      && HasRoom(cap, own, dstTail) && ClaimInv(cap, src, f, n, items) && i <= n
      && HeadWords(h) && h.s == f && f + n == h.r
      && Holds(own.buf, cap, |own.log|, items[..i])
    case StealFinish(_, _, dstTail, h, n, f, items) =>
      && HasRoom(cap, own, dstTail) && ClaimInv(cap, src, f, n, items)
      && HeadWords(h) && h.s == f && f + n <= h.r <= src.head.r
      && Holds(own.buf, cap, |own.log|, items)
    case StealDone(_, dstTail, n, items) =>
      HasRoom(cap, own, dstTail) && 1 <= n <= cap / 2 && n == |items| && Holds(own.buf, cap, |own.log|, items)
    case StealPublish(dstTail, n, items) =>
      HasRoom(cap, own, dstTail) && 1 <= n <= cap / 2 && n == |items| && Holds(own.buf, cap, |own.log|, items)
    case _ => true
  }

  /** What a worker relies on, in terms of its own queue and the one it steals from. */
  predicate LocalInv(cap: nat, own: Queue, src: Queue, pc: Pc)
    requires ValidCap(cap) && QueueInv(cap, own)
  {
    !pc.Panicked? && PushInv(cap, own, pc) && PopInv(cap, own, pc) && StealInv(cap, own, src, pc)
  }

  predicate WorkerInv(cap: nat, qs: seq<Queue>, w: nat, pc: Pc)
    requires ValidCap(cap) && w < |qs| && QueueInv(cap, qs[w])
  {
    VictimOk(pc, |qs|) && LocalInv(cap, qs[w], qs[Source(w, pc)], pc)
  }

  /** Two thieves never hold claims on the same queue. */
  predicate OneClaim(ws: seq<Pc>) {
    forall x, y :: 0 <= x < |ws| && 0 <= y < |ws| && x != y && HasClaim(ws[x]) && HasClaim(ws[y]) ==>
      ws[x].victim != ws[y].victim
  }

  /** Tasks waiting in a queue. */
  function Window(q: Queue): seq<Task> { if q.head.r <= |q.log| then q.log[q.head.r..] else [] }

  /** Tasks that a worker carries in the middle of an operation. */
  function Carried(pc: Pc): seq<Task> {
    match pc
    case PushLoadHead(v) => [v]
    case PushLoadTail(v, _) => [v]
    case PushCas(v, _, _) => [v]
    case PushInject(v, _, _, items) => [v] + items
    case PushBatch(_, _, items) => items
    case PushWrite(v, _) => [v]
    case PushPublish(v, _) => [v]
    case PopRead(_, v) => [v]
    case StealCopy(_, _, _, _, _, _, _, items) => items
    case StealFinish(_, _, _, _, _, _, items) => items
    case StealDone(_, _, _, items) => items
    case StealPublish(_, _, items) => items
    case _ => []
  }

  function InWindow(t: Task): Queue -> nat { q => Occ(Window(q), t) }

  function InHand(t: Task): Pc -> nat { pc => Occ(Carried(pc), t) }

  /** The places of task `t`: waiting in a queue, carried, injected, popped, or lost. */
  function Places(st: State, t: Task): nat {
    NatSum(st.qs, InWindow(t)) + NatSum(st.ws, InHand(t)) + Occ(st.injected, t) + Occ(st.popped, t) + Occ(st.lost, t)
  }

  /** Every copy of a task that was pushed is in exactly one place. */
  ghost predicate Conserved(st: State) { forall t :: Occ(st.pushed, t) == Places(st, t) }

  predicate Queues(st: State) {
    ValidCap(st.cap) && |st.qs| == |st.ws| && forall k :: 0 <= k < |st.qs| ==> QueueInv(st.cap, st.qs[k])
  }

  ghost predicate Inv(st: State) {
    && Queues(st)
    && (forall w :: 0 <= w < |st.ws| ==> WorkerInv(st.cap, st.qs, w, st.ws[w]))
    && OneClaim(st.ws)
    && Conserved(st)
  }

  // ---- One step changes one queue ----

  /** What another worker may do to a queue: move its head forward. */
  predicate HeadMoves(q: Queue, q': Queue) {
    q'.tail == q.tail && q'.buf == q.buf && q'.log == q.log && q.head.s <= q'.head.s && q.head.r <= q'.head.r
  }

  /** What its owner may do: also append and write unclaimed slots. */
  predicate OwnerMoves(q: Queue, q': Queue) {
    q.log <= q'.log && q.head.s <= q'.head.s && q.head.r <= q'.head.r
  }

  /** The obligations of a step, all local to the worker and the queues it touches.  `self`
      says that the worker steals from its own queue. */
  predicate Moves(cap: nat, own: Queue, src: Queue, self: bool, pc: Pc, d: Delta)
    requires ValidCap(cap)
  {
    var q := if d.onSrc then src else own;
    var own' := if d.onSrc && !self then own else d.q;
    var src' := if d.onSrc || self then d.q else src;
    && QueueInv(cap, d.q) && QueueInv(cap, own')
    && (d.onSrc ==> HeadMoves(src, d.q) && IsStealing(pc))
    && (!d.onSrc ==> OwnerMoves(own, d.q))
    && (d.q.head.s != q.head.s ==> q.head.s == q.head.r || (HasClaim(pc) && d.onSrc))
    && LocalInv(cap, own', src', d.pc)
    && (IsStealing(d.pc) ==> IsStealing(pc) && d.pc.victim == pc.victim)
    && (HasClaim(d.pc) ==> HasClaim(pc) || src.head.s == src.head.r)
  }

  /** The step moves copies of task `t` between the queue, the worker and the outlets, and
      neither makes nor destroys one. */
  predicate Balanced(own: Queue, src: Queue, pc: Pc, d: Delta, t: Task) {
    Occ(Window(if d.onSrc then src else own), t) + Occ(Carried(pc), t)
    == Occ(Window(d.q), t) + Occ(Carried(d.pc), t) + Occ(d.injected, t) + Occ(d.popped, t) + Occ(d.lost, t)
  }

  /** What each of the lemmas below starts from. */
  predicate Before(cap: nat, own: Queue, src: Queue, self: bool, pc: Pc) {
    && ValidCap(cap) && QueueInv(cap, own) && QueueInv(cap, src) && LocalInv(cap, own, src, pc)
    && (self ==> own == src) && (!IsStealing(pc) ==> self)
  }

  lemma PushLoads(cap: nat, q: Queue, pc: Pc)
    requires Before(cap, q, q, true, pc) && (pc.PushLoadHead? || pc.PushLoadTail?)
    ensures Moves(cap, q, q, true, pc, PushStep(cap, q, pc))
  {
    hide PowerOfTwo, Slot, Word, WAdd, WSub;
    if pc.PushLoadTail? {
      WordDiff(|q.log|, pc.h.s);
      WordDiff(|q.log|, pc.h.r);
      if pc.h.steal == pc.h.front {
        WordEq(pc.h.r, pc.h.s);
      }
    }
  }

  /** The slots of a claimed run, indexed from the wrapped counter. */
  lemma ClaimedHeld(cap: nat, q: Queue, from: nat, n: nat)
    requires ValidCap(cap) && QueueInv(cap, q) && q.head.s <= from && from + n <= |q.log| && n < WORD
    ensures Holds(q.buf, cap, Word(from), q.log[from..from + n])
  {
    hide PowerOfTwo, Slot, Word;
    var items := q.log[from..from + n];
    forall j | 0 <= j < n ensures q.buf[Slot(cap, Word(from) + j)] == items[j] {
      WordSlot(cap, from + j);
      WordSlot(cap, Word(from) + j);
      WordAdd(from, j);
      assert items[j] == q.log[from + j];
    }
  }

  lemma PushClaims(cap: nat, q: Queue, pc: Pc)
    requires Before(cap, q, q, true, pc) && pc.PushCas?
    ensures Moves(cap, q, q, true, pc, PushStep(cap, q, pc))
  {
    hide PowerOfTwo, Slot, Word, WAdd, WSub;
    var h := pc.h;
    if SameWord(q.head, Head(h.front, h.front, 0, 0)) {
      WordEq(q.head.r, h.r);
      WordAdd(h.r, cap / 2);
      ClaimedHeld(cap, q, h.r, cap / 2);
    }
  }

  lemma HoldsRest(buf: seq<Task>, cap: nat, from: nat, items: seq<Task>)
    requires ValidCap(cap) && |buf| == cap && items != [] && Holds(buf, cap, from, items)
    ensures buf[Slot(cap, from)] == items[0] && Holds(buf, cap, from + 1, items[1..])
    ensures items == [items[0]] + items[1..]
  {
    hide PowerOfTwo, Slot;
    assert buf[Slot(cap, from + 0)] == items[0];
    assert items == [items[0]] + items[1..];
    forall j | 0 <= j < |items[1..]| ensures buf[Slot(cap, from + 1 + j)] == items[1..][j] {
      assert items[1..][j] == items[j + 1];
      assert from + 1 + j == from + (j + 1);
    }
  }

  lemma PushInjects(cap: nat, q: Queue, pc: Pc)
    requires Before(cap, q, q, true, pc) && (pc.PushInject? || pc.PushBatch?)
    ensures Moves(cap, q, q, true, pc, PushStep(cap, q, pc))
  {
    hide PowerOfTwo, Slot, Word;
    if pc.PushBatch? && pc.cur < pc.end {
      HoldsRest(q.buf, cap, pc.cur, pc.items);
    }
  }

  lemma FreeSlot(cap: nat, q: Queue, at: nat, v: Task)
    requires ValidCap(cap) && QueueInv(cap, q) && |q.log| <= at < q.head.s + cap
    ensures QueueInv(cap, q.(buf := q.buf[Slot(cap, at) := v]))
  {
    forall p | q.head.s <= p < |q.log| ensures q.buf[Slot(cap, at) := v][Slot(cap, p)] == q.log[p] {
      SlotsDiffer(cap, at, p);
    }
  }

  lemma PushStores(cap: nat, q: Queue, pc: Pc)
    requires Before(cap, q, q, true, pc) && (pc.PushWrite? || pc.PushPublish?)
    ensures Moves(cap, q, q, true, pc, PushStep(cap, q, pc))
  {
    hide PowerOfTwo, Slot;
    WordSlot(cap, |q.log|);
    if pc.PushWrite? {
      FreeSlot(cap, q, |q.log|, pc.v);
    } else {
      WordAdd(|q.log|, 1);
    }
  }

  lemma PopLoads(cap: nat, q: Queue, pc: Pc)
    requires Before(cap, q, q, true, pc) && (pc.PopLoadHead? || pc.PopLoadTail? || pc.PopRead?)
    ensures Moves(cap, q, q, true, pc, PopStep(cap, q, pc))
  {
    hide PowerOfTwo, Slot, Word, WAdd, WSub;
    if pc.PopLoadTail? && pc.h.front != q.tail {
      WordAdd(pc.h.r, 1);
      if pc.h.steal == WAdd(pc.h.front, 1) {
        WordEq(pc.h.r + 1, pc.h.s);
      }
    }
  }

  lemma PopClaims(cap: nat, q: Queue, pc: Pc)
    requires Before(cap, q, q, true, pc) && pc.PopCas?
    ensures Moves(cap, q, q, true, pc, PopStep(cap, q, pc))
  {
    hide PowerOfTwo, Slot, Word, WAdd, WSub;
    var h := pc.h;
    if SameWord(q.head, h) {
      WordEq(q.head.r, h.r);
      WordEq(q.head.s, h.s);
      WordAdd(h.r, 1);
      WordSlot(cap, h.r);
      if h.steal == h.front {
        WordEq(h.r, h.s);
      }
    }
  }

  lemma StealLoads(cap: nat, own: Queue, src: Queue, self: bool, pc: Pc)
    requires Before(cap, own, src, self, pc) && (pc.StealCheck? || pc.StealLoadHead? || pc.StealLoadTail?)
    ensures Moves(cap, own, src, self, pc, StealStep(cap, own, src, pc))
  {
    hide PowerOfTwo, Slot, Word, WAdd, WSub;
    WordDiff(|own.log|, own.head.s);
    if pc.StealLoadTail? && pc.h.steal == pc.h.front {
      var h := pc.h;
      WordEq(h.r, h.s);
      var all := WSub(src.tail, h.front);
      var n := all - all / 2;
      if n != 0 {
        WordAdd(h.r, n);
        if h.steal == WAdd(h.front, n) {
          WordEq(h.r + n, h.r);
        }
        if src.head.r == h.r {
          WordDiff(|src.log|, h.r);
        }
      }
    }
  }

  lemma StealClaims(cap: nat, own: Queue, src: Queue, self: bool, pc: Pc)
    requires Before(cap, own, src, self, pc) && pc.StealCas? && !Overclaims(cap, src, pc)
    ensures Moves(cap, own, src, self, pc, StealStep(cap, own, src, pc))
  {
    hide PowerOfTwo, Slot, Word, WAdd, WSub;
    var (h, n) := (pc.h, pc.n);
    if SameWord(src.head, h) {
      WordEq(src.head.r, src.head.s);
      WordAdd(src.head.r, n);
    }
  }

  lemma StealCopies(cap: nat, own: Queue, src: Queue, self: bool, pc: Pc)
    requires Before(cap, own, src, self, pc) && pc.StealCopy?
    ensures Moves(cap, own, src, self, pc, StealStep(cap, own, src, pc))
  {
    hide PowerOfTwo, Slot, Word, WAdd;
    var (i, f, items) := (pc.i, pc.f, pc.items);
    if i < pc.n {
      var at := |own.log| + i;
      WordAdd(f, i);
      WordSlot(cap, f + i);
      WordAdd(|own.log|, i);
      WordSlot(cap, at);
      var value := src.buf[Slot(cap, (f + i))];
      assert value == src.log[f + i] == items[i];
      FreeSlot(cap, own, at, value);
      var buf := own.buf[Slot(cap, at) := value];
      assert Holds(buf, cap, |own.log|, items[..i + 1]) by {
        forall j {:trigger items[..i + 1][j]} | 0 <= j < i + 1
          ensures buf[Slot(cap, (|own.log| + j))] == items[..i + 1][j]
        {
          if j < i {
            SlotsDiffer(cap, at, |own.log| + j);
            assert own.buf[Slot(cap, (|own.log| + j))] == items[..i][j];
          }
        }
      }
    } else {
      assert items[..i] == items;
    }
  }

  lemma StealReleases(cap: nat, own: Queue, src: Queue, self: bool, pc: Pc)
    requires Before(cap, own, src, self, pc) && pc.StealFinish?
    ensures Moves(cap, own, src, self, pc, StealStep(cap, own, src, pc))
  {
    hide PowerOfTwo, Slot, Word, WAdd, WSub;
    if SameWord(src.head, pc.h) {
      WordEq(src.head.r, pc.h.r);
    } else if src.head.steal == src.head.front {
      WordEq(src.head.r, src.head.s);
    }
  }

  /** Publishing tasks already copied behind the tail. */
  lemma Publish(cap: nat, q: Queue, items: seq<Task>)
    requires ValidCap(cap) && QueueInv(cap, q) && |q.log| + |items| <= q.head.s + cap
    requires Holds(q.buf, cap, |q.log|, items)
    ensures QueueInv(cap, q.(tail := WAdd(q.tail, |items|), log := q.log + items))
  {
    hide PowerOfTwo, Slot;
    WordAdd(|q.log|, |items|);
    forall p | q.head.s <= p < |q.log| + |items| ensures q.buf[Slot(cap, p)] == (q.log + items)[p] {
      if |q.log| <= p {
        assert q.buf[Slot(cap, (|q.log| + (p - |q.log|)))] == items[p - |q.log|];
      }
    }
  }

  lemma StealPublishes(cap: nat, q: Queue, pc: Pc)
    requires Before(cap, q, q, true, pc) && (pc.StealPublish? || (pc.StealDone? && !pc.andPop))
    ensures Moves(cap, q, q, true, pc, StealStep(cap, q, q, pc))
  {
    hide PowerOfTwo, Slot;
    Publish(cap, q, pc.items);
  }

  lemma StealPops(cap: nat, q: Queue, pc: Pc)
    requires Before(cap, q, q, true, pc) && pc.StealDone? && pc.andPop
    ensures Moves(cap, q, q, true, pc, StealStep(cap, q, q, pc))
  {
    hide PowerOfTwo, Slot;
    var (n, items) := (pc.n, pc.items);
    WordAdd(|q.log|, n - 1);
    WordSlot(cap, |q.log| + n - 1);
    assert q.buf[Slot(cap, |q.log| + (n - 1))] == items[n - 1];
    assert Holds(q.buf, cap, |q.log|, items[..n - 1]);
  }

  lemma EveryPushMoves(cap: nat, q: Queue, pc: Pc)
    requires Before(cap, q, q, true, pc) && !IsStealing(pc) && !pc.StealDone? && !pc.StealPublish? && !IsPopping(pc)
    ensures Moves(cap, q, q, true, pc, PushStep(cap, q, pc))
  {
    if pc.PushLoadHead? || pc.PushLoadTail? {
      PushLoads(cap, q, pc);
    } else if pc.PushCas? {
      PushClaims(cap, q, pc);
    } else if pc.PushInject? || pc.PushBatch? {
      PushInjects(cap, q, pc);
    } else if pc.PushWrite? || pc.PushPublish? {
      PushStores(cap, q, pc);
    }
  }

  lemma EveryStealMoves(cap: nat, own: Queue, src: Queue, self: bool, pc: Pc)
    requires Before(cap, own, src, self, pc) && (IsStealing(pc) || pc.StealDone? || pc.StealPublish?)
    requires !Overclaims(cap, src, pc)
    ensures Moves(cap, own, src, self, pc, StealStep(cap, own, src, pc))
  {
    if pc.StealCheck? || pc.StealLoadHead? || pc.StealLoadTail? {
      StealLoads(cap, own, src, self, pc);
    } else if pc.StealCas? {
      StealClaims(cap, own, src, self, pc);
    } else if pc.StealCopy? {
      StealCopies(cap, own, src, self, pc);
    } else if pc.StealFinish? {
      StealReleases(cap, own, src, self, pc);
    } else if pc.StealDone? && pc.andPop {
      StealPops(cap, own, pc);
    } else {
      StealPublishes(cap, own, pc);
    }
  }

  /** Every step meets its local obligations. */
  lemma EveryStepMoves(cap: nat, own: Queue, src: Queue, self: bool, pc: Pc)
    requires Before(cap, own, src, self, pc) && !Overclaims(cap, src, pc)
    ensures Moves(cap, own, src, self, pc, Effect(cap, own, src, pc))
  {
    if IsStealing(pc) || pc.StealDone? || pc.StealPublish? {
      EveryStealMoves(cap, own, src, self, pc);
    } else if IsPopping(pc) {
      if pc.PopCas? {
        PopClaims(cap, own, pc);
      } else {
        PopLoads(cap, own, pc);
      }
    } else {
      EveryPushMoves(cap, own, pc);
    }
  }

  // ---- Each step keeps the balance ----

  lemma WindowSplits(q: Queue, to: nat, t: Task)
    requires q.head.r <= to <= |q.log|
    ensures Occ(Window(q), t) == Occ(q.log[q.head.r..to], t) + Occ(q.log[to..], t)
  {
    assert q.log[q.head.r..] == q.log[q.head.r..to] + q.log[to..];
    OccConcat(q.log[q.head.r..to], q.log[to..], t);
  }

  lemma WindowGrows(q: Queue, items: seq<Task>, t: Task)
    requires q.head.r <= |q.log|
    ensures Occ((q.log + items)[q.head.r..], t) == Occ(Window(q), t) + Occ(items, t)
  {
    assert (q.log + items)[q.head.r..] == q.log[q.head.r..] + items;
    OccConcat(q.log[q.head.r..], items, t);
  }

  lemma PushCasBalanced(cap: nat, q: Queue, pc: Pc, t: Task)
    requires Before(cap, q, q, true, pc) && pc.PushCas?
    ensures Balanced(q, q, pc, PushStep(cap, q, pc), t)
  {
    hide PowerOfTwo, Slot, Word, WAdd, WSub, Occ;
    OccNone(t);
    if SameWord(q.head, Head(pc.h.front, pc.h.front, 0, 0)) {
      WordEq(q.head.r, pc.h.r);
      var to := q.head.r + cap / 2;
      WindowSplits(q, to, t);
      OccConcat([pc.v], q.log[q.head.r..to], t);
    }
  }

  lemma PushBalanced(cap: nat, q: Queue, pc: Pc, t: Task)
    requires Before(cap, q, q, true, pc) && !IsStealing(pc) && !pc.StealDone? && !pc.StealPublish? && !IsPopping(pc)
    ensures Balanced(q, q, pc, PushStep(cap, q, pc), t)
  {
    hide PowerOfTwo, Slot, Word, WAdd, WSub, Occ;
    OccNone(t);
    if pc.PushCas? {
      PushCasBalanced(cap, q, pc, t);
    } else if pc.PushPublish? {
      WindowGrows(q, [pc.v], t);
    } else if pc.PushInject? {
      OccConcat([pc.v], pc.items, t);
    } else if pc.PushBatch? && pc.cur < pc.end {
      HoldsRest(q.buf, cap, pc.cur, pc.items);
      OccConcat([pc.items[0]], pc.items[1..], t);
    } else if pc.PushBatch? {
      assert pc.items == [];
    } else if pc.PushLoadTail? {
      PushLoads(cap, q, pc);
    }
  }

  lemma PopCasBalanced(cap: nat, q: Queue, pc: Pc, t: Task)
    requires Before(cap, q, q, true, pc) && pc.PopCas?
    ensures Balanced(q, q, pc, PopStep(cap, q, pc), t)
  {
    hide PowerOfTwo, Slot, Word, WAdd, WSub, Occ;
    OccNone(t);
    if SameWord(q.head, pc.h) {
      WordEq(q.head.r, pc.h.r);
      assert q.log[q.head.r..q.head.r + 1] == [q.log[q.head.r]];
      WindowSplits(q, q.head.r + 1, t);
    }
  }

  lemma PopBalanced(cap: nat, q: Queue, pc: Pc, t: Task)
    requires Before(cap, q, q, true, pc) && IsPopping(pc)
    ensures Balanced(q, q, pc, PopStep(cap, q, pc), t)
  {
    hide PowerOfTwo, Slot, Word, WAdd, WSub, Occ;
    OccNone(t);
    if pc.PopCas? {
      PopCasBalanced(cap, q, pc, t);
    } else if pc.PopLoadTail? {
      PopLoads(cap, q, pc);
    }
  }

  lemma OccNone(t: Task)
    ensures Occ([], t) == 0
  {
  }

  lemma StealEndBalanced(cap: nat, q: Queue, pc: Pc, t: Task)
    requires Before(cap, q, q, true, pc) && (pc.StealDone? || pc.StealPublish?)
    ensures Balanced(q, q, pc, StealStep(cap, q, q, pc), t)
  {
    hide PowerOfTwo, Slot, Word, WAdd, WSub, Occ;
    OccNone(t);
    if pc.StealPublish? || !pc.andPop {
      WindowGrows(q, pc.items, t);
    } else {
      PoppedLast(cap, q, pc);
      var rest := pc.items[..pc.n - 1];
      OccConcat(rest, [pc.items[pc.n - 1]], t);
      if pc.n == 1 {
        assert rest == [];
      }
    }
  }

  lemma StealCasBalanced(cap: nat, own: Queue, src: Queue, self: bool, pc: Pc, t: Task)
    requires Before(cap, own, src, self, pc) && pc.StealCas? && !Overclaims(cap, src, pc)
    ensures Balanced(own, src, pc, StealStep(cap, own, src, pc), t)
  {
    hide PowerOfTwo, Slot, Word, WAdd, WSub, Occ;
    OccNone(t);
    if SameWord(src.head, pc.h) {
      WindowSplits(src, src.head.r + pc.n, t);
    }
  }

  lemma StealFinishBalanced(cap: nat, own: Queue, src: Queue, self: bool, pc: Pc, t: Task)
    requires Before(cap, own, src, self, pc) && pc.StealFinish?
    ensures Balanced(own, src, pc, StealStep(cap, own, src, pc), t)
  {
    hide PowerOfTwo, Slot, Word, WAdd, WSub, Occ;
    OccNone(t);
    if !SameWord(src.head, pc.h) && src.head.steal == src.head.front {
      WordEq(src.head.r, src.head.s);
    }
  }

  /** The other steps of a steal only look, or fill slots outside the window. */
  lemma StealLooksBalanced(cap: nat, own: Queue, src: Queue, pc: Pc, t: Task)
    requires ValidCap(cap) && |own.buf| == cap && |src.buf| == cap
    requires IsStealing(pc) && !pc.StealCas? && !pc.StealFinish?
    ensures Balanced(own, src, pc, StealStep(cap, own, src, pc), t)
  {
    hide ValidCap, PowerOfTwo, Slot, Word, WAdd, WSub, Occ;
    OccNone(t);
  }

  lemma StealBalanced(cap: nat, own: Queue, src: Queue, self: bool, pc: Pc, t: Task)
    requires Before(cap, own, src, self, pc) && IsStealing(pc)
    requires !Overclaims(cap, src, pc)
    ensures Balanced(own, src, pc, StealStep(cap, own, src, pc), t)
  {
    hide PowerOfTwo, Slot, Word, WAdd, WSub, Occ, StealStep, Balanced;
    if pc.StealCas? {
      StealCasBalanced(cap, own, src, self, pc, t);
    } else if pc.StealFinish? {
      StealFinishBalanced(cap, own, src, self, pc, t);
    } else {
      StealLooksBalanced(cap, own, src, pc, t);
    }
  }

  /** The slot that a stealing pop reads holds the last stolen task. */
  lemma PoppedLast(cap: nat, q: Queue, pc: Pc)
    requires Before(cap, q, q, true, pc) && pc.StealDone?
    ensures q.buf[Slot(cap, WAdd(pc.dstTail, pc.n - 1))] == pc.items[pc.n - 1]
    ensures pc.items == pc.items[..pc.n - 1] + [pc.items[pc.n - 1]]
  {
    hide PowerOfTwo, Slot, Word, WAdd;
    WordAdd(|q.log|, pc.n - 1);
    WordSlot(cap, |q.log| + pc.n - 1);
    assert q.buf[Slot(cap, |q.log| + (pc.n - 1))] == pc.items[pc.n - 1];
  }

  lemma EveryStepBalanced(cap: nat, own: Queue, src: Queue, self: bool, pc: Pc, t: Task)
    requires Before(cap, own, src, self, pc) && !Overclaims(cap, src, pc)
    ensures Balanced(own, src, pc, Effect(cap, own, src, pc), t)
  {
    if IsStealing(pc) {
      StealBalanced(cap, own, src, self, pc, t);
    } else if pc.StealDone? || pc.StealPublish? {
      StealEndBalanced(cap, own, pc, t);
    } else if IsPopping(pc) {
      PopBalanced(cap, own, pc, t);
    } else {
      PushBalanced(cap, own, pc, t);
    }
  }

  // ---- From one worker to the whole system ----

  lemma ClaimMeansGap(st: State, x: nat)
    requires Inv(st) && x < |st.ws| && HasClaim(st.ws[x])
    ensures st.qs[st.ws[x].victim].head.s < st.qs[st.ws[x].victim].head.r
  {
    hide Conserved;
    assert WorkerInv(st.cap, st.qs, x, st.ws[x]);
  }

  lemma OwnPartKeeps(cap: nat, own: Queue, own': Queue, pc: Pc)
    requires ValidCap(cap) && QueueInv(cap, own) && QueueInv(cap, own') && HeadMoves(own, own')
    requires PushInv(cap, own, pc) && PopInv(cap, own, pc)
    ensures PushInv(cap, own', pc) && PopInv(cap, own', pc)
  {
  }

  lemma StealPartKeeps(cap: nat, own: Queue, own': Queue, src: Queue, src': Queue, pc: Pc)
    requires ValidCap(cap) && QueueInv(cap, own) && QueueInv(cap, own') && HeadMoves(own, own')
    requires QueueInv(cap, src) && QueueInv(cap, src') && OwnerMoves(src, src')
    requires StealInv(cap, own, src, pc) && (HasClaim(pc) ==> src'.head.s == src.head.s)
    ensures StealInv(cap, own', src', pc)
  {
    if HasClaim(pc) {
      assert src'.log[pc.f..pc.f + pc.n] == src.log[pc.f..pc.f + pc.n];
    }
  }

  /** The situation in which worker `w` steps. */
  ghost predicate Steps(st: State, w: nat, d: Delta) {
    && Inv(st) && w < |st.ws|
    && var pc := st.ws[w];
       Moves(st.cap, st.qs[w], st.qs[Source(w, pc)], Source(w, pc) == w, pc, d)
  }

  lemma OtherClaimStays(st: State, w: nat, d: Delta, x: nat)
    requires Steps(st, w, d) && x < |st.ws| && x != w && HasClaim(st.ws[x])
    ensures Put(st, w, d).qs[st.ws[x].victim].head.s == st.qs[st.ws[x].victim].head.s
  {
    hide Conserved, QueueInv, LocalInv;
    ClaimMeansGap(st, x);
    assert HasClaim(st.ws[w]) ==> st.ws[w].victim != st.ws[x].victim;
  }

  /** Nothing a step of `w` does disturbs what another worker relies on. */
  lemma OthersKeep(st: State, w: nat, d: Delta, x: nat)
    requires Steps(st, w, d) && x < |st.ws| && x != w
    ensures WorkerInv(st.cap, Put(st, w, d).qs, x, st.ws[x])
  {
    hide Conserved, QueueInv, PushInv, PopInv, StealInv;
    var pc := st.ws[x];
    assert WorkerInv(st.cap, st.qs, x, pc);
    var qs' := Put(st, w, d).qs;
    var v := Source(x, pc);
    if HasClaim(pc) {
      OtherClaimStays(st, w, d, x);
    }
    OwnPartKeeps(st.cap, st.qs[x], qs'[x], pc);
    StealPartKeeps(st.cap, st.qs[x], qs'[x], st.qs[v], qs'[v], pc);
  }

  lemma ClaimsStaySingle(st: State, w: nat, d: Delta)
    requires Steps(st, w, d)
    ensures OneClaim(Put(st, w, d).ws)
  {
    hide Conserved, PowerOfTwo, Slot, Word;
    var ws' := Put(st, w, d).ws;
    forall x, y | 0 <= x < |ws'| && 0 <= y < |ws'| && x != y && HasClaim(ws'[x]) && HasClaim(ws'[y])
      ensures ws'[x].victim != ws'[y].victim
    {
      var z := if x == w then y else x;
      ClaimMeansGap(st, z);
    }
  }

  lemma QueuesKeep(st: State, w: nat, d: Delta)
    requires Steps(st, w, d)
    ensures Queues(Put(st, w, d))
    ensures forall x :: 0 <= x < |st.ws| ==> WorkerInv(st.cap, Put(st, w, d).qs, x, Put(st, w, d).ws[x])
  {
    hide Conserved, PowerOfTwo, Slot, Word;
    var st' := Put(st, w, d);
    forall x | 0 <= x < |st.ws| ensures WorkerInv(st.cap, st'.qs, x, st'.ws[x]) {
      if x != w {
        OthersKeep(st, w, d, x);
      }
    }
  }

  lemma PlacesKeep(st: State, w: nat, d: Delta, t: Task)
    requires w < |st.ws| && w < |st.qs| && Source(w, st.ws[w]) < |st.qs|
    requires Balanced(st.qs[w], st.qs[Source(w, st.ws[w])], st.ws[w], d, t)
    ensures Places(Put(st, w, d), t) == Places(st, t)
  {
    hide Occ, Window, Carried;
    NatSumUpdate(st.qs, InWindow(t), if d.onSrc then Source(w, st.ws[w]) else w, d.q);
    NatSumUpdate(st.ws, InHand(t), w, d.pc);
    OccConcat(st.injected, d.injected, t);
    OccConcat(st.popped, d.popped, t);
    OccConcat(st.lost, d.lost, t);
  }

  lemma AdvanceKeepsInv(st: State, w: nat)
    requires Inv(st) && Enabled(st, Advance(w))
    ensures Inv(Next(st, Advance(w)))
  {
    var (pc, v) := (st.ws[w], Source(w, st.ws[w]));
    assert WorkerInv(st.cap, st.qs, w, pc);
    var d := Effect(st.cap, st.qs[w], st.qs[v], pc);
    EveryStepMoves(st.cap, st.qs[w], st.qs[v], v == w, pc);
    QueuesKeep(st, w, d);
    ClaimsStaySingle(st, w, d);
    forall t ensures Places(Put(st, w, d), t) == Places(st, t) {
      EveryStepBalanced(st.cap, st.qs[w], st.qs[v], v == w, pc, t);
      PlacesKeep(st, w, d, t);
    }
  }

  lemma BeginPlaces(st: State, w: nat, op: Op, t: Task)
    requires Enabled(st, Begin(w, op))
    ensures Places(Next(st, Begin(w, op)), t) == Places(st, t) + (if op.Push? then Occ([op.v], t) else 0)
  {
    hide Occ;
    OccNone(t);
    NatSumUpdate(st.ws, InHand(t), w, BeginPc(op));
  }

  lemma BeginKeepsInv(st: State, w: nat, op: Op)
    requires Inv(st) && Enabled(st, Begin(w, op))
    ensures Inv(Next(st, Begin(w, op)))
  {
    hide Occ, Places, PowerOfTwo, Slot, Word;
    var st' := Next(st, Begin(w, op));
    forall t ensures Occ(st'.pushed, t) == Places(st', t) {
      BeginPlaces(st, w, op, t);
      if op.Push? {
        OccConcat(st.pushed, [op.v], t);
      }
    }
    forall x | 0 <= x < |st'.ws| ensures WorkerInv(st'.cap, st'.qs, x, st'.ws[x]) {
      assert WorkerInv(st.cap, st.qs, x, st.ws[x]);
    }
  }

  /** Every step of every worker keeps the invariant. */
  lemma StepKeepsInv(st: State, step: Step)
    requires Inv(st) && Enabled(st, step)
    ensures Inv(Next(st, step))
  {
    match step
    case Begin(w, op) => BeginKeepsInv(st, w, op);
    case Advance(w) => AdvanceKeepsInv(st, w);
  }

  // ---- When the word of the head comes round ----

  /** A thief claims too much only if its word has come round: at least 2^32 tasks were claimed since
      it loaded the head. */
  lemma OverclaimNeedsCycle(cap: nat, own: Queue, src: Queue, self: bool, pc: Pc)
    requires Before(cap, own, src, self, pc) && Overclaims(cap, src, pc)
    ensures src.head.r - pc.h.r >= WORD
  {
    hide PowerOfTwo, Slot, Word, WAdd, WSub;
    if src.head.r - pc.h.r < WORD {
      WordEq(src.head.r, pc.h.r);
    }
  }

  /** A claim that succeeds keeps the invariant exactly if it does not claim too much. */
  lemma OverclaimExact(st: State, w: nat)
    requires Inv(st) && Shape(st) && w < |st.ws| && st.ws[w].StealCas?
    requires SameWord(st.qs[st.ws[w].victim].head, st.ws[w].h)
    ensures var src := st.qs[st.ws[w].victim];
            Inv(Put(st, w, Effect(st.cap, st.qs[w], src, st.ws[w]))) <==> !Overclaims(st.cap, src, st.ws[w])
  {
    var pc := st.ws[w];
    var src := st.qs[pc.victim];
    if !Overclaims(st.cap, src, pc) {
      AdvanceKeepsInv(st, w);
    } else {
      OverclaimBreaks(st, w);
    }
  }

  lemma OverclaimBreaks(st: State, w: nat)
    requires Inv(st) && Shape(st) && w < |st.ws| && Overclaims(st.cap, st.qs[Source(w, st.ws[w])], st.ws[w])
    ensures !Inv(Put(st, w, Effect(st.cap, st.qs[w], st.qs[st.ws[w].victim], st.ws[w])))
  {
    hide Conserved, Slot, Word, PowerOfTwo;
    var pc := st.ws[w];
    var st' := Put(st, w, Effect(st.cap, st.qs[w], st.qs[pc.victim], pc));
    if pc.n > st.cap / 2 {
      assert st'.ws[w].Panicked?;
    } else {
      assert st'.qs[pc.victim].head.r > |st'.qs[pc.victim].log|;
    }
  }
}
