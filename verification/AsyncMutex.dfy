/** The asynchronous mutex (ksync/src/mutex.rs) as a state machine.

    A client is one lock request: a `try_lock` call, a `Lock` future with its slow path, or the
    guard it produced.  Every atomic operation on the state word is one step, and the steps of
    any number of clients interleave freely.  Notifications may arrive, or not, at any time, and
    a future may be dropped wherever it can be suspended. */
module AsyncMutex {
  import opened Sums

  /** Half the range of the 64-bit state word, the limit of the overflow check. */
  const HALF := 0x8000_0000_0000_0000

  datatype Phase =
    | Idle
    | Unpolled                    // a `Lock` future not yet polled
    | Hot(listening: bool)        // in the slow path, not starved
    | Joining(listening: bool)    // about to add itself to the starved
    | Starved(listening: bool)    // counted as starved
    | Taking                      // starved and holding, about to leave the starved
    | Guard

  datatype Mutex = Mutex(word: int, clients: seq<Phase>, halted: bool)

  /** `Poll` performs the next atomic operation of a future; `late` is the outcome of the 500
      microsecond check where that is consulted. */
  datatype Action = TryLock | Lock | Poll(late: bool) | DropFuture | DropGuard

  predicate Suspended(p: Phase) { p.Unpolled? || p == Hot(true) || p == Starved(true) }

  predicate Pollable(p: Phase) { !p.Idle? && !p.Guard? }

  predicate Enabled(m: Mutex, i: nat, a: Action) {
    && !m.halted && i < |m.clients|
    && match a
       case TryLock => m.clients[i].Idle?
       case Lock => m.clients[i].Idle?
       case Poll(_) => Pollable(m.clients[i])
       case DropFuture => Suspended(m.clients[i])
       case DropGuard => m.clients[i].Guard?
  }

  function Set(m: Mutex, i: nat, word: int, p: Phase): Mutex
    requires i < |m.clients|
  {
    m.(word := word, clients := m.clients[i := p])
  }

  /** One atomic operation of the future of client `i` (mutex.rs:98-121, 334-453). */
  function PollStep(m: Mutex, i: nat, late: bool): Mutex
    requires i < |m.clients| && Pollable(m.clients[i])
  {
    var w := m.word;
    match m.clients[i]
    case Unpolled => if w == 0 then Set(m, i, 1, Guard) else Set(m, i, w, Hot(false))
    case Hot(false) =>
      if w == 0 then Set(m, i, 1, Guard) else if w == 1 then Set(m, i, w, Hot(true)) else Set(m, i, w, Joining(true))
    case Hot(true) =>
      if w == 0 then Set(m, i, 1, Guard)
      else if w == 1 then Set(m, i, w, if late then Joining(false) else Hot(false))
      else Set(m, i, w, Joining(false))
    case Joining(listening) =>
      if w > HALF - 1 then m.(word := w + 2, halted := true) else Set(m, i, w + 2, Starved(listening))
    case Starved(false) => if w == 2 then Set(m, i, 3, Taking) else Set(m, i, w, Starved(true))
    case Starved(true) => if w % 2 == 0 then Set(m, i, w + 1, Taking) else Set(m, i, w, Starved(false))
    case Taking => Set(m, i, w - 2, Guard)
  }

  function Next(m: Mutex, i: nat, a: Action): Mutex
    requires Enabled(m, i, a)
  {
    match a
    case TryLock => if m.word == 0 then Set(m, i, 1, Guard) else m
    case Lock => Set(m, i, m.word, Unpolled)
    case Poll(late) => PollStep(m, i, late)
    case DropFuture => Set(m, i, if m.clients[i].Starved? then m.word - 2 else m.word, Idle)
    case DropGuard => Set(m, i, m.word - 1, Idle)
  }

  // ---- The meaning of the word ----

  predicate Holds(p: Phase) { p.Guard? || p.Taking? }

  predicate IsStarved(p: Phase) { p.Starved? || p.Taking? }

  function Holders(m: Mutex): nat { Count(m.clients, Holds) }

  function Starving(m: Mutex): nat { Count(m.clients, IsStarved) }

  /** The word is 1 for a holder plus 2 for each starved client, there is at most one holder,
      and the 64-bit word never wraps.  A failed overflow check halts the kernel. */
  predicate Inv(m: Mutex) {
    && Holders(m) <= 1
    && (!m.halted ==> m.word == Holders(m) + 2 * Starving(m) <= HALF + 1)
  }

  lemma StepKeepsInv(m: Mutex, i: nat, a: Action)
    requires Inv(m) && Enabled(m, i, a)
    ensures Inv(Next(m, i, a))
  {
    hide Count;
    var m' := Next(m, i, a);
    CountUpdate(m.clients, Holds, i, m'.clients[i]);
    CountUpdate(m.clients, IsStarved, i, m'.clients[i]);
    assert m.clients[i := m'.clients[i]] == m'.clients;
    if m.clients[i].Guard? {
      CountHas(m.clients, Holds, i);
    }
  }

  /** What a step does to the rest of the clients: nothing. */
  lemma StepFrame(m: Mutex, i: nat, a: Action)
    requires Enabled(m, i, a)
    ensures |Next(m, i, a).clients| == |m.clients|
    ensures forall j :: 0 <= j < |m.clients| && j != i ==> Next(m, i, a).clients[j] == m.clients[j]
  {
  }

  // ---- Every run ----

  datatype Step = Step(i: nat, a: Action)

  predicate Init(m: Mutex) {
    m.word == 0 && !m.halted && forall i :: 0 <= i < |m.clients| ==> m.clients[i].Idle?
  }

  lemma InitInv(m: Mutex)
    requires Init(m)
    ensures Inv(m)
  {
    CountNone(m.clients, Holds);
    CountNone(m.clients, IsStarved);
  }

  /** A run: the states and the steps between them. */
  predicate IsRun(run: seq<Mutex>, steps: seq<Step>) {
    && |run| == |steps| + 1 && Init(run[0])
    && forall k :: 0 <= k < |steps| ==>
      Enabled(run[k], steps[k].i, steps[k].a) && run[k + 1] == Next(run[k], steps[k].i, steps[k].a)
  }

  lemma {:induction false} RunKeepsInv(run: seq<Mutex>, steps: seq<Step>, k: nat)
    requires IsRun(run, steps) && k < |run|
    ensures Inv(run[k])
  {
    if k == 0 {
      InitInv(run[0]);
    } else {
      RunKeepsInv(run, steps, k - 1);
      StepKeepsInv(run[k - 1], steps[k - 1].i, steps[k - 1].a);
    }
  }

  /** In every run, with any futures dropped anywhere, the word counts the holder and the
      starved, and two clients never hold the lock together. */
  lemma WordCounts(run: seq<Mutex>, steps: seq<Step>, k: nat)
    requires IsRun(run, steps) && k < |run|
    ensures var m := run[k];
            && (!m.halted ==> m.word == Holders(m) + 2 * Starving(m))
            && (forall i, j :: 0 <= i < j < |m.clients| ==> !(Holds(m.clients[i]) && Holds(m.clients[j])))
  {
    RunKeepsInv(run, steps, k);
    var m := run[k];
    forall i, j | 0 <= i < j < |m.clients| ensures !(Holds(m.clients[i]) && Holds(m.clients[j])) {
      if Holds(m.clients[i]) && Holds(m.clients[j]) {
        CountHasTwo(m.clients, Holds, i, j);
      }
    }
  }

  /** A client that is not starved gets the lock in a step of some run exactly when nobody holds
      it and nobody is starved: a single starved client shuts out every newcomer. */
  lemma NewcomersYield(run: seq<Mutex>, steps: seq<Step>, k: nat, i: nat, a: Action)
    requires IsRun(run, steps) && k < |run| && Enabled(run[k], i, a)
    requires var p := run[k].clients[i];
             a.TryLock? || (a.Poll? && (p.Unpolled? || p.Hot?))
    ensures var m := run[k];
            Next(m, i, a).clients[i].Guard? <==> Holders(m) == 0 && Starving(m) == 0
  {
    RunKeepsInv(run, steps, k);
  }

  /** A starved client takes the lock when notified exactly if it is free, and without a
      notification only if it is also alone. */
  lemma StarvedTakes(run: seq<Mutex>, steps: seq<Step>, k: nat, i: nat, late: bool)
    requires IsRun(run, steps) && k < |run| && Enabled(run[k], i, Poll(late))
    requires run[k].clients[i].Starved?
    ensures var m := run[k];
            Next(m, i, Poll(late)).clients[i].Taking?
            <==> Holders(m) == 0 && (m.clients[i] == Starved(true) || Starving(m) == 1)
  {
    RunKeepsInv(run, steps, k);
    CountHas(run[k].clients, IsStarved, i);
  }

  /** Nothing leaks: whatever happened, once every client is gone the word is 0 again. */
  lemma NothingLeaks(run: seq<Mutex>, steps: seq<Step>, k: nat)
    requires IsRun(run, steps) && k < |run| && !run[k].halted
    requires forall i :: 0 <= i < |run[k].clients| ==> !Holds(run[k].clients[i]) && !IsStarved(run[k].clients[i])
    ensures run[k].word == 0
  {
    RunKeepsInv(run, steps, k);
    CountNone(run[k].clients, Holds);
    CountNone(run[k].clients, IsStarved);
  }
}
