/** The asynchronous reader-writer lock (ksync/src/rw_lock.rs) as a state machine over the
    mutex of `AsyncMutex`.

    A client is one request and the guard it turns into.  Client `i` of the lock uses client
    slot `i` of the inner mutex.  Every atomic operation on either word is one step. */
module AsyncRwLock {
  import opened Sums
  import opened M = AsyncMutex

  /** `seen` is the state the client loaded last. */
  datatype Role =
    | Free
    | TryReading(seen: int)       // in `try_read`
    | Reading(seen: int)          // a `Read` future
    | Reader                      // RwLockReadGuard
    | WantUpgradable              // an `UpgradableRead` future waiting for the mutex
    | LoadUpgradable              // holds the mutex, about to load
    | AddUpgradable(seen: int)    // holds the mutex, about to add a reader
    | Upgradable                  // RwLockUpgradableReadGuard
    | WantWrite                   // a `Write` future waiting for the mutex
    | TryWriting                  // `try_write` with the mutex, about to compare-exchange
    | MarkWrite                   // holds the mutex, about to set the writer bit
    | Pending                     // `Write` or `Upgrade` future with the bit set, readers remain
    | Writer                      // RwLockWriteGuard
    | Leaving                     // about to drop the mutex guard
    | LeavingAsReader             // downgraded to a reader, about to drop the mutex guard

  /** The lock: its own word, the inner mutex, and the clients. */
  datatype RwLock = RwLock(word: int, mutex: M.Mutex, roles: seq<Role>, halted: bool)

  datatype Op =
    | TryRead | Read | TryUpgradableRead | UpgradableRead | TryWrite | Write
    | Poll(late: bool)            // the next atomic operation of a call or future in progress
    | DropFuture
    | DropGuard
    | Downgrade                   // of a writer or an upgradable reader, to a plain reader
    | DowngradeToUpgradable
    | TryUpgrade
    | Upgrade

  predicate HoldsMutex(r: Role) {
    || r.LoadUpgradable? || r.AddUpgradable? || r.Upgradable? || r.TryWriting? || r.MarkWrite? || r.Pending?
    || r.Writer? || r.Leaving? || r.LeavingAsReader?
  }

  predicate WaitsForMutex(r: Role) { r.WantUpgradable? || r.WantWrite? }

  predicate IsReader(r: Role) { r.Reader? || r.Upgradable? || r.LeavingAsReader? }

  predicate IsWriter(r: Role) { r.Pending? || r.Writer? }

  /** The phase of the mutex client that belongs to a client in this role. */
  predicate Matches(r: Role, p: Phase) {
    if HoldsMutex(r) then p.Guard? else if WaitsForMutex(r) then Pollable(p) else p.Idle?
  }

  predicate Shape(l: RwLock) {
    && |l.roles| == |l.mutex.clients|
    && forall i :: 0 <= i < |l.roles| ==> Matches(l.roles[i], l.mutex.clients[i])
  }

  predicate Enabled(l: RwLock, i: nat, op: Op) {
    && !l.halted && !l.mutex.halted && i < |l.roles| && Shape(l)
    && var r := l.roles[i];
       match op
       case Poll(_) => !r.Free? && !r.Reader? && !r.Upgradable? && !r.Writer?
       case DropFuture => r.Reading? || r.Pending? || (WaitsForMutex(r) && Suspended(l.mutex.clients[i]))
       case DropGuard => r.Reader? || r.Upgradable? || r.Writer?
       case Downgrade => r.Upgradable? || r.Writer?
       case DowngradeToUpgradable => r.Writer?
       case TryUpgrade => r.Upgradable?
       case Upgrade => r.Upgradable?
       case _ => r.Free?
  }

  function Set(l: RwLock, i: nat, word: int, r: Role): RwLock
    requires i < |l.roles|
  {
    l.(word := word, roles := l.roles[i := r])
  }

  /** A step of the inner mutex, after which client `i` has role `r`. */
  function Via(l: RwLock, i: nat, a: M.Action, r: Role): RwLock
    requires i < |l.roles| && M.Enabled(l.mutex, i, a)
  {
    l.(mutex := M.Next(l.mutex, i, a), roles := l.roles[i := r])
  }

  function TryMutex(l: RwLock, i: nat, r: Role): RwLock
    requires Enabled(l, i, TryWrite)
  {
    Via(l, i, TryLock, if l.mutex.word == 0 then r else Free)
  }

  function ClearBit(word: int): int { word - word % 2 }

  /** One atomic operation of a call or future in progress. */
  function PollStep(l: RwLock, i: nat, late: bool): RwLock
    requires Enabled(l, i, Op.Poll(late))
  {
    match l.roles[i]
    case TryReading(seen) =>
      if seen % 2 != 0 then Set(l, i, l.word, Free)
      else if seen > HALF - 1 then l.(halted := true)
      else if l.word == seen then Set(l, i, seen + 2, Reader) else Set(l, i, l.word, TryReading(l.word))
    case Reading(seen) =>
      if seen % 2 != 0 then Set(l, i, l.word, Reading(l.word))
      else if seen > HALF - 1 then l.(halted := true)
      else if l.word == seen then Set(l, i, seen + 2, Reader) else Set(l, i, l.word, Reading(l.word))
    case WantUpgradable =>
      Via(l, i, M.Poll(late), if M.Next(l.mutex, i, M.Poll(late)).clients[i].Guard? then LoadUpgradable
          else WantUpgradable)
    case LoadUpgradable =>
      if l.word > HALF - 1 then l.(halted := true) else Set(l, i, l.word, AddUpgradable(l.word))
    case AddUpgradable(seen) =>
      if l.word == seen then Set(l, i, seen + 2, Upgradable) else Set(l, i, l.word, AddUpgradable(l.word))
    case WantWrite =>
      Via(l, i, M.Poll(late), if M.Next(l.mutex, i, M.Poll(late)).clients[i].Guard? then MarkWrite else WantWrite)
    case TryWriting => if l.word == 0 then Set(l, i, 1, Writer) else Set(l, i, l.word, Leaving)
    case MarkWrite =>
      // `fetch_or` returns the old word, and the code compares that with the writer bit.
      Set(l, i, ClearBit(l.word) + 1, if l.word == 1 then Writer else Pending)
    case Pending => if l.word == 1 then Set(l, i, l.word, Writer) else l
    case Leaving => Via(l, i, M.DropGuard, Free)
    case LeavingAsReader => Via(l, i, M.DropGuard, Reader)
    case _ => l
  }

  function Next(l: RwLock, i: nat, op: Op): RwLock
    requires Enabled(l, i, op)
  {
    match op
    case TryRead => Set(l, i, l.word, TryReading(l.word))
    case Read => Set(l, i, l.word, Reading(l.word))
    case TryUpgradableRead => TryMutex(l, i, LoadUpgradable)
    case UpgradableRead => Via(l, i, M.Lock, WantUpgradable)
    case TryWrite => TryMutex(l, i, TryWriting)
    case Write => Via(l, i, M.Lock, WantWrite)
    case Poll(late) => PollStep(l, i, late)
    case DropFuture =>
      if l.roles[i].Reading? then Set(l, i, l.word, Free)
      else if l.roles[i].Pending? then Set(l, i, ClearBit(l.word), Leaving)
      else Via(l, i, M.DropFuture, Free)
    case DropGuard =>
      if l.roles[i].Reader? then Set(l, i, l.word - 2, Free)
      else if l.roles[i].Upgradable? then Set(l, i, l.word - 2, Leaving)
      else Set(l, i, ClearBit(l.word), Leaving)
    case Downgrade => Set(l, i, if l.roles[i].Writer? then l.word + 1 else l.word, LeavingAsReader)
    case DowngradeToUpgradable => Set(l, i, l.word + 1, Upgradable)
    case TryUpgrade => if l.word == 2 then Set(l, i, 1, Writer) else l
    case Upgrade => Set(l, i, l.word - 1, Pending)
  }

  // ---- The invariant ----

  function Readers(l: RwLock): nat { Count(l.roles, IsReader) }

  function Writers(l: RwLock): nat { Count(l.roles, IsWriter) }

  predicate Granted(r: Role) { r.Writer? }

  predicate Adding(r: Role) { r.AddUpgradable? }

  /** Clients with the mutex: upgradable readers, pending writers, writers, and clients on their
      way in or out of these roles. */
  function Exclusive(l: RwLock): nat { Count(l.roles, HoldsMutex) }

  predicate Inv(l: RwLock) {
    && Shape(l) && M.Inv(l.mutex)
    && Exclusive(l) <= 1
    && l.word == Writers(l) + 2 * Readers(l)
    && (Count(l.roles, Granted) > 0 ==> l.word == 1)
    // The limit of the word: readers stop at HALF, and the one upgradable reader, which does
    // not check again after its first load, adds at most one more.
    && l.word <= HALF + 3
    && (Count(l.roles, Adding) > 0 ==> l.word <= HALF)
  }

  lemma {:induction false} CountMono<A>(xs: seq<A>, p: A -> bool, q: A -> bool)
    requires forall i :: 0 <= i < |xs| && p(xs[i]) ==> q(xs[i])
    ensures Count(xs, p) <= Count(xs, q)
  {
    if xs != [] {
      CountMono(xs[..|xs| - 1], p, q);
    }
  }

  /** Only a client with the mutex can be a writer, a granted writer or an adding reader. */
  lemma ExclusiveRoles(l: RwLock)
    ensures Writers(l) <= Exclusive(l) && Count(l.roles, Granted) <= Writers(l)
    ensures Count(l.roles, Adding) <= Exclusive(l)
  {
    CountMono(l.roles, IsWriter, HoldsMutex);
    CountMono(l.roles, Granted, IsWriter);
    CountMono(l.roles, Adding, HoldsMutex);
  }

  /** The client with the mutex is alone in all exclusive roles. */
  lemma AloneWithMutex(l: RwLock, i: nat)
    requires Exclusive(l) <= 1 && i < |l.roles| && HoldsMutex(l.roles[i])
    ensures Writers(l) == (if IsWriter(l.roles[i]) then 1 else 0)
    ensures Count(l.roles, Granted) == (if Granted(l.roles[i]) then 1 else 0)
    ensures Count(l.roles, Adding) == (if Adding(l.roles[i]) then 1 else 0)
  {
    CountUpdate(l.roles, HoldsMutex, i, Free);
    CountUpdate(l.roles, IsWriter, i, Free);
    CountUpdate(l.roles, Granted, i, Free);
    CountUpdate(l.roles, Adding, i, Free);
    ExclusiveRoles(l.(roles := l.roles[i := Free]));
  }

  /** The holder of the mutex, if any, is the one client in an exclusive role. */
  lemma MutexBacksExclusive(roles: seq<Role>, clients: seq<Phase>)
    requires |roles| == |clients| && forall i :: 0 <= i < |roles| ==> Matches(roles[i], clients[i])
    ensures Count(roles, HoldsMutex) <= Count(clients, Holds)
  {
    if roles != [] {
      MutexBacksExclusive(roles[..|roles| - 1], clients[..|clients| - 1]);
    }
  }

  /** Replacing one role moves each count by that one client. */
  lemma Recount(l: RwLock, i: nat, r: Role)
    requires i < |l.roles|
    ensures var roles' := l.roles[i := r];
            && Count(roles', IsReader) == Readers(l) - One(IsReader(l.roles[i])) + One(IsReader(r))
            && Count(roles', IsWriter) == Writers(l) - One(IsWriter(l.roles[i])) + One(IsWriter(r))
            && Count(roles', HoldsMutex) == Exclusive(l) - One(HoldsMutex(l.roles[i])) + One(HoldsMutex(r))
            && Count(roles', Granted) == Count(l.roles, Granted) - One(Granted(l.roles[i])) + One(Granted(r))
            && Count(roles', Adding) == Count(l.roles, Adding) - One(Adding(l.roles[i])) + One(Adding(r))
  {
    CountUpdate(l.roles, IsReader, i, r);
    CountUpdate(l.roles, IsWriter, i, r);
    CountUpdate(l.roles, HoldsMutex, i, r);
    CountUpdate(l.roles, Granted, i, r);
    CountUpdate(l.roles, Adding, i, r);
  }

  function One(b: bool): int { if b then 1 else 0 }

  // ---- Steps of the lock's own word ----

  /** A step on the lock's own word keeps the invariant if the counts and the word agree. */
  lemma OwnStep(l: RwLock, i: nat, word: int, r: Role)
    requires Inv(l) && i < |l.roles| && HoldsMutex(r) == HoldsMutex(l.roles[i])
    requires WaitsForMutex(r) == WaitsForMutex(l.roles[i])
    requires word - l.word ==
             One(IsWriter(r)) - One(IsWriter(l.roles[i])) + 2 * (One(IsReader(r)) - One(IsReader(l.roles[i])))
    requires word <= HALF + 3
    requires r.Writer? ==> word == 1
    requires word != l.word ==> Count(l.roles, Granted) == One(Granted(l.roles[i]))
    requires Count(l.roles, Adding) - One(Adding(l.roles[i])) + One(Adding(r)) > 0 ==> word <= HALF
    ensures Inv(Set(l, i, word, r))
  {
    Recount(l, i, r);
    var l' := Set(l, i, word, r);
    assert l'.roles == l.roles[i := r];
  }

  /** A step of the inner mutex. */
  lemma MutexStep(l: RwLock, i: nat, a: M.Action, r: Role)
    requires Inv(l) && i < |l.roles| && M.Enabled(l.mutex, i, a)
    requires Matches(r, M.Next(l.mutex, i, a).clients[i])
    requires IsReader(r) == IsReader(l.roles[i]) && !IsWriter(r) && !IsWriter(l.roles[i]) && !Adding(r)
    requires !Adding(l.roles[i])
    ensures Inv(Via(l, i, a, r))
  {
    var l' := Via(l, i, a, r);
    M.StepKeepsInv(l.mutex, i, a);
    M.StepFrame(l.mutex, i, a);
    Recount(l, i, r);
    MutexBacksExclusive(l'.roles, l'.mutex.clients);
  }

  /** With the writer bit clear nobody has been granted the write lock. */
  lemma NoBitNoWriter(l: RwLock)
    requires Inv(l)
    ensures l.word % 2 == One(Writers(l) == 1)
    ensures l.word % 2 == 0 ==> Count(l.roles, Granted) == 0
  {
    ExclusiveRoles(l);
  }

  lemma ReadPolls(l: RwLock, i: nat, late: bool)
    requires Inv(l) && Enabled(l, i, Op.Poll(late)) && (l.roles[i].TryReading? || l.roles[i].Reading?)
    ensures Inv(PollStep(l, i, late))
  {
    hide Count, M.Inv;
    NoBitNoWriter(l);
    var l' := PollStep(l, i, late);
    if !l'.halted {
      OwnStep(l, i, l'.word, l'.roles[i]);
    }
  }

  lemma ReadEnds(l: RwLock, i: nat, op: Op)
    requires Inv(l) && Enabled(l, i, op)
    requires op.TryRead? || op.Read? || (op.DropFuture? && l.roles[i].Reading?) || (op.DropGuard? && l.roles[i].Reader?)
    ensures Inv(Next(l, i, op))
  {
    if l.roles[i].Reader? {
      CountHas(l.roles, IsReader, i);
      ExclusiveRoles(l);
    }
    OwnStep(l, i, Next(l, i, op).word, Next(l, i, op).roles[i]);
  }

  lemma UpgradableSteps(l: RwLock, i: nat, op: Op)
    requires Inv(l) && Enabled(l, i, op)
    requires l.roles[i].LoadUpgradable? || l.roles[i].AddUpgradable? || l.roles[i].Upgradable?
    ensures Inv(Next(l, i, op))
  {
    AloneWithMutex(l, i);
    NoBitNoWriter(l);
    var l' := Next(l, i, op);
    if l.roles[i].Upgradable? {
      CountHas(l.roles, IsReader, i);
    }
    if !l'.halted {
      OwnStep(l, i, l'.word, l'.roles[i]);
    }
  }

  lemma WriterSteps(l: RwLock, i: nat, op: Op)
    requires Inv(l) && Enabled(l, i, op)
    requires l.roles[i].TryWriting? || l.roles[i].MarkWrite? || l.roles[i].Pending? || l.roles[i].Writer?
    ensures Inv(Next(l, i, op))
  {
    AloneWithMutex(l, i);
    NoBitNoWriter(l);
    var l' := Next(l, i, op);
    OwnStep(l, i, l'.word, l'.roles[i]);
  }

  lemma MutexStarts(l: RwLock, i: nat, op: Op)
    requires Inv(l) && Enabled(l, i, op) && (op.TryUpgradableRead? || op.UpgradableRead? || op.TryWrite? || op.Write?)
    ensures Inv(Next(l, i, op))
  {
    hide Count, M.Inv;
    MutexStep(l, i, if op.UpgradableRead? || op.Write? then M.Lock else M.TryLock, Next(l, i, op).roles[i]);
  }

  lemma MutexSteps(l: RwLock, i: nat, op: Op)
    requires Inv(l) && Enabled(l, i, op)
    requires WaitsForMutex(l.roles[i]) || l.roles[i].Leaving? || l.roles[i].LeavingAsReader?
    ensures Inv(Next(l, i, op))
  {
    hide Count, M.Inv;
    var r' := Next(l, i, op).roles[i];
    if op.DropFuture? {
      MutexStep(l, i, M.DropFuture, r');
    } else if WaitsForMutex(l.roles[i]) {
      MutexStep(l, i, M.Poll(op.late), r');
    } else {
      MutexStep(l, i, M.DropGuard, r');
    }
  }

  lemma StepKeepsInv(l: RwLock, i: nat, op: Op)
    requires Inv(l) && Enabled(l, i, op)
    ensures Inv(Next(l, i, op))
  {
    var r := l.roles[i];
    if op.TryUpgradableRead? || op.UpgradableRead? || op.TryWrite? || op.Write? {
      MutexStarts(l, i, op);
    } else if WaitsForMutex(r) || r.Leaving? || r.LeavingAsReader? {
      MutexSteps(l, i, op);
    } else if r.LoadUpgradable? || r.AddUpgradable? || r.Upgradable? {
      UpgradableSteps(l, i, op);
    } else if HoldsMutex(r) {
      WriterSteps(l, i, op);
    } else if op.Poll? {
      ReadPolls(l, i, op.late);
    } else {
      ReadEnds(l, i, op);
    }
  }

  // ---- Every run ----

  datatype Step = Step(i: nat, op: Op)

  predicate Init(l: RwLock) {
    && l.word == 0 && !l.halted && M.Init(l.mutex) && |l.roles| == |l.mutex.clients|
    && forall i :: 0 <= i < |l.roles| ==> l.roles[i].Free?
  }

  lemma InitInv(l: RwLock)
    requires Init(l)
    ensures Inv(l)
  {
    M.InitInv(l.mutex);
    CountNone(l.roles, IsReader);
    CountNone(l.roles, IsWriter);
    CountNone(l.roles, HoldsMutex);
    CountNone(l.roles, Granted);
    CountNone(l.roles, Adding);
  }

  /** A run: the states and the steps between them. */
  predicate IsRun(run: seq<RwLock>, steps: seq<Step>) {
    && |run| == |steps| + 1 && Init(run[0])
    && forall k :: 0 <= k < |steps| ==>
      Enabled(run[k], steps[k].i, steps[k].op) && run[k + 1] == Next(run[k], steps[k].i, steps[k].op)
  }

  lemma {:induction false} RunKeepsInv(run: seq<RwLock>, steps: seq<Step>, k: nat)
    requires IsRun(run, steps) && k < |run|
    ensures Inv(run[k])
  {
    if k == 0 {
      InitInv(run[0]);
    } else {
      RunKeepsInv(run, steps, k - 1);
      StepKeepsInv(run[k - 1], steps[k - 1].i, steps[k - 1].op);
    }
  }

  /** In every run, with any futures dropped anywhere, the word is the writer bit plus twice the
      number of plain and upgradable readers, and it stays below 2^64. */
  lemma WordCounts(run: seq<RwLock>, steps: seq<Step>, k: nat)
    requires IsRun(run, steps) && k < |run|
    ensures var l := run[k];
            0 <= l.word == Writers(l) + 2 * Readers(l) < 2 * HALF && Writers(l) <= 1
  {
    RunKeepsInv(run, steps, k);
    ExclusiveRoles(run[k]);
  }

  /** A granted write guard excludes every other guard, pending writer and upgradable reader. */
  lemma WriterExcludesAll(run: seq<RwLock>, steps: seq<Step>, k: nat, i: nat, j: nat)
    requires IsRun(run, steps) && k < |run|
    requires i < |run[k].roles| && j < |run[k].roles| && i != j
    requires run[k].roles[i].Writer?
    ensures var r := run[k].roles[j];
            !IsReader(r) && !IsWriter(r) && !HoldsMutex(r)
  {
    RunKeepsInv(run, steps, k);
    var l := run[k];
    CountHas(l.roles, Granted, i);
    if HoldsMutex(l.roles[j]) {
      CountHasTwo(l.roles, HoldsMutex, if i < j then i else j, if i < j then j else i);
    }
    if IsReader(l.roles[j]) {
      CountHas(l.roles, IsReader, j);
    }
  }

  /** At most one client is an upgradable reader, a pending writer or a writer. */
  lemma OneExclusive(run: seq<RwLock>, steps: seq<Step>, k: nat, i: nat, j: nat)
    requires IsRun(run, steps) && k < |run|
    requires i < j < |run[k].roles|
    ensures var roles := run[k].roles;
            !((roles[i].Upgradable? || IsWriter(roles[i])) && (roles[j].Upgradable? || IsWriter(roles[j])))
  {
    RunKeepsInv(run, steps, k);
    var roles := run[k].roles;
    if HoldsMutex(roles[i]) && HoldsMutex(roles[j]) {
      CountHasTwo(roles, HoldsMutex, i, j);
    }
  }

  /** A client becomes a reader only while the writer bit is clear, or in clearing it. */
  lemma JoinsWithoutBit(l: RwLock, i: nat, op: Op)
    requires Inv(l) && Enabled(l, i, op)
    requires !IsReader(l.roles[i]) && IsReader(Next(l, i, op).roles[i])
    ensures l.word % 2 == 0 || Next(l, i, op).word % 2 == 0
  {
    NoBitNoWriter(l);
    if HoldsMutex(l.roles[i]) {
      AloneWithMutex(l, i);
    }
  }

  /** While the writer bit stays set, no step adds a reader. */
  lemma ReadersOnlyFall(run: seq<RwLock>, steps: seq<Step>, k: nat, i: nat, op: Op)
    requires IsRun(run, steps) && k < |run| && Enabled(run[k], i, op)
    requires run[k].word % 2 == 1 && Next(run[k], i, op).word % 2 == 1
    ensures Readers(Next(run[k], i, op)) <= Readers(run[k])
  {
    RunKeepsInv(run, steps, k);
    var l := run[k];
    hide Next, IsRun, Inv, Enabled;
    OneRoleChanges(l, i, op);
    Recount(l, i, Next(l, i, op).roles[i]);
    if !IsReader(l.roles[i]) && IsReader(Next(l, i, op).roles[i]) {
      JoinsWithoutBit(l, i, op);
    }
  }

  lemma OneRoleChanges(l: RwLock, i: nat, op: Op)
    requires Enabled(l, i, op)
    ensures |Next(l, i, op).roles| == |l.roles|
    ensures Next(l, i, op).roles == l.roles[i := Next(l, i, op).roles[i]]
  {
  }

  /** A pending writer is granted the lock exactly when the last reader has left. */
  lemma PendingGranted(run: seq<RwLock>, steps: seq<Step>, k: nat, i: nat, late: bool)
    requires IsRun(run, steps) && k < |run| && Enabled(run[k], i, Op.Poll(late))
    requires run[k].roles[i].Pending?
    ensures Next(run[k], i, Op.Poll(late)).roles[i].Writer? <==> Readers(run[k]) == 0
  {
    RunKeepsInv(run, steps, k);
    AloneWithMutex(run[k], i);
  }

  /** Nothing leaks: once every client is gone both words are 0 again. */
  lemma NothingLeaks(run: seq<RwLock>, steps: seq<Step>, k: nat)
    requires IsRun(run, steps) && k < |run| && !run[k].mutex.halted
    requires forall i :: 0 <= i < |run[k].roles| ==> run[k].roles[i].Free?
    ensures run[k].word == 0 && run[k].mutex.word == 0
  {
    RunKeepsInv(run, steps, k);
    var l := run[k];
    CountNone(l.roles, IsReader);
    CountNone(l.roles, IsWriter);
    assert forall i :: 0 <= i < |l.roles| ==> Matches(l.roles[i], l.mutex.clients[i]);
    CountNone(l.mutex.clients, Holds);
    CountNone(l.mutex.clients, IsStarved);
  }
}
