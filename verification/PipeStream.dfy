/** Readers and writers of a pipe as a state machine (kernel/src/fs/pipe.rs:95-162, 250-296).

    A reader first takes a page under the read lock only; if it finds none it waits for the write
    lock and tries again, and at last reads from the writer's page.  A writer holds the write lock
    while it fills a page.  Steps of any number of readers and writers interleave freely. */
module PipeStream {
  import opened Common
  import opened Pipe

  /** Who holds the read lock: a reader with a page, or one that found none and wants the write
      lock. */
  datatype ReadLock = Free | Holding(e: End) | Retrying

  datatype WriteLock = Open | Writing(e: End, data: seq<byte>)

  /** `written` and `read` are the bytes that passed so far (auxiliary). */
  datatype State = State(readEnd: Option<End>, queue: seq<End>, writeEnd: Option<End>, r: ReadLock, w: WriteLock,
                         max: nat, written: seq<byte>, read: seq<byte>)

  /** `n` is the size of the reader's buffer, `data` what the writer offers. */
  datatype Event =
    | StartRead
    | FinishRead(n: nat)
    | Retry(n: nat)
    | StartWrite(data: seq<byte>, frame: seq<byte>, outOfMemory: bool)
    | FinishWrite

  predicate Enabled(s: State, e: Event) {
    match e
    case StartRead => s.r.Free?
    case FinishRead(_) => s.r.Holding?
    case Retry(_) => s.r.Retrying? && s.w.Open?
    case StartWrite(_, frame, _) => s.w.Open? && |frame| == PAGE
    case FinishWrite => s.w.Writing?
  }

  /** The reader takes up to `n` bytes of its page and puts the page back unless it is used up. */
  function ReadPage(s: State, e: End, n: nat): State {
    var k := Readable(e, n);
    var e' := Taken(e, k);
    s.(readEnd := if e'.start == PAGE then None else Some(e'), r := Free, read := s.read + First(e, k))
  }

  function First(e: End, k: nat): seq<byte> { if k <= |Bytes(e)| then Bytes(e)[..k] else [] }

  function Step(s: State, e: Event): State
    requires Enabled(s, e)
  {
    match e
    case StartRead =>
      if s.readEnd.Some? then s.(r := Holding(s.readEnd.value), readEnd := None)
      else if s.queue != [] then s.(r := Holding(s.queue[0]), queue := s.queue[1..])
      else s.(r := Retrying)
    case FinishRead(n) => ReadPage(s, s.r.e, n)
    case Retry(n) =>
      if s.queue != [] then ReadPage(s.(queue := s.queue[1..]), s.queue[0], n)
      else if s.writeEnd.Some? && !IsEmpty(s.writeEnd.value) then
        var end := s.writeEnd.value;
        var k := Readable(end, n);
        var end' := Taken(end, k);
        s.(writeEnd := if end'.start == PAGE then None else Some(end'), r := Free, read := s.read + First(end, k))
      else s.(writeEnd := None, r := Free)
    case StartWrite(data, frame, outOfMemory) =>
      if s.writeEnd.Some? then s.(w := Writing(s.writeEnd.value, data), writeEnd := None)
      else if |s.queue| < s.max && !outOfMemory then s.(w := Writing(End(frame, 0, 0), data))
      else s
    case FinishWrite =>
      var Writing(end, data) := s.w;
      var k := Writable(end, |data|);
      var end' := Put(end, data[..k]);
      var s' := s.(w := Open, written := s.written + data[..k]);
      if IsFull(end') then s'.(queue := s.queue + [end']) else s'.(writeEnd := Some(end'))
  }

  // ---- The invariant ----

  /** A page for readers: full, and not used up. */
  predicate ForReader(e: End) { EndOk(e) && IsFull(e) && e.start < PAGE }

  /** A page for writers: not full. */
  predicate ForWriter(e: End) { EndOk(e) && e.end < PAGE }

  predicate PagesOk(s: State) {
    && (s.readEnd.Some? ==> ForReader(s.readEnd.value))
    && (forall i :: 0 <= i < |s.queue| ==> ForReader(s.queue[i]))
    && (s.r.Holding? ==> ForReader(s.r.e))
    && (!s.r.Free? ==> s.readEnd == None)
    && (s.writeEnd.Some? ==> ForWriter(s.writeEnd.value))
    && (s.w.Writing? ==> ForWriter(s.w.e) && s.writeEnd == None)
  }

  /** Each page that may still be queued has its place in the queue. */
  predicate RoomOk(s: State) { |s.queue| + (if s.writeEnd.Some? || s.w.Writing? then 1 else 0) <= s.max }

  function OptBytes(e: Option<End>): seq<byte> { if e.Some? then Bytes(e.value) else [] }

  function QueueBytes(q: seq<End>): seq<byte> { if q == [] then [] else Bytes(q[0]) + QueueBytes(q[1..]) }

  /** The bytes in the reader's hands or its page. */
  function Front(s: State): seq<byte> { if s.r.Holding? then Bytes(s.r.e) else OptBytes(s.readEnd) }

  /** The bytes in the writer's hands or its page. */
  function Back(s: State): seq<byte> { if s.w.Writing? then Bytes(s.w.e) else OptBytes(s.writeEnd) }

  /** What was written is what was read, followed by what is in the reader's page, the queue and the
      writer's page. */
  predicate OneStream(s: State) { s.written == s.read + Front(s) + QueueBytes(s.queue) + Back(s) }

  predicate Inv(s: State) { PagesOk(s) && RoomOk(s) && OneStream(s) }

  // ---- The steps keep it ----

  lemma {:induction false} QueueMore(q: seq<End>, e: End)
    ensures QueueBytes(q + [e]) == QueueBytes(q) + Bytes(e)
  {
    if q == [] {
      assert QueueBytes([e][1..]) == [];
    } else {
      assert (q + [e])[1..] == q[1..] + [e];
      QueueMore(q[1..], e);
    }
  }

  /** Moving bytes from the front of what is left to what was read. */
  lemma ReadOn(read: seq<byte>, front: seq<byte>, taken: seq<byte>, left: seq<byte>, queue: seq<byte>, back: seq<byte>)
    requires front == taken + left
    ensures read + front + queue + back == read + taken + left + queue + back
  {
  }

  lemma ReadPageKeeps(s: State, e: End, n: nat)
    requires PagesOk(s) && RoomOk(s) && ForReader(e) && s.readEnd == None
    requires s.written == s.read + Bytes(e) + QueueBytes(s.queue) + Back(s)
    ensures Inv(ReadPage(s, e, n))
  {
    hide Bytes, QueueBytes;
    var k := Readable(e, n);
    var s' := ReadPage(s, e, n);
    TakenBytes(e, k);
    ReadOn(s.read, Bytes(e), Bytes(e)[..k], Bytes(Taken(e, k)), QueueBytes(s.queue), Back(s));
    if Taken(e, k).start == PAGE {
      assert Bytes(Taken(e, k)) == [] by { NoBytes(Taken(e, k)); }
    }
  }

  lemma NoBytes(e: End)
    requires EndOk(e) && IsEmpty(e)
    ensures Bytes(e) == []
  {
  }

  lemma QueueFirst(q: seq<End>)
    requires q != []
    ensures QueueBytes(q) == Bytes(q[0]) + QueueBytes(q[1..])
  {
  }

  lemma StartReadKeeps(s: State)
    requires Inv(s) && Enabled(s, StartRead)
    ensures Inv(Step(s, StartRead))
  {
    hide Bytes, QueueBytes;
    if s.readEnd == None && s.queue != [] {
      QueueFirst(s.queue);
      ReadOn(s.read, QueueBytes(s.queue), Bytes(s.queue[0]), QueueBytes(s.queue[1..]), [], Back(s));
      assert s.read + [] == s.read;
    }
  }

  lemma RetryKeeps(s: State, n: nat)
    requires Inv(s) && Enabled(s, Retry(n))
    ensures Inv(Step(s, Retry(n)))
  {
    hide Bytes, QueueBytes;
    if s.queue != [] {
      QueueFirst(s.queue);
      var s1 := s.(queue := s.queue[1..]);
      assert s.written == s.read + Bytes(s.queue[0]) + QueueBytes(s.queue[1..]) + Back(s);
      ReadPageKeeps(s1, s.queue[0], n);
    } else {
      assert QueueBytes(s.queue) == [] by { NoQueue(); }
      if s.writeEnd.Some? {
        var end := s.writeEnd.value;
        var k := Readable(end, n);
        TakenBytes(end, k);
        if IsEmpty(end) {
          NoBytes(end);
        }
        assert s.read + [] + [] + Bytes(end) == s.read + Bytes(end)[..k] + [] + [] + Bytes(Taken(end, k));
      }
    }
  }

  lemma NoQueue()
    ensures QueueBytes([]) == []
  {
  }

  lemma FinishWriteKeeps(s: State)
    requires Inv(s) && Enabled(s, FinishWrite)
    ensures Inv(Step(s, FinishWrite))
  {
    hide Bytes, QueueBytes;
    var Writing(end, data) := s.w;
    var k := Writable(end, |data|);
    var end' := Put(end, data[..k]);
    PutBytes(end, data[..k]);
    QueueMore(s.queue, end');
    assert s.written + data[..k] == s.read + Front(s) + QueueBytes(s.queue) + (Bytes(end) + data[..k]);
    assert s.read + Front(s) + (QueueBytes(s.queue) + Bytes(end')) + [] ==
           s.read + Front(s) + QueueBytes(s.queue) + Bytes(end');
  }

  lemma StartWriteKeeps(s: State, data: seq<byte>, frame: seq<byte>, outOfMemory: bool)
    requires Inv(s) && Enabled(s, StartWrite(data, frame, outOfMemory))
    ensures Inv(Step(s, StartWrite(data, frame, outOfMemory)))
  {
    hide QueueBytes;
  }

  lemma StepKeeps(s: State, e: Event)
    requires Inv(s) && Enabled(s, e)
    ensures Inv(Step(s, e))
  {
    match e {
      case StartRead => StartReadKeeps(s);
      case FinishRead(n) => ReadPageKeeps(s.(r := Free), s.r.e, n);
      case Retry(n) => RetryKeeps(s, n);
      case StartWrite(data, frame, outOfMemory) => StartWriteKeeps(s, data, frame, outOfMemory);
      case FinishWrite => FinishWriteKeeps(s);
    }
  }

  // ---- Runs ----

  predicate Init(s: State) {
    s.readEnd == None && s.queue == [] && s.writeEnd == None && s.r.Free? && s.w.Open? && s.written == []
      && s.read == []
  }

  /** A run: the states and the steps between them. */
  predicate IsRun(run: seq<State>, events: seq<Event>) {
    && |run| == |events| + 1 && Init(run[0])
    && forall k :: 0 <= k < |events| ==> Enabled(run[k], events[k]) && run[k + 1] == Step(run[k], events[k])
  }

  lemma {:induction false} RunKeeps(run: seq<State>, events: seq<Event>, k: nat)
    requires IsRun(run, events) && k < |run|
    ensures Inv(run[k]) && run[k].max == run[0].max
  {
    if k > 0 {
      RunKeeps(run, events, k - 1);
      StepKeeps(run[k - 1], events[k - 1]);
    }
  }

  /** In every interleaving, the bytes written are the bytes read followed by those in the reader's
      page, the queue and the writer's page, in this order; and the queue stays within its limit. */
  lemma StreamKept(run: seq<State>, events: seq<Event>, k: nat)
    requires IsRun(run, events) && k < |run|
    ensures OneStream(run[k]) && |run[k].queue| <= run[0].max
  {
    RunKeeps(run, events, k);
  }

  /** What the code asserts when it makes a step: pages from the queue and the reader's page are full,
      and a page that becomes full is not empty (pipe.rs:107, 124, 272). */
  predicate Asserted(s: State, e: Event)
    requires Enabled(s, e)
  {
    match e
    case FinishRead(_) => IsFull(s.r.e)
    case Retry(_) => s.queue != [] ==> IsFull(s.queue[0])
    case FinishWrite =>
      var end' := Put(s.w.e, s.w.data[..Writable(s.w.e, |s.w.data|)]);
      IsFull(end') ==> !IsEmpty(end')
    case _ => true
  }

  /** No assertion fails in any interleaving. */
  lemma AssertionsHold(run: seq<State>, events: seq<Event>, k: nat, e: Event)
    requires IsRun(run, events) && k < |run| && Enabled(run[k], e)
    ensures Asserted(run[k], e)
  {
    RunKeeps(run, events, k);
  }
}
