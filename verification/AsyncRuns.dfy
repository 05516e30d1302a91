// Two runs of the logger that show what its order depends on.
module AsyncRuns {
  import opened Basics
  import opened LogFiles
  import opened AsyncProtocol
  import opened AsyncInvariant
  import opened AsyncOrder
  import opened AsyncTheorems

  lemma {:induction false} LegalExtend(s: State, steps: seq<Step>, step: Step)
    requires Usable(s.files) && s.files.isOpen
    requires Legal(s, steps) && Enabled(Run(s, steps), step)
    ensures Legal(s, steps + [step])
    decreases |steps|
  {
    if steps == [] {
      assert steps + [step] == [step] && [step][1..] == [];
    } else {
      assert (steps + [step])[1..] == steps[1..] + [step];
      LegalExtend(Next(s, steps[0]), steps[1..], step);
    }
  }

  lemma Extend(files: Log, steps: seq<Step>, s: State, step: Step) returns (steps': seq<Step>, t: State)
    requires Reached(files, steps, s) && Enabled(s, step)
    ensures t == Next(s, step) && Reached(files, steps', t)
  {
    LegalExtend(Started(files), steps, step);
    RunExtend(Started(files), steps, step);
    steps', t := steps + [step], Next(s, step);
  }

  // ---- Messages that fill a buffer ----

  // A message that leaves room for no other of its size.
  function Big(): (r: string)
    ensures |r| == CAPACITY - 1 && '\0' !in r
  {
    seq(CAPACITY - 1, _ => 'a')
  }

  // The buffer that holds the n-th message and nothing else.
  function Full(n: nat): Block {
    [Entry(n, Big())]
  }

  lemma FullText(n: nat)
    ensures Text(Full(n)) == Big() && Remain(Full(n)) == 1
  {
    assert Full(n)[1..] == [];
    assert Big() + "" == Big();
  }

  lemma BigFills(n: nat)
    ensures Copied([], Big(), n) == Full(n)
  {
    CStringWhole(Big());
    assert Text([]) == "";
    assert [] + Full(n) == Full(n);
  }

  // What the order depends on: the buffers, the writer, and what is in the files.
  predicate At(s: State, pc: Pc, write: Block, extras: seq<Block>, queue: seq<Block>, log: Block, written: Block) {
    && s.pc == pc && s.write == Some(write) && s.log == Some(log) && s.extras == extras && s.queue == queue
    && s.written == written && s.isWriting == (pc in {FlushWrite, FlushReset, FlushUnmark})
    && s.files.size <= (|written| + 1) * CAPACITY
  }

  predicate Running(s: State) {
    s.running && !s.draining && !s.late
  }

  // One more big message, submitted and appended at once.
  lemma Log(files: Log, steps: seq<Step>, s: State) returns (steps': seq<Step>, t: State)
    requires Reached(files, steps, s) && s.running && s.log.Some? && s.write.Some?
    ensures Reached(files, steps', t)
    ensures t == AppendLocked(s.(pending := s.pending + multiset{Big()}), Big())
  {
    steps', t := Extend(files, steps, s, Submit(Big()));
    assert t == s.(pending := s.pending + multiset{Big()});
    steps', t := Extend(files, steps', t, Append(Big()));
  }

  lemma LogIntoEmpty(files: Log, steps: seq<Step>, s: State, n: nat, written: Block)
    returns (steps': seq<Step>, t: State)
    requires Reached(files, steps, s) && Running(s) && At(s, Test, [], [], [], [], written) && n == |s.accepted|
    ensures Reached(files, steps', t) && Running(t) && At(t, Test, [], [], [], Full(n), written)
    ensures t.accepted == s.accepted + Full(n) && t.overtook == s.overtook && t.jumped == s.jumped
  {
    BigFills(n);
    assert Text([]) == "";
    steps', t := Log(files, steps, s);
  }

  // The full log buffer is exchanged with the empty write buffer.
  lemma LogSwaps(files: Log, steps: seq<Step>, s: State, pc: Pc, extras: seq<Block>, m: nat, n: nat, written: Block)
    returns (steps': seq<Step>, t: State)
    requires Reached(files, steps, s) && Running(s) && At(s, pc, [], extras, [], Full(m), written) && n == |s.accepted|
    requires pc in {Test, FlushLoop}
    ensures Reached(files, steps', t) && Running(t) && At(t, pc, Full(m), extras, [], Full(n), written)
    ensures t.accepted == s.accepted + Full(n) && t.jumped == s.jumped
    ensures t.overtook == (s.overtook || Flatten(extras) != [])
  {
    BigFills(n);
    FullText(m);
    var u := Entering(s.(pending := s.pending + multiset{Big()}), Big());
    assert WithRoom(u, Big()) == Swapped(u);
    assert Behind(u) == Flatten(extras) by {
      assert InQueue(u) == [] && [] + Flatten(extras) == Flatten(extras);
    }
    steps', t := Log(files, steps, s);
  }

  // While the write buffer is being written, the full log buffer is queued.
  lemma LogSpills(files: Log, steps: seq<Step>, s: State, m: nat, n: nat, write: Block, written: Block)
    returns (steps': seq<Step>, t: State)
    requires Reached(files, steps, s) && Running(s) && At(s, FlushWrite, write, [], [], Full(m), written) && n == |s.accepted|
    ensures Reached(files, steps', t) && Running(t) && At(t, FlushWrite, write, [Full(m)], [], Full(n), written)
    ensures t.accepted == s.accepted + Full(n) && t.overtook == s.overtook && t.jumped == s.jumped
  {
    BigFills(n);
    FullText(m);
    var u := Entering(s.(pending := s.pending + multiset{Big()}), Big());
    assert WithRoom(u, Big()) == Spilled(u);
    assert [] + [Full(m)] == [Full(m)];
    steps', t := Log(files, steps, s);
  }

  // ---- The writer ----

  lemma Tick(files: Log, steps: seq<Step>, s: State) returns (steps': seq<Step>, t: State)
    requires Reached(files, steps, s) && s.files.size <= MAX_FILE_SIZE
    ensures Reached(files, steps', t) && t == Consumed(s, "")
  {
    steps', t := Extend(files, steps, s, Consume(""));
  }

  lemma RecordingSize(s: State, b: Block, n: nat)
    requires Usable(s.files) && s.files.isOpen && s.files.size <= n * CAPACITY <= MAX_FILE_SIZE && n >= 1
    requires |Text(b)| <= CAPACITY - 1
    ensures Recording(s, b, "").files.size <= (n + 1) * CAPACITY
  {
  }

  // The writer takes a waiting write buffer, or the log buffer, and what is queued.
  lemma TakeWrite(files: Log, steps: seq<Step>, s: State, write: Block, log: Block, written: Block)
    returns (steps': seq<Step>, t: State)
    requires Reached(files, steps, s) && Running(s) && At(s, Test, write, [], [], log, written) && write != [] && |written| <= 20
    ensures Reached(files, steps', t) && Running(t) && At(t, FlushWrite, write, [], [], log, written)
    ensures t.accepted == s.accepted && t.overtook == s.overtook && t.jumped == s.jumped
  {
    steps', t := Tick(files, steps, s);
    steps', t := Tick(files, steps', t);
    assert At(t, FlushTest, write, [], [], log, written);
    steps', t := Mark(files, steps', t, write, [], log, written);
  }

  lemma TakeLog(files: Log, steps: seq<Step>, s: State, extra: Block, log: Block, written: Block)
    returns (steps': seq<Step>, t: State)
    requires Reached(files, steps, s) && Running(s) && At(s, Test, [], [extra], [], log, written) && log != [] && |written| <= 20
    ensures Reached(files, steps', t) && Running(t) && At(t, FlushWrite, log, [], [extra], [], written)
    ensures t.accepted == s.accepted && t.jumped == s.jumped
  {
    steps', t := Tick(files, steps, s);
    steps', t := Tick(files, steps', t);
    assert At(t, FlushTest, log, [], [extra], [], written);
    steps', t := Mark(files, steps', t, log, [extra], [], written);
  }

  lemma Mark(files: Log, steps: seq<Step>, s: State, write: Block, queue: seq<Block>, log: Block, written: Block)
    returns (steps': seq<Step>, t: State)
    requires Reached(files, steps, s) && Running(s) && At(s, FlushTest, write, [], queue, log, written) && write != []
    requires |written| <= 20
    ensures Reached(files, steps', t) && Running(t) && At(t, FlushWrite, write, [], queue, log, written)
    ensures t.accepted == s.accepted && t.overtook == s.overtook && t.jumped == s.jumped
  {
    steps', t := Tick(files, steps, s);
    steps', t := Tick(files, steps', t);
  }

  // The write buffer reaches the files; it jumps what waits and is older.
  lemma WriteOut(files: Log, steps: seq<Step>, s: State, n: nat, extras: seq<Block>, queue: seq<Block>, log: Block, written: Block)
    returns (steps': seq<Step>, t: State)
    requires Reached(files, steps, s) && Running(s) && At(s, FlushWrite, Full(n), extras, queue, log, written) && |written| <= 20
    ensures Reached(files, steps', t) && Running(t) && At(t, FlushLoop, [], extras, queue, log, written + Full(n))
    ensures t.accepted == s.accepted && t.overtook == s.overtook
    ensures t.jumped == (s.jumped || Jumps(Full(n), Unwritten(s)))
  {
    FullText(n);
    RecordingSize(s, Full(n), |written| + 1);
    var r := Recording(s, Full(n), "");
    steps', t := Tick(files, steps, s);
    assert t == r.(pc := FlushReset);
    steps', t := Reset(files, steps', t);
  }

  lemma Reset(files: Log, steps: seq<Step>, s: State) returns (steps': seq<Step>, t: State)
    requires Reached(files, steps, s) && s.pc == FlushReset && s.files.size <= 22 * CAPACITY
    ensures Reached(files, steps', t) && t == s.(write := Some([]), isWriting := false, pc := FlushLoop)
  {
    steps', t := Tick(files, steps, s);
    assert t == s.(write := Some([]), pc := FlushUnmark);
    steps', t := Tick(files, steps', t);
  }

  // The head of the queue reaches the files.
  lemma PopHead(files: Log, steps: seq<Step>, s: State) returns (steps': seq<Step>, t: State)
    requires Reached(files, steps, s) && s.pc == FlushLoop && s.queue != [] && s.files.size <= 22 * CAPACITY
    requires |Text(s.queue[0])| <= CAPACITY - 1
    ensures Reached(files, steps', t) && t == Recording(s, s.queue[0], "").(queue := s.queue[1..])
  {
    var r := Recording(s, s.queue[0], "");
    RecordingSize(s, s.queue[0], 22);
    HeadRecorded(s, "");
    steps', t := Tick(files, steps, s);
    HeadPopped(t, Consume(""));
    steps', t := Tick(files, steps', t);
    assert t == r.(pc := FlushPop).(pc := FlushLoop).(queue := r.queue[1..]);
  }

  // ---- Up to the third message ----

  // The first buffer is being written, the second waits, and the third has been
  // put behind it: the writer is back at its loop.
  lemma ThreeBuffers(files: Log) returns (steps: seq<Step>, s: State)
    requires Holds(files, Ledger([], [], [])) && files.size == 0
    ensures Reached(files, steps, s) && Running(s) && At(s, FlushLoop, [], [Full(1)], [], Full(2), Full(0))
    ensures s.accepted == Full(0) + Full(1) + Full(2)
  {
    steps, s := [], Started(files);
    steps, s := LogIntoEmpty(files, steps, s, 0, []);
    assert [] + Full(0) == Full(0);
    steps, s := LogSwaps(files, steps, s, Test, [], 0, 1, []);
    steps, s := TakeWrite(files, steps, s, Full(0), Full(1), []);
    steps, s := LogSpills(files, steps, s, 1, 2, Full(0), []);
    steps, s := WriteOut(files, steps, s, 0, [Full(1)], [], Full(2), []);
  }

  // ---- stop() ----

  // From the writer's loop to the first move of stop().
  lemma Join(files: Log, steps: seq<Step>, s: State) returns (steps': seq<Step>, t: State)
    requires Reached(files, steps, s) && Running(s) && s.pc == FlushLoop && s.queue == [] && s.files.size <= 22 * CAPACITY
    ensures Reached(files, steps', t) && t == s.(running := false, draining := true, pc := DrainWrite)
  {
    steps', t := Tick(files, steps, s);
    assert t == s.(pc := Test);
    steps', t := Extend(files, steps', t, Stop);
    steps', t := Leave(files, steps', t);
  }

  // The flushing thread leaves its loop, and stop() joins it.
  lemma Leave(files: Log, steps: seq<Step>, s: State) returns (steps': seq<Step>, t: State)
    requires Reached(files, steps, s) && s.pc == Test && !s.running && s.files.size <= 22 * CAPACITY
    ensures Reached(files, steps', t) && t == s.(draining := true, pc := DrainWrite)
  {
    steps', t := Tick(files, steps, s);
    assert t == s.(pc := Exited);
    steps', t := Tick(files, steps', t);
  }

  // The moves, up to the flush() of stop().
  lemma Drain(files: Log, steps: seq<Step>, s: State) returns (steps': seq<Step>, t: State)
    requires Reached(files, steps, s) && s.pc == DrainWrite && s.files.size <= 22 * CAPACITY
    ensures Reached(files, steps', t)
    ensures t == BuffersDrained(s).(queue := BuffersDrained(s).extras, extras := [], pc := FlushTest)
  {
    MovedByStep(s, "");
    steps', t := Tick(files, steps, s);
    MovedByStep(t, "");
    steps', t := Tick(files, steps', t);
    Requeued(t, "");
    steps', t := Tick(files, steps', t);
  }

  lemma Requeued(s: State, name: string)
    requires Usable(s.files) && s.files.isOpen && s.pc == DrainExtras
    ensures Consumed(s, name) == s.(queue := s.extras, extras := [], pc := FlushTest)
  {
  }

  lemma DrainNothing(files: Log, steps: seq<Step>, s: State) returns (steps': seq<Step>, t: State)
    requires Reached(files, steps, s) && s.pc == DrainWrite && s.files.size <= 22 * CAPACITY
    requires Contents(s.write) == [] && Contents(s.log) == [] && s.extras == [] && s.queue == []
    ensures Reached(files, steps', t) && t == s.(pc := FlushTest)
  {
    assert WriteMoved(s) == s.(pc := DrainLog);
    steps', t := Drain(files, steps, s);
  }

  lemma NothingToDrain(files: Log, steps: seq<Step>, s: State, written: Block) returns (steps': seq<Step>, t: State)
    requires Reached(files, steps, s) && Running(s) && At(s, FlushLoop, [], [], [], [], written) && |written| <= 20
    ensures Reached(files, steps', t) && t.pc == Stopped && !t.late
    ensures t.written == written && t.accepted == s.accepted && t.jumped == s.jumped
  {
    steps', t := Join(files, steps, s);
    steps', t := DrainNothing(files, steps', t);
    steps', t := Tick(files, steps', t);
    assert t.pc == FlushLoop;
    steps', t := Tick(files, steps', t);
  }

  // Both buffers are queued behind the extra one.
  lemma TwoToDrain(files: Log, steps: seq<Step>, s: State, a: nat, b: nat, c: nat, written: Block)
    returns (steps': seq<Step>, t: State)
    requires Reached(files, steps, s) && Running(s) && |written| <= 10
    requires At(s, FlushLoop, Full(b), [Full(a)], [], Full(c), written)
    ensures Reached(files, steps', t) && t.pc == Stopped && !t.late && t.overtook
    ensures t.written == written + Full(a) + Full(b) + Full(c) && t.accepted == s.accepted
  {
    steps', t := Join(files, steps, s);
    QueueTwo(t, a, b, c);
    steps', t := Drain(files, steps', t);
    steps', t := Tick(files, steps', t);
    assert t.pc == FlushLoop && t.queue == [Full(a), Full(b), Full(c)];
    steps', t := Finish(files, steps', t, a, b, c);
  }

  lemma Finish(files: Log, steps: seq<Step>, s: State, a: nat, b: nat, c: nat) returns (steps': seq<Step>, t: State)
    requires Reached(files, steps, s) && s.pc == FlushLoop && s.queue == [Full(a), Full(b), Full(c)]
    requires s.files.size <= 12 * CAPACITY && s.draining
    ensures Reached(files, steps', t) && t.pc == Stopped
    ensures t.written == s.written + Full(a) + Full(b) + Full(c)
    ensures t.late == s.late && t.overtook == s.overtook && t.accepted == s.accepted
  {
    steps', t := PopThree(files, steps, s, a, b, c);
    steps', t := Tick(files, steps', t);
  }

  lemma QueueTwo(s: State, a: nat, b: nat, c: nat)
    requires s.extras == [Full(a)] && s.write == Some(Full(b)) && s.log == Some(Full(c))
    ensures
      var t := BuffersDrained(s);
      && t.overtook && t.extras == [Full(a), Full(b), Full(c)] && t.write == None && t.written == s.written
      && t.accepted == s.accepted && t.late == s.late && t.draining == s.draining
  {
    FlattenHead([Full(a)]);
    assert WriteMoved(s).extras == [Full(a), Full(b)];
  }

  lemma PopThree(files: Log, steps: seq<Step>, s: State, a: nat, b: nat, c: nat) returns (steps': seq<Step>, t: State)
    requires Reached(files, steps, s) && s.pc == FlushLoop && s.queue == [Full(a), Full(b), Full(c)]
    requires s.files.size <= 12 * CAPACITY
    ensures Reached(files, steps', t) && t.pc == FlushLoop && t.queue == []
    ensures t.written == s.written + Full(a) + Full(b) + Full(c) && t.files.size <= 15 * CAPACITY
    ensures t.draining == s.draining && t.late == s.late && t.overtook == s.overtook && t.accepted == s.accepted
  {
    assert s.queue == [Full(a)] + [Full(b), Full(c)];
    steps', t := PopFull(files, steps, s, a, [Full(b), Full(c)], 12);
    assert t.queue == [Full(b)] + [Full(c)];
    steps', t := PopFull(files, steps', t, b, [Full(c)], 13);
    assert t.queue == [Full(c)] + [];
    steps', t := PopFull(files, steps', t, c, [], 14);
  }

  lemma PopFull(files: Log, steps: seq<Step>, s: State, n: nat, rest: seq<Block>, size: nat)
    returns (steps': seq<Step>, t: State)
    requires Reached(files, steps, s) && s.pc == FlushLoop && s.queue == [Full(n)] + rest
    requires 1 <= size <= 20 && s.files.size <= size * CAPACITY
    ensures Reached(files, steps', t) && t.pc == FlushLoop && t.queue == rest && t.written == s.written + Full(n)
    ensures t.files.size <= (size + 1) * CAPACITY
    ensures t == s.(queue := rest, written := t.written, files := t.files, ledger := t.ledger, jumped := t.jumped)
    ensures s.jumped ==> t.jumped
  {
    FullText(n);
    RecordingSize(s, Full(n), size);
    steps', t := PopHead(files, steps, s);
  }

  // ---- The two runs ----

  lemma JumpsOver(m: nat, n: nat, waiting: Block)
    requires Entry(m, Big()) in waiting && m < n
    ensures Jumps(Full(n), waiting)
  {
    JumpsIff(Full(n), waiting);
    OlderIff(Entry(m, Big()), Full(n));
  }

  lemma NewestFirst(files: Log) returns (steps: seq<Step>, s: State)
    requires Holds(files, Ledger([], [], [])) && files.size == 0
    ensures Reached(files, steps, s) && Running(s) && At(s, FlushLoop, [], [], [Full(1)], [], Full(0) + Full(2))
    ensures s.accepted == Full(0) + Full(1) + Full(2) && s.jumped
  {
    steps, s := ThreeBuffers(files);
    steps, s := Tick(files, steps, s);
    steps, s := TakeLog(files, steps, s, Full(1), Full(2), Full(0));
    FlattenHead([Full(1)]);
    JumpsOver(1, 2, Unwritten(s));
    steps, s := WriteOut(files, steps, s, 2, [], [Full(1)], [], Full(0));
  }

  // The order of acceptance can be lost for good: the writer finds the write
  // buffer empty and older text in the extra queue, swaps the newest buffer in,
  // and flush() writes that one first.
  lemma OrderCanBeLost(files: Log) returns (steps: seq<Step>, s: State)
    requires Holds(files, Ledger([], [], [])) && files.size == 0
    ensures Reached(files, steps, s) && s.pc == Stopped && !s.late
    ensures s.accepted == Full(0) + Full(1) + Full(2) && s.written == Full(0) + Full(2) + Full(1)
    ensures s.jumped && s.written != s.accepted
  {
    steps, s := NewestFirst(files);
    assert s.queue == [Full(1)] + [];
    steps, s := PopFull(files, steps, s, 1, [], 3);
    steps, s := NothingToDrain(files, steps, s, Full(0) + Full(2) + Full(1));
    FinishedLogOrderIff(files, steps, s);
  }

  // An overtaken buffer need not show in the files: stop() puts the write buffer
  // behind the older one it had overtaken.
  lemma OrderCanBeRestored(files: Log) returns (steps: seq<Step>, s: State)
    requires Holds(files, Ledger([], [], [])) && files.size == 0
    ensures Reached(files, steps, s) && s.pc == Stopped && !s.late
    ensures s.overtook && !s.jumped && s.written == s.accepted
  {
    steps, s := ThreeBuffers(files);
    steps, s := LogSwaps(files, steps, s, FlushLoop, [Full(1)], 2, 3, Full(0));
    steps, s := TwoToDrain(files, steps, s, 1, 2, 3, Full(0));
    FinishedLogOrderIff(files, steps, s);
  }
}
