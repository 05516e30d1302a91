// The calls of append(): which get past the unlocked tests, that each of these takes
// the mutex once, and where it leaves the buffers.
module AsyncCalls {
  import opened Basics
  import opened LogFiles
  import opened AsyncProtocol

  lemma FullMoves(s: State, data: string)
    requires Remain(Contents(s.log)) <= |data|
    ensures
      var t := WithRoom(s, data);
      if !s.isWriting && Contents(s.write) == [] then t.write == s.log && t.extras == s.extras && Contents(t.log) == []
      else if |s.extras| < 64 then t.write == s.write && t.extras == s.extras + [Contents(s.log)] && Contents(t.log) == []
      else t == s
  {
    if !s.isWriting && Contents(s.write) == [] {
      assert WithRoom(s, data) == Swapped(s);
    } else if |s.extras| < 64 {
      assert WithRoom(s, data) == Spilled(s);
    }
  }

  lemma PutInLog(s: State, data: string)
    ensures
      var t := Put(s, data);
      && t.write == s.write && t.extras == s.extras
      && Contents(s.log) <= Contents(t.log) && |Contents(t.log)| <= |Contents(s.log)| + 1
  {
  }

  // An append leaves every buffer in its place while the data fits behind the
  // log buffer. Otherwise the log buffer becomes the write buffer, if that is
  // empty and not being written, or else the last of up to 64 extra buffers.
  lemma AppendMovesBuffers(s: State, data: string)
    ensures
      var t, log := AppendLocked(s, data), Contents(s.log);
      if |Text(log)| + |data| < 4194304 then t.write == s.write && t.extras == s.extras && log <= Contents(t.log)
      else if !s.isWriting && Contents(s.write) == [] then
        Contents(t.write) == log && t.extras == s.extras && |Contents(t.log)| <= 1
      else if |s.extras| < 64 then t.write == s.write && t.extras == s.extras + [log] && |Contents(t.log)| <= 1
      else t.write == s.write && t.extras == s.extras && log <= Contents(t.log)
  {
    var e := Entering(s, data);
    if Remain(Contents(e.log)) <= |data| {
      FullMoves(e, data);
    }
    PutInLog(WithRoom(e, data), data);
  }

  // ---- Calls ----

  // The data of the calls that get past the unlocked tests: the logger runs, and
  // a buffer could hold it.
  function Enters(s: State, step: Step): multiset<string> {
    if step.Submit? && s.running && |step.data| <= 4194304 then multiset{step.data} else multiset{}
  }

  function Entered(s: State, steps: seq<Step>): multiset<string>
    requires Usable(s.files) && s.files.isOpen
    decreases |steps|
  {
    if steps == [] then multiset{} else Enters(s, steps[0]) + Entered(Next(s, steps[0]), steps[1..])
  }

  // The data of the calls that take the mutex.
  function Locks(step: Step): multiset<string> {
    if step.Append? then multiset{step.data} else multiset{}
  }

  function Locked(steps: seq<Step>): multiset<string> {
    if steps == [] then multiset{} else Locks(steps[0]) + Locked(steps[1..])
  }

  lemma AppendPending(s: State, data: string)
    ensures AppendLocked(s, data).pending == s.pending - multiset{data}
  {
    var e := Entering(s, data);
    assert WithRoom(e, data).pending == e.pending;
  }

  lemma FlushPending(s: State, target: string)
    requires Usable(s.files) && s.files.isOpen && s.pc in {FlushTest, FlushMark, FlushReset, FlushUnmark, FlushPop}
    ensures Consumed(s, target).pending == s.pending
  {
  }

  lemma RecordPending(s: State, target: string)
    requires Usable(s.files) && s.files.isOpen && s.pc in {FlushWrite, FlushLoop}
    ensures Consumed(s, target).pending == s.pending
  {
    if s.pc == FlushWrite {
      assert Consumed(s, target) == Recording(s, Contents(s.write), target).(pc := FlushReset);
    } else if s.queue != [] {
      assert Consumed(s, target) == Recording(s, s.queue[0], target).(pc := FlushPop);
    }
  }

  lemma RestPending(s: State, target: string)
    requires Usable(s.files) && s.files.isOpen && s.pc in {Test, Region, Waiting}
    ensures Consumed(s, target).pending == s.pending
  {
    assert Taken(s).pending == s.pending;
  }

  lemma WriteMovedPending(s: State)
    ensures WriteMoved(s).pending == s.pending
  {
  }

  lemma LogMovedPending(s: State)
    ensures LogMoved(s).pending == s.pending
  {
  }

  lemma DrainPending(s: State, target: string)
    requires Usable(s.files) && s.files.isOpen && s.pc in {Exited, DrainWrite, DrainLog, DrainExtras, Stopped}
    ensures Consumed(s, target).pending == s.pending
  {
    match s.pc
    case Exited => assert Consumed(s, target) == s.(draining := true, pc := DrainWrite);
    case DrainExtras => assert Consumed(s, target) == s.(queue := s.extras, extras := [], pc := FlushTest);
    case Stopped => assert Consumed(s, target) == s;
    case DrainWrite => WriteMovedPending(s);
    case DrainLog => LogMovedPending(s);
  }

  lemma ConsumedPending(s: State, target: string)
    requires Usable(s.files) && s.files.isOpen
    ensures Consumed(s, target).pending == s.pending
  {
    match s.pc
    case Test | Region | Waiting => RestPending(s, target);
    case FlushWrite | FlushLoop => RecordPending(s, target);
    case FlushTest | FlushMark | FlushReset | FlushUnmark | FlushPop => FlushPending(s, target);
    case Exited | DrainWrite | DrainLog | DrainExtras | Stopped => DrainPending(s, target);
  }

  lemma StepCalls(s: State, step: Step)
    requires Usable(s.files) && s.files.isOpen && Enabled(s, step)
    ensures Next(s, step).pending + Locks(step) == s.pending + Enters(s, step)
  {
    match step
    case Submit(data) =>
    case Stop =>
    case Append(data) => AppendPending(s, data);
    case Consume(target) => ConsumedPending(s, target);
  }

  lemma Chain(p: multiset<string>, q: multiset<string>, r: multiset<string>, lock: multiset<string>, entry: multiset<string>,
              locked: multiset<string>, entered: multiset<string>)
    requires q + lock == p + entry && r + locked == q + entered
    ensures r + (lock + locked) == p + (entry + entered)
  {
    assert r + (lock + locked) == (r + locked) + lock;
    assert (q + entered) + lock == (q + lock) + entered;
  }

  // While the logger runs, exactly the calls with no more than a buffer of data
  // get past the tests, and each takes the mutex once: the ones that have not yet
  // are the pending ones.
  lemma {:induction false} CallsAreConserved(s: State, steps: seq<Step>)
    requires Usable(s.files) && s.files.isOpen && Legal(s, steps)
    ensures Run(s, steps).pending + Locked(steps) == s.pending + Entered(s, steps)
    decreases |steps|
  {
    if steps != [] {
      var t := Next(s, steps[0]);
      StepCalls(s, steps[0]);
      CallsAreConserved(t, steps[1..]);
      Chain(s.pending, t.pending, Run(t, steps[1..]).pending, Locks(steps[0]), Enters(s, steps[0]),
            Locked(steps[1..]), Entered(t, steps[1..]));
    }
  }
}
