// stop() returns: once running_ is off, the thread that flushes has a bounded
// number of accesses left, whatever the appends still on their way do.
module AsyncStop {
  import opened Basics
  import opened LogFiles
  import opened AsyncProtocol
  import opened AsyncInvariant
  import opened AsyncTheorems

  // How far each point is from the end, when no buffer has to be written.
  function Rank(pc: Pc, draining: bool): nat {
    match pc
    case Stopped => 0
    case FlushLoop => if draining then 3 else 12
    case FlushPop => if draining then 2 else 11
    case FlushReset => if draining then 1 else 10
    case FlushWrite => if draining then 2 else 11
    case FlushMark => if draining then 3 else 12
    case FlushUnmark => if draining then 4 else 13
    case FlushTest => if draining then 4 else 13
    case DrainExtras => 5
    case DrainLog => 8
    case DrainWrite => 9
    case Exited => 10
    case Test => 11
    case Waiting => 18
    case Region => 19
  }

  function Full(b: Option<Block>): nat {
    if Contents(b) == [] then 0 else 1
  }

  // Two accesses for a queued buffer, four for a write buffer, and an append
  // can make for at most one of either.
  function Left(s: State): nat {
    Rank(s.pc, s.draining) + 2 * |s.queue| + 2 * |s.extras| + 4 * Full(s.write) + 4 * |s.pending|
  }

  lemma AppendLeft(s: State, data: string)
    requires Enabled(s, Append(data))
    ensures
      var t := AppendLocked(s, data);
      Left(t) <= Left(s) && t.running == s.running && t.pc == s.pc
  {
    var e := Entering(s, data);
    assert |e.pending| == |s.pending| - 1;
    assert Left(e) == Left(s) - 4;
    RoomLeft(e, data);
    PutLeft(WithRoom(e, data), data);
  }

  lemma PutLeft(s: State, data: string)
    ensures Left(Put(s, data)) == Left(s) && Put(s, data).running == s.running && Put(s, data).pc == s.pc
  {
  }

  lemma RoomLeft(s: State, data: string)
    ensures Left(WithRoom(s, data)) <= Left(s) + 4 && WithRoom(s, data).running == s.running && WithRoom(s, data).pc == s.pc
  {
    if Remain(Contents(s.log)) <= |data| {
      if !s.isWriting && Contents(s.write) == [] {
        assert WithRoom(s, data) == Swapped(s);
      } else if |s.extras| < MAX_EXTRAS {
        assert WithRoom(s, data) == Spilled(s);
      }
    }
  }

  predicate Nearer(t: State, s: State) {
    Left(t) < Left(s) && t.running == s.running
  }

  predicate Ready(s: State) {
    Usable(s.files) && s.files.isOpen
  }

  lemma TestLeft(s: State, target: string)
    requires Ready(s) && s.pc == FlushTest
    ensures Nearer(Consumed(s, target), s)
  {
    assert Consumed(s, target) == s.(pc := if Contents(s.write) != [] then FlushMark else FlushLoop);
  }

  lemma MarkLeft(s: State, target: string)
    requires Ready(s) && s.pc == FlushMark
    ensures Nearer(Consumed(s, target), s)
  {
    assert Consumed(s, target) == s.(isWriting := true, pc := FlushWrite);
  }

  lemma WriteLeft(s: State, target: string)
    requires Ready(s) && s.pc == FlushWrite
    ensures Nearer(Consumed(s, target), s)
  {
    assert Consumed(s, target) == Recording(s, Contents(s.write), target).(pc := FlushReset);
  }

  lemma ResetLeft(s: State, target: string)
    requires Ready(s) && s.pc == FlushReset && Contents(s.write) != []
    ensures Nearer(Consumed(s, target), s)
  {
    assert Consumed(s, target) == s.(write := Some([]), pc := FlushUnmark);
  }

  lemma UnmarkLeft(s: State, target: string)
    requires Ready(s) && s.pc == FlushUnmark
    ensures Nearer(Consumed(s, target), s)
  {
    assert Consumed(s, target) == s.(isWriting := false, pc := FlushLoop);
  }

  lemma LoopLeft(s: State, target: string)
    requires Ready(s) && s.pc == FlushLoop
    ensures Nearer(Consumed(s, target), s)
  {
    if s.queue == [] {
      assert Consumed(s, target) == s.(pc := if s.draining then Stopped else Test);
    } else {
      assert Consumed(s, target) == Recording(s, s.queue[0], target).(pc := FlushPop);
    }
  }

  lemma PopLeft(s: State, target: string)
    requires Ready(s) && s.pc == FlushPop && s.queue != []
    ensures Nearer(Consumed(s, target), s)
  {
    assert Consumed(s, target) == s.(queue := s.queue[1..], pc := FlushLoop);
  }

  lemma FlushLeft(s: State, target: string)
    requires Ready(s) && s.pc in {FlushTest, FlushMark, FlushWrite, FlushReset, FlushUnmark, FlushLoop, FlushPop}
    requires (s.pc == FlushReset ==> Contents(s.write) != []) && (s.pc == FlushPop ==> s.queue != [])
    ensures Nearer(Consumed(s, target), s)
  {
    match s.pc
    case FlushTest => TestLeft(s, target);
    case FlushMark => MarkLeft(s, target);
    case FlushWrite => WriteLeft(s, target);
    case FlushReset => ResetLeft(s, target);
    case FlushUnmark => UnmarkLeft(s, target);
    case FlushLoop => LoopLeft(s, target);
    case FlushPop => PopLeft(s, target);
  }

  lemma WriteMovedLeft(s: State)
    requires s.pc == DrainWrite
    ensures Nearer(WriteMoved(s), s)
  {
    var t := WriteMoved(s);
    if Contents(s.write) == [] {
      assert t == s.(pc := DrainLog);
    } else {
      assert |t.extras| == |s.extras| + 1 && Full(t.write) == 0 && t.pending == s.pending;
    }
  }

  lemma LogMovedLeft(s: State)
    requires s.pc == DrainLog
    ensures Nearer(LogMoved(s), s)
  {
    var t := LogMoved(s);
    if Contents(s.log) == [] {
      assert t == s.(pc := DrainExtras);
    } else {
      assert |t.extras| == |s.extras| + 1 && t.write == s.write && t.pending == s.pending;
    }
  }

  lemma DrainLeft(s: State, target: string)
    requires Ready(s) && s.pc in {Exited, DrainWrite, DrainLog, DrainExtras} && s.queue == []
    requires s.pc == DrainExtras ==> s.draining
    ensures Nearer(Consumed(s, target), s)
  {
    if s.pc == DrainWrite {
      WriteMovedLeft(s);
    } else if s.pc == DrainLog {
      LogMovedLeft(s);
    } else if s.pc == DrainExtras {
      assert Consumed(s, target) == s.(queue := s.extras, extras := [], pc := FlushTest);
    } else {
      assert Consumed(s, target) == s.(draining := true, pc := DrainWrite);
    }
  }

  lemma TakenLeft(s: State)
    requires s.pc in {Region, Waiting} && s.queue == [] && !s.draining
    ensures Nearer(Taken(s), s)
  {
  }

  lemma RegionLeft(s: State, target: string)
    requires Ready(s) && !s.running && s.pc in {Test, Region, Waiting} && s.queue == [] && !s.draining
    ensures Nearer(Consumed(s, target), s)
  {
    if s.pc == Test {
      assert Consumed(s, target) == s.(pc := Exited);
    } else {
      TakenLeft(s);
      if s.pc == Region && s.extras == [] && Contents(s.write) == [] {
        assert Consumed(s, target) == s.(pc := Waiting);
      }
    }
  }

  lemma ConsumeLeft(s: State, target: string)
    requires Inv(s) && !s.running && s.pc != Stopped
    ensures Nearer(Consumed(s, target), s)
  {
    if s.pc in {Test, Region, Waiting} {
      RegionLeft(s, target);
    } else if s.pc in {Exited, DrainWrite, DrainLog, DrainExtras} {
      DrainLeft(s, target);
    } else {
      FlushLeft(s, target);
    }
  }

  lemma IdleLeft(s: State, step: Step)
    requires Ready(s) && !s.running && (step.Submit? || step.Stop? || (step.Consume? && s.pc == Stopped))
    ensures Next(s, step) == s
  {
  }

  lemma StepLeft(s: State, step: Step)
    requires Inv(s) && !s.running && Enabled(s, step)
    ensures
      var t := Next(s, step);
      && !t.running && (s.pc == Stopped ==> t.pc == Stopped)
      && Left(t) + (if step.Consume? && s.pc != Stopped then 1 else 0) <= Left(s)
  {
    if step.Append? {
      AppendLeft(s, step.data);
    } else if step.Consume? && s.pc != Stopped {
      ConsumeLeft(s, step.target);
    } else {
      IdleLeft(s, step);
    }
  }

  // Every legal run that gives the thread that flushes Left(s) accesses after
  // running_ went off ends in Stopped, however appends fall between them.
  lemma {:induction false} StopReturns(s: State, steps: seq<Step>)
    requires Inv(s) && !s.running && Legal(s, steps)
    ensures s.pc == Stopped || Consumes(steps) >= Left(s) ==> Run(s, steps).pc == Stopped
    decreases |steps|
  {
    if steps != [] {
      StepLeft(s, steps[0]);
      NextKeeps(s, steps[0]);
      StopReturns(Next(s, steps[0]), steps[1..]);
    }
  }

  lemma StopLeft(s: State)
    requires Ready(s)
    ensures Left(Next(s, Stop)) == Left(s) && !Next(s, Stop).running
  {
  }

  // From the call of stop() on, at any point: any run with so many accesses of the
  // thread that flushes ends in Stopped.
  lemma StopEnds(s: State, steps: seq<Step>)
    requires Inv(s) && Legal(Next(s, Stop), steps) && Consumes(steps) >= Left(s)
    ensures Run(Next(s, Stop), steps).pc == Stopped
  {
    NextKeeps(s, Stop);
    StopLeft(s);
    StopReturns(Next(s, Stop), steps);
  }
}
