// What each step does for the turn of the writer it falls into: nothing that this
// turn or the next is to write gets out of its way, and the turn comes to an end.
module AsyncTurn {
  import opened Basics
  import opened LogFiles
  import opened AsyncProtocol
  import opened AsyncInvariant
  import opened AsyncTheorems

  ghost predicate Among(b: Block, c: Block) {
    forall e :: e in b ==> e in c
  }

  // The writer thread has left its loop.
  predicate Gone(s: State) {
    s.pc == Exited || s.draining
  }

  predicate Resting(pc: Pc) {
    pc in {Test, Region, Waiting}
  }

  // The log buffer, if the writer would find the write buffer empty.
  function Offered(s: State): Block {
    if Contents(s.write) == [] then Contents(s.log) else []
  }

  // What is in the files once the writer is back at its test.
  function Coming(s: State): Block {
    match s.pc
    case Test => s.written + Contents(s.write) + Flatten(s.extras) + Offered(s)
    case Region => s.written + Contents(s.write) + Flatten(s.extras) + Offered(s)
    case Waiting => s.written + Contents(s.write) + Flatten(s.extras) + Offered(s)
    case FlushTest => s.written + Contents(s.write) + Flatten(s.queue)
    case FlushMark => s.written + Contents(s.write) + Flatten(s.queue)
    case FlushWrite => s.written + Contents(s.write) + Flatten(s.queue)
    case FlushPop => s.written + Flatten(if s.queue == [] then [] else s.queue[1..])
    case _ => s.written + Flatten(s.queue)
  }

  // ---- Appends take nothing out of it ----

  lemma PutComing(s: State, data: string)
    ensures Among(Coming(s), Coming(Put(s, data))) && s.written == Put(s, data).written
  {
  }

  lemma SwappedComing(s: State)
    requires Shape(s) && !s.isWriting && Contents(s.write) == []
    ensures Among(Coming(s), Coming(Swapped(s)))
  {
  }

  lemma SpilledComing(s: State)
    requires Shape(s) && (s.isWriting || Contents(s.write) != [])
    ensures Among(Coming(s), Coming(Spilled(s)))
  {
    FlattenSnoc(s.extras, Contents(s.log));
  }

  lemma RoomComing(s: State, data: string)
    requires Shape(s)
    ensures Among(Coming(s), Coming(WithRoom(s, data))) && WithRoom(s, data).written == s.written
  {
    if Remain(Contents(s.log)) <= |data| {
      if !s.isWriting && Contents(s.write) == [] {
        SwappedComing(s);
        assert WithRoom(s, data) == Swapped(s);
      } else if |s.extras| < MAX_EXTRAS {
        SpilledComing(s);
        assert WithRoom(s, data) == Spilled(s);
      }
    }
  }

  lemma AppendComing(s: State, data: string)
    requires Shape(s)
    ensures Among(Coming(s), Coming(AppendLocked(s, data))) && AppendLocked(s, data).written == s.written
  {
    var e := Entering(s, data);
    assert Coming(e) == Coming(s) && Shape(e) by {
      assert SameButPending(s, e);
    }
    RoomComing(e, data);
    PutComing(WithRoom(e, data), data);
  }

  // ---- Nor does a step of the writer ----

  lemma TakenComing(s: State)
    requires Shape(s) && s.pc in {Region, Waiting}
    ensures Among(Coming(s), Coming(Taken(s))) && Taken(s).written == s.written
  {
    if s.extras == [] {
      assert Flatten(s.queue) == [] && Flatten(s.extras) == [];
    }
  }

  lemma RestComing(s: State, target: string)
    requires Shape(s) && Usable(s.files) && s.files.isOpen && s.pc in {Region, Waiting}
    ensures Among(Coming(s), Coming(Consumed(s, target))) && Consumed(s, target).written == s.written
  {
    if s.pc == Region && s.extras == [] && Contents(s.write) == [] {
      assert Consumed(s, target) == s.(pc := Waiting);
    } else {
      TakenComing(s);
    }
  }

  // The writer waits exactly when nothing waits for it, and takes the buffers at once otherwise.
  lemma WaitsIff(s: State, target: string)
    requires Usable(s.files) && s.files.isOpen && s.pc == Region
    ensures Consumed(s, target).pc == (if s.extras == [] && Contents(s.write) == [] then Waiting else FlushTest)
  {
  }

  lemma WriteComing(s: State, target: string)
    requires Shape(s) && Usable(s.files) && s.files.isOpen && s.pc in {FlushTest, FlushMark, FlushWrite, FlushReset, FlushUnmark}
    ensures Among(Coming(s), Coming(Consumed(s, target))) && s.written <= Consumed(s, target).written
  {
    match s.pc
    case FlushTest => assert Consumed(s, target) == s.(pc := if Contents(s.write) != [] then FlushMark else FlushLoop);
    case FlushMark => assert Consumed(s, target) == s.(isWriting := true, pc := FlushWrite);
    case FlushWrite => assert Consumed(s, target) == Recording(s, Contents(s.write), target).(pc := FlushReset);
    case FlushReset => assert Consumed(s, target) == s.(write := Some([]), pc := FlushUnmark);
    case FlushUnmark => assert Consumed(s, target) == s.(isWriting := false, pc := FlushLoop);
  }

  lemma HeadComing(s: State, target: string)
    requires Usable(s.files) && s.files.isOpen && s.pc == FlushLoop && s.queue != []
    ensures Among(Coming(s), Coming(Consumed(s, target))) && s.written <= Consumed(s, target).written
    ensures Consumed(s, target).pc == FlushPop
  {
    assert Consumed(s, target) == Recording(s, s.queue[0], target).(pc := FlushPop);
    FlattenHead(s.queue);
  }

  lemma QueueComing(s: State, target: string)
    requires Shape(s) && Usable(s.files) && s.files.isOpen && !s.draining && s.pc in {FlushLoop, FlushPop}
    ensures Among(Coming(s), Coming(Consumed(s, target))) && s.written <= Consumed(s, target).written
    ensures Consumed(s, target).pc == Test ==> Coming(s) == s.written
  {
    if s.pc == FlushPop {
      assert Consumed(s, target) == s.(queue := s.queue[1..], pc := FlushLoop);
    } else if s.queue == [] {
      assert Consumed(s, target) == s.(pc := Test);
    } else {
      HeadComing(s, target);
    }
  }

  // Nothing that was coming is lost, and when the writer comes back to its test
  // all of it is written.
  ghost predicate Onward(s: State, t: State) {
    && Among(Coming(s), Coming(t)) && s.written <= t.written
    && (s.pc != Test && t.pc == Test ==> Coming(s) == s.written)
  }

  lemma QuietOnward(s: State, t: State)
    requires SameButPending(s, t)
    ensures Onward(s, t)
  {
    assert t.pc == s.pc && Coming(t) == Coming(s);
  }

  lemma AppendOnward(s: State, data: string)
    requires Shape(s)
    ensures Onward(s, AppendLocked(s, data))
  {
    AppendComing(s, data);
    assert AppendLocked(s, data).pc == s.pc;
  }

  lemma ConsumeOnward(s: State, target: string)
    requires Shape(s) && Usable(s.files) && s.files.isOpen && !Gone(s) && !Gone(Consumed(s, target))
    ensures Onward(s, Consumed(s, target))
  {
    if s.pc == Test {
      assert Consumed(s, target) == s.(pc := Region);
    } else if s.pc in {Region, Waiting} {
      RestComing(s, target);
    } else if s.pc in {FlushLoop, FlushPop} {
      QueueComing(s, target);
    } else {
      WriteComing(s, target);
    }
  }

  // Calls before the mutex, and stop().
  lemma NextQuiet(s: State, step: Step)
    requires Usable(s.files) && s.files.isOpen && (step.Submit? || step.Stop?)
    ensures SameButPending(s, Next(s, step))
  {
  }

  // One step of any thread.
  lemma StepOnward(s: State, step: Step)
    requires Shape(s) && Usable(s.files) && s.files.isOpen && !Gone(s) && !Gone(Next(s, step))
    ensures Onward(s, Next(s, step))
  {
    if step.Append? {
      AppendOnward(s, step.data);
    } else if step.Consume? {
      ConsumeOnward(s, step.target);
    } else {
      NextQuiet(s, step);
      QuietOnward(s, Next(s, step));
    }
  }

  lemma {:induction false} GoneStays(s: State, steps: seq<Step>)
    requires Inv(s) && Gone(s) && Legal(s, steps)
    ensures Gone(Run(s, steps)) && Run(s, steps).pc != Test
    decreases |steps|
  {
    if steps != [] {
      GoneStep(s, steps[0]);
      NextKeeps(s, steps[0]);
      GoneStays(Next(s, steps[0]), steps[1..]);
    }
  }

  lemma GoneStep(s: State, step: Step)
    requires Inv(s) && Gone(s) && Enabled(s, step)
    ensures Gone(Next(s, step))
  {
    if step.Consume? {
      GoneConsume(s, step.target);
    }
  }

  lemma GoneConsume(s: State, target: string)
    requires Shape(s) && Gone(s) && Usable(s.files) && s.files.isOpen
    ensures Gone(Consumed(s, target))
  {
    if s.pc == Exited {
      assert Consumed(s, target) == s.(draining := true, pc := DrainWrite);
    } else {
      DrainingStays(s, target);
    }
  }

  lemma DrainingStays(s: State, target: string)
    requires Shape(s) && Usable(s.files) && s.files.isOpen && s.draining
    ensures Consumed(s, target).draining
  {
    match s.pc
    case FlushWrite => assert Consumed(s, target) == Recording(s, Contents(s.write), target).(pc := FlushReset);
    case FlushLoop =>
      if s.queue != [] {
        HeadComing(s, target);
        assert Consumed(s, target) == Recording(s, s.queue[0], target).(pc := FlushPop);
      } else {
        assert Consumed(s, target) == s.(pc := Stopped);
      }
    case DrainWrite => assert Consumed(s, target) == WriteMoved(s);
    case DrainLog => assert Consumed(s, target) == LogMoved(s);
    case _ => SmallStep(s, target);
  }

  lemma SmallStep(s: State, target: string)
    requires Usable(s.files) && s.files.isOpen
    requires s.pc in {FlushTest, FlushMark, FlushReset, FlushUnmark, FlushPop, DrainExtras, Stopped}
    ensures Consumed(s, target).draining == s.draining
  {
  }

  lemma AmongTrans(a: Block, b: Block, c: Block)
    requires Among(a, b) && Among(b, c)
    ensures Among(a, c)
  {
  }

  lemma PrefixAmong(a: Block, b: Block)
    requires a <= b
    ensures Among(a, b)
  {
    assert forall i :: 0 <= i < |a| ==> a[i] == b[i];
  }

  lemma OnlyConsumeMoves(s: State, step: Step)
    requires Usable(s.files) && s.files.isOpen && !step.Consume?
    ensures Next(s, step).pc == s.pc
  {
    if step.Append? {
      assert AppendLocked(s, step.data).pc == s.pc;
    }
  }

  // ---- And every turn makes room for the log buffer ----

  // What is in the files after the next turn but one: this turn empties the
  // write buffer, so that the log buffer is no longer in its way.
  function Upcoming(s: State): Block {
    match s.pc
    case FlushTest => s.written + Contents(s.write) + Flatten(s.queue) + Flatten(s.extras) + Contents(s.log)
    case FlushMark => s.written + Contents(s.write) + Flatten(s.queue) + Flatten(s.extras) + Contents(s.log)
    case FlushWrite => s.written + Contents(s.write) + Flatten(s.queue) + Flatten(s.extras) + Contents(s.log)
    case FlushReset => s.written + Contents(s.write) + Flatten(s.queue) + Flatten(s.extras) + Contents(s.log)
    case FlushUnmark => s.written + Contents(s.write) + Flatten(s.queue) + Flatten(s.extras) + Offered(s)
    case FlushLoop => s.written + Contents(s.write) + Flatten(s.queue) + Flatten(s.extras) + Offered(s)
    case FlushPop => s.written + Contents(s.write) + Flatten(if s.queue == [] then [] else s.queue[1..]) + Flatten(s.extras) + Offered(s)
    case _ => s.written + Contents(s.write) + Flatten(s.extras) + Contents(s.log)
  }

  lemma PutUpcoming(s: State, data: string)
    ensures Among(Upcoming(s), Upcoming(Put(s, data)))
  {
  }

  lemma SwappedUpcoming(s: State)
    requires Shape(s) && !s.isWriting && Contents(s.write) == []
    ensures Among(Upcoming(s), Upcoming(Swapped(s)))
  {
  }

  lemma SpilledUpcoming(s: State)
    requires Shape(s) && (s.isWriting || Contents(s.write) != [])
    ensures Among(Upcoming(s), Upcoming(Spilled(s)))
  {
    FlattenSnoc(s.extras, Contents(s.log));
  }

  lemma RoomUpcoming(s: State, data: string)
    requires Shape(s)
    ensures Among(Upcoming(s), Upcoming(WithRoom(s, data)))
  {
    if Remain(Contents(s.log)) <= |data| {
      if !s.isWriting && Contents(s.write) == [] {
        SwappedUpcoming(s);
        assert WithRoom(s, data) == Swapped(s);
      } else if |s.extras| < MAX_EXTRAS {
        SpilledUpcoming(s);
        assert WithRoom(s, data) == Spilled(s);
      }
    }
  }

  lemma AppendUpcoming(s: State, data: string)
    requires Shape(s)
    ensures Among(Upcoming(s), Upcoming(AppendLocked(s, data)))
  {
    var e := Entering(s, data);
    assert Upcoming(e) == Upcoming(s) && Shape(e) by {
      assert SameButPending(s, e);
    }
    RoomUpcoming(e, data);
    PutUpcoming(WithRoom(e, data), data);
    AmongTrans(Upcoming(e), Upcoming(WithRoom(e, data)), Upcoming(Put(WithRoom(e, data), data)));
  }

  lemma TakenUpcoming(s: State)
    requires Shape(s) && s.pc in {Region, Waiting}
    ensures Among(Upcoming(s), Upcoming(Taken(s)))
  {
    if s.extras == [] {
      assert Flatten(s.queue) == [] && Flatten(s.extras) == [];
    }
  }

  lemma RestUpcoming(s: State, target: string)
    requires Shape(s) && Usable(s.files) && s.files.isOpen && s.pc in {Region, Waiting}
    ensures Among(Upcoming(s), Upcoming(Consumed(s, target)))
  {
    if s.pc == Region && s.extras == [] && Contents(s.write) == [] {
      assert Consumed(s, target) == s.(pc := Waiting);
    } else {
      TakenUpcoming(s);
    }
  }

  lemma WriteUpcoming(s: State, target: string)
    requires Shape(s) && Usable(s.files) && s.files.isOpen && s.pc in {FlushTest, FlushMark, FlushWrite, FlushReset, FlushUnmark}
    ensures Among(Upcoming(s), Upcoming(Consumed(s, target)))
  {
    match s.pc
    case FlushTest => assert Consumed(s, target) == s.(pc := if Contents(s.write) != [] then FlushMark else FlushLoop);
    case FlushMark => assert Consumed(s, target) == s.(isWriting := true, pc := FlushWrite);
    case FlushWrite => assert Consumed(s, target) == Recording(s, Contents(s.write), target).(pc := FlushReset);
    case FlushReset =>
      assert Consumed(s, target) == s.(write := Some([]), pc := FlushUnmark);
      EndAmong(s.written, Contents(s.write));
    case FlushUnmark => assert Consumed(s, target) == s.(isWriting := false, pc := FlushLoop);
  }

  lemma EndAmong(b: Block, end: Block)
    requires EndsWith(b, end)
    ensures Among(end, b)
  {
    assert forall i :: 0 <= i < |end| ==> end[i] == b[|b| - |end| + i];
  }

  lemma HeadUpcoming(s: State, target: string)
    requires Usable(s.files) && s.files.isOpen && s.pc == FlushLoop && s.queue != []
    ensures Among(Upcoming(s), Upcoming(Consumed(s, target)))
  {
    assert Consumed(s, target) == Recording(s, s.queue[0], target).(pc := FlushPop);
    FlattenHead(s.queue);
  }

  lemma PopUpcoming(s: State, target: string)
    requires Usable(s.files) && s.files.isOpen && s.pc == FlushPop && s.queue != []
    ensures Among(Upcoming(s), Upcoming(Consumed(s, target)))
  {
    assert Consumed(s, target) == s.(queue := s.queue[1..], pc := FlushLoop);
  }

  // Back at the test, what is upcoming is coming: the write buffer is not in
  // the way of anything that was here before.
  ghost predicate Closer(s: State, t: State) {
    if s.pc != Test && t.pc == Test then Among(Upcoming(s), Coming(t)) else Among(Upcoming(s), Upcoming(t))
  }

  lemma QuietCloser(s: State, t: State)
    requires SameButPending(s, t)
    ensures Closer(s, t)
  {
    assert t.pc == s.pc && Upcoming(t) == Upcoming(s);
  }

  lemma AppendCloser(s: State, data: string)
    requires Shape(s)
    ensures Closer(s, AppendLocked(s, data))
  {
    AppendUpcoming(s, data);
    assert AppendLocked(s, data).pc == s.pc;
  }

  lemma ReturnCloser(s: State, target: string)
    requires Shape(s) && Usable(s.files) && s.files.isOpen && !s.draining && s.pc == FlushLoop && s.queue == []
    ensures Consumed(s, target).pc == Test && Among(Upcoming(s), Coming(Consumed(s, target)))
  {
    assert Consumed(s, target) == s.(pc := Test);
  }

  lemma ConsumeCloser(s: State, target: string)
    requires Shape(s) && Usable(s.files) && s.files.isOpen && !Gone(s) && !Gone(Consumed(s, target))
    ensures Closer(s, Consumed(s, target))
  {
    if s.pc == Test {
      assert Consumed(s, target) == s.(pc := Region);
    } else if s.pc in {Region, Waiting} {
      RestUpcoming(s, target);
    } else if s.pc == FlushPop {
      PopUpcoming(s, target);
    } else if s.pc == FlushLoop {
      if s.queue == [] {
        ReturnCloser(s, target);
      } else {
        HeadUpcoming(s, target);
      }
    } else {
      WriteUpcoming(s, target);
    }
  }

  lemma StepCloser(s: State, step: Step)
    requires Shape(s) && Usable(s.files) && s.files.isOpen && !Gone(s) && !Gone(Next(s, step))
    ensures Closer(s, Next(s, step))
  {
    if step.Append? {
      AppendCloser(s, step.data);
    } else if step.Consume? {
      ConsumeCloser(s, step.target);
    } else {
      NextQuiet(s, step);
      QuietCloser(s, Next(s, step));
    }
  }

  // ---- A turn has an end ----

  // How many accesses are left until the writer is back at its test, at most.
  function Turn(s: State): nat {
    match s.pc
    case Test => 2 * MAX_EXTRAS + 9
    case Region => 2 * MAX_EXTRAS + 8
    case Waiting => 2 * MAX_EXTRAS + 7
    case FlushTest => 2 * |s.queue| + 6
    case FlushMark => 2 * |s.queue| + 5
    case FlushWrite => 2 * |s.queue| + 4
    case FlushReset => 2 * |s.queue| + 3
    case FlushUnmark => 2 * |s.queue| + 2
    case FlushLoop => 2 * |s.queue| + 1
    case FlushPop => 2 * |s.queue|
    case _ => 0
  }

  predicate FewExtras(s: State) {
    |s.extras| <= MAX_EXTRAS && |s.queue| <= MAX_EXTRAS
  }

  // Still in its loop, and told to go on.
  predicate Looping(s: State) {
    s.running && !Gone(s)
  }

  // A step that either is the last of the turn, or brings its end closer by n.
  predicate Advance(s: State, t: State, n: nat) {
    FewExtras(t) && Looping(t) && s.accepted <= t.accepted && ((n > 0 && t.pc == Test) || Turn(t) + n <= Turn(s))
  }

  lemma RoomTurn(e: State, data: string)
    requires FewExtras(e)
    ensures
      var r := WithRoom(e, data);
      r.queue == e.queue && r.pc == e.pc && |r.extras| <= MAX_EXTRAS && r.running == e.running && r.draining == e.draining
  {
    if Remain(Contents(e.log)) <= |data| {
      if !e.isWriting && Contents(e.write) == [] {
        assert WithRoom(e, data) == Swapped(e);
      } else if |e.extras| < MAX_EXTRAS {
        assert WithRoom(e, data) == Spilled(e);
      }
    }
  }

  lemma AppendTurn(s: State, data: string)
    requires FewExtras(s) && Looping(s)
    ensures Advance(s, AppendLocked(s, data), 0)
  {
    var e := Entering(s, data);
    assert FewExtras(e) && e.pc == s.pc && e.queue == s.queue && e.running && e.draining == s.draining;
    RoomTurn(e, data);
    AcceptedIff(s, data);
    PutTurn(WithRoom(e, data), data);
  }

  lemma PutTurn(s: State, data: string)
    ensures
      var r := Put(s, data);
      r.queue == s.queue && r.pc == s.pc && r.extras == s.extras && r.running == s.running && r.draining == s.draining
  {
  }

  lemma RestTurn(s: State, target: string)
    requires Shape(s) && Usable(s.files) && s.files.isOpen && FewExtras(s) && Looping(s) && Resting(s.pc)
    ensures Advance(s, Consumed(s, target), 1)
  {
    if s.pc == Test {
      assert Consumed(s, target) == s.(pc := Region);
    } else if s.pc == Region && s.extras == [] && Contents(s.write) == [] {
      assert Consumed(s, target) == s.(pc := Waiting);
    } else {
      assert Consumed(s, target) == Taken(s);
      assert Taken(s).running == s.running && Taken(s).draining == s.draining && Taken(s).accepted == s.accepted;
    }
  }

  lemma WriteTurn(s: State, target: string)
    requires Usable(s.files) && s.files.isOpen && FewExtras(s) && Looping(s)
    requires s.pc in {FlushTest, FlushMark, FlushWrite, FlushReset, FlushUnmark}
    ensures Advance(s, Consumed(s, target), 1)
  {
    if s.pc == FlushWrite {
      RecordTurn(s, target);
    } else if s.pc == FlushTest {
      assert Consumed(s, target) == s.(pc := if Contents(s.write) != [] then FlushMark else FlushLoop);
    } else if s.pc == FlushMark {
      assert Consumed(s, target) == s.(isWriting := true, pc := FlushWrite);
    } else if s.pc == FlushReset {
      assert Consumed(s, target) == s.(write := Some([]), pc := FlushUnmark);
    } else {
      assert Consumed(s, target) == s.(isWriting := false, pc := FlushLoop);
    }
  }

  lemma RecordTurn(s: State, target: string)
    requires Usable(s.files) && s.files.isOpen && FewExtras(s) && Looping(s) && s.pc == FlushWrite
    ensures Advance(s, Consumed(s, target), 1)
  {
    assert Consumed(s, target) == Recording(s, Contents(s.write), target).(pc := FlushReset);
  }

  lemma QueueTurn(s: State, target: string)
    requires Shape(s) && Usable(s.files) && s.files.isOpen && FewExtras(s) && Looping(s) && s.pc in {FlushLoop, FlushPop}
    ensures Advance(s, Consumed(s, target), 1)
  {
    if s.pc == FlushPop {
      assert Consumed(s, target) == s.(queue := s.queue[1..], pc := FlushLoop);
    } else if s.queue == [] {
      assert Consumed(s, target) == s.(pc := Test);
    } else {
      assert Consumed(s, target) == Recording(s, s.queue[0], target).(pc := FlushPop);
    }
  }

  lemma ConsumeTurn(s: State, target: string)
    requires Shape(s) && Usable(s.files) && s.files.isOpen && FewExtras(s) && Looping(s)
    ensures Advance(s, Consumed(s, target), 1)
  {
    if Resting(s.pc) {
      RestTurn(s, target);
    } else if s.pc in {FlushLoop, FlushPop} {
      QueueTurn(s, target);
    } else {
      WriteTurn(s, target);
    }
  }

  lemma SubmitTurn(s: State, data: string)
    requires FewExtras(s) && Looping(s)
    ensures Advance(s, AppendChecked(s, data), 0)
  {
  }

  // One step of any thread but stop().
  lemma StepTurn(s: State, step: Step)
    requires Inv(s) && FewExtras(s) && Looping(s) && Enabled(s, step) && step != Stop
    ensures Advance(s, Next(s, step), if step.Consume? then 1 else 0)
  {
    match step
    case Submit(data) => SubmitTurn(s, data);
    case Append(data) => AppendTurn(s, data);
    case Consume(target) => ConsumeTurn(s, target);
  }

  lemma TurnPositive(s: State)
    requires Shape(s) && !Gone(s)
    ensures Turn(s) > 0
  {
  }

  lemma TurnAtMost(s: State)
    requires FewExtras(s)
    ensures Turn(s) <= 137
  {
  }

  // At its test the writer has all there is before it: in the files, or upcoming.
  lemma AcceptedUpcoming(s: State)
    requires Inv(s) && s.pc == Test
    ensures Among(s.accepted, Upcoming(s))
  {
    LayoutBalanced(Settled(s), Contents(s.log), s.accepted, s.overtook, s.draining);
    forall e | e in s.accepted ensures e in Upcoming(s) {
      assert e in multiset(s.accepted) && e in multiset(Layout(s));
      assert e in Layout(s) && Flatten(s.queue) == [];
    }
  }
}
