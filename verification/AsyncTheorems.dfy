// What the invariant of the AsyncLogger protocol means for whole runs.
module AsyncTheorems {
  import opened Basics
  import opened LogFiles
  import opened AsyncProtocol
  import opened AsyncInvariant
  import opened AsyncOrder

  // A run of the logger from start() on an empty or missing file.
  ghost predicate Reached(files: Log, steps: seq<Step>, s: State) {
    && Holds(files, Ledger([], [], []))
    && Legal(Started(files), steps)
    && s == Run(Started(files), steps)
  }

  lemma ReachedInv(files: Log, steps: seq<Step>, s: State)
    requires Reached(files, steps, s)
    ensures Inv(s)
  {
    StartedInv(files);
    RunKeeps(Started(files), steps);
  }

  // ---- Acceptance ----

  lemma CStringWhole(data: string)
    requires '\0' !in data
    ensures CString(data) == data
  {
  }

  // append() makes room when it can swap or queue the log buffer.
  predicate MakesRoom(s: State) {
    (!s.isWriting && Contents(s.write) == []) || |s.extras| < 64
  }

  lemma CopiedIff(b: Block, data: string, id: nat)
    ensures Copied(b, data, id)[|b|..]
         == if CString(data) != "" && |CString(data)| < Remain(b) then [Entry(id, CString(data))] else []
  {
    var entry := Entry(id, CString(data));
    assert (b + [entry])[|b|..] == [entry];
    assert b[|b|..] == [];
  }

  // The room append() finds in the log buffer once it has tried to make some.
  function Room(s: State, data: string): int {
    if |data| >= Remain(Contents(s.log)) && MakesRoom(s) then CAPACITY else Remain(Contents(s.log))
  }

  lemma WithRoomHas(s: State, data: string)
    ensures Remain(Contents(WithRoom(s, data).log)) == Room(s, data) && WithRoom(s, data).accepted == s.accepted
  {
    assert Text([]) == "";
  }

  // Which messages are accepted, and that an accepted one is recorded up to its
  // first zero byte: it has to be non-empty and smaller than the room.
  lemma AcceptedIff(s: State, data: string)
    ensures
      AppendLocked(s, data).accepted ==
        s.accepted + if CString(data) != "" && |CString(data)| < Room(s, data)
                     then [Entry(|s.accepted|, CString(data))] else []
  {
    var e := Entering(s, data);
    WithRoomHas(e, data);
    CopiedIff(Contents(WithRoom(e, data).log), data, |s.accepted|);
    assert Room(e, data) == Room(s, data);
  }

  // Without zero bytes: a message as large as a buffer, an empty one, and one that
  // comes when 64 buffers wait and the current one is full, is dropped.
  lemma AcceptedWholeIff(s: State, data: string)
    requires '\0' !in data
    ensures
      AppendLocked(s, data).accepted ==
        s.accepted + if data != "" && |data| < 4194304 && (|data| < Remain(Contents(s.log)) || MakesRoom(s))
                     then [Entry(|s.accepted|, data)] else []
  {
    AcceptedIff(s, data);
    CStringWhole(data);
  }

  // What strlen sees: the longest beginning without a zero byte.
  lemma {:induction false} CStringIs(data: string)
    ensures var text := CString(data);
      text <= data && '\0' !in text && (|text| < |data| ==> data[|text|] == '\0')
  {
    if data != "" && data[0] != '\0' {
      CStringIs(data[1..]);
    }
  }

  // ---- Conservation ----

  lemma DistinctOnce(b: Block)
    requires forall i :: 0 <= i < |b| ==> b[i].id == i
    ensures forall e :: e in b ==> multiset(b)[e] == 1
  {
    forall e | e in b ensures multiset(b)[e] == 1 {
      var i :| 0 <= i < |b| && b[i] == e;
      assert b == b[..i] + [e] + b[i + 1..];
      assert e !in b[..i] && e !in b[i + 1..];
      assert multiset(b) == multiset(b[..i]) + multiset([e]) + multiset(b[i + 1..]);
    }
  }

  lemma LayoutBalanced(settled: Block, log: Block, accepted: Block, overtook: bool, draining: bool)
    requires Balanced(settled, log, accepted, overtook, draining)
    ensures multiset(settled + log) == multiset(accepted)
  {
    assert accepted == accepted[..|accepted| - |log|] + log;
  }

  // Every accepted message is in exactly one place: the files, the write
  // buffer, the consumer's queue, the extra queue or the log buffer.
  lemma Conservation(files: Log, steps: seq<Step>, s: State)
    requires Reached(files, steps, s)
    ensures multiset(Layout(s)) == multiset(s.accepted)
    ensures forall e :: e in s.accepted ==> multiset(Layout(s))[e] == 1
    ensures Holds(s.files, s.ledger) && Flatten(Messages(s.ledger)) == Text(s.written)
  {
    ReachedInv(files, steps, s);
    LayoutBalanced(Settled(s), Contents(s.log), s.accepted, s.overtook, s.draining);
    DistinctOnce(s.accepted);
  }

  // After stop(), with no append as late as its drain, the files hold everything.
  lemma StopFlushesEverything(files: Log, steps: seq<Step>, s: State)
    requires Reached(files, steps, s) && s.pc == Stopped && !s.late
    ensures Contents(s.log) == [] && Contents(s.write) == [] && s.extras == [] && s.queue == []
    ensures multiset(s.written) == multiset(s.accepted)
    ensures !s.overtook ==> s.written == s.accepted
    ensures Flatten(Messages(s.ledger)) == Text(s.written)
  {
    ReachedInv(files, steps, s);
    StoppedEmpty(s);
  }

  lemma StoppedEmpty(s: State)
    requires Shape(s) && Accounted(s) && Draining(s) && s.pc == Stopped && !s.late
    ensures Contents(s.log) == [] && Contents(s.write) == [] && s.extras == [] && s.queue == []
    ensures multiset(s.written) == multiset(s.accepted)
    ensures !s.overtook ==> s.written == s.accepted
  {
    assert Settled(s) == s.written;
    assert s.accepted[..|s.accepted|] == s.accepted;
  }

  lemma NothingLeft(a: Block, rest: Block, all: multiset<Entry>)
    requires multiset(a + rest) == all
    ensures multiset(a) == all <==> rest == []
  {
    assert multiset(a + rest) == multiset(a) + multiset(rest);
    assert |multiset(rest)| == |rest|;
    assert |all| == |multiset(a)| + |multiset(rest)|;
    if rest == [] {
      assert a + rest == a;
    }
  }

  lemma Regroup(a: Block, b: Block, c: Block, d: Block)
    ensures (a + b) + c + d == a + (b + c + d)
    ensures (a + b) + ([] + c) + d == a + (b + c + d)
  {
  }

  lemma StoppedLayout(s: State)
    requires s.pc == Stopped && s.queue == []
    ensures Layout(s) == s.written + (Contents(s.write) + Flatten(s.extras) + Contents(s.log))
  {
    assert InQueue(s) == [] && Behind(s) == Flatten(s.extras);
    Regroup(s.written, Contents(s.write), Flatten(s.extras), Contents(s.log));
  }

  // What the files are still missing after stop() is exactly what late appends left in the buffers.
  lemma StoppedLosesExactlyTheBuffers(files: Log, steps: seq<Step>, s: State)
    requires Reached(files, steps, s) && s.pc == Stopped
    ensures multiset(s.written) == multiset(s.accepted)
       <==> Contents(s.write) + Flatten(s.extras) + Contents(s.log) == []
  {
    Conservation(files, steps, s);
    ReachedInv(files, steps, s);
    StoppedLayout(s);
    var rest := Contents(s.write) + Flatten(s.extras) + Contents(s.log);
    NothingLeft(s.written, rest, multiset(s.accepted));
  }

  // ---- Exclusion ----

  // How many steps of the consumer lie between its test of the write buffer and the reset.
  function StepsToReset(pc: Pc): int {
    match pc
    case FlushTest => 3
    case FlushMark => 2
    case FlushWrite => 1
    case _ => 0
  }

  predicate Guarded(s: State) {
    s.pc in {FlushTest, FlushMark, FlushWrite, FlushReset} && Contents(s.write) != []
  }

  function Consumes(steps: seq<Step>): nat {
    if steps == [] then 0 else (if steps[0].Consume? then 1 else 0) + Consumes(steps[1..])
  }

  lemma GuardedAppend(s: State, data: string)
    requires Shape(s) && Guarded(s)
    ensures AppendLocked(s, data).write == s.write && AppendLocked(s, data).pc == s.pc
  {
  }

  lemma GuardedTest(s: State, target: string)
    requires s.pc == FlushTest && Contents(s.write) != [] && Usable(s.files) && s.files.isOpen
    ensures Consumed(s, target) == s.(pc := FlushMark)
  {
  }

  lemma GuardedWrite(s: State, target: string)
    requires s.pc == FlushWrite && Contents(s.write) != [] && Usable(s.files) && s.files.isOpen
    ensures Consumed(s, target).pc == FlushReset && Consumed(s, target).write == s.write
  {
  }

  lemma GuardedConsume(s: State, target: string)
    requires Guarded(s) && s.pc != FlushReset && Usable(s.files) && s.files.isOpen
    ensures Consumed(s, target).write == s.write && Guarded(Consumed(s, target))
    ensures StepsToReset(Consumed(s, target).pc) == StepsToReset(s.pc) - 1
  {
    if s.pc == FlushTest {
      GuardedTest(s, target);
    } else if s.pc == FlushMark {
      assert Consumed(s, target) == s.(isWriting := true, pc := FlushWrite);
    } else {
      GuardedWrite(s, target);
    }
  }

  lemma GuardedStep(s: State, step: Step)
    requires Inv(s) && Guarded(s) && (s.pc == FlushReset ==> !step.Consume?)
    ensures Next(s, step).write == s.write && Guarded(Next(s, step))
    ensures StepsToReset(Next(s, step).pc) == StepsToReset(s.pc) - (if step.Consume? then 1 else 0)
  {
    match step
    case Append(data) => GuardedAppend(s, data);
    case Consume(target) => GuardedConsume(s, target);
    case Submit(data) =>
    case Stop =>
  }

  // From the writer's unlocked test to its reset no append takes the write
  // buffer away or adds to it, whatever the interleaving, and the reset
  // discards only what the files already end with.
  lemma {:induction false} WriteBufferExclusion(s: State, steps: seq<Step>)
    requires Inv(s) && Guarded(s) && Legal(s, steps)
    requires Consumes(steps) <= StepsToReset(s.pc)
    ensures var t := Run(s, steps);
      && t.write == s.write
      && (t.pc == FlushReset <==> Consumes(steps) == StepsToReset(s.pc))
      && (t.pc == FlushReset ==> EndsWith(t.written, Contents(s.write)))
    decreases |steps|
  {
    if steps != [] {
      GuardedStep(s, steps[0]);
      NextKeeps(s, steps[0]);
      WriteBufferExclusion(Next(s, steps[0]), steps[1..]);
    }
  }

  // ---- Order ----

  lemma NotInverted(b: Block)
    requires forall i :: 0 <= i < |b| ==> b[i].id == i
    ensures !Inverted(b)
  {
  }

  lemma BalancedOrder(settled: Block, log: Block, accepted: Block, overtook: bool, draining: bool)
    requires Balanced(settled, log, accepted, overtook, draining)
    ensures !overtook ==> settled + log == accepted
    ensures !draining && settled + log == accepted ==> !overtook
  {
    var older := accepted[..|accepted| - |log|];
    assert accepted == older + log;
    if !draining && settled + log == accepted {
      assert |settled| == |older|;
      assert settled == accepted[..|older|];
      NotInverted(settled);
    }
  }

  // Until stop() drains the buffers, the messages are in the order of
  // acceptance exactly when no buffer ever overtook another.
  lemma OrderIffNoOvertaking(files: Log, steps: seq<Step>, s: State)
    requires Reached(files, steps, s) && !s.draining
    ensures Layout(s) == s.accepted <==> !s.overtook
  {
    ReachedInv(files, steps, s);
    BalancedOrder(Settled(s), Contents(s.log), s.accepted, s.overtook, s.draining);
  }

  lemma ReachedOrder(files: Log, steps: seq<Step>, s: State)
    requires Reached(files, steps, s)
    ensures OrderInv(s)
  {
    StartedInv(files);
    assert OrderInv(Started(files));
    RunOrder(Started(files), steps);
  }

  // In every reachable state, before, during and after stop(), the files hold
  // the accepted messages up to some point, in the order of acceptance, exactly
  // when no message was written while an older one waited in another buffer.
  lemma FilesOrderIff(files: Log, steps: seq<Step>, s: State)
    requires Reached(files, steps, s)
    ensures s.written <= s.accepted <==> !s.jumped
    ensures Flatten(Messages(s.ledger)) == Text(s.written)
  {
    ReachedOrder(files, steps, s);
  }

  // The finished log is the accepted messages in order exactly under that condition.
  lemma FinishedLogOrderIff(files: Log, steps: seq<Step>, s: State)
    requires Reached(files, steps, s) && s.pc == Stopped && !s.late
    ensures s.written == s.accepted <==> !s.jumped
    ensures !s.jumped ==> Flatten(Messages(s.ledger)) == Text(s.accepted)
  {
    FilesOrderIff(files, steps, s);
    StopFlushesEverything(files, steps, s);
    assert |multiset(s.written)| == |multiset(s.accepted)|;
    if s.written <= s.accepted {
      assert s.written == s.accepted[..|s.written|];
    }
  }

  lemma ExchangeIff(a: Block, w: Block, e: Block, l: Block)
    requires forall i :: 0 <= i < |a + w + e + l| ==> (a + w + e + l)[i].id == i
    ensures a + e + w + l == a + w + e + l <==> w == [] || e == []
  {
    var before, after := a + w + e + l, a + e + w + l;
    if w != [] && e != [] {
      assert after[|a|] == e[0] && before[|a| + |w|] == e[0];
      assert after[|a|].id != before[|a|].id;
    }
  }

  // stop() itself keeps the order exactly when it does not have to queue a
  // non-empty write buffer behind non-empty extra buffers.
  lemma DrainOrderIff(s: State, target: string)
    requires Inv(s) && s.pc == DrainWrite && Layout(s) == s.accepted
    ensures Layout(Consumed(s, target)) == s.accepted <==> Contents(s.write) == [] || Flatten(s.extras) == []
  {
    if Contents(s.write) == [] {
      assert Layout(s.(pc := DrainLog)) == Layout(s);
    } else {
      DrainWriteSettled(s, WriteMoved(s));
      ExchangeIff(s.written, Contents(s.write), Flatten(s.extras), Contents(s.log));
    }
  }

  // In a run that never uses the extra queue nothing is overtaken, and the
  // files, the write buffer and the log buffer, in this order, are the accepted messages.
  lemma OrderWithoutExtras(files: Log, steps: seq<Step>, s: State)
    requires Reached(files, steps, s) && !s.spilled
    ensures Layout(s) == s.accepted
    ensures !s.draining ==> s.accepted == s.written + InWrite(s) + Contents(s.log)
    ensures s.pc == Stopped && !s.late ==> Flatten(Messages(s.ledger)) == Text(s.accepted)
  {
    ReachedInv(files, steps, s);
    BalancedOrder(Settled(s), Contents(s.log), s.accepted, s.overtook, s.draining);
    if !s.draining {
      WithoutExtras(s);
    }
    if s.pc == Stopped && !s.late {
      StopFlushesEverything(files, steps, s);
    }
  }

  lemma WithoutExtras(s: State)
    requires s.extras == [] && s.queue == []
    ensures Settled(s) == s.written + InWrite(s)
  {
  }

  // ---- flush() without interruption is a run of its steps ----

  lemma {:induction false} RunConcat(s: State, a: seq<Step>, b: seq<Step>)
    requires Usable(s.files) && s.files.isOpen
    ensures Run(s, a + b) == Run(Run(s, a), b)
    decreases |a|
  {
    if a == [] {
      assert a + b == b;
    } else {
      assert (a + b)[1..] == a[1..] + b;
      RunConcat(Next(s, a[0]), a[1..], b);
    }
  }

  lemma RunOne(s: State, step: Step)
    requires Usable(s.files) && s.files.isOpen
    ensures Run(s, [step]) == Next(s, step)
  {
    assert [step][1..] == [];
  }

  lemma RunTwo(s: State, tick: Step)
    requires Usable(s.files) && s.files.isOpen
    ensures Run(s, [tick, tick]) == Next(Next(s, tick), tick)
  {
    RunOne(s, tick);
    RunExtend(s, [tick], tick);
    assert [tick] + [tick] == [tick, tick];
  }

  lemma Marked(s: State, name: string)
    requires Usable(s.files) && s.files.isOpen && s.pc == FlushTest && Contents(s.write) != []
    ensures Run(s, [Consume(name), Consume(name)]) == s.(isWriting := true, pc := FlushWrite)
  {
    RunTwo(s, Consume(name));
    assert Next(s, Consume(name)) == s.(pc := FlushMark);
  }

  lemma ResetSteps(s: State, name: string)
    requires Usable(s.files) && s.files.isOpen && s.pc == FlushReset
    ensures Run(s, [Consume(name), Consume(name)]) == s.(write := Some([]), isWriting := false, pc := FlushLoop)
  {
    RunTwo(s, Consume(name));
    assert Next(s, Consume(name)) == s.(write := Some([]), pc := FlushUnmark);
  }

  lemma Unmarked(s: State, name: string)
    requires Usable(s.files) && s.files.isOpen && s.pc == FlushWrite
    ensures Run(s, [Consume(name)] + [Consume(name), Consume(name)])
         == Recording(s, Contents(s.write), name).(write := Some([]), isWriting := false, pc := FlushLoop)
  {
    var tick := Consume(name);
    var t := Recording(s, Contents(s.write), name).(pc := FlushReset);
    assert Next(s, tick) == t;
    RunOne(s, tick);
    ResetSteps(t, name);
    RunConcat(s, [tick], [tick, tick]);
  }

  lemma MarkedRecording(s: State, name: string)
    requires Usable(s.files) && s.files.isOpen && s.pc == FlushTest && !s.isWriting && Contents(s.write) != []
    ensures
      Recording(s.(isWriting := true, pc := FlushWrite), Contents(s.write), name).(write := Some([]), isWriting := false, pc := FlushLoop)
        == WriteFlushed(s, name)
  {
    assert Unwritten(s.(isWriting := true, pc := FlushWrite)) == Unwritten(s);
  }

  lemma WriteFlushedIsRun(s: State, name: string) returns (steps: seq<Step>)
    requires Usable(s.files) && s.files.isOpen && s.pc == FlushTest && !s.isWriting
    ensures Run(s, steps) == WriteFlushed(s, name) && forall step :: step in steps ==> step == Consume(name)
  {
    var tick := Consume(name);
    if Contents(s.write) == [] {
      RunOne(s, tick);
      steps := [tick];
    } else {
      FiveSteps(s, name);
      steps := [tick, tick] + ([tick] + [tick, tick]);
    }
  }

  lemma FiveSteps(s: State, name: string)
    requires Usable(s.files) && s.files.isOpen && s.pc == FlushTest && !s.isWriting && Contents(s.write) != []
    ensures
      var tick := Consume(name);
      Run(s, [tick, tick] + ([tick] + [tick, tick])) == WriteFlushed(s, name)
  {
    var tick := Consume(name);
    Marked(s, name);
    Unmarked(s.(isWriting := true, pc := FlushWrite), name);
    RunConcat(s, [tick, tick], [tick] + [tick, tick]);
    MarkedRecording(s, name);
  }

  lemma HeadRecorded(s: State, name: string)
    requires Usable(s.files) && s.files.isOpen && s.pc == FlushLoop && s.queue != []
    ensures Consumed(s, name) == Recording(s, s.queue[0], name).(pc := FlushPop)
  {
  }

  lemma HeadPopped(t: State, tick: Step)
    requires Usable(t.files) && t.files.isOpen && t.pc == FlushPop && t.queue != [] && tick.Consume?
    ensures Next(t, tick) == t.(pc := FlushLoop).(queue := t.queue[1..])
  {
  }

  lemma HeadFlushed(s: State, name: string)
    requires Usable(s.files) && s.files.isOpen && s.pc == FlushLoop && s.queue != []
    ensures Run(s, [Consume(name), Consume(name)]) == Recording(s, s.queue[0], name).(queue := s.queue[1..])
  {
    RunTwo(s, Consume(name));
    HeadRecorded(s, name);
    HeadPopped(Recording(s, s.queue[0], name).(pc := FlushPop), Consume(name));
  }

  lemma {:induction false} QueueFlushedIsRun(s: State, names: seq<string>) returns (steps: seq<Step>)
    requires Usable(s.files) && s.files.isOpen && s.pc == FlushLoop && |names| == |s.queue|
    ensures Run(s, steps) == QueueFlushed(s, names) && forall step :: step in steps ==> step.Consume?
    decreases |names|
  {
    steps := [];
    if names != [] {
      HeadFlushed(s, names[0]);
      var pair := [Consume(names[0]), Consume(names[0])];
      var rest := QueueFlushedIsRun(Run(s, pair), names[1..]);
      RunConcat(s, pair, rest);
      steps := pair + rest;
    }
  }

  lemma MovedByStep(s: State, name: string)
    requires Usable(s.files) && s.files.isOpen
    ensures s.pc == DrainWrite ==> Next(s, Consume(name)) == WriteMoved(s)
    ensures s.pc == DrainLog ==> Next(s, Consume(name)) == LogMoved(s)
  {
  }

  // The moves of stop() without interruption.
  lemma BuffersDrainedIsRun(s: State, name: string)
    requires Usable(s.files) && s.files.isOpen && s.pc == DrainWrite
    ensures Run(s, [Consume(name), Consume(name)]) == BuffersDrained(s) && BuffersDrained(s).pc == DrainExtras
  {
    MovedByStep(s, name);
    MovedByStep(WriteMoved(s), name);
    RunTwo(s, Consume(name));
  }
}
