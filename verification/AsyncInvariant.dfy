// What every step of the AsyncLogger protocol keeps.
module AsyncInvariant {
  import opened Basics
  import opened LogFiles
  import opened AsyncProtocol

  // Control: which flag and which buffer each point of the consumer relies on.
  ghost predicate Shape(s: State) {
    && (!s.draining ==> s.log.Some? && s.write.Some?)
    && (s.isWriting <==> s.pc in {FlushWrite, FlushReset, FlushUnmark})
    && (s.pc in {FlushMark, FlushWrite, FlushReset} ==> Contents(s.write) != [])
    && (s.pc == FlushUnmark ==> Contents(s.write) == [])
    && (s.pc == FlushReset ==> EndsWith(s.written, Contents(s.write)))
    && (s.pc == FlushPop ==> s.queue != [])
    && (s.pc in {Test, Region, Waiting, Exited, DrainWrite, DrainLog, DrainExtras, Stopped} ==> s.queue == [])
    && (s.pc in {Test, Region, Waiting, Exited} ==> !s.draining)
    && (s.pc in {DrainWrite, DrainLog, DrainExtras, Stopped} ==> s.draining)
  }

  predicate EndsWith(b: Block, end: Block) {
    |end| <= |b| && b[|b| - |end|..] == end
  }

  predicate Fits(b: Block) {
    |Text(b)| <= CAPACITY
  }

  ghost predicate AllFit(s: State) {
    && Fits(Contents(s.log)) && Fits(Contents(s.write))
    && (forall b :: b in s.extras ==> Fits(b))
    && (forall b :: b in s.queue ==> Fits(b))
  }

  // The files hold the messages written, each file under its one header.
  ghost predicate Filed(s: State) {
    Holds(s.files, s.ledger) && Flatten(Messages(s.ledger)) == Text(s.written)
  }

  // Everything but the log buffer, in the order in which it will reach the files.
  function Settled(s: State): Block {
    Ahead(s) + Behind(s)
  }

  // The log buffer is the newest part of what was accepted; the rest is settled,
  // each message exactly once, in the order of acceptance unless a buffer has
  // overtaken another.
  ghost predicate Balanced(settled: Block, log: Block, accepted: Block, overtook: bool, draining: bool) {
    && (forall i :: 0 <= i < |accepted| ==> accepted[i].id == i)
    && EndsWith(accepted, log)
    && var older := accepted[..|accepted| - |log|];
    && multiset(settled) == multiset(older)
    && (!overtook ==> settled == older)
    && (overtook && !draining ==> Inverted(settled))
  }

  ghost predicate Accounted(s: State) {
    Balanced(Settled(s), Contents(s.log), s.accepted, s.overtook, s.draining)
  }

  // Without the extra queue nothing is ever overtaken.
  ghost predicate Unspilled(s: State) {
    !s.spilled ==>
      && !s.overtook
      && (!s.draining || s.pc == DrainWrite ==> s.extras == [] && s.queue == [])
      && (s.draining && Behind(s) != [] ==> s.log.None? || s.write.None?)
      && (s.draining && QueueFirst(s.pc) && InQueue(s) != [] ==> s.log.None? || s.write.None?)
  }

  // How far stop() has emptied the buffers, when no append comes so late.
  ghost predicate Draining(s: State) {
    s.draining && !s.late ==>
      && (s.pc != DrainWrite ==> Contents(s.write) == [])
      && (s.pc !in {DrainWrite, DrainLog} ==> Contents(s.log) == [])
      && (s.pc !in {DrainWrite, DrainLog, DrainExtras} ==> s.extras == [])
  }

  ghost predicate Inv(s: State) {
    Shape(s) && AllFit(s) && Filed(s) && Accounted(s) && Unspilled(s) && Draining(s)
  }

  // ---- The ways in which messages move ----

  lemma {:induction false} TextConcat(a: Block, b: Block)
    ensures Text(a + b) == Text(a) + Text(b)
  {
    if a == [] {
      assert a + b == b;
    } else {
      assert (a + b)[1..] == a[1..] + b;
      TextConcat(a[1..], b);
    }
  }

  lemma OlderIds(settled: Block, log: Block, accepted: Block, overtook: bool, draining: bool)
    requires Balanced(settled, log, accepted, overtook, draining)
    ensures forall e :: e in settled ==> e.id < |accepted| - |log|
    ensures forall e :: e in log ==> e.id >= |accepted| - |log|
  {
    var older := accepted[..|accepted| - |log|];
    forall e | e in settled ensures e.id < |accepted| - |log| {
      assert e in multiset(settled);
      assert e in older;
    }
    forall e | e in log ensures e.id >= |accepted| - |log| {
      var i :| 0 <= i < |log| && log[i] == e;
      assert log[i] == accepted[|accepted| - |log| + i];
    }
  }

  lemma InvertedInsert(a: Block, b: Block, mid: Block)
    requires Inverted(a + b)
    ensures Inverted(a + mid + b)
  {
    var s, t := a + b, a + mid + b;
    var p, q :| 0 <= p < q < |s| && s[p].id > s[q].id;
    var p' := if p < |a| then p else p + |mid|;
    var q' := if q < |a| then q else q + |mid|;
    assert t[p'] == s[p] && t[q'] == s[q];
  }

  lemma Overtaking(a: Block, b: Block, log: Block, accepted: Block, draining: bool)
    requires Balanced(a + b, log, accepted, false, draining) && log != [] && b != []
    ensures Inverted(a + log + b)
  {
    OlderIds(a + b, log, accepted, false, draining);
    var t := a + log + b;
    assert t[|a|] == log[0] && log[0] in log;
    assert t[|a| + |log|] == b[0] && b[0] in a + b;
  }

  lemma MoveMultiset(a: Block, b: Block, log: Block, accepted: Block)
    requires EndsWith(accepted, log) && multiset(a + b) == multiset(accepted[..|accepted| - |log|])
    ensures multiset(a + log + b) == multiset(accepted)
  {
    assert accepted == accepted[..|accepted| - |log|] + log;
    assert multiset(a + log + b) == multiset(a + b) + multiset(log);
  }

  // The log buffer moves in front of everything in `b`.
  lemma MoveLog(a: Block, b: Block, log: Block, accepted: Block, overtook: bool, draining: bool)
    requires Balanced(a + b, log, accepted, overtook, draining)
    ensures Balanced(a + log + b, [], accepted, overtook || (log != [] && b != []), draining)
  {
    MoveMultiset(a, b, log, accepted);
    assert accepted[..|accepted|] == accepted;
    if overtook {
      if !draining {
        InvertedInsert(a, b, log);
      }
    } else if log != [] && b != [] {
      Overtaking(a, b, log, accepted, draining);
    } else {
      assert accepted == accepted[..|accepted| - |log|] + log;
      assert a + log + b == a + b + log;
    }
  }

  // The log buffer and the accepted messages grow by the same message.
  lemma Grow(settled: Block, log: Block, accepted: Block, overtook: bool, draining: bool, data: string)
    requires Balanced(settled, log, accepted, overtook, draining)
    ensures
      var log' := Copied(log, data, |accepted|);
      Balanced(settled, log', accepted + log'[|log|..], overtook, draining)
  {
    var log' := Copied(log, data, |accepted|);
    var accepted' := accepted + log'[|log|..];
    assert accepted'[..|accepted'| - |log'|] == accepted[..|accepted| - |log|];
    assert accepted'[|accepted'| - |log'|..] == log';
  }

  lemma SameAccounts(s: State, t: State)
    requires Accounted(s) && Settled(t) == Settled(s) && Contents(t.log) == Contents(s.log)
    requires t.accepted == s.accepted && t.overtook == s.overtook && (s.draining ==> t.draining)
    ensures Accounted(t)
  {
  }

  // ---- append ----

  lemma CopiedFits(b: Block, data: string, id: nat)
    requires Fits(b)
    ensures Fits(Copied(b, data, id))
  {
    TextConcat(b, [Entry(id, CString(data))]);
    assert [Entry(id, CString(data))][1..] == [];
  }

  lemma PutAccounts(s: State, data: string)
    requires Accounted(s)
    ensures Accounted(Put(s, data))
  {
    Grow(Settled(s), Contents(s.log), s.accepted, s.overtook, s.draining, data);
    assert Settled(Put(s, data)) == Settled(s);
  }

  lemma PutFits(s: State, data: string)
    requires AllFit(s)
    ensures AllFit(Put(s, data))
  {
    CopiedFits(Contents(s.log), data, |s.accepted|);
  }

  lemma PutControl(s: State, data: string)
    requires Shape(s) && Unspilled(s) && s.log.Some? && (s.draining ==> s.late)
    ensures Shape(Put(s, data)) && Unspilled(Put(s, data)) && Draining(Put(s, data))
  {
    assert Behind(Put(s, data)) == Behind(s) && InQueue(Put(s, data)) == InQueue(s);
  }

  lemma PutKeeps(s: State, data: string)
    requires Inv(s) && s.log.Some? && (s.draining ==> s.late)
    ensures Inv(Put(s, data))
  {
    PutAccounts(s, data);
    PutFits(s, data);
    PutControl(s, data);
    assert Filed(Put(s, data));
  }

  lemma SwapSettled(s: State)
    requires Contents(s.write) == [] && s.pc != FlushReset
    ensures Settled(Swapped(s)) == Ahead(s) + Contents(s.log) + Behind(s)
  {
    assert Ahead(Swapped(s)) == Ahead(s) + Contents(s.log);
  }

  lemma SwapAccounts(s: State)
    requires Accounted(s) && Contents(s.write) == [] && s.pc != FlushReset
    ensures Accounted(Swapped(s))
  {
    SwapSettled(s);
    MoveLog(Ahead(s), Behind(s), Contents(s.log), s.accepted, s.overtook, s.draining);
  }

  lemma SwapShape(s: State)
    requires Shape(s) && AllFit(s) && Filed(s) && s.log.Some? && s.write.Some?
    requires !s.isWriting && Contents(s.write) == []
    ensures Shape(Swapped(s)) && AllFit(Swapped(s)) && Filed(Swapped(s))
  {
  }

  lemma SwapUnspilled(s: State)
    requires Shape(s) && Unspilled(s) && s.log.Some? && s.write.Some?
    requires Contents(s.write) == []
    ensures Unspilled(Swapped(s))
  {
    assert Behind(Swapped(s)) == Behind(s) && InQueue(Swapped(s)) == InQueue(s);
  }

  lemma SwapKeeps(s: State)
    requires Inv(s) && s.log.Some? && s.write.Some? && (s.draining ==> s.late)
    requires !s.isWriting && Contents(s.write) == []
    ensures Inv(Swapped(s))
  {
    SwapAccounts(s);
    SwapShape(s);
    SwapUnspilled(s);
    assert Draining(Swapped(s));
  }

  lemma SpillSettled(s: State)
    ensures Settled(Spilled(s)) == Settled(s) + Contents(s.log)
  {
    FlattenSnoc(s.extras, Contents(s.log));
    assert Behind(Spilled(s)) == Behind(s) + Contents(s.log);
  }

  lemma Unmoved(b: Block, log: Block)
    ensures b + [] == b && b + log + [] == b + log
  {
  }

  lemma SpillAccounts(s: State)
    requires Accounted(s)
    ensures Accounted(Spilled(s))
  {
    SpillSettled(s);
    Unmoved(Settled(s), Contents(s.log));
    MoveLog(Settled(s), [], Contents(s.log), s.accepted, s.overtook, s.draining);
  }

  lemma SpillShape(s: State)
    requires Shape(s) && AllFit(s) && Filed(s) && s.log.Some?
    ensures Shape(Spilled(s)) && AllFit(Spilled(s)) && Filed(Spilled(s))
  {
    assert Text([]) == "";
  }

  lemma SpillKeeps(s: State)
    requires Inv(s) && s.log.Some? && (s.draining ==> s.late)
    ensures Inv(Spilled(s))
  {
    SpillAccounts(s);
    SpillShape(s);
    assert Unspilled(Spilled(s)) && Draining(Spilled(s));
  }

  // Fields that no buffer, flag or file depends on.
  predicate SameButPending(s: State, t: State) {
    t == s.(pending := t.pending, running := t.running, late := t.late) && (s.late ==> t.late)
  }

  lemma SameControl(s: State, t: State)
    requires Shape(s) && Draining(s) && SameButPending(s, t)
    ensures Shape(t) && Draining(t)
  {
  }

  lemma SameLayout(s: State, t: State)
    requires SameButPending(s, t)
    ensures Settled(t) == Settled(s) && Behind(t) == Behind(s) && InQueue(t) == InQueue(s)
  {
  }

  lemma PendingKeeps(s: State, t: State)
    requires Inv(s) && SameButPending(s, t)
    ensures Inv(t)
  {
    SameControl(s, t);
    SameLayout(s, t);
    SameAccounts(s, t);
  }

  // What an append needs of the state once it holds the mutex.
  ghost predicate MayStore(e: State, data: string) {
    && Inv(e) && e.log.Some? && (e.draining ==> e.late)
    && (Remain(Contents(e.log)) <= |data| && !e.isWriting ==> e.write.Some?)
  }

  lemma RoomKeeps(s: State, data: string)
    requires MayStore(s, data)
    ensures Inv(WithRoom(s, data)) && WithRoom(s, data).log.Some? && (s.draining ==> s.late)
    ensures WithRoom(s, data).draining == s.draining && WithRoom(s, data).late == s.late
  {
    if Remain(Contents(s.log)) <= |data| {
      if !s.isWriting && Contents(s.write) == [] {
        SwapKeeps(s);
        assert WithRoom(s, data) == Swapped(s);
      } else if |s.extras| < MAX_EXTRAS {
        SpillKeeps(s);
        assert WithRoom(s, data) == Spilled(s);
      }
    }
  }

  lemma EnterKeeps(s: State, data: string)
    requires Inv(s) && Enabled(s, Append(data))
    ensures MayStore(Entering(s, data), data)
  {
    PendingKeeps(s, Entering(s, data));
  }

  lemma StoreKeeps(e: State, data: string)
    requires MayStore(e, data)
    ensures Inv(Put(WithRoom(e, data), data))
  {
    RoomKeeps(e, data);
    PutKeeps(WithRoom(e, data), data);
  }

  lemma AppendKeeps(s: State, data: string)
    requires Inv(s) && Enabled(s, Append(data))
    ensures Inv(AppendLocked(s, data))
  {
    EnterKeeps(s, data);
    StoreKeeps(Entering(s, data), data);
  }

  // ---- the consumer ----

  lemma RecordingFiles(s: State, b: Block, target: string)
    requires Filed(s) && Fits(b) && SafeToRecord(s.files, target)
    ensures Filed(Recording(s, b, target))
  {
    RecordedHolds(s.files, s.ledger, Text(b), target);
    EnteredMessages(s.files, s.ledger, Text(b), target);
    FlattenSnoc(Messages(s.ledger), Text(b));
    TextConcat(s.written, b);
  }

  lemma Regroup(a: Block, b: Block, c: Block)
    ensures (a + []) + (b + c) == (a + b + []) + c
    ensures [] + c == c
    ensures (a + []) + c == a + c
    ensures (a + b) + c == a + (b + c)
  {
  }

  // The write buffer is empty when flush() turns to the queue.
  lemma TurnSettled(s: State, t: State)
    requires s.pc in {FlushTest, FlushReset, FlushUnmark} && t.pc in {FlushUnmark, FlushLoop}
    requires InWrite(s) == [] && InWrite(t) == []
    requires t.written == s.written && t.queue == s.queue && t.extras == s.extras
    ensures Settled(t) == Settled(s)
  {
    Regroup(s.written, InQueue(s), Flatten(s.extras));
  }

  lemma TestKeeps(s: State, t: State)
    requires Inv(s) && s.pc == Test && t.pc in {Region, Exited} && t == s.(pc := t.pc)
    ensures Inv(t)
  {
    SameAccounts(s, t);
  }

  lemma WaitKeeps(s: State)
    requires Inv(s) && s.pc == Region
    ensures Inv(s.(pc := Waiting))
  {
    SameAccounts(s, s.(pc := Waiting));
  }

  lemma ExitKeeps(s: State)
    requires Inv(s) && s.pc == Exited
    ensures Inv(s.(draining := true, pc := DrainWrite))
  {
    SameAccounts(s, s.(draining := true, pc := DrainWrite));
  }

  lemma SkipUnspilled(s: State)
    requires Shape(s) && Unspilled(s) && s.pc == FlushTest && Contents(s.write) == []
    ensures Unspilled(s.(pc := FlushLoop))
  {
    assert InQueue(s.(pc := FlushLoop)) == InQueue(s);
  }

  lemma SkipKeeps(s: State)
    requires Inv(s) && s.pc == FlushTest && Contents(s.write) == []
    ensures Inv(s.(pc := FlushLoop))
  {
    var t := s.(pc := FlushLoop);
    TurnSettled(s, t);
    SameAccounts(s, t);
    SkipUnspilled(s);
    assert Shape(t) && AllFit(t) && Filed(t) && Draining(t);
  }

  lemma SeenKeeps(s: State)
    requires Inv(s) && s.pc == FlushTest && Contents(s.write) != []
    ensures Inv(s.(pc := FlushMark))
  {
    SameAccounts(s, s.(pc := FlushMark));
  }

  lemma MarkKeeps(s: State)
    requires Inv(s) && s.pc == FlushMark
    ensures Inv(s.(isWriting := true, pc := FlushWrite))
  {
    SameAccounts(s, s.(isWriting := true, pc := FlushWrite));
  }

  lemma UnmarkKeeps(s: State)
    requires Inv(s) && s.pc == FlushUnmark
    ensures Inv(s.(isWriting := false, pc := FlushLoop))
  {
    TurnSettled(s, s.(isWriting := false, pc := FlushLoop));
    SameAccounts(s, s.(isWriting := false, pc := FlushLoop));
  }

  lemma WriteKeeps(s: State, target: string)
    requires Inv(s) && s.pc == FlushWrite && SafeToRecord(s.files, target)
    ensures Inv(Recording(s, Contents(s.write), target).(pc := FlushReset))
  {
    var t := Recording(s, Contents(s.write), target).(pc := FlushReset);
    RecordingFiles(s, Contents(s.write), target);
    assert Ahead(t) == Ahead(s);
    SameAccounts(s, t);
  }

  lemma ResetKeeps(s: State)
    requires Inv(s) && s.pc == FlushReset
    ensures Inv(s.(write := Some([]), pc := FlushUnmark))
  {
    TurnSettled(s, s.(write := Some([]), pc := FlushUnmark));
    SameAccounts(s, s.(write := Some([]), pc := FlushUnmark));
  }

  // The head of the queue moves to the files.
  lemma HeadSettled(s: State, t: State)
    requires s.pc == FlushLoop && s.queue != [] && t.pc == FlushPop
    requires t.written == s.written + s.queue[0]
    requires t.queue == s.queue && t.extras == s.extras && t.write == s.write
    ensures Settled(t) == Settled(s)
  {
    Regroup(s.written, s.queue[0], Flatten(s.queue[1..]));
    assert Ahead(t) == Ahead(s);
  }

  lemma QueueKeeps(s: State, target: string)
    requires Inv(s) && s.pc == FlushLoop && s.queue != [] && SafeToRecord(s.files, target)
    ensures Inv(Recording(s, s.queue[0], target).(pc := FlushPop))
  {
    var t := Recording(s, s.queue[0], target).(pc := FlushPop);
    RecordingFiles(s, s.queue[0], target);
    HeadSettled(s, t);
    SameAccounts(s, t);
  }

  lemma FlushedSettled(s: State, t: State)
    requires s.pc == FlushLoop && s.queue == [] && t.pc in {Test, Stopped}
    requires t.written == s.written && t.write == s.write && t.queue == [] && t.extras == s.extras
    ensures Settled(t) == Settled(s)
  {
    Regroup(s.written, InWrite(s), Flatten(s.extras));
    assert InQueue(s) == [];
    assert Ahead(t) == Ahead(s);
  }

  lemma LoopKeeps(s: State)
    requires Inv(s) && s.pc == FlushLoop && s.queue == [] && !s.draining
    ensures Inv(s.(pc := Test))
  {
    FlushedSettled(s, s.(pc := Test));
    SameAccounts(s, s.(pc := Test));
  }

  lemma FinishKeeps(s: State)
    requires Inv(s) && s.pc == FlushLoop && s.queue == [] && s.draining
    ensures Inv(s.(pc := Stopped))
  {
    FlushedSettled(s, s.(pc := Stopped));
    SameAccounts(s, s.(pc := Stopped));
  }

  lemma PopKeeps(s: State)
    requires Inv(s) && s.pc == FlushPop
    ensures Inv(s.(queue := s.queue[1..], pc := FlushLoop))
  {
    SameAccounts(s, s.(queue := s.queue[1..], pc := FlushLoop));
  }

  // Emptying the extra queue into the local one.
  lemma RequeueSettled(s: State, t: State)
    requires s.queue == [] && s.pc in {Region, Waiting, DrainExtras} && t.pc == FlushTest
    requires t.queue == s.extras && t.extras == []
    requires t.written == s.written && t.write == s.write
    ensures Settled(t) == Settled(s)
  {
    assert Behind(t) == Behind(s);
  }

  lemma RequeueKeeps(s: State)
    requires Inv(s) && s.pc in {Region, Waiting, DrainExtras}
    ensures Inv(s.(queue := s.extras, extras := [], pc := FlushTest))
  {
    RequeueSettled(s, s.(queue := s.extras, extras := [], pc := FlushTest));
    SameAccounts(s, s.(queue := s.extras, extras := [], pc := FlushTest));
  }

  lemma TakenKeeps(s: State)
    requires Inv(s) && s.pc in {Region, Waiting}
    ensures Inv(Taken(s))
  {
    if Contents(s.write) == [] {
      SwapKeeps(s);
      RequeueKeeps(Swapped(s));
    } else {
      RequeueKeeps(s);
    }
  }

  lemma DrainNoLogKeeps(s: State)
    requires Inv(s) && s.pc == DrainLog && Contents(s.log) == []
    ensures Inv(s.(pc := DrainExtras))
  {
    SameAccounts(s, s.(pc := DrainExtras));
  }

  lemma DrainLogAccounts(s: State, t: State)
    requires Accounted(s) && s.pc == DrainLog
    requires t == s.(extras := s.extras + [Contents(s.log)], log := None, pc := DrainExtras)
    ensures Accounted(t)
  {
    SpillAccounts(s);
    assert Settled(t) == Settled(Spilled(s));
    SameAccounts(Spilled(s), t);
  }

  lemma DrainLogKeeps(s: State)
    requires Inv(s) && s.pc == DrainLog
    ensures Inv(s.(extras := s.extras + [Contents(s.log)], log := None, pc := DrainExtras))
  {
    DrainLogAccounts(s, s.(extras := s.extras + [Contents(s.log)], log := None, pc := DrainExtras));
  }

  // stop() queues the write buffer behind the extra buffers.
  lemma DrainWriteSettled(s: State, t: State)
    requires s.queue == [] && s.pc == DrainWrite && t.pc == DrainLog && t.queue == []
    requires t.extras == s.extras + [Contents(s.write)] && t.write == None && t.written == s.written
    ensures Settled(s) == s.written + Contents(s.write) + Flatten(s.extras)
    ensures Settled(t) == s.written + Flatten(s.extras) + Contents(s.write)
  {
    FlattenSnoc(s.extras, Contents(s.write));
    Regroup(s.written, Flatten(s.extras), Contents(s.write));
    assert Behind(s) == Flatten(s.extras);
    assert Behind(t) == Flatten(s.extras) + Contents(s.write);
    assert Ahead(t) == s.written;
  }

  lemma Reordered(s: State, t: State)
    requires Accounted(s) && s.draining && t.draining
    requires multiset(Settled(t)) == multiset(Settled(s)) && (!t.overtook ==> !s.overtook && Settled(t) == Settled(s))
    requires t.log == s.log && t.accepted == s.accepted
    ensures Accounted(t)
  {
  }

  lemma MovedSettled(s: State)
    requires s.queue == [] && s.pc == DrainWrite && Contents(s.write) != []
    ensures multiset(Settled(WriteMoved(s))) == multiset(Settled(s))
    ensures !WriteMoved(s).overtook ==> Settled(WriteMoved(s)) == Settled(s)
  {
    DrainWriteSettled(s, WriteMoved(s));
    if !WriteMoved(s).overtook {
      Regroup(s.written, [], Contents(s.write));
    }
  }

  lemma DrainWriteAccounts(s: State)
    requires Accounted(s) && s.draining && s.queue == [] && s.pc == DrainWrite && Contents(s.write) != []
    ensures Accounted(WriteMoved(s))
  {
    MovedSettled(s);
    Reordered(s, WriteMoved(s));
  }

  lemma DrainWriteKeeps(s: State)
    requires Inv(s) && s.pc == DrainWrite && Contents(s.write) != []
    ensures Inv(WriteMoved(s))
  {
    DrainWriteAccounts(s);
  }

  lemma DrainNoWriteKeeps(s: State)
    requires Inv(s) && s.pc == DrainWrite && Contents(s.write) == []
    ensures Inv(s.(pc := DrainLog))
  {
    SameAccounts(s, s.(pc := DrainLog));
  }

  lemma DrainKeeps(s: State, target: string)
    requires Inv(s) && s.pc in {Exited, DrainWrite, DrainLog, DrainExtras}
    ensures Inv(Consumed(s, target))
  {
    if s.pc == Exited {
      ExitKeeps(s);
    } else if s.pc == DrainWrite {
      if Contents(s.write) == [] {
        DrainNoWriteKeeps(s);
      } else {
        DrainWriteKeeps(s);
      }
    } else if s.pc == DrainLog {
      if Contents(s.log) == [] {
        DrainNoLogKeeps(s);
      } else {
        DrainLogKeeps(s);
      }
    } else {
      RequeueKeeps(s);
    }
  }

  lemma WriteBufferKeeps(s: State, target: string)
    requires Inv(s) && Enabled(s, Consume(target)) && s.pc in {FlushTest, FlushMark, FlushWrite, FlushReset, FlushUnmark}
    ensures Inv(Consumed(s, target))
  {
    if s.pc == FlushTest {
      if Contents(s.write) == [] {
        SkipKeeps(s);
      } else {
        SeenKeeps(s);
      }
    } else if s.pc == FlushMark {
      MarkKeeps(s);
    } else if s.pc == FlushWrite {
      WriteKeeps(s, target);
    } else if s.pc == FlushReset {
      ResetKeeps(s);
    } else {
      UnmarkKeeps(s);
    }
  }

  lemma QueueLoopKeeps(s: State, target: string)
    requires Inv(s) && Enabled(s, Consume(target)) && s.pc in {FlushLoop, FlushPop}
    ensures Inv(Consumed(s, target))
  {
    if s.pc == FlushPop {
      PopKeeps(s);
    } else if s.queue != [] {
      QueueKeeps(s, target);
    } else if s.draining {
      FinishKeeps(s);
    } else {
      LoopKeeps(s);
    }
  }

  lemma RegionKeeps(s: State, target: string)
    requires Inv(s) && s.pc in {Test, Region, Waiting}
    ensures Inv(Consumed(s, target))
  {
    if s.pc == Test {
      TestKeeps(s, Consumed(s, target));
    } else if s.pc == Region && s.extras == [] && Contents(s.write) == [] {
      WaitKeeps(s);
    } else {
      TakenKeeps(s);
    }
  }

  lemma ConsumeKeeps(s: State, target: string)
    requires Inv(s) && Enabled(s, Consume(target))
    ensures Inv(Consumed(s, target))
  {
    if s.pc in {Test, Region, Waiting} {
      RegionKeeps(s, target);
    } else if s.pc in {FlushLoop, FlushPop} {
      QueueLoopKeeps(s, target);
    } else if s.pc in {Exited, DrainWrite, DrainLog, DrainExtras} {
      DrainKeeps(s, target);
    } else if s.pc != Stopped {
      WriteBufferKeeps(s, target);
    }
  }

  lemma SubmitKeeps(s: State, data: string)
    requires Inv(s)
    ensures Inv(AppendChecked(s, data))
  {
    if |data| <= CAPACITY && s.running {
      PendingKeeps(s, s.(pending := s.pending + multiset{data}));
    }
  }

  lemma StopKeeps(s: State)
    requires Inv(s)
    ensures Inv(s.(running := false))
  {
    PendingKeeps(s, s.(running := false));
  }

  // The invariant holds in every state a run can reach, whatever the
  // interleaving of appends, of the writer and of stop().
  lemma NextKeeps(s: State, step: Step)
    requires Inv(s) && Enabled(s, step)
    ensures Inv(Next(s, step))
  {
    match step
    case Submit(data) => SubmitKeeps(s, data);
    case Append(data) => AppendKeeps(s, data);
    case Consume(target) => ConsumeKeeps(s, target);
    case Stop => StopKeeps(s);
  }

  lemma StartedInv(files: Log)
    requires Holds(files, Ledger([], [], []))
    ensures Inv(Started(files))
  {
  }

  lemma {:induction false} RunKeeps(s: State, steps: seq<Step>)
    requires Inv(s) && Legal(s, steps)
    ensures Inv(Run(s, steps))
    decreases |steps|
  {
    if steps != [] {
      NextKeeps(s, steps[0]);
      RunKeeps(Next(s, steps[0]), steps[1..]);
    }
  }
}
