// The order of the messages in the files, in every state the protocol can reach.
module AsyncOrder {
  import opened Basics
  import opened LogFiles
  import opened AsyncProtocol
  import opened AsyncInvariant

  // ---- Blocks in the order of acceptance ----

  ghost predicate Ascending(b: Block) {
    forall i, j :: 0 <= i < j < |b| ==> b[i].id < b[j].id
  }

  ghost predicate Numbered(accepted: Block) {
    forall i :: 0 <= i < |accepted| ==> accepted[i].id == i
  }

  lemma OnceEach(accepted: Block, a: multiset<Entry>, b: multiset<Entry>, e: Entry)
    requires Ascending(accepted) && a + b == multiset(accepted) && e in a
    ensures e !in b
  {
    assert (a + b)[e] == a[e] + b[e];
    var i :| 0 <= i < |accepted| && accepted[i] == e;
    assert accepted == accepted[..i] + [e] + accepted[i + 1..];
    assert e !in accepted[..i] && e !in accepted[i + 1..];
    assert multiset(accepted) == multiset(accepted[..i]) + multiset([e]) + multiset(accepted[i + 1..]);
  }

  ghost predicate Before(b: Block, rest: multiset<Entry>) {
    forall e, f :: e in b && f in rest ==> e.id <= f.id
  }

  lemma HeadIsLeast(b: Block, rest: multiset<Entry>, all: Block)
    requires Ascending(b) && Ascending(all) && b != [] && multiset(b) + rest == multiset(all)
    requires Before(b, rest)
    ensures all != [] && all[0] == b[0]
  {
    assert b[0] in multiset(b) + rest;
    assert b[0] in all;
    assert all[0] in multiset(b) + rest by {
      assert all[0] in multiset(all);
    }
    var i :| 0 <= i < |all| && all[i] == b[0];
    assert all[0].id >= b[0].id;
  }

  lemma Cancel(x: multiset<Entry>, a: multiset<Entry>, b: multiset<Entry>)
    requires x + a == x + b
    ensures a == b
  {
    forall e ensures a[e] == b[e] {
      assert (x + a)[e] == (x + b)[e];
    }
  }

  lemma DropHead(b: Block, rest: multiset<Entry>, all: Block)
    requires b != [] && all != [] && all[0] == b[0] && multiset(b) + rest == multiset(all)
    ensures multiset(b[1..]) + rest == multiset(all[1..])
  {
    var e := b[0];
    assert b == [e] + b[1..] && all == [e] + all[1..];
    assert multiset(b) == multiset{e} + multiset(b[1..]);
    assert multiset(all) == multiset{e} + multiset(all[1..]);
    Cancel(multiset{e}, multiset(b[1..]) + rest, multiset(all[1..]));
  }

  // Among messages in ascending order, a block older than everything else comes first.
  lemma {:induction false} OldestFirst(b: Block, rest: multiset<Entry>, all: Block)
    requires Ascending(b) && Ascending(all) && multiset(b) + rest == multiset(all)
    requires Before(b, rest)
    ensures b <= all
    decreases |b|
  {
    if b != [] {
      HeadIsLeast(b, rest, all);
      DropHead(b, rest, all);
      assert forall e :: e in b[1..] ==> e in b;
      OldestFirst(b[1..], rest, all[1..]);
    }
  }

  lemma {:induction false} OlderIff(f: Entry, b: Block)
    ensures OlderThanSome(f, b) <==> exists e :: e in b && f.id < e.id
  {
    if b != [] {
      OlderIff(f, b[1..]);
      assert forall e :: e in b <==> e == b[0] || e in b[1..];
    }
  }

  lemma {:induction false} JumpsIff(b: Block, waiting: Block)
    ensures Jumps(b, waiting) <==> exists f :: f in waiting && f !in b && OlderThanSome(f, b)
  {
    if waiting != [] {
      JumpsIff(b, waiting[1..]);
      assert forall f :: f in waiting <==> f == waiting[0] || f in waiting[1..];
    }
  }

  lemma NotOldest(written: Block, b: Block, waiting: Block, accepted: Block)
    requires Numbered(accepted) && multiset(written) + multiset(waiting) == multiset(accepted)
    requires multiset(b) <= multiset(waiting) && Jumps(b, waiting)
    ensures !(written + b <= accepted)
  {
    JumpsIff(b, waiting);
    var f :| f in waiting && f !in b && OlderThanSome(f, b);
    OlderIff(f, b);
    var e :| e in b && f.id < e.id;
    if written + b <= accepted {
      var i :| 0 <= i < |b| && b[i] == e;
      assert (written + b)[|written| + i] == accepted[|written| + i] == e;
      assert f in multiset(waiting) && f in multiset(accepted);
      var k :| 0 <= k < |accepted| && accepted[k] == f;
      assert (written + b)[k] == f && f in written + b && f in written;
      OnceEach(accepted, multiset(written), multiset(waiting), f);
      assert false;
    }
  }

  lemma NoneOlder(b: Block, rest: multiset<Entry>, waiting: Block, all: Block)
    requires Ascending(all) && multiset(b) + rest == multiset(waiting) == multiset(all) && !Jumps(b, waiting)
    ensures Before(b, rest)
  {
    JumpsIff(b, waiting);
    forall e, f | e in b && f in rest ensures e.id <= f.id {
      assert f in multiset(b) + rest;
      if f in b {
        OnceEach(all, multiset(b), rest, f);
      }
      OlderIff(f, b);
    }
  }

  lemma RestOfAccepted(written: Block, waiting: Block, accepted: Block)
    requires multiset(written) + multiset(waiting) == multiset(accepted) && written <= accepted
    ensures multiset(waiting) == multiset(accepted[|written|..])
  {
    var all := accepted[|written|..];
    assert accepted == written + all;
    Cancel(multiset(written), multiset(waiting), multiset(all));
  }

  lemma OldestOf(b: Block, waiting: Block, all: Block)
    requires Ascending(all) && Ascending(b) && multiset(waiting) == multiset(all)
    requires multiset(b) <= multiset(waiting) && !Jumps(b, waiting)
    ensures b <= all
  {
    var rest := multiset(waiting) - multiset(b);
    assert multiset(b) + rest == multiset(waiting);
    NoneOlder(b, rest, waiting, all);
    OldestFirst(b, rest, all);
  }

  lemma PrefixAfter(written: Block, b: Block, all: Block)
    requires b <= all
    ensures written + b <= written + all
  {
  }

  lemma Oldest(written: Block, b: Block, waiting: Block, accepted: Block)
    requires Numbered(accepted) && multiset(written) + multiset(waiting) == multiset(accepted)
    requires multiset(b) <= multiset(waiting) && Ascending(b) && !Jumps(b, waiting) && written <= accepted
    ensures written + b <= accepted
  {
    RestOfAccepted(written, waiting, accepted);
    var all := accepted[|written|..];
    OldestOf(b, waiting, all);
    PrefixAfter(written, b, all);
    assert accepted == written + all;
  }

  // One more block in the files.
  lemma RecordOrder(written: Block, b: Block, waiting: Block, accepted: Block)
    requires Numbered(accepted) && multiset(written) + multiset(waiting) == multiset(accepted)
    requires multiset(b) <= multiset(waiting) && Ascending(b)
    ensures written + b <= accepted <==> written <= accepted && !Jumps(b, waiting)
  {
    if Jumps(b, waiting) {
      NotOldest(written, b, waiting, accepted);
    } else if written <= accepted {
      Oldest(written, b, waiting, accepted);
    } else {
      assert written <= written + b;
    }
  }

  // ---- The invariant ----

  // Every buffer keeps its messages in order.
  ghost predicate Sorted(s: State) {
    && Ascending(Contents(s.write))
    && (forall b :: b in s.extras ==> Ascending(b))
    && (forall b :: b in s.queue ==> Ascending(b))
  }

  // The files are in order exactly as long as no message jumped.
  ghost predicate Ordered(s: State) {
    s.written <= s.accepted <==> !s.jumped
  }

  ghost predicate OrderInv(s: State) {
    Inv(s) && Sorted(s) && Ordered(s)
  }

  lemma LogAscends(s: State)
    requires Accounted(s)
    ensures Ascending(Contents(s.log))
  {
    var log := Contents(s.log);
    assert forall i :: 0 <= i < |log| ==> log[i] == s.accepted[|s.accepted| - |log| + i];
  }

  lemma AllAccounted(s: State)
    requires Accounted(s)
    ensures multiset(s.written) + multiset(Unwritten(s)) == multiset(s.accepted) && Numbered(s.accepted)
    ensures |s.written| <= |s.accepted|
  {
    var log := Contents(s.log);
    assert s.accepted == s.accepted[..|s.accepted| - |log|] + log;
    assert multiset(Settled(s)) == multiset(s.written) + multiset(InWrite(s)) + multiset(InQueue(s)) + multiset(Flatten(s.extras));
    assert |multiset(s.written)| <= |multiset(s.accepted)|;
  }

  // ---- append ----

  // The fields the order of the files depends on.
  predicate SameFiles(s: State, t: State) {
    t.written == s.written && t.accepted == s.accepted && t.jumped == s.jumped
  }

  lemma SwapSorted(s: State)
    requires Sorted(s) && Ascending(Contents(s.log))
    ensures Sorted(Swapped(s)) && SameFiles(s, Swapped(s)) && Swapped(s).pc == s.pc
    ensures Swapped(s).extras == s.extras && Swapped(s).queue == s.queue
  {
  }

  lemma SpillSorted(s: State)
    requires Sorted(s) && Ascending(Contents(s.log))
    ensures Sorted(Spilled(s)) && SameFiles(s, Spilled(s))
  {
  }

  lemma RoomSorted(s: State, data: string)
    requires Sorted(s) && Accounted(s)
    ensures Sorted(WithRoom(s, data)) && SameFiles(s, WithRoom(s, data))
  {
    LogAscends(s);
    if Remain(Contents(s.log)) <= |data| {
      if !s.isWriting && Contents(s.write) == [] {
        SwapSorted(s);
      } else if |s.extras| < MAX_EXTRAS {
        SpillSorted(s);
      }
    }
  }

  lemma PutSorted(s: State, data: string)
    requires Sorted(s)
    ensures Sorted(Put(s, data)) && Put(s, data).written == s.written && Put(s, data).jumped == s.jumped
    ensures s.accepted <= Put(s, data).accepted
  {
  }

  lemma AppendSorted(s: State, data: string)
    requires Sorted(s) && Accounted(Entering(s, data))
    ensures
      var t := AppendLocked(s, data);
      Sorted(t) && t.written == s.written && t.jumped == s.jumped && s.accepted <= t.accepted
  {
    var e := Entering(s, data);
    assert Sorted(e) && SameFiles(s, e);
    RoomSorted(e, data);
    PutSorted(WithRoom(e, data), data);
  }

  lemma StillPrefix(written: Block, accepted: Block, more: Block)
    requires |written| <= |accepted| && accepted <= more
    ensures written <= accepted <==> written <= more
  {
  }

  lemma AppendOrder(s: State, data: string)
    requires OrderInv(s) && Enabled(s, Append(data))
    ensures OrderInv(AppendLocked(s, data))
  {
    AppendKeeps(s, data);
    EnterKeeps(s, data);
    AppendSorted(s, data);
    AllAccounted(s);
    StillPrefix(s.written, s.accepted, AppendLocked(s, data).accepted);
  }

  // ---- the consumer ----

  lemma WriteOrder(s: State, target: string)
    requires OrderInv(s) && s.pc == FlushWrite
    ensures Sorted(Consumed(s, target)) && Ordered(Consumed(s, target))
  {
    AllAccounted(s);
    assert multiset(Contents(s.write)) <= multiset(Unwritten(s));
    RecordOrder(s.written, Contents(s.write), Unwritten(s), s.accepted);
    assert Consumed(s, target) == Recording(s, Contents(s.write), target).(pc := FlushReset);
  }

  lemma QueueOrder(s: State, target: string)
    requires OrderInv(s) && s.pc == FlushLoop && s.queue != []
    ensures Sorted(Consumed(s, target)) && Ordered(Consumed(s, target))
  {
    AllAccounted(s);
    FlattenHead(s.queue);
    assert InQueue(s) == s.queue[0] + Flatten(s.queue[1..]);
    assert multiset(s.queue[0]) <= multiset(Unwritten(s));
    assert s.queue[0] in s.queue;
    RecordOrder(s.written, s.queue[0], Unwritten(s), s.accepted);
    assert Consumed(s, target) == Recording(s, s.queue[0], target).(pc := FlushPop);
  }

  lemma TakenOrder(s: State)
    requires Sorted(s) && Ascending(Contents(s.log))
    ensures Sorted(Taken(s)) && SameFiles(s, Taken(s))
  {
    if Contents(s.write) == [] {
      SwapSorted(s);
    }
  }

  lemma DrainWriteOrder(s: State)
    requires Sorted(s) && Contents(s.write) != []
    ensures Sorted(WriteMoved(s)) && SameFiles(s, WriteMoved(s))
  {
    var t := WriteMoved(s);
    assert t.extras == s.extras + [Contents(s.write)] && t.queue == s.queue && Contents(t.write) == [];
  }

  lemma DrainLogOrder(s: State)
    requires Sorted(s) && Ascending(Contents(s.log))
    ensures
      var t := s.(extras := s.extras + [Contents(s.log)], log := None, pc := DrainExtras);
      Sorted(t) && SameFiles(s, t)
  {
  }

  lemma DrainOrder(s: State, target: string)
    requires Usable(s.files) && s.files.isOpen
    requires Sorted(s) && Ascending(Contents(s.log)) && s.pc in {Exited, DrainWrite, DrainLog, DrainExtras}
    ensures Sorted(Consumed(s, target)) && SameFiles(s, Consumed(s, target))
  {
    if s.pc == DrainWrite && Contents(s.write) != [] {
      DrainWriteOrder(s);
    } else if s.pc == DrainLog && Contents(s.log) != [] {
      DrainLogOrder(s);
    } else {
      DrainNothingOrder(s, target);
    }
  }

  lemma DrainNothingOrder(s: State, target: string)
    requires Usable(s.files) && s.files.isOpen && Sorted(s)
    requires s.pc in {Exited, DrainExtras} || (s.pc == DrainWrite && Contents(s.write) == []) || (s.pc == DrainLog && Contents(s.log) == [])
    ensures Sorted(Consumed(s, target)) && SameFiles(s, Consumed(s, target))
  {
    if s.pc == DrainExtras {
      assert Consumed(s, target) == s.(queue := s.extras, extras := [], pc := FlushTest);
    }
  }

  lemma PopOrder(s: State)
    requires Sorted(s) && s.queue != []
    ensures Sorted(s.(queue := s.queue[1..], pc := FlushLoop))
  {
  }

  // The other accesses touch no buffer, or empty one.
  lemma IdleOrder(s: State, target: string)
    requires Usable(s.files) && s.files.isOpen && Sorted(s)
    requires s.pc in {Test, FlushTest, FlushMark, FlushReset, FlushUnmark, Stopped} || (s.pc == FlushLoop && s.queue == [])
    ensures Sorted(Consumed(s, target)) && SameFiles(s, Consumed(s, target))
  {
  }

  lemma ConsumeOrder(s: State, target: string)
    requires OrderInv(s) && Enabled(s, Consume(target))
    ensures OrderInv(Consumed(s, target))
  {
    ConsumeKeeps(s, target);
    if s.pc == FlushWrite {
      WriteOrder(s, target);
    } else if s.pc == FlushLoop && s.queue != [] {
      QueueOrder(s, target);
    } else {
      LogAscends(s);
      UnwrittenOrder(s, target);
    }
  }

  lemma UnwrittenOrder(s: State, target: string)
    requires Usable(s.files) && s.files.isOpen
    requires Sorted(s) && Ascending(Contents(s.log)) && s.pc != FlushWrite && (s.pc == FlushLoop ==> s.queue == [])
    ensures Sorted(Consumed(s, target)) && SameFiles(s, Consumed(s, target))
  {
    if s.pc in {Region, Waiting} {
      if s.pc == Waiting || s.extras != [] || Contents(s.write) != [] {
        TakenOrder(s);
      }
    } else if s.pc in {Exited, DrainWrite, DrainLog, DrainExtras} {
      DrainOrder(s, target);
    } else if s.pc == FlushPop {
      if s.queue != [] {
        PopOrder(s);
      }
    } else {
      IdleOrder(s, target);
    }
  }

  lemma SubmitOrder(s: State, data: string)
    requires OrderInv(s)
    ensures OrderInv(AppendChecked(s, data))
  {
    SubmitKeeps(s, data);
  }

  lemma StopOrder(s: State)
    requires OrderInv(s)
    ensures OrderInv(s.(running := false))
  {
    StopKeeps(s);
  }

  lemma NextOrder(s: State, step: Step)
    requires OrderInv(s) && Enabled(s, step)
    ensures OrderInv(Next(s, step))
  {
    match step
    case Submit(data) => SubmitOrder(s, data);
    case Append(data) => AppendOrder(s, data);
    case Consume(target) => ConsumeOrder(s, target);
    case Stop => StopOrder(s);
  }

  lemma {:induction false} RunOrder(s: State, steps: seq<Step>)
    requires OrderInv(s) && Legal(s, steps)
    ensures OrderInv(Run(s, steps))
    decreases |steps|
  {
    if steps != [] {
      NextOrder(s, steps[0]);
      RunOrder(Next(s, steps[0]), steps[1..]);
    }
  }
}
