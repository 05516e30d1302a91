// net/poller/EpollPoller.cpp: one vector whose front the kernel writes the ready
// events into and whose back lists the registered events, beside the interest
// list inside the kernel.
module EpollPollers {
  import opened Basics
  import opened Events

  const SCRATCH := 16  // kInitEventListSize

  datatype Slot = Slot(fd: int, events: Mask)

  datatype Ctl = ADD | MOD | DEL

  // epoll_ctl(2); a request that does not fit fails and changes nothing.
  function Controlled(kernel: Registry, ctl: Ctl, fd: int, m: Mask): Registry {
    match ctl
    case ADD => if fd in kernel then kernel else kernel[fd := m]
    case MOD => if fd in kernel then kernel[fd := m] else kernel
    case DEL => kernel - {fd}
  }

  class EpollPoller {
    var slots: seq<Slot>          // epollEvents_
    var events: map<int, Event>
    var kernel: Registry          // the interest list of epollFd_
    ghost var live: set<Event>    // all events of the loop, registered or not

    ghost function Registered(): set<Event>
      reads this
    {
      set fd | fd in events :: events[fd]
    }

    // Behind the scratch area, slot i belongs to the event that says it is at i,
    // and every event in the map has a slot and is in the kernel's list.
    ghost predicate Shape()
      reads this, Registered()`index
    {
      && SCRATCH <= |slots|
      && (forall i :: SCRATCH <= i < |slots| ==> slots[i].fd in events && events[slots[i].fd].index == i)
      && (forall fd :: fd in events ==>
            && events[fd].fd == fd && SCRATCH <= events[fd].index < |slots|
            && slots[events[fd].index].fd == fd)
      && kernel.Keys == events.Keys
    }

    ghost predicate Knows(e: Event)
      reads this, e`index
    {
      && (e.fd in events ==> events[e.fd] == e)
      && (0 <= e.index <==> e.fd in events)
    }

    constructor ()
      ensures Valid() && kernel == map[] && live == {}
    {
      slots := seq(SCRATCH, _ => Slot(0, 0));
      events, kernel, live := map[], map[], {};
    }

    // epollUpdate
    method Control(ctl: Ctl, event: Event)
      modifies this`kernel
      ensures kernel == Controlled(old(kernel), ctl, event.fd, event.listened)
    {
      match ctl {
        case ADD => if event.fd !in kernel { kernel := kernel[event.fd := event.listened]; }
        case MOD => if event.fd in kernel { kernel := kernel[event.fd := event.listened]; }
        case DEL => kernel := kernel - {event.fd};
      }
    }

    method Add(event: Event)
      requires Shape() && Knows(event) && event.index < 0
      modifies this`slots, this`events, this`kernel, event`index
      ensures Shape() && Knows(event)
      ensures kernel == old(kernel)[event.fd := event.listened] && events == old(events)[event.fd := event]
      ensures slots == old(slots) + [Slot(event.fd, event.listened)]
    {
      Control(ADD, event);
      slots := slots + [Slot(event.fd, event.listened)];
      event.index := |slots| - 1;
      events := events[event.fd := event];
    }

    // Taking a slot out by moving the last one into its place.
    method Detach(event: Event)
      requires Shape() && Knows(event) && 0 <= event.index
      modifies this`slots, this`events, this`kernel, Registered()`index
      ensures slots == SwapOut(old(slots), old(event.index)) && events == old(events) - {event.fd}
      ensures event.index == old(event.index) && Shape()
      ensures kernel == old(kernel) - {event.fd}
    {
      Control(DEL, event);
      events := events - {event.fd};
      var index := event.index;
      if index == |slots| - 1 {
        slots := slots[..index];
      } else {
        var last := slots[|slots| - 1];
        slots := slots[index := last][..|slots| - 1];
        events[last.fd].index := index;
      }
    }

    method Forget(event: Event)
      requires Shape() && event.fd !in events
      modifies event`index
      ensures Shape() && Knows(event) && event.index < 0
    {
      event.index := -(event.fd as int) - 1;
    }

    method Remove(event: Event)
      requires Shape() && Knows(event)
      modifies this`slots, this`events, this`kernel, event`index, Registered()`index
      ensures Shape() && Knows(event) && event.index < 0
      ensures kernel == old(kernel) - {event.fd} && events == old(events) - {event.fd}
    {
      if 0 <= event.index < |slots| {
        Detach(event);
      } else {
        // nothing to take out: epoll_ctl fails and both are logged
        Control(DEL, event);
        events := events - {event.fd};
      }
      Forget(event);
    }

    method Update(event: Event)
      requires Shape() && Knows(event)
      modifies this`slots, this`events, this`kernel, event`index, Registered()`index
      ensures Shape() && Knows(event)
      ensures kernel == Register(old(kernel), event.fd, event.listened)
      ensures events == if Negative(event.listened) then old(events) - {event.fd} else old(events)[event.fd := event]
    {
      if event.index < 0 {
        if !Negative(event.listened) {
          Add(event);
        }
      } else if Negative(event.listened) {
        Remove(event);
      } else {
        Control(MOD, event);
      }
    }

    ghost predicate AllKnown()
      reads this, live`index
    {
      && Registered() <= live && Shape()
      && (forall e, f :: e in live && f in live && e.fd == f.fd ==> e == f)
      && (forall e :: e in live ==> Knows(e))
    }

    // An event is in the kernel's list, with its mask, exactly when the mask is not negative.
    ghost predicate Settled(e: Event)
      reads this, e`listened
    {
      && (e.fd in kernel <==> !Negative(e.listened))
      && (e.fd in kernel ==> kernel[e.fd] == e.listened)
    }

    ghost predicate Valid()
      reads this, live`index, live`listened
    {
      AllKnown() && forall e :: e in live ==> Settled(e)
    }

    // A new event of the loop: nothing is registered for its descriptor.
    method Adopt(event: Event)
      requires Valid() && event.index < 0 && Negative(event.listened)
      requires forall e :: e in live ==> e.fd != event.fd
      modifies this`live
      ensures Valid() && live == old(live) + {event}
    {
      Listed();
      live := live + {event};
    }

    lemma Listed()
      requires Shape()
      ensures forall e :: e in Registered() ==> e.fd in events && events[e.fd] == e
    {
    }

    // update() or, for cancel, removeEvent().
    method Dispatch(op: Op, event: Event)
      requires AllKnown() && event in live && (op == Cancel ==> Negative(event.listened))
      requires forall e :: e in live && e != event ==> Settled(e)
      modifies this`slots, this`events, this`kernel, live`index
      ensures Valid() && kernel == Register(old(kernel), event.fd, event.listened)
    {
      Listed();
      if op == Cancel {
        Remove(event);
      } else {
        Update(event);
      }
    }

    // enableRead, enableWrite, disableRead, disableWrite or cancel of an event.
    method Perform(op: Op, event: Event)
      requires Valid() && event in live
      modifies this`slots, this`events, this`kernel, event`listened, live`index
      ensures Valid()
      ensures event.listened == Masked(op, old(event.listened))
      ensures kernel == Register(old(kernel), event.fd, event.listened)
    {
      event.Change(op);
      Dispatch(op, event);
    }

    // The vector is the scratch area and one slot for each event, so that
    // epoll_wait, which is given its whole size, has room for every ready event.
    lemma SameSize()
      requires Shape()
      ensures |slots| == 16 + |events| && |kernel| == |events|
    {
      var back := slots[SCRATCH..];
      var fds := Fds(back);
      assert Elements(fds) == events.Keys by {
        assert forall i :: 0 <= i < |fds| ==> fds[i] == slots[SCRATCH + i].fd && fds[i] in events;
        assert forall fd :: fd in events.Keys ==> fds[events[fd].index - SCRATCH] == fd;
      }
      DistinctCount(fds);
      assert |events| == |events.Keys| && |kernel| == |kernel.Keys|;
    }

    // epoll_wait and fillActiveEvents: `ready` is what the kernel writes into the
    // front of the vector. Up to 16 ready events leave the slots of the
    // registered ones alone.
    method Poll(ready: seq<Slot>) returns (active: seq<Event>)
      requires Valid() && Answer(kernel, |slots|, ready)
      modifies this`slots, Registered()`happened
      ensures slots == ready + old(slots)[|ready|..]
      ensures |ready| <= SCRATCH ==> Valid() && slots[SCRATCH..] == old(slots)[SCRATCH..]
      ensures |events| <= SCRATCH ==> |ready| <= SCRATCH
      ensures |active| == |ready|
      ensures forall k :: 0 <= k < |ready| ==> Reports(active[k], ready[k])
    {
      SameSize();
      AnswerSize(kernel, |slots|, ready);
      assert forall fd :: fd in kernel ==> fd in events && events[fd].fd == fd;
      WriteFront(ready);
      assert slots[..|ready|] == ready;
      ghost var valid := Valid();
      active := Fill(|ready|, ready);
      assert Valid() == valid;
    }

    // The kernel's part of epoll_wait.
    method WriteFront(ready: seq<Slot>)
      requires Valid() && |ready| <= |slots|
      modifies this`slots
      ensures slots == ready + old(slots)[|ready|..]
      ensures |ready| <= SCRATCH ==> Valid() && slots[SCRATCH..] == old(slots)[SCRATCH..]
    {
      slots := ready + slots[|ready|..];
    }

    // Any sequence of interest changes and polls, with at most 16 events ready at
    // each poll: vector, map, back-pointers and kernel list keep
    // agreeing, and the kernel's list is what the masks say.
    method PerformAll(calls: seq<Call>)
      requires Valid() && (forall c :: c in calls && c.Change? ==> c.event in live) && LegalCalls(Masks(), calls)
      modifies this`slots, this`events, this`kernel, live
      ensures Valid() && Masks() == MasksAfter(old(Masks()), calls)
      ensures kernel == Listening(Masks()) && |slots| == 16 + |kernel|
    {
      var i := 0;
      while i < |calls|
        invariant i <= |calls| && Valid() && LegalCalls(Masks(), calls[i..])
        invariant MasksAfter(Masks(), calls[i..]) == MasksAfter(old(Masks()), calls)
      {
        assert calls[i..][0] == calls[i] && calls[i..][1..] == calls[i + 1..] && calls[i] in calls;
        PerformCall(calls[i]);
        i := i + 1;
      }
      assert calls[i..] == [];
      KernelListens();
      SameSize();
    }

    method PerformCall(c: Call)
      requires Valid() && (c.Change? ==> c.event in live) && MayCall(Masks(), c)
      modifies this`slots, this`events, this`kernel, live
      ensures Valid() && Masks() == MasksAfterCall(old(Masks()), c)
    {
      KernelListens();
      SameSize();
      match c {
        case Change(event, op) => PerformChange(event, op);
        case Wait(ready) => PerformWait(ready);
      }
    }

    method PerformChange(event: Event, op: Op)
      requires Valid() && event in live
      modifies this`slots, this`events, this`kernel, event`listened, live`index
      ensures Valid() && event.fd in old(Masks())
      ensures Masks() == old(Masks())[event.fd := Masked(op, old(Masks())[event.fd])]
    {
      ghost var before := Masks();
      Perform(op, event);
      assert before[event.fd] == old(event.listened);
    }

    method PerformWait(ready: seq<Slot>)
      requires Valid() && |ready| <= SCRATCH && Answer(kernel, |slots|, ready)
      modifies this`slots, live`happened
      ensures Valid() && Masks() == old(Masks())
    {
      ghost var masks := Masks();
      var _ := Poll(ready);
      assert Masks() == masks;
    }

    // The masks of all events of the loop.
    ghost function Masks(): (masks: Masks)
      requires forall e, f :: e in live && f in live && e.fd == f.fd ==> e == f
      reads this`live, live`listened
    {
      map e | e in live :: e.fd := e.listened
    }

    lemma KernelListens()
      requires Valid()
      ensures kernel == Listening(Masks())
    {
      Listed();
      assert forall e :: e in live ==> e.fd in Masks() && Masks()[e.fd] == e.listened;
      assert forall fd :: fd in kernel ==> events[fd] in live && events[fd].fd == fd;
    }

    method Fill(numEvents: nat, ghost ready: seq<Slot>) returns (active: seq<Event>)
      requires numEvents == |ready| <= |slots| && slots[..|ready|] == ready
      requires forall i :: 0 <= i < |ready| ==> ready[i].fd in events && events[ready[i].fd].fd == ready[i].fd
      requires forall i, j :: 0 <= i < j < |ready| ==> ready[i].fd != ready[j].fd
      modifies Registered()`happened
      ensures |active| == |ready| && forall k :: 0 <= k < |ready| ==> Reports(active[k], ready[k])
    {
      active := [];
      for i := 0 to numEvents
        invariant |active| == i && forall k :: 0 <= k < i ==> Reports(active[k], ready[k])
      {
        assert slots[i] == ready[i];
        var event := events[slots[i].fd];
        event.SetHappened(slots[i].events);
        active := active + [event];
      }
    }

    ghost predicate Reports(e: Event, s: Slot)
      reads this, e
    {
      s.fd in events && events[s.fd] == e && e.happened == s.events
    }
  }

  // ---- Runs of interest changes and polls ----

  datatype Call = Change(event: Event, op: Op) | Wait(ready: seq<Slot>)

  ghost predicate MayCall(masks: Masks, c: Call) {
    match c
    case Change(event, _) => event.fd in masks
    case Wait(ready) => |ready| <= SCRATCH && Answer(Listening(masks), SCRATCH + |Listening(masks)|, ready)
  }

  ghost function MasksAfterCall(masks: Masks, c: Call): Masks
    requires MayCall(masks, c)
  {
    if c.Change? then masks[c.event.fd := Masked(c.op, masks[c.event.fd])] else masks
  }

  ghost predicate LegalCalls(masks: Masks, calls: seq<Call>)
    decreases |calls|
  {
    calls == [] || (MayCall(masks, calls[0]) && LegalCalls(MasksAfterCall(masks, calls[0]), calls[1..]))
  }

  ghost function MasksAfter(masks: Masks, calls: seq<Call>): Masks
    requires LegalCalls(masks, calls)
    decreases |calls|
  {
    if calls == [] then masks else MasksAfter(MasksAfterCall(masks, calls[0]), calls[1..])
  }

  // What epoll_wait may answer: ready descriptors of the list, each at most once.
  ghost predicate Answer(kernel: Registry, room: nat, ready: seq<Slot>) {
    && |ready| <= room
    && (forall i :: 0 <= i < |ready| ==> ready[i].fd in kernel)
    && (forall i, j :: 0 <= i < j < |ready| ==> ready[i].fd != ready[j].fd)
  }

  function Fds(v: seq<Slot>): seq<int> {
    seq(|v|, i requires 0 <= i < |v| => v[i].fd)
  }

  lemma {:induction false} SubsetSize(a: set<int>, b: set<int>)
    requires a <= b
    ensures |a| <= |b|
    decreases |a|
  {
    if a != {} {
      Nonempty(a);
      var x :| x in a;
      SubsetSize(a - {x}, b - {x});
    }
  }

  lemma AnswerSize(kernel: Registry, room: nat, ready: seq<Slot>)
    requires Answer(kernel, room, ready)
    ensures |ready| <= |kernel|
  {
    DistinctCount(Fds(ready));
    SubsetSize(Elements(Fds(ready)), kernel.Keys);
    assert |kernel.Keys| == |kernel|;
  }

  // ---- The limit of the split ----

  // The descriptors in the registry part survive the kernel's writing.
  ghost predicate Survives(slots: seq<Slot>, ready: seq<Slot>)
    requires SCRATCH <= |slots| && |ready| <= |slots|
  {
    forall i :: SCRATCH <= i < |slots| ==> (ready + slots[|ready|..])[i].fd == slots[i].fd
  }

  // The registry part survives every answer of the kernel exactly when at most
  // 16 events are registered.
  lemma SplitHoldsIff(slots: seq<Slot>, kernel: Registry)
    requires |slots| == SCRATCH + |kernel|
    requires forall i :: SCRATCH <= i < |slots| ==> slots[i].fd in kernel
    requires forall i, j :: SCRATCH <= i < j < |slots| ==> slots[i].fd != slots[j].fd
    ensures |kernel| <= 16 <==>
      forall ready :: Answer(kernel, |slots|, ready) ==> Survives(slots, ready)
  {
    if |kernel| <= SCRATCH {
      forall ready | Answer(kernel, |slots|, ready) ensures Survives(slots, ready) {
        AnswerSize(kernel, |slots|, ready);
      }
    } else {
      var ready := slots[SCRATCH..];
      assert Answer(kernel, |slots|, ready);
      assert (ready + slots[|ready|..])[SCRATCH] == slots[SCRATCH + SCRATCH];
      assert !Survives(slots, ready);
    }
  }

  // Seventeen events, all ready at one poll: the kernel writes over the first
  // registered slot, and the vector no longer says where the events are.
  method SeventeenReady() returns (p: EpollPoller)
    ensures fresh(p) && |p.kernel| == 17 && !p.Shape()
  {
    p := RegisterMany(SCRATCH + 1);
    ghost var slots := p.slots;
    p.SameSize();
    SeventeenAnswer(p);
    var _ := p.Poll(p.slots[SCRATCH..]);
    assert p.slots[SCRATCH] == slots[SCRATCH + SCRATCH] == p.slots[SCRATCH + SCRATCH];
  }

  lemma SeventeenAnswer(p: EpollPoller)
    requires p.Valid() && |p.slots| == SCRATCH + SCRATCH + 1
    ensures Answer(p.kernel, |p.slots|, p.slots[SCRATCH..])
  {
    var ready := p.slots[SCRATCH..];
    assert forall i :: 0 <= i < |ready| ==> ready[i] == p.slots[SCRATCH + i];
  }

  method RegisterMany(n: nat) returns (p: EpollPoller)
    ensures fresh(p) && fresh(p.live) && p.Valid() && |p.kernel| == n
  {
    p := new EpollPoller();
    for i := 0 to n
      invariant fresh(p) && fresh(p.live) && p.Valid() && |p.kernel| == i
      invariant forall e :: e in p.live ==> e.fd < i
    {
      RegisterNext(p, i);
    }
  }

  method RegisterNext(p: EpollPoller, fd: nat)
    requires p.Valid() && forall e :: e in p.live ==> e.fd < fd
    modifies p`slots, p`events, p`kernel, p`live, p.live`index
    ensures p.Valid() && |p.kernel| == old(|p.kernel|) + 1
    ensures fresh(p.live - old(p.live)) && forall e :: e in p.live ==> e.fd < fd + 1
  {
    p.Listed();
    var e := new Event(fd);
    p.Adopt(e);
    p.Perform(EnableRead, e);
    assert !Negative(Enabled(NONE, READ));
  }
}
