// net/poller/PollPoller.cpp: a dense array for poll(2), the events behind it,
// and the place each event keeps for itself.
module PollPollers {
  import opened Basics
  import opened Events

  datatype PollFd = PollFd(fd: int, events: Mask, revents: Mask)

  class PollPoller {
    var pollFds: seq<PollFd>
    var events: map<int, Event>
    ghost var registry: Registry  // what the array says, by descriptor

    ghost function Registered(): set<Event>
      reads this
    {
      set fd | fd in events :: events[fd]
    }

    // Entry i belongs to the event that says it is at i, and every event in the
    // map has an entry.
    ghost predicate Shape()
      reads this, Registered()`index
    {
      && (forall i :: 0 <= i < |pollFds| ==> pollFds[i].fd in events && events[pollFds[i].fd].index == i)
      && (forall fd :: fd in events ==>
            && events[fd].fd == fd && 0 <= events[fd].index < |pollFds|
            && pollFds[events[fd].index].fd == fd)
      && registry.Keys == events.Keys
      && (forall fd :: fd in events ==> registry[fd] == pollFds[events[fd].index].events)
    }

    // The event is in the map exactly when its index says so; no other event
    // has its descriptor.
    ghost predicate Knows(e: Event)
      reads this, e`index
    {
      && (e.fd in events ==> events[e.fd] == e)
      && (0 <= e.index <==> e.fd in events)
    }

    constructor ()
      ensures Valid() && registry == map[] && live == {}
    {
      pollFds, events, registry, live := [], map[], map[], {};
    }

    // Taking an entry out by moving the last one into its place.
    method Detach(event: Event)
      requires Shape() && Knows(event) && 0 <= event.index
      modifies this`pollFds, this`events, this`registry, Registered()`index
      ensures pollFds == SwapOut(old(pollFds), old(event.index)) && events == old(events) - {event.fd}
      ensures event.index == old(event.index) && Shape()
      ensures registry == old(registry) - {event.fd}
    {
      if event.index == |pollFds| - 1 {
        DetachLast(event);
      } else {
        DetachInner(event);
      }
    }

    method DetachLast(event: Event)
      requires Shape() && Knows(event) && 0 <= event.index == |pollFds| - 1
      modifies this`pollFds, this`events, this`registry
      ensures pollFds == old(pollFds)[..event.index] && events == old(events) - {event.fd} && Shape()
      ensures registry == old(registry) - {event.fd}
    {
      events, registry := events - {event.fd}, registry - {event.fd};
      pollFds := pollFds[..event.index];
    }

    method DetachInner(event: Event)
      requires Shape() && Knows(event) && 0 <= event.index < |pollFds| - 1
      modifies this`pollFds, this`events, this`registry, Registered()`index
      ensures pollFds == SwapOut(old(pollFds), old(event.index)) && events == old(events) - {event.fd} && Shape()
      ensures event.index == old(event.index) && registry == old(registry) - {event.fd}
    {
      events, registry := events - {event.fd}, registry - {event.fd};
      var index, last := event.index, pollFds[|pollFds| - 1];
      pollFds := pollFds[index := last][..|pollFds| - 1];
      events[last.fd].index := index;
    }

    method Forget(event: Event)
      requires Shape() && event.fd !in events
      modifies event`index
      ensures Shape() && Knows(event) && event.index < 0
    {
      event.index := -(event.fd as int) - 1;
    }

    method Remove(event: Event)
      requires Shape() && Knows(event)
      modifies this`pollFds, this`events, this`registry, event`index, Registered()`index
      ensures Shape() && Knows(event) && event.index < 0
      ensures registry == old(registry) - {event.fd} && events == old(events) - {event.fd}
    {
      if 0 <= event.index < |pollFds| {
        Detach(event);
      } else {
        // nothing to take out: logged only
        events := events - {event.fd};
      }
      Forget(event);
    }

    method Add(event: Event)
      requires Shape() && Knows(event) && event.index < 0
      modifies this`pollFds, this`events, this`registry, event`index
      ensures Shape() && Knows(event)
      ensures registry == old(registry)[event.fd := event.listened] && events == old(events)[event.fd := event]
    {
      pollFds := pollFds + [PollFd(event.fd, event.listened, 0)];
      event.index := |pollFds| - 1;
      events, registry := events[event.fd := event], registry[event.fd := event.listened];
    }

    method Modify(event: Event)
      requires Shape() && Knows(event) && 0 <= event.index
      modifies this`pollFds, this`registry
      ensures Shape()
      ensures registry == old(registry)[event.fd := event.listened]
    {
      pollFds := pollFds[event.index := PollFd(event.fd, event.listened, 0)];
      registry := registry[event.fd := event.listened];
    }

    method Update(event: Event)
      requires Shape() && Knows(event)
      modifies this`pollFds, this`events, this`registry, event`index, Registered()`index
      ensures Shape() && Knows(event)
      ensures registry == Register(old(registry), event.fd, event.listened)
      ensures events == if Negative(event.listened) then old(events) - {event.fd} else old(events)[event.fd := event]
    {
      if event.index < 0 {
        if !Negative(event.listened) {
          Add(event);
        }
      } else if Negative(event.listened) {
        Remove(event);
      } else {
        Modify(event);
      }
    }

    // ---- All events of the loop, registered or not ----

    ghost var live: set<Event>

    ghost predicate AllKnown()
      reads this, live`index
    {
      && Registered() <= live && Shape()
      && (forall e, f :: e in live && f in live && e.fd == f.fd ==> e == f)
      && (forall e :: e in live ==> Knows(e))
    }

    // An event is registered, with its mask, exactly when the mask is not negative.
    ghost predicate Settled(e: Event)
      reads this, e`listened
    {
      && (e.fd in registry <==> !Negative(e.listened))
      && (e.fd in registry ==> registry[e.fd] == e.listened)
    }

    ghost predicate Valid()
      reads this, live`index, live`listened
    {
      AllKnown() && forall e :: e in live ==> Settled(e)
    }

    // A new event of the loop: nothing is registered for its descriptor.
    method Adopt(event: Event)
      requires Valid() && event.index < 0 && Negative(event.listened)
      requires forall e :: e in live ==> e.fd != event.fd
      modifies this`live
      ensures Valid() && live == old(live) + {event}
    {
      Listed();
      live := live + {event};
    }

    lemma Listed()
      requires Shape()
      ensures forall e :: e in Registered() ==> e.fd in events && events[e.fd] == e
    {
    }

    // update() or, for cancel, removeEvent().
    method Dispatch(op: Op, event: Event)
      requires AllKnown() && event in live && (op == Cancel ==> Negative(event.listened))
      requires forall e :: e in live && e != event ==> Settled(e)
      modifies this`pollFds, this`events, this`registry, live`index
      ensures Valid() && registry == Register(old(registry), event.fd, event.listened)
    {
      Listed();
      if op == Cancel {
        Remove(event);
      } else {
        Update(event);
      }
    }

    // enableRead, enableWrite, disableRead, disableWrite or cancel of an event.
    method Perform(op: Op, event: Event)
      requires Valid() && event in live
      modifies this`pollFds, this`events, this`registry, event`listened, live`index
      ensures Valid()
      ensures event.listened == Masked(op, old(event.listened))
      ensures registry == Register(old(registry), event.fd, event.listened)
    {
      event.Change(op);
      Dispatch(op, event);
    }

    // The array and the map have the same number of entries.
    lemma SameSize()
      requires Shape()
      ensures |events| == |pollFds|
    {
      var fds := Fds(pollFds);
      assert Elements(fds) == events.Keys by {
        assert forall i :: 0 <= i < |fds| ==> fds[i] == pollFds[i].fd && fds[i] in events;
        assert forall fd :: fd in events.Keys ==> fds[events[fd].index] == fd;
      }
      DistinctCount(fds);
      assert |events| == |events.Keys|;
    }

    // The scan after poll(2): the entries with positive revents, in the order of
    // the array, as many of them as poll(2) counted.
    method FillActive(numEvents: int) returns (active: seq<Event>)
      requires Shape() && numEvents > 0
      modifies Registered()`happened
      ensures |active| == Min(numEvents, |Ready(pollFds)|)
      ensures forall k :: 0 <= k < |active| ==> Reports(active[k], Ready(pollFds)[k])
      ensures forall e :: e in old(Registered()) && e !in active ==> e.happened == old(e.happened)
      ensures numEvents == NonZero(pollFds) ==> FoundExactly(active)
    {
      var i := 0;
      active, i := Scan(numEvents);
      Finished(active, i, numEvents);
      if numEvents == NonZero(pollFds) {
        ReportsExactly(active);
      }
    }

    // The loop, up to entry `i`.
    method Scan(numEvents: int) returns (active: seq<Event>, i: nat)
      requires Shape() && numEvents > 0
      modifies Registered()`happened
      ensures Reported(active, i) && |active| <= numEvents && (i < |pollFds| ==> |active| == numEvents)
      ensures forall e :: e in Registered() && e !in active ==> e.happened == old(e.happened)
    {
      active, i := [], 0;
      var left := numEvents;
      while i < |pollFds|
        invariant i <= |pollFds| && left == numEvents - |active| && left > 0
        invariant Reported(active, i)
        invariant forall e :: e in Registered() && e !in active ==> e.happened == old(e.happened)
      {
        if Positive(pollFds[i].revents) {
          var event := Activate(active, i);
          active := active + [event];
          left := left - 1;
        } else {
          ReadyNext(pollFds, i);
        }
        i := i + 1;
        if left == 0 {
          break;
        }
      }
    }

    // The active events are those whose entry has positive revents.
    ghost predicate FoundExactly(active: seq<Event>)
      requires Shape()
      reads this, Registered()`index
    {
      forall e :: e in Registered() ==> (e in active <==> Positive(pollFds[e.index].revents))
    }

    lemma ReportsExactly(active: seq<Event>)
      requires Shape() && |active| == |Ready(pollFds)|
      requires forall k :: 0 <= k < |active| ==> Reports(active[k], Ready(pollFds)[k])
      ensures FoundExactly(active)
    {
      Listed();
      forall e | e in Registered() ensures e in active <==> Positive(pollFds[e.index].revents) {
        var p := pollFds[e.index];
        ReadyExactly(pollFds, p);
        if p in Ready(pollFds) {
          var k :| 0 <= k < |active| && Ready(pollFds)[k] == p;
          assert active[k] == e;
        }
        if e in active {
          var k :| 0 <= k < |active| && active[k] == e;
          ReadyExactly(pollFds, Ready(pollFds)[k]);
        }
      }
    }

    lemma Finished(active: seq<Event>, i: nat, numEvents: int)
      requires Reported(active, i) && |active| <= numEvents && (i < |pollFds| ==> |active| == numEvents)
      ensures |active| == Min(numEvents, |Ready(pollFds)|)
      ensures forall k :: 0 <= k < |active| ==> Reports(active[k], Ready(pollFds)[k])
      ensures numEvents == NonZero(pollFds) ==> |active| == |Ready(pollFds)|
    {
      ReadyPrefix(pollFds, i);
      CountCoversReady(pollFds);
      assert pollFds[..|pollFds|] == pollFds;
    }

    // The entries before `i` that are ready have been reported, and nothing behind them.
    ghost predicate Reported(active: seq<Event>, i: nat)
      reads this, active, Registered()`index
    {
      && Shape() && i <= |pollFds| && |active| == |Ready(pollFds[..i])|
      && (forall k :: 0 <= k < |active| ==> Reports(active[k], Ready(pollFds[..i])[k]))
      && (forall e :: e in active ==> e.index < i)
    }

    method Activate(ghost active: seq<Event>, i: nat) returns (event: Event)
      requires i < |pollFds| && Reported(active, i) && Positive(pollFds[i].revents)
      modifies Registered()`happened
      ensures event in Registered() && Reported(active + [event], i + 1)
      ensures forall e :: e in Registered() && e != event ==> e.happened == old(e.happened)
    {
      ReadyNext(pollFds, i);
      event := events[pollFds[i].fd];
      event.SetHappened(pollFds[i].revents);
    }

    ghost predicate Reports(e: Event, p: PollFd)
      reads this, e
    {
      p.fd in events && events[p.fd] == e && e.happened == p.revents
    }
  }

  // `revents > 0` on a short.
  predicate Positive(m: Mask) {
    m != 0 && !Negative(m)
  }

  function Ready(v: seq<PollFd>): seq<PollFd> {
    if v == [] then []
    else Ready(v[..|v| - 1]) + if Positive(v[|v| - 1].revents) then [v[|v| - 1]] else []
  }

  lemma ReadyNext(v: seq<PollFd>, i: nat)
    requires i < |v|
    ensures Ready(v[..i + 1]) == Ready(v[..i]) + if Positive(v[i].revents) then [v[i]] else []
  {
    assert v[..i + 1][..i] == v[..i];
  }

  lemma {:induction false} ReadyPrefix(v: seq<PollFd>, i: nat)
    requires i <= |v|
    ensures Ready(v[..i]) <= Ready(v)
    decreases |v| - i
  {
    if i == |v| {
      assert v[..i] == v;
    } else {
      assert v[..i + 1][..i] == v[..i];
      ReadyPrefix(v, i + 1);
    }
  }

  // poll(2) returns the number of entries with non-zero revents.
  function NonZero(v: seq<PollFd>): nat {
    if v == [] then 0 else NonZero(v[..|v| - 1]) + if v[|v| - 1].revents != 0 then 1 else 0
  }

  // That count lets the scan stop early and still find every ready entry.
  lemma {:induction false} CountCoversReady(v: seq<PollFd>)
    ensures |Ready(v)| <= NonZero(v)
    ensures |Ready(v)| == NonZero(v) <==> forall i :: 0 <= i < |v| ==> !Negative(v[i].revents)
  {
    if v != [] {
      CountCoversReady(v[..|v| - 1]);
    }
  }

  // Ready keeps exactly the positive entries.
  lemma {:induction false} ReadyExactly(v: seq<PollFd>, p: PollFd)
    ensures p in Ready(v) <==> p in v && 0 < p.revents < 0x8000
  {
    if v != [] {
      ReadyExactly(v[..|v| - 1], p);
      assert v == v[..|v| - 1] + [v[|v| - 1]];
    }
  }

  function Fds(v: seq<PollFd>): seq<int> {
    seq(|v|, i requires 0 <= i < |v| => v[i].fd)
  }
}
