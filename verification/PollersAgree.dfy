// The two pollers behind the same calls.
module PollersAgree {
  import opened Events
  import opened PollPollers
  import opened EpollPollers

  // ---- The registry as a function of the masks ----

  // One call on the event with descriptor `fd`.
  datatype Call = Call(fd: int, op: Op)

  function MasksAfter(masks: Masks, calls: seq<Call>): Masks
    requires forall c :: c in calls ==> c.fd in masks
    decreases |calls|
  {
    if calls == [] then masks
    else
      var c := calls[0];
      MasksAfter(masks[c.fd := Masked(c.op, masks[c.fd])], calls[1..])
  }

  function RegistryAfter(masks: Masks, r: Registry, calls: seq<Call>): Registry
    requires forall c :: c in calls ==> c.fd in masks
    decreases |calls|
  {
    if calls == [] then r
    else
      var c := calls[0];
      var m := Masked(c.op, masks[c.fd]);
      RegistryAfter(masks[c.fd := m], Register(r, c.fd, m), calls[1..])
  }

  // Over any calls on any events, an event is registered exactly when its mask
  // is not negative, and with that mask.
  lemma {:induction false} RegisteredIffNotNegative(masks: Masks, calls: seq<Call>)
    requires forall c :: c in calls ==> c.fd in masks
    ensures RegistryAfter(masks, Listening(masks), calls) == Listening(MasksAfter(masks, calls))
    ensures
      var r, after := RegistryAfter(masks, Listening(masks), calls), MasksAfter(masks, calls);
      forall fd :: if fd in after && after[fd] < 0x8000 then fd in r && r[fd] == after[fd] else fd !in r
    decreases |calls|
  {
    if calls != [] {
      var c := calls[0];
      var m := Masked(c.op, masks[c.fd]);
      RegisterListening(masks, c.fd, m);
      RegisteredIffNotNegative(masks[c.fd := m], calls[1..]);
    }
  }

  // ---- The same calls on both pollers ----

  // The i-th event of one loop and the i-th of the other stand for the same descriptor.
  ghost predicate Twins(p: PollPoller, q: EpollPoller, es: seq<Event>, fs: seq<Event>)
    reads p, q, p.live, q.live, es, fs
  {
    && p.Valid() && q.Valid() && p.live !! q.live
    && |es| == |fs|
    && (forall i :: 0 <= i < |es| ==> es[i] in p.live && fs[i] in q.live)
    && (forall i :: 0 <= i < |es| ==> es[i].fd == fs[i].fd && es[i].listened == fs[i].listened)
    && p.registry == q.kernel
  }

  // Two new pollers.
  method Create() returns (p: PollPoller, q: EpollPoller)
    ensures fresh(p) && fresh(q) && p.live == {} && q.live == {} && Twins(p, q, [], [])
  {
    p := new PollPoller();
    q := new EpollPoller();
  }

  // New events, one on each, for a descriptor that has none yet.
  method AdoptBoth(p: PollPoller, q: EpollPoller, es: seq<Event>, fs: seq<Event>, e: Event, f: Event)
    requires Twins(p, q, es, fs) && IsNew(p.live + q.live, e) && IsNew(p.live + q.live, f) && e.fd == f.fd && e != f
    modifies p`live, q`live
    ensures p.live == old(p.live) + {e} && q.live == old(q.live) + {f}
    ensures Twins(p, q, es + [e], fs + [f])
  {
    ghost var valid := q.Valid();
    p.Adopt(e);
    assert q.Valid() == valid;
    valid := p.Valid();
    q.Adopt(f);
    assert p.Valid() == valid;
  }

  predicate IsNew(live: set<Event>, e: Event)
    reads e, live
  {
    e.index == -1 && e.listened == NONE && forall x :: x in live ==> x.fd != e.fd
  }

  method PerformBoth(p: PollPoller, q: EpollPoller, es: seq<Event>, fs: seq<Event>, i: nat, op: Op)
    requires Twins(p, q, es, fs) && i < |es|
    modifies p`pollFds, p`events, p`registry, q`slots, q`events, q`kernel
    modifies es`listened, fs`listened, p.live`index, q.live`index
    ensures Twins(p, q, es, fs)
  {
    PerformFirst(p, q, es, fs, i, op);
    PerformSecond(p, q, es, fs, i, op);
  }

  // The i-th event of the first loop is one call ahead of its twin.
  ghost predicate Ahead(p: PollPoller, q: EpollPoller, es: seq<Event>, fs: seq<Event>, i: nat, op: Op)
    requires i < |es|
    reads p, q, p.live, q.live, es, fs
  {
    && p.Valid() && q.Valid() && p.live !! q.live
    && |es| == |fs|
    && (forall j :: 0 <= j < |es| ==> es[j] in p.live && fs[j] in q.live && es[j].fd == fs[j].fd)
    && (forall j :: 0 <= j < |es| ==> (es[j] == es[i] <==> fs[j] == fs[i]))
    && (forall j :: 0 <= j < |es| && es[j] != es[i] ==> es[j].listened == fs[j].listened)
    && es[i].listened == Masked(op, fs[i].listened)
    && p.registry == Register(q.kernel, fs[i].fd, es[i].listened)
  }

  method PerformFirst(p: PollPoller, q: EpollPoller, es: seq<Event>, fs: seq<Event>, i: nat, op: Op)
    requires Twins(p, q, es, fs) && i < |es|
    modifies p`pollFds, p`events, p`registry, es`listened, p.live`index
    ensures Ahead(p, q, es, fs, i, op)
  {
    Alike(p, q, es, fs, i);
    p.Perform(op, es[i]);
    assert q.Valid();
  }

  method PerformSecond(p: PollPoller, q: EpollPoller, es: seq<Event>, fs: seq<Event>, i: nat, op: Op)
    requires i < |es| && Ahead(p, q, es, fs, i, op)
    modifies q`slots, q`events, q`kernel, fs`listened, q.live`index
    ensures Twins(p, q, es, fs)
  {
    q.Perform(op, fs[i]);
    assert p.Valid();
  }

  lemma Alike(p: PollPoller, q: EpollPoller, es: seq<Event>, fs: seq<Event>, i: nat)
    requires Twins(p, q, es, fs) && i < |es|
    ensures forall j :: 0 <= j < |es| ==> (es[j] == es[i] <==> fs[j] == fs[i])
  {
  }

  // However the events are enabled, disabled and cancelled, both pollers hold
  // the same descriptors with the same masks.
  method PerformAll(p: PollPoller, q: EpollPoller, es: seq<Event>, fs: seq<Event>, calls: seq<(nat, Op)>)
    requires Twins(p, q, es, fs) && forall c :: c in calls ==> c.0 < |es|
    modifies p`pollFds, p`events, p`registry, q`slots, q`events, q`kernel
    modifies es`listened, fs`listened, p.live`index, q.live`index
    ensures Twins(p, q, es, fs)
  {
    for k := 0 to |calls|
      invariant Twins(p, q, es, fs)
    {
      PerformBoth(p, q, es, fs, calls[k].0, calls[k].1);
    }
  }
}
