// What net/timer/TimerQueue.cpp and Timer.cpp promise: a queue is a map from
// timer ids to expirations, on which adding, cancelling and one pass over the
// expired timers act. Times are microseconds.
module TimerSpec {

  datatype Entry = Entry(expiration: int, repeat: bool, interval: nat)
  type Timers = map<nat, Entry>

  datatype Fired = Fired(id: nat, due: int, at: int, repeat: bool)

  // The timers, the next id to give out, and the callbacks run so far.
  datatype Queue = Queue(timers: Timers, nextId: nat, log: seq<Fired>)

  // What a callback, or code between two passes, may ask for.
  datatype Action = Add(expiration: int, interval: nat) | Cancel(id: nat)

  // One expired timer in a pass: what its callback does, and what
  // Timestamp::now() is when it is restarted.
  datatype Tick = Tick(actions: seq<Action>, now: int)

  function Act(q: Queue, a: Action): Queue {
    match a
    case Add(expiration, interval) =>
      q.(timers := q.timers[q.nextId := Entry(expiration, interval > 0, interval)], nextId := q.nextId + 1)
    case Cancel(id) => q.(timers := q.timers - {id})
  }

  function ActAll(q: Queue, actions: seq<Action>): Queue
    decreases |actions|
  {
    if actions == [] then q else ActAll(Act(q, actions[0]), actions[1..])
  }

  predicate FreeTime(timers: Timers, t: int) {
    forall id :: id in timers ==> timers[id].expiration != t
  }

  // A new expiration is no other timer's, and a timer of the pass that is
  // still to run, or running, is not cancelled.
  predicate MayAct(q: Queue, a: Action, busy: seq<nat>) {
    match a
    case Add(expiration, _) => expiration > 0 && FreeTime(q.timers, expiration)
    case Cancel(id) => id !in busy
  }

  predicate MayActAll(q: Queue, actions: seq<Action>, busy: seq<nat>)
    decreases |actions|
  {
    actions != [] ==> MayAct(q, actions[0], busy) && MayActAll(Act(q, actions[0]), actions[1..], busy)
  }

  // The end of an expired timer's turn: a one-shot is gone, a repeating timer is
  // due `interval` after now.
  function Turned(q: Queue, id: nat, tick: Tick, at: int): Queue
    requires id in q.timers
  {
    var e := q.timers[id];
    q.(timers := if e.repeat then q.timers[id := e.(expiration := tick.now + e.interval)] else q.timers - {id},
       log := q.log + [Fired(id, e.expiration, at, e.repeat)])
  }

  // The clock does not go back.
  predicate Ticks(q: Queue, id: nat, tick: Tick, at: int) {
    id in q.timers && (q.timers[id].repeat ==> at <= tick.now && 0 < tick.now)
  }

  // And a restarted timer gets a time that no other has.
  predicate MayTurn(q: Queue, id: nat, tick: Tick, at: int) {
    && Ticks(q, id, tick, at)
    && (q.timers[id].repeat ==> FreeTime(q.timers - {id}, tick.now + q.timers[id].interval))
  }

  predicate MayPass(q: Queue, batch: seq<nat>, ticks: seq<Tick>, at: int)
    decreases |batch|
  {
    && |ticks| == |batch|
    && (batch != [] ==>
      && MayActAll(q, ticks[0].actions, batch)
      && MayTurn(ActAll(q, ticks[0].actions), batch[0], ticks[0], at)
      && MayPass(Turned(ActAll(q, ticks[0].actions), batch[0], ticks[0], at), batch[1..], ticks[1..], at))
  }

  // One pass over a batch of expired timers.
  function Passed(q: Queue, batch: seq<nat>, ticks: seq<Tick>, at: int): Queue
    requires MayPass(q, batch, ticks, at)
    decreases |batch|
  {
    if batch == [] then q
    else Passed(Turned(ActAll(q, ticks[0].actions), batch[0], ticks[0], at), batch[1..], ticks[1..], at)
  }

  // The timers that are due, earliest first.
  predicate IsBatch(timers: Timers, at: int, batch: seq<nat>) {
    && (forall i :: 0 <= i < |batch| ==> batch[i] in timers && timers[batch[i]].expiration <= at)
    && (forall id :: id in timers && timers[id].expiration <= at ==> id in batch)
    && (forall i, j :: 0 <= i < j < |batch| ==> timers[batch[i]].expiration < timers[batch[j]].expiration)
  }

  lemma {:induction false} BatchUnique(timers: Timers, at: int, a: seq<nat>, b: seq<nat>)
    requires IsBatch(timers, at, a) && IsBatch(timers, at, b)
    ensures a == b
    decreases |a|
  {
    if a == [] {
      assert forall i :: 0 <= i < |b| ==> b[i] in a;
    } else {
      assert a[0] in b && b[0] in a;
      var i :| 0 <= i < |b| && b[i] == a[0];
      var j :| 0 <= j < |a| && a[j] == b[0];
      assert i == 0 && j == 0;
      BatchTail(timers, at, a);
      BatchTail(timers, at, b);
      BatchUnique(timers - {a[0]}, at, a[1..], b[1..]);
    }
  }

  lemma BatchTail(timers: Timers, at: int, a: seq<nat>)
    requires IsBatch(timers, at, a) && a != []
    ensures IsBatch(timers - {a[0]}, at, a[1..])
  {
    forall id | id in timers - {a[0]} && timers[id].expiration <= at ensures id in a[1..] {
      assert id in a;
    }
  }
}
