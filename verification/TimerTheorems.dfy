// What one pass does, and what holds over every run of a timer queue.
module TimerTheorems {
  import opened TimerSpec

  // ---- One pass ----

  predicate Distinct(ids: seq<nat>) {
    forall i, j :: 0 <= i < j < |ids| ==> ids[i] != ids[j]
  }

  // The timers of the batch, in the state in which the pass found them.
  predicate Ready(q: Queue, batch: seq<nat>) {
    Distinct(batch) && forall id :: id in batch ==> id in q.timers && id < q.nextId
  }

  lemma ActBusy(q: Queue, a: Action, busy: seq<nat>)
    requires Ready(q, busy) && MayAct(q, a, busy)
    ensures Ready(Act(q, a), busy) && Act(q, a).log == q.log
    ensures forall id :: id in busy ==> Act(q, a).timers[id] == q.timers[id]
  {
  }

  lemma {:induction false} ActAllBusy(q: Queue, actions: seq<Action>, busy: seq<nat>)
    requires Ready(q, busy) && MayActAll(q, actions, busy)
    ensures Ready(ActAll(q, actions), busy) && ActAll(q, actions).log == q.log
    ensures forall id :: id in busy ==> ActAll(q, actions).timers[id] == q.timers[id]
    decreases |actions|
  {
    if actions != [] {
      ActBusy(q, actions[0], busy);
      ActAllBusy(Act(q, actions[0]), actions[1..], busy);
    }
  }

  // The first turn of a pass leaves the rest of the batch as it was.
  lemma TurnBusy(q: Queue, batch: seq<nat>, tick: Tick, at: int)
    requires Ready(q, batch) && batch != [] && MayActAll(q, tick.actions, batch)
    requires MayTurn(ActAll(q, tick.actions), batch[0], tick, at)
    ensures var r := Turned(ActAll(q, tick.actions), batch[0], tick, at);
      && Ready(r, batch[1..])
      && (forall id :: id in batch[1..] ==> r.timers[id] == q.timers[id])
      && r.log == q.log + [Fired(batch[0], q.timers[batch[0]].expiration, at, q.timers[batch[0]].repeat)]
  {
    ActAllBusy(q, tick.actions, batch);
    assert forall id :: id in batch[1..] ==> id in batch && id != batch[0];
  }

  function Firings(q: Queue, batch: seq<nat>, at: int): seq<Fired>
    requires forall id :: id in batch ==> id in q.timers
  {
    seq(|batch|, i requires 0 <= i < |batch| => Fired(batch[i], q.timers[batch[i]].expiration, at, q.timers[batch[i]].repeat))
  }

  // A pass runs the timers of its batch, each once, in the order of the batch.
  lemma {:induction false} PassRuns(q: Queue, batch: seq<nat>, ticks: seq<Tick>, at: int)
    requires Ready(q, batch) && MayPass(q, batch, ticks, at)
    ensures Passed(q, batch, ticks, at).log == q.log + Firings(q, batch, at)
    decreases |batch|
  {
    if batch == [] {
      assert q.log + [] == q.log;
    } else {
      TurnBusy(q, batch, ticks[0], at);
      var r := Turned(ActAll(q, ticks[0].actions), batch[0], ticks[0], at);
      PassRuns(r, batch[1..], ticks[1..], at);
      assert Firings(q, batch, at) == [Firings(q, batch, at)[0]] + Firings(r, batch[1..], at);
    }
  }

  function Actions(ticks: seq<Tick>): seq<Action> {
    if ticks == [] then [] else ticks[0].actions + Actions(ticks[1..])
  }

  // Two queues that differ at most in the timers of `ids`.
  ghost predicate AgreeOff(a: Queue, b: Queue, ids: set<nat>) {
    && a.nextId == b.nextId
    && (forall id :: id !in ids ==> (id in a.timers <==> id in b.timers))
    && (forall id :: id !in ids && id in a.timers ==> a.timers[id] == b.timers[id])
  }

  lemma {:induction false} ActAllAgree(a: Queue, b: Queue, actions: seq<Action>, ids: set<nat>)
    requires AgreeOff(a, b, ids)
    ensures AgreeOff(ActAll(a, actions), ActAll(b, actions), ids)
    decreases |actions|
  {
    if actions != [] {
      ActAllAgree(Act(a, actions[0]), Act(b, actions[0]), actions[1..], ids);
    }
  }

  lemma {:induction false} ActAllConcat(q: Queue, a: seq<Action>, b: seq<Action>)
    ensures ActAll(q, a + b) == ActAll(ActAll(q, a), b)
    decreases |a|
  {
    if a == [] {
      assert a + b == b;
    } else {
      assert (a + b)[1..] == a[1..] + b;
      ActAllConcat(Act(q, a[0]), a[1..], b);
    }
  }

  // Timers outside the batch are as the callbacks alone would leave them.
  lemma {:induction false} PassLeavesOthers(q: Queue, batch: seq<nat>, ticks: seq<Tick>, at: int, ids: set<nat>)
    requires MayPass(q, batch, ticks, at) && forall id :: id in batch ==> id in ids
    ensures AgreeOff(Passed(q, batch, ticks, at), ActAll(q, Actions(ticks)), ids)
    decreases |batch|
  {
    if batch != [] {
      var p := ActAll(q, ticks[0].actions);
      var r := Turned(p, batch[0], ticks[0], at);
      assert batch[0] in batch && forall id :: id in batch[1..] ==> id in batch;
      PassLeavesOthers(r, batch[1..], ticks[1..], at, ids);
      ActAllAgree(r, p, Actions(ticks[1..]), ids);
      ActAllConcat(q, ticks[0].actions, Actions(ticks[1..]));
    }
  }

  predicate Cancels(actions: seq<Action>, id: nat) {
    Cancel(id) in actions
  }

  lemma {:induction false} ActAllFate(q: Queue, actions: seq<Action>, id: nat)
    requires id < q.nextId
    ensures id in ActAll(q, actions).timers <==> id in q.timers && !Cancels(actions, id)
    ensures id in ActAll(q, actions).timers ==> ActAll(q, actions).timers[id] == q.timers[id]
    decreases |actions|
  {
    if actions != [] {
      ActAllFate(Act(q, actions[0]), actions[1..], id);
      assert Cancel(id) in actions <==> actions[0] == Cancel(id) || Cancel(id) in actions[1..];
    }
  }

  // What the turn of `id` leaves, and later turns may only cancel.
  lemma {:induction false} LaterFate(q: Queue, batch: seq<nat>, ticks: seq<Tick>, at: int, id: nat)
    requires MayPass(q, batch, ticks, at) && id !in batch && id < q.nextId
    ensures var r := Passed(q, batch, ticks, at);
      && (id in r.timers <==> id in q.timers && !Cancels(Actions(ticks), id))
      && (id in r.timers ==> r.timers[id] == q.timers[id])
  {
    PassLeavesOthers(q, batch, ticks, at, set x | x in batch);
    ActAllFate(q, Actions(ticks), id);
  }

  // A one-shot timer of the batch is gone; a repeating one is due again
  // `interval` after its restart, unless a later callback of the pass cancels it.
  lemma {:induction false} PassTurns(q: Queue, batch: seq<nat>, ticks: seq<Tick>, at: int, k: nat)
    requires Ready(q, batch) && MayPass(q, batch, ticks, at) && k < |batch|
    ensures var r, e := Passed(q, batch, ticks, at), q.timers[batch[k]];
      && (batch[k] in r.timers <==> e.repeat && !Cancels(Actions(ticks[k + 1..]), batch[k]))
      && (batch[k] in r.timers ==> r.timers[batch[k]] == e.(expiration := ticks[k].now + e.interval))
    decreases k
  {
    TurnBusy(q, batch, ticks[0], at);
    var p := ActAll(q, ticks[0].actions);
    var r := Turned(p, batch[0], ticks[0], at);
    if k == 0 {
      ActAllBusy(q, ticks[0].actions, batch);
      assert batch[0] !in batch[1..];
      LaterFate(r, batch[1..], ticks[1..], at, batch[0]);
    } else {
      assert batch[1..][k - 1] == batch[k] && batch[k] in batch[1..];
      assert ticks[1..][k..] == ticks[k + 1..];
      PassTurns(r, batch[1..], ticks[1..], at, k - 1);
    }
  }

  // ---- Whole runs ----

  datatype Op =
    | Do(action: Action)                                  // addTimer or cancel outside a pass
    | Handle(at: int, batch: seq<nat>, ticks: seq<Tick>)  // the timerfd became readable

  predicate Legal(q: Queue, op: Op) {
    match op
    case Do(action) => MayAct(q, action, [])
    case Handle(at, batch, ticks) => IsBatch(q.timers, at, batch) && MayPass(q, batch, ticks, at)
  }

  function Apply(q: Queue, op: Op): Queue
    requires Legal(q, op)
  {
    match op
    case Do(action) => Act(q, action)
    case Handle(at, batch, ticks) => Passed(q, batch, ticks, at)
  }

  predicate LegalRun(q: Queue, ops: seq<Op>)
    decreases |ops|
  {
    ops != [] ==> Legal(q, ops[0]) && LegalRun(Apply(q, ops[0]), ops[1..])
  }

  function Run(q: Queue, ops: seq<Op>): Queue
    requires LegalRun(q, ops)
    decreases |ops|
  {
    if ops == [] then q else Run(Apply(q, ops[0]), ops[1..])
  }

  // Expirations are keys: no two timers share one.
  ghost predicate Keyed(q: Queue) {
    && (forall id :: id in q.timers ==> id < q.nextId && q.timers[id].expiration > 0)
    && (forall a, b :: a in q.timers && b in q.timers && a != b ==> q.timers[a].expiration != q.timers[b].expiration)
  }

  // Nothing ran early, and a one-shot timer that ran is gone and ran once.
  ghost predicate Punctual(q: Queue) {
    && (forall r :: r in q.log ==> r.id < q.nextId && r.due <= r.at)
    && (forall r :: r in q.log && r.id in q.timers ==> r.repeat && q.timers[r.id].repeat)
    && (forall i, j :: 0 <= i < j < |q.log| && q.log[i].id == q.log[j].id ==> q.log[i].repeat && q.log[j].repeat)
  }

  ghost predicate Inv(q: Queue) {
    Keyed(q) && Punctual(q)
  }

  lemma ActKeeps(q: Queue, a: Action, busy: seq<nat>)
    requires Inv(q) && MayAct(q, a, busy)
    ensures Inv(Act(q, a)) && q.nextId <= Act(q, a).nextId
  {
  }

  lemma {:induction false} ActAllKeeps(q: Queue, actions: seq<Action>, busy: seq<nat>)
    requires Inv(q) && MayActAll(q, actions, busy)
    ensures Inv(ActAll(q, actions)) && q.nextId <= ActAll(q, actions).nextId
    decreases |actions|
  {
    if actions != [] {
      ActKeeps(q, actions[0], busy);
      ActAllKeeps(Act(q, actions[0]), actions[1..], busy);
    }
  }

  lemma TurnedKeeps(q: Queue, id: nat, tick: Tick, at: int)
    requires Inv(q) && MayTurn(q, id, tick, at) && q.timers[id].expiration <= at
    ensures Inv(Turned(q, id, tick, at))
  {
    var r := Turned(q, id, tick, at);
    assert Keyed(r) by {
      assert forall x :: x in r.timers && x != id ==> x in q.timers - {id} && r.timers[x] == q.timers[x];
    }
    assert forall f :: f in q.log && f.id == id ==> f.repeat;
    assert forall i, j :: 0 <= i < j < |r.log| && r.log[i].id == r.log[j].id ==> r.log[i] in q.log;
  }

  lemma {:induction false} PassedKeeps(q: Queue, batch: seq<nat>, ticks: seq<Tick>, at: int)
    requires Inv(q) && Ready(q, batch) && MayPass(q, batch, ticks, at)
    requires forall id :: id in batch ==> q.timers[id].expiration <= at
    ensures Inv(Passed(q, batch, ticks, at))
    decreases |batch|
  {
    if batch != [] {
      ActAllKeeps(q, ticks[0].actions, batch);
      ActAllBusy(q, ticks[0].actions, batch);
      TurnBusy(q, batch, ticks[0], at);
      TurnedKeeps(ActAll(q, ticks[0].actions), batch[0], ticks[0], at);
      PassedKeeps(Turned(ActAll(q, ticks[0].actions), batch[0], ticks[0], at), batch[1..], ticks[1..], at);
    }
  }

  lemma BatchReady(q: Queue, at: int, batch: seq<nat>)
    requires Keyed(q) && IsBatch(q.timers, at, batch)
    ensures Ready(q, batch) && forall id :: id in batch ==> q.timers[id].expiration <= at
  {
  }

  lemma ApplyKeeps(q: Queue, op: Op)
    requires Inv(q) && Legal(q, op)
    ensures Inv(Apply(q, op))
  {
    match op
    case Do(action) => ActKeeps(q, action, []);
    case Handle(at, batch, ticks) =>
      BatchReady(q, at, batch);
      PassedKeeps(q, batch, ticks, at);
  }

  lemma {:induction false} RunKeeps(q: Queue, ops: seq<Op>)
    requires Inv(q) && LegalRun(q, ops)
    ensures Inv(Run(q, ops))
    decreases |ops|
  {
    if ops != [] {
      ApplyKeeps(q, ops[0]);
      RunKeeps(Apply(q, ops[0]), ops[1..]);
    }
  }

  function Created(nextId: nat): Queue {
    Queue(map[], nextId, [])
  }

  // Over every run: no callback runs before its expiration, and a one-shot runs at most once.
  lemma NeverEarlyNeverTwice(nextId: nat, ops: seq<Op>, i: nat)
    requires LegalRun(Created(nextId), ops) && i < |Run(Created(nextId), ops).log|
    ensures var log := Run(Created(nextId), ops).log;
      && log[i].due <= log[i].at
      && (!log[i].repeat ==> forall j :: 0 <= j < |log| && j != i ==> log[j].id != log[i].id)
  {
    RunKeeps(Created(nextId), ops);
    var q := Run(Created(nextId), ops);
    assert q.log[i] in q.log;
  }

  // One pass runs exactly the timers that are due, once each, earliest first.
  lemma PassRunsExactlyTheDue(q: Queue, batch: seq<nat>, ticks: seq<Tick>, at: int)
    requires Inv(q) && Legal(q, Handle(at, batch, ticks))
    ensures q.log <= Passed(q, batch, ticks, at).log
    ensures var runs := Passed(q, batch, ticks, at).log[|q.log|..];
      && (forall id :: (exists k :: 0 <= k < |runs| && runs[k].id == id) <==> id in q.timers && q.timers[id].expiration <= at)
      && (forall k :: 0 <= k < |runs| ==> runs[k].id in q.timers && runs[k].due == q.timers[runs[k].id].expiration)
      && (forall k, m :: 0 <= k < m < |runs| ==> runs[k].id != runs[m].id && runs[k].due < runs[m].due)
  {
    BatchReady(q, at, batch);
    PassRuns(q, batch, ticks, at);
    FiringsAreTheDue(q, batch, at);
    assert Passed(q, batch, ticks, at).log[|q.log|..] == Firings(q, batch, at);
  }

  lemma FiringsAreTheDue(q: Queue, batch: seq<nat>, at: int)
    requires Ready(q, batch) && IsBatch(q.timers, at, batch)
    ensures var runs := Firings(q, batch, at);
      && (forall id :: (exists k :: 0 <= k < |runs| && runs[k].id == id) <==> id in q.timers && q.timers[id].expiration <= at)
      && (forall k :: 0 <= k < |runs| ==> runs[k].id in q.timers && runs[k].due == q.timers[runs[k].id].expiration)
      && (forall k, m :: 0 <= k < m < |runs| ==> runs[k].id != runs[m].id && runs[k].due < runs[m].due)
  {
    var runs := Firings(q, batch, at);
    forall id ensures (exists k :: 0 <= k < |runs| && runs[k].id == id) <==> id in q.timers && q.timers[id].expiration <= at {
      assert id in batch <==> id in q.timers && q.timers[id].expiration <= at;
      if id in batch {
        var k :| 0 <= k < |batch| && batch[k] == id;
        assert runs[k].id == id;
      }
    }
  }

  // An id that is known and not in the queue, because it was cancelled or was a
  // one-shot that ran, never runs again.
  ghost predicate Dead(q: Queue, id: nat) {
    id < q.nextId && id !in q.timers
  }

  ghost predicate NeverIn(log: seq<Fired>, from: nat, id: nat) {
    forall k :: from <= k < |log| ==> log[k].id != id
  }

  lemma NotFired(q: Queue, batch: seq<nat>, at: int, id: nat)
    requires (forall x :: x in batch ==> x in q.timers) && id !in batch
    ensures NeverIn(q.log + Firings(q, batch, at), |q.log|, id)
  {
    var log := q.log + Firings(q, batch, at);
    forall k | |q.log| <= k < |log| ensures log[k].id != id {
      assert log[k] == Firings(q, batch, at)[k - |q.log|];
    }
  }

  lemma StillDead(q: Queue, batch: seq<nat>, ticks: seq<Tick>, at: int, id: nat)
    requires MayPass(q, batch, ticks, at) && id !in batch && Dead(q, id)
    ensures Dead(Passed(q, batch, ticks, at), id)
  {
    LaterFate(q, batch, ticks, at, id);
    PassLeavesOthers(q, batch, ticks, at, set x | x in batch);
    NextIdGrows(q, Actions(ticks));
  }

  lemma PassLeavesDead(q: Queue, batch: seq<nat>, ticks: seq<Tick>, at: int, id: nat)
    requires Inv(q) && Legal(q, Handle(at, batch, ticks)) && Dead(q, id)
    ensures var r := Passed(q, batch, ticks, at);
      Dead(r, id) && q.log <= r.log && NeverIn(r.log, |q.log|, id)
  {
    BatchReady(q, at, batch);
    PassRuns(q, batch, ticks, at);
    NotFired(q, batch, at, id);
    StillDead(q, batch, ticks, at, id);
  }

  lemma {:induction false} NextIdGrows(q: Queue, actions: seq<Action>)
    ensures q.nextId <= ActAll(q, actions).nextId
    decreases |actions|
  {
    if actions != [] {
      NextIdGrows(Act(q, actions[0]), actions[1..]);
    }
  }

  lemma ApplyLeavesDead(q: Queue, op: Op, id: nat)
    requires Inv(q) && Legal(q, op) && Dead(q, id)
    ensures var r := Apply(q, op);
      Dead(r, id) && q.log <= r.log && NeverIn(r.log, |q.log|, id)
  {
    match op
    case Do(action) =>
    case Handle(at, batch, ticks) => PassLeavesDead(q, batch, ticks, at, id);
  }

  lemma NeverInLonger(a: seq<Fired>, b: seq<Fired>, c: seq<Fired>, id: nat)
    requires a <= b <= c && NeverIn(b, |a|, id) && NeverIn(c, |b|, id)
    ensures a <= c && NeverIn(c, |a|, id)
  {
    forall k | |a| <= k < |c| ensures c[k].id != id {
      if k < |b| {
        assert c[k] == b[k];
      }
    }
  }

  lemma {:induction false} DeadStaysDead(q: Queue, ops: seq<Op>, id: nat)
    requires Inv(q) && LegalRun(q, ops) && Dead(q, id)
    ensures Dead(Run(q, ops), id) && q.log <= Run(q, ops).log && NeverIn(Run(q, ops).log, |q.log|, id)
    decreases |ops|
  {
    if ops != [] {
      var r := Apply(q, ops[0]);
      ApplyKeeps(q, ops[0]);
      ApplyLeavesDead(q, ops[0], id);
      DeadStaysDead(r, ops[1..], id);
      NeverInLonger(q.log, r.log, Run(r, ops[1..]).log, id);
    }
  }

  // An id cancelled outside a pass never runs afterwards, whatever follows.
  lemma CancelledNeverRuns(q: Queue, id: nat, ops: seq<Op>)
    requires Inv(q) && id < q.nextId && LegalRun(Act(q, Cancel(id)), ops)
    ensures NeverIn(Run(Act(q, Cancel(id)), ops).log, |q.log|, id)
  {
    ActKeeps(q, Cancel(id), []);
    DeadStaysDead(Act(q, Cancel(id)), ops, id);
  }

  // Nor does an id outside the batch that a callback of a pass cancels.
  lemma CancelledInPassNeverRuns(q: Queue, batch: seq<nat>, ticks: seq<Tick>, at: int, id: nat, ops: seq<Op>)
    requires Inv(q) && Legal(q, Handle(at, batch, ticks)) && id < q.nextId && id !in batch && Cancels(Actions(ticks), id)
    requires LegalRun(Passed(q, batch, ticks, at), ops)
    ensures NeverIn(Run(Passed(q, batch, ticks, at), ops).log, |q.log|, id)
  {
    var r := Passed(q, batch, ticks, at);
    BatchReady(q, at, batch);
    ApplyKeeps(q, Handle(at, batch, ticks));
    PassRuns(q, batch, ticks, at);
    NotFired(q, batch, at, id);
    LaterFate(q, batch, ticks, at, id);
    PassLeavesOthers(q, batch, ticks, at, set x | x in batch);
    NextIdGrows(q, Actions(ticks));
    DeadStaysDead(r, ops, id);
    NeverInLonger(q.log, r.log, Run(r, ops).log, id);
  }

  // ---- No timer is late ----

  predicate CancelsIn(op: Op, id: nat) {
    match op
    case Do(action) => action == Cancel(id)
    case Handle(_, _, ticks) => Cancels(Actions(ticks), id)
  }

  predicate Early(op: Op, expiration: int) {
    op.Handle? ==> op.at < expiration
  }

  lemma ApplyEarly(q: Queue, op: Op, id: nat)
    requires Inv(q) && Legal(q, op) && id in q.timers && Early(op, q.timers[id].expiration)
    ensures id in Apply(q, op).timers <==> !CancelsIn(op, id)
    ensures id in Apply(q, op).timers ==> Apply(q, op).timers[id] == q.timers[id]
    ensures q.nextId <= Apply(q, op).nextId
  {
    match op
    case Do(action) =>
    case Handle(at, batch, ticks) =>
      BatchReady(q, at, batch);
      LaterFate(q, batch, ticks, at, id);
      PassLeavesOthers(q, batch, ticks, at, set x | x in batch);
      NextIdGrows(q, Actions(ticks));
  }

  // Before its expiration a timer stays as it is, unless it is cancelled.
  lemma {:induction false} WaitsUntilDue(q: Queue, ops: seq<Op>, id: nat)
    requires Inv(q) && LegalRun(q, ops) && id in q.timers
    requires forall op :: op in ops ==> Early(op, q.timers[id].expiration)
    ensures id in Run(q, ops).timers <==> forall op :: op in ops ==> !CancelsIn(op, id)
    ensures id in Run(q, ops).timers ==> Run(q, ops).timers[id] == q.timers[id]
    decreases |ops|
  {
    if ops != [] {
      var r := Apply(q, ops[0]);
      assert ops == [ops[0]] + ops[1..];
      ApplyKeeps(q, ops[0]);
      ApplyEarly(q, ops[0], id);
      if id in r.timers {
        WaitsUntilDue(r, ops[1..], id);
      } else {
        DeadStaysDead(r, ops[1..], id);
      }
    }
  }

  ghost predicate RunsIn(log: seq<Fired>, from: nat, id: nat, due: int) {
    exists k :: from <= k < |log| && log[k].id == id && log[k].due == due
  }

  lemma PassRunsIff(q: Queue, batch: seq<nat>, ticks: seq<Tick>, at: int, id: nat, due: int)
    requires Inv(q) && Legal(q, Handle(at, batch, ticks))
    ensures RunsIn(Passed(q, batch, ticks, at).log, |q.log|, id, due) <==>
            id in q.timers && q.timers[id].expiration == due && due <= at
  {
    BatchReady(q, at, batch);
    PassRuns(q, batch, ticks, at);
    var log := q.log + Firings(q, batch, at);
    if id in q.timers && q.timers[id].expiration == due && due <= at {
      var i :| 0 <= i < |batch| && batch[i] == id;
      assert log[|q.log| + i] == Firings(q, batch, at)[i];
    }
    if RunsIn(log, |q.log|, id, due) {
      var k :| |q.log| <= k < |log| && log[k].id == id && log[k].due == due;
      assert log[k] == Firings(q, batch, at)[k - |q.log|] && batch[k - |q.log|] in batch;
    }
  }

  // Whatever passes and calls come between: a timer runs in the first pass at or
  // after its expiration exactly when nothing has cancelled it before.
  lemma NeverLate(q: Queue, ops: seq<Op>, id: nat, batch: seq<nat>, ticks: seq<Tick>, at: int)
    requires Inv(q) && LegalRun(q, ops) && id in q.timers && q.timers[id].expiration <= at
    requires forall op :: op in ops ==> Early(op, q.timers[id].expiration)
    requires Legal(Run(q, ops), Handle(at, batch, ticks))
    ensures
      var s := Run(q, ops);
      RunsIn(Passed(s, batch, ticks, at).log, |s.log|, id, q.timers[id].expiration) <==>
      forall op :: op in ops ==> !CancelsIn(op, id)
  {
    RunKeeps(q, ops);
    WaitsUntilDue(q, ops, id);
    PassRunsIff(Run(q, ops), batch, ticks, at, id, q.timers[id].expiration);
  }

  // So does one that is added: it gets a new id, the time and interval asked for,
  // and repeats exactly if that is not zero.
  lemma AddedWaits(q: Queue, expiration: int, interval: nat)
    requires Inv(q) && MayAct(q, Add(expiration, interval), [])
    ensures
      var r := Act(q, Add(expiration, interval));
      && Inv(r) && q.nextId !in q.timers && r.timers.Keys == q.timers.Keys + {q.nextId}
      && r.timers[q.nextId] == Entry(expiration, interval != 0, interval)
      && (forall id :: id in q.timers ==> r.timers[id] == q.timers[id])
  {
    ActKeeps(q, Add(expiration, interval), []);
  }
}
