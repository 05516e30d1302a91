// net/timer/Timer.cpp and net/timer/TimerQueue.cpp in their own form: timer
// objects owned by a time-ordered map, the index from ids to times, and the
// kernel timer that has to be armed for the earliest entry.
module TimerQueues {
  import opened Basics
  import opened TimerSpec

  const MICROS_PER_SECOND := 1000 * 1000

  class Timer {
    const id: nat
    const repeat: bool
    const interval: nat
    var expiration: int

    constructor (id: nat, expiration: int, interval: nat)
      ensures this.id == id && this.expiration == expiration && this.interval == interval
      ensures repeat <==> interval > 0
    {
      this.id, this.repeat, this.interval := id, interval > 0, interval;
      this.expiration := expiration;
    }

    method Restart(now: int)
      modifies this`expiration
      ensures expiration == if repeat then now + interval else 0
    {
      if repeat {
        expiration := now + interval;
      } else {
        expiration := 0;
      }
    }
  }

  // ---- The kernel timer ----

  // itimerspec.it_value; the kernel takes zero for "disarmed".
  datatype KernelTimer = KernelTimer(sec: int, nsec: int)

  function ArmedFor(keys: set<int>): KernelTimer {
    if keys == {} then KernelTimer(0, 0)
    else KernelTimer(First(keys) / MICROS_PER_SECOND, First(keys) % MICROS_PER_SECOND * 1000)
  }

  // The kernel timer stands at the earliest expiration to the microsecond, as a
  // valid timespec, and is disarmed exactly when nothing is scheduled.
  lemma ArmedForEarliest(keys: set<int>)
    requires forall t :: t in keys ==> t > 0
    ensures var k := ArmedFor(keys);
      && 0 <= k.nsec < 1000000000 && k.nsec % 1000 == 0
      && (k == KernelTimer(0, 0) <==> keys == {})
      && (keys != {} ==> k.sec * 1000000 + k.nsec / 1000 in keys)
      && (forall t :: t in keys ==> k.sec * 1000000 + k.nsec / 1000 <= t)
  {
  }

  // ---- The queue ----

  function EntryOf(t: Timer): Entry
    reads t
  {
    Entry(t.expiration, t.repeat, t.interval)
  }

  class TimerQueue {
    var timerMap: map<int, Timer>
    var positions: map<nat, int>
    var nextId: nat
    var armed: KernelTimer
    ghost var log: seq<Fired>

    // The two maps are inverse to each other, and a timer's key is its expiration.
    ghost predicate Agrees()
      reads this, timerMap.Values
    {
      && (forall t :: t in timerMap ==>
            && t > 0 && timerMap[t].expiration == t && timerMap[t].id < nextId
            && timerMap[t].id in positions && positions[timerMap[t].id] == t)
      && (forall id :: id in positions ==> positions[id] in timerMap && timerMap[positions[id]].id == id)
    }

    // These timers are in the map, each under its expiration.
    ghost predicate Keeps(kept: seq<Timer>)
      reads this, kept
    {
      forall i :: 0 <= i < |kept| ==> kept[i].expiration in timerMap && timerMap[kept[i].expiration] == kept[i]
    }

    ghost predicate Armed()
      reads this
    {
      armed == ArmedFor(timerMap.Keys)
    }

    ghost function View(): Queue
      requires Agrees()
      reads this, timerMap.Values
    {
      Queue(map id | id in positions :: EntryOf(timerMap[positions[id]]), nextId, log)
    }

    constructor (nextId: nat)
      ensures Agrees() && Armed() && View() == Queue(map[], nextId, []) && positions == map[] && timerMap == map[]
    {
      timerMap, positions, armed, log := map[], map[], KernelTimer(0, 0), [];
      this.nextId := nextId;
    }

    method UpdateTimerFd()
      modifies this`armed
      ensures Armed()
      ensures old(Agrees()) ==> Agrees() && View() == old(View())
    {
      var closeTime := KernelTimer(0, 0);
      if timerMap != map[] {
        var latest := First(timerMap.Keys);
        closeTime := KernelTimer(latest / MICROS_PER_SECOND, latest % MICROS_PER_SECOND * 1000);
      }
      armed := closeTime;
    }

    // The maps go on agreeing exactly when the time is not taken: a second timer
    // with the same expiration replaces the first, whose id stays behind.
    method AddTimer(expiration: int, interval: nat) returns (id: nat)
      requires Agrees() && expiration > 0
      modifies this`timerMap, this`positions, this`nextId, this`armed
      ensures id == old(nextId)
      ensures expiration in timerMap && fresh(timerMap[expiration])
      ensures timerMap == old(timerMap)[expiration := timerMap[expiration]]
      ensures positions == old(positions)[id := expiration] && nextId == id + 1
      ensures var t := timerMap[expiration]; t.id == id && EntryOf(t) == Entry(expiration, interval > 0, interval)
      ensures Armed()
      ensures Agrees() <==> expiration !in old(timerMap)
      ensures Agrees() ==> View() == Act(old(View()), Add(expiration, interval))
    {
      var timer := new Timer(nextId, expiration, interval);
      id := timer.id;
      Insert(timer);
      UpdateTimerFd();
    }

    lemma KnownId(id: nat)
      requires Agrees() && id in positions
      ensures id < nextId
    {
      var t := positions[id];
      assert t in timerMap && timerMap[t].id == id;
    }

    lemma NewId()
      requires Agrees()
      ensures nextId !in positions
    {
      forall id | id in positions ensures id < nextId {
        KnownId(id);
      }
    }

    method Insert(timer: Timer)
      requires Agrees() && timer.expiration > 0 && timer.id == nextId && (timer.repeat <==> timer.interval > 0)
      modifies this`timerMap, this`positions, this`nextId
      ensures timerMap == old(timerMap)[timer.expiration := timer]
      ensures positions == old(positions)[timer.id := timer.expiration] && nextId == old(nextId) + 1
      ensures Agrees() <==> timer.expiration !in old(timerMap)
      ensures Agrees() ==> View() == Act(old(View()), Add(timer.expiration, timer.interval))
    {
      NewId();
      ghost var before := timerMap;
      nextId := nextId + 1;
      timerMap := timerMap[timer.expiration := timer];
      positions := positions[timerMap[timer.expiration].id := timer.expiration];
      if timer.expiration in before {
        assert positions[before[timer.expiration].id] == timer.expiration;
      }
    }

    method Cancel(id: nat)
      requires Agrees()
      modifies this`timerMap, this`positions, this`armed
      ensures Agrees() && View() == Act(old(View()), Action.Cancel(id))
      ensures old(Armed()) ==> Armed()
      ensures timerMap == if id in old(positions) then old(timerMap) - {old(positions)[id]} else old(timerMap)
    {
      if id in positions {
        timerMap := timerMap - {positions[id]};
        positions := positions - {id};
        UpdateTimerFd();
      }
    }

    // timer->run(): what a callback asks of the queue, in the loop thread.
    // `kept` are the timers of the pass that are still to run.
    method RunCallback(actions: seq<Action>, ghost kept: seq<Timer>)
      requires Agrees() && Keeps(kept) && MayActAll(View(), actions, Ids(kept))
      modifies this`timerMap, this`positions, this`nextId, this`armed
      ensures Agrees() && Keeps(kept) && View() == ActAll(old(View()), actions)
      ensures fresh(timerMap.Values - old(timerMap.Values))
    {
      var i := 0;
      while i < |actions|
        invariant i <= |actions| && Agrees() && Keeps(kept)
        invariant MayActAll(View(), actions[i..], Ids(kept))
        invariant ActAll(View(), actions[i..]) == ActAll(old(View()), actions)
        invariant fresh(timerMap.Values - old(timerMap.Values))
      {
        assert actions[i..][1..] == actions[i + 1..];
        Perform(actions[i], kept);
        i := i + 1;
      }
      assert actions[i..] == [];
    }

    method Perform(a: Action, ghost kept: seq<Timer>)
      requires Agrees() && Keeps(kept) && MayAct(View(), a, Ids(kept))
      modifies this`timerMap, this`positions, this`nextId, this`armed
      ensures Agrees() && Keeps(kept) && View() == Act(old(View()), a)
      ensures fresh(timerMap.Values - old(timerMap.Values))
    {
      match a {
        case Add(expiration, interval) =>
          TimeFree(expiration);
          var _ := AddTimer(expiration, interval);
        case Cancel(id) =>
          assert forall i :: 0 <= i < |kept| ==> Ids(kept)[i] == kept[i].id && kept[i].id in Ids(kept);
          Cancel(id);
      }
    }

    lemma TimeFree(t: int)
      requires Agrees()
      ensures FreeTime(View().timers, t) <==> t !in timerMap
    {
      assert forall id :: id in View().timers ==> View().timers[id].expiration == positions[id];
      if t in timerMap {
        assert timerMap[t].id in View().timers;
      }
    }

    // The expired timers, in the order of the map.
    method GetExpired(now: int) returns (expired: seq<Timer>)
      requires Agrees()
      ensures Keeps(expired) && forall t :: t in expired ==> t in timerMap.Values
      ensures IsBatch(View().timers, now, Ids(expired))
    {
      expired := [];
      var rest := timerMap.Keys;
      while rest != {} && First(rest) <= now
        invariant rest <= timerMap.Keys
        invariant Keeps(expired)
        invariant forall i :: 0 <= i < |expired| ==> expired[i].expiration <= now && expired[i].expiration !in rest
        invariant forall i, t :: 0 <= i < |expired| && t in rest ==> expired[i].expiration < t
        invariant forall t :: t in timerMap && t !in rest ==> timerMap[t] in expired
        invariant forall i, j :: 0 <= i < j < |expired| ==> expired[i].expiration < expired[j].expiration
        decreases |rest|
      {
        var t := First(rest);
        expired := expired + [timerMap[t]];
        rest := rest - {t};
      }
      ExpiredIsBatch(now, expired, rest);
    }

    lemma OthersFree(timer: Timer, t: int)
      requires Agrees() && timer.expiration in timerMap && timerMap[timer.expiration] == timer
      ensures FreeTime(View().timers - {timer.id}, t) <==> t !in timerMap - {timer.expiration}
    {
      var others := View().timers - {timer.id};
      assert forall id :: id in others ==> others[id].expiration == positions[id] && positions[id] != timer.expiration;
      if t in timerMap - {timer.expiration} {
        assert timerMap[t].id in others;
      }
    }

    lemma Located(timer: Timer)
      requires Agrees() && timer.expiration in timerMap && timerMap[timer.expiration] == timer
      ensures timer.id in positions && positions[timer.id] == timer.expiration
    {
      var t := timer.expiration;
      assert timerMap[t].id in positions && positions[timerMap[t].id] == t;
    }

    lemma TurnFree(timer: Timer, tick: Tick, at: int)
      requires Agrees() && timer.expiration in timerMap && timerMap[timer.expiration] == timer
      requires Ticks(View(), timer.id, tick, at)
      ensures
        MayTurn(View(), timer.id, tick, at) <==>
          (timer.repeat ==> tick.now + timer.interval !in timerMap - {timer.expiration})
    {
      assert positions[timer.id] == timer.expiration;
      OthersFree(timer, tick.now + timer.interval);
    }

    // The rest of a timer's turn, after its callback. The maps go on agreeing
    // exactly when the time it is restarted for is not taken.
    method Settle(timer: Timer, tick: Tick, ghost at: int, ghost kept: seq<Timer>)
      requires Agrees() && Keeps([timer]) && Keeps(kept) && timer !in kept
      requires Ticks(View(), timer.id, tick, at)
      modifies this`timerMap, this`positions, this`log, timer`expiration
      ensures Agrees() <==> MayTurn(old(View()), timer.id, tick, at)
      ensures Agrees() ==> Keeps(kept) && View() == Turned(old(View()), timer.id, tick, at)
      ensures timerMap.Values <= old(timerMap).Values
    {
      assert [timer][0] == timer;
      TurnFree(timer, tick, at);
      if timer.repeat {
        SettleRepeating(timer, tick, at, kept);
      } else {
        SettleOneShot(timer, tick, at, kept);
      }
    }

    method SettleOneShot(temp: Timer, tick: Tick, ghost at: int, ghost kept: seq<Timer>)
      requires Agrees() && temp.expiration in timerMap && timerMap[temp.expiration] == temp && !temp.repeat
      requires Keeps(kept) && temp !in kept && Ticks(View(), temp.id, tick, at)
      modifies this`timerMap, this`positions, this`log
      ensures Agrees() && Keeps(kept) && View() == Turned(old(View()), temp.id, tick, at)
      ensures timerMap.Values <= old(timerMap).Values
    {
      log := log + [Fired(temp.id, temp.expiration, at, temp.repeat)];
      timerMap := timerMap - {temp.expiration};
      positions := positions - {temp.id};
    }

    method SettleRepeating(temp: Timer, tick: Tick, ghost at: int, ghost kept: seq<Timer>)
      requires Agrees() && temp.expiration in timerMap && timerMap[temp.expiration] == temp && temp.repeat
      requires Keeps(kept) && temp !in kept && Ticks(View(), temp.id, tick, at)
      modifies this`timerMap, this`positions, this`log, temp`expiration
      ensures Agrees() <==> MayTurn(old(View()), temp.id, tick, at)
      ensures Agrees() ==> Keeps(kept) && View() == Turned(old(View()), temp.id, tick, at)
      ensures timerMap.Values <= old(timerMap).Values
    {
      var t := tick.now + temp.interval;
      TurnFree(temp, tick, at);
      if t in timerMap - {temp.expiration} {
        RestartOnto(temp, tick.now, at);
      } else {
        RestartFree(temp, tick, at, kept);
      }
    }

    // The two outcomes of the same statements.
    method RestartFree(temp: Timer, tick: Tick, ghost at: int, ghost kept: seq<Timer>)
      requires Agrees() && temp.expiration in timerMap && timerMap[temp.expiration] == temp && temp.repeat
      requires Keeps(kept) && temp !in kept && MayTurn(View(), temp.id, tick, at)
      modifies this`timerMap, this`positions, this`log, temp`expiration
      ensures Agrees() && Keeps(kept) && View() == Turned(old(View()), temp.id, tick, at)
      ensures timerMap.Values <= old(timerMap).Values
    {
      OthersFree(temp, tick.now + temp.interval);
      Reinsert(temp, tick.now, at);
    }

    method RestartOnto(temp: Timer, now: int, ghost at: int)
      requires Agrees() && temp.expiration in timerMap && timerMap[temp.expiration] == temp && temp.repeat
      requires now + temp.interval in timerMap - {temp.expiration}
      modifies this`timerMap, this`positions, this`log, temp`expiration
      ensures !Agrees() && timerMap.Values <= old(timerMap).Values
    {
      ghost var lost := timerMap[now + temp.interval];
      Located(temp);
      Located(lost);
      assert positions[temp.id] == temp.expiration != positions[lost.id];
      Reinsert(temp, now, at);
      assert positions[lost.id] == temp.expiration && timerMap[temp.expiration] == temp;
    }

    method Reinsert(temp: Timer, now: int, ghost at: int)
      modifies this`timerMap, this`positions, this`log, temp`expiration
      ensures log == old(log) + [Fired(temp.id, old(temp.expiration), at, temp.repeat)]
      ensures temp.expiration == if temp.repeat then now + temp.interval else 0
      ensures timerMap == (old(timerMap) - {old(temp.expiration)})[temp.expiration := temp]
      ensures positions == old(positions)[temp.id := temp.expiration]
    {
      log := log + [Fired(temp.id, temp.expiration, at, temp.repeat)];
      timerMap := timerMap - {temp.expiration};
      Rearm(temp, now);
    }

    method Rearm(temp: Timer, now: int)
      modifies this`timerMap, this`positions, temp`expiration
      ensures temp.expiration == if temp.repeat then now + temp.interval else 0
      ensures timerMap == old(timerMap)[temp.expiration := temp]
      ensures positions == old(positions)[temp.id := temp.expiration]
    {
      temp.Restart(now);
      positions := positions[temp.id := temp.expiration];
      timerMap := timerMap[temp.expiration := temp];
    }

    // One expired timer: its callback, then its removal or restart.
    method Turn(timer: Timer, tick: Tick, ghost at: int, ghost kept: seq<Timer>)
      requires Agrees() && Keeps([timer] + kept) && timer !in kept
      requires MayActAll(View(), tick.actions, Ids([timer] + kept))
      requires MayTurn(ActAll(View(), tick.actions), timer.id, tick, at)
      modifies this`timerMap, this`positions, this`nextId, this`armed, this`log, timer`expiration
      ensures Agrees() && Keeps(kept) && View() == Turned(ActAll(old(View()), tick.actions), timer.id, tick, at)
      ensures fresh(timerMap.Values - old(timerMap.Values))
    {
      ghost var all := [timer] + kept;
      RunCallback(tick.actions, all);
      assert all[0] == timer && forall i :: 0 <= i < |kept| ==> kept[i] == all[i + 1];
      Settle(timer, tick, at, kept);
    }

    method Handle(now: int, ticks: seq<Tick>, ghost batch: seq<nat>)
      requires Agrees() && IsBatch(View().timers, now, batch) && MayPass(View(), batch, ticks, now)
      modifies this, timerMap.Values
      ensures Agrees() && Armed()
      ensures View() == Passed(old(View()), batch, ticks, now)
    {
      RunExpired(now, ticks, batch);
      UpdateTimerFd();
    }

    method RunExpired(now: int, ticks: seq<Tick>, ghost batch: seq<nat>)
      requires Agrees() && IsBatch(View().timers, now, batch) && MayPass(View(), batch, ticks, now)
      modifies this`timerMap, this`positions, this`nextId, this`armed, this`log, timerMap.Values
      ensures Agrees() && View() == Passed(old(View()), batch, ticks, now)
    {
      var expired := GetExpired(now);
      AllDue(now, expired, batch);
      HandleAll(expired, ticks, now);
    }

    lemma AllDue(now: int, expired: seq<Timer>, batch: seq<nat>)
      requires Agrees() && IsBatch(View().timers, now, Ids(expired)) && IsBatch(View().timers, now, batch)
      ensures Ids(expired) == batch
      ensures forall i, j :: 0 <= i < j < |expired| ==> expired[i] != expired[j]
    {
      BatchUnique(View().timers, now, Ids(expired), batch);
      ExpiredDistinct(now, expired);
    }

    // for(auto& timer : expiredList)
    method HandleAll(expired: seq<Timer>, ticks: seq<Tick>, ghost at: int)
      requires Agrees() && Keeps(expired) && MayPass(View(), Ids(expired), ticks, at)
      requires forall i, j :: 0 <= i < j < |expired| ==> expired[i] != expired[j]
      modifies this`timerMap, this`positions, this`nextId, this`armed, this`log, expired
      ensures Agrees() && View() == Passed(old(View()), Ids(expired), ticks, at)
    {
      ghost var batch := Ids(expired);
      var i := 0;
      while i < |expired|
        invariant i <= |expired| == |ticks| && Agrees() && Keeps(expired[i..])
        invariant MayPass(View(), batch[i..], ticks[i..], at)
        invariant Passed(View(), batch[i..], ticks[i..], at) == Passed(old(View()), batch, ticks, at)
      {
        Unfold(expired, batch, ticks, i);
        Turn(expired[i], ticks[i], at, expired[i + 1..]);
        i := i + 1;
      }
    }

    lemma ExpiredDistinct(now: int, expired: seq<Timer>)
      requires Agrees() && IsBatch(View().timers, now, Ids(expired))
      ensures forall i, j :: 0 <= i < j < |expired| ==> expired[i] != expired[j]
    {
      var ids := Ids(expired);
      assert forall i :: 0 <= i < |expired| ==> ids[i] == expired[i].id;
      assert forall i, j :: 0 <= i < j < |expired| ==> ids[i] != ids[j];
    }

    lemma ExpiredIsBatch(now: int, expired: seq<Timer>, rest: set<int>)
      requires Agrees() && rest <= timerMap.Keys
      requires Keeps(expired)
      requires forall i :: 0 <= i < |expired| ==> expired[i].expiration <= now
      requires forall t :: t in rest ==> t > now
      requires forall t :: t in timerMap && t !in rest ==> timerMap[t] in expired
      requires forall i, j :: 0 <= i < j < |expired| ==> expired[i].expiration < expired[j].expiration
      ensures IsBatch(View().timers, now, Ids(expired))
    {
      var timers, ids := View().timers, Ids(expired);
      forall i | 0 <= i < |ids| ensures ids[i] in timers && timers[ids[i]].expiration == expired[i].expiration {
        assert positions[expired[i].id] == expired[i].expiration;
      }
      forall id | id in timers && timers[id].expiration <= now ensures id in ids {
        assert timers[id].expiration == positions[id] && positions[id] !in rest;
        assert timerMap[positions[id]] in expired;
        var i :| 0 <= i < |expired| && expired[i] == timerMap[positions[id]];
        assert ids[i] == id;
      }
    }
  }

  // ---- Two ways to a taken time ----

  // Two timers for the same time: the first is lost, and its id still points at
  // the second.
  method AddOntoTakenTime(expiration: int) returns (q: TimerQueue, first: nat, second: nat)
    requires expiration > 0
    ensures first != second && q.positions == map[first := expiration, second := expiration]
    ensures expiration in q.timerMap && q.timerMap[expiration].id == second && !q.Agrees()
  {
    q := new TimerQueue(0);
    assert q.positions == map[];
    first := q.AddTimer(expiration, 0);
    second := q.AddTimer(expiration, 0);
  }

  // A repeating timer, restarted at `now`, falls on one that waits there.
  method RestartOntoTakenTime(expiration: int, interval: nat, now: int) returns (q: TimerQueue)
    requires 0 < expiration <= now && interval > 0
    ensures !q.Agrees()
  {
    var repeating: Timer;
    q, repeating := TwoTimers(expiration, interval, now + interval);
    assert [repeating][0] == repeating;
    q.Located(repeating);
    q.TurnFree(repeating, Tick([], now), now);
    q.Settle(repeating, Tick([], now), now, []);
  }

  // A repeating timer, and a later one-shot.
  method TwoTimers(expiration: int, interval: nat, later: int) returns (q: TimerQueue, repeating: Timer)
    requires 0 < expiration < later && interval > 0
    ensures fresh(q) && fresh(repeating)
    ensures q.Agrees() && q.Keeps([repeating]) && later in q.timerMap
    ensures repeating.repeat && repeating.expiration == expiration && repeating.interval == interval
  {
    q := new TimerQueue(0);
    var _ := q.AddTimer(expiration, interval);
    repeating := q.timerMap[expiration];
    var _ := q.AddTimer(later, 0);
  }

  function Ids(timers: seq<Timer>): seq<nat> {
    seq(|timers|, i requires 0 <= i < |timers| => timers[i].id)
  }

  lemma Unfold(expired: seq<Timer>, batch: seq<nat>, ticks: seq<Tick>, i: nat)
    requires i < |expired| == |ticks| && Ids(expired) == batch
    ensures expired[i..] == [expired[i]] + expired[i + 1..] && Ids(expired[i..]) == batch[i..]
    ensures batch[i..][0] == expired[i].id && batch[i..][1..] == batch[i + 1..]
    ensures ticks[i..][0] == ticks[i] && ticks[i..][1..] == ticks[i + 1..]
  {
  }
}
