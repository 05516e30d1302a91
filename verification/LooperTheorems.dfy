// What the Looper protocol guarantees, over every interleaving.
module LooperTheorems {
  import opened LooperProtocol

  ghost predicate Reached(steps: seq<Step>, s: State) {
    Legal(Created(), steps) && s == Run(Created(), steps)
  }

  lemma ReachedInv(steps: seq<Step>, s: State)
    requires Reached(steps, s)
    ensures Inv(s)
  {
    RunKeeps(Created(), steps);
  }

  // While the loop is blocked in poll and nothing is written to the eventfd, a
  // task in tasks_ belongs to a run() that has not returned, or was only queued;
  // and every stop() since start() that the loop has not seen is itself still on
  // its way to the eventfd: none that has returned goes unseen.
  lemma NoLostWakeup(steps: seq<Step>, s: State)
    requires Reached(steps, s) && s.pc == Polling && s.counter == 0
    ensures forall t :: t in s.tasks && t.viaRun ==> t.id in s.owed
    ensures s.unseen <= s.stopsOwed
    ensures s.stop <==> s.unseen != {}
  {
    ReachedInv(steps, s);
  }

  lemma {:induction false} IdleStays(s: State, steps: seq<Step>, call: nat)
    requires Legal(s, steps) && s.pc == Idle && !Restarts(steps) && call < s.stops && call !in s.unseen
    ensures Run(s, steps).pc == Idle && call !in Run(s, steps).unseen
    decreases |steps|
  {
    if steps != [] {
      assert steps[0] in steps;
      IdleStays(Next(s, steps[0]), steps[1..], call);
    }
  }

  // What unseen means: a call of stop() is in it until the loop starts again, or
  // comes to its test and returns.
  lemma {:induction false} UnseenUntil(s: State, steps: seq<Step>, call: nat)
    requires Legal(s, steps) && call in s.unseen && Inv(s) && s.pc != Idle && !Restarts(steps)
    ensures call in Run(s, steps).unseen <==> Run(s, steps).pc != Idle
    decreases |steps|
  {
    if steps != [] {
      assert steps[0] in steps;
      NextAwake(s, steps[0]);
      NextFifo(s, steps[0]);
      if steps[0] == Check {
        if s.stop {
          IdleStays(Next(s, Check), steps[1..], call);
        }
      } else {
        UnseenUntil(Next(s, steps[0]), steps[1..], call);
      }
    }
  }

  // Tasks run in the order in which they were pushed, each exactly once, and
  // always in the batch taken next after the push: a task pushed by a task runs
  // one iteration later.
  lemma FifoExactlyOnce(steps: seq<Step>, s: State)
    requires Reached(steps, s)
    ensures |s.executed| <= |s.pushed|
    ensures forall i :: 0 <= i < |s.executed| ==>
      s.executed[i].task == s.pushed[i] && s.executed[i].batch == s.pushed[i].pushedAt + 1
    ensures s.batch + s.tasks == s.pushed[|s.executed|..]
  {
    ReachedInv(steps, s);
    var ran := Tasks(s.executed);
    assert s.pushed == ran + (s.batch + s.tasks);
    forall i | 0 <= i < |s.executed|
      ensures s.executed[i].task == s.pushed[i] && s.executed[i].batch == s.pushed[i].pushedAt + 1
    {
      assert ran[i] == s.pushed[i];
      assert s.executed[i] in s.executed;
    }
  }

  function Returns(steps: seq<Step>): nat {
    if steps == [] then 0 else (if steps[0].Return? then 1 else 0) + Returns(steps[1..])
  }

  function Began(s: State): nat {
    s.batches + if s.pc.Handling? then 1 else 0
  }

  // Every return from poll is followed by exactly one batch.
  lemma {:induction false} OneBatchPerReturn(s: State, steps: seq<Step>)
    requires Legal(s, steps)
    ensures Began(Run(s, steps)) == Began(s) + Returns(steps)
    decreases |steps|
  {
    if steps != [] {
      OneBatchPerReturn(Next(s, steps[0]), steps[1..]);
    }
  }

  lemma {:induction false} PushedGrows(s: State, steps: seq<Step>)
    requires Legal(s, steps)
    ensures s.pushed <= Run(s, steps).pushed
    decreases |steps|
  {
    if steps != [] {
      assert s.pushed <= Next(s, steps[0]).pushed;
      PushedGrows(Next(s, steps[0]), steps[1..]);
    }
  }

  // Once poll has returned, whatever the reason and whatever other threads do
  // meanwhile, the loop does not block again before it has run everything that
  // was queued, all of it in one batch.
  lemma NothingLeftBehind(steps: seq<Step>, s: State, more: seq<Step>, t: Task)
    requires Reached(steps, s) && s.pc == Polling && Legal(s, more) && t in s.tasks
    requires Returns(more) > 0 && Run(s, more).pc == Polling
    ensures Record(t, s.batches + 1) in Run(s, more).executed
  {
    ReachedInv(steps, s);
    RunKeeps(s, more);
    OneBatchPerReturn(s, more);
    PushedGrows(s, more);
    var u := Run(s, more);
    assert t in s.pushed && t in u.pushed;
    assert t !in u.tasks && u.batch == [];
    assert t in Tasks(u.executed);
    var i :| 0 <= i < |u.executed| && Tasks(u.executed)[i] == t;
    assert u.executed[i] in u.executed;
  }

  predicate Restarts(steps: seq<Step>) {
    Start in steps
  }

  // A stop() seen by nobody yet ends the loop at the next return from poll.
  lemma {:induction false} StopEndsLoop(s: State, more: seq<Step>)
    requires s.stop && s.pc != Polling && Legal(s, more) && !Restarts(more)
    ensures Run(s, more).stop && Run(s, more).pc != Polling
    decreases |more|
  {
    if more != [] {
      assert more[0] in more;
      StopEndsLoop(Next(s, more[0]), more[1..]);
    }
  }

  lemma {:induction false} StopSeenAfterReturn(s: State, more: seq<Step>)
    requires s.stop && Legal(s, more) && !Restarts(more) && Returns(more) > 0
    ensures Run(s, more).pc != Polling
    decreases |more|
  {
    assert more[0] in more;
    if more[0].Return? || s.pc != Polling {
      StopEndsLoop(Next(s, more[0]), more[1..]);
    } else {
      StopSeenAfterReturn(Next(s, more[0]), more[1..]);
    }
  }

  predicate Stops(step: Step) {
    step == StopSet || step == StopInLoop
  }

  // Without a stop the loop goes on: start() does not return, whatever is queued,
  // run or woken meanwhile.
  lemma {:induction false} GoesOn(s: State, steps: seq<Step>)
    requires Legal(s, steps) && s.pc != Idle && !s.stop && forall step :: step in steps ==> !Stops(step)
    ensures Run(s, steps).pc != Idle && !Run(s, steps).stop
    decreases |steps|
  {
    if steps != [] {
      assert steps[0] in steps;
      GoesOn(Next(s, steps[0]), steps[1..]);
    }
  }

  // A stop() of either kind, at any point of a running loop, ends it: the flag
  // stays up, and from the next return from poll on the loop never blocks again.
  lemma StopStops(s: State, step: Step, more: seq<Step>)
    requires Enabled(s, step) && Stops(step) && Legal(Next(s, step), more) && !Restarts(more)
    ensures Next(s, step).stop && Next(s, step).stops == s.stops + 1 && s.stops in Next(s, step).unseen
    ensures s.pc != Polling || Returns(more) > 0 ==> Run(Next(s, step), more).pc != Polling
  {
    if s.pc != Polling {
      StopEndsLoop(Next(s, step), more);
    } else if Returns(more) > 0 {
      StopSeenAfterReturn(Next(s, step), more);
    }
  }

  predicate Pushes(step: Step) {
    step in {RunPush, Queue, QueueInLoop}
  }

  function PushCount(steps: seq<Step>): nat {
    if steps == [] then 0 else (if Pushes(steps[0]) then 1 else 0) + PushCount(steps[1..])
  }

  // Every push counts: with FifoExactlyOnce, what was pushed and not yet run
  // waits in the batch or the queue.
  lemma {:induction false} EveryPushCounts(s: State, steps: seq<Step>)
    requires Legal(s, steps)
    ensures |Run(s, steps).pushed| == |s.pushed| + PushCount(steps)
    decreases |steps|
  {
    if steps != [] {
      EveryPushCounts(Next(s, steps[0]), steps[1..]);
    }
  }

  predicate Writes(step: Step) {
    step.RunWake? || step.StopWake? || step.StopInLoop?
  }

  // The writes since the eventfd was last read.
  function Unread(steps: seq<Step>, before: nat): nat
    decreases |steps|
  {
    if steps == [] then before
    else Unread(steps[1..], if steps[0] == ReadEventfd then 0 else if Writes(steps[0]) then before + 1 else before)
  }

  // The eventfd holds exactly the writes since it was last read; run(), stop()
  // and nothing else writes it, once each.
  lemma {:induction false} EventfdCounts(s: State, steps: seq<Step>)
    requires Legal(s, steps)
    ensures Run(s, steps).counter == Unread(steps, s.counter)
    decreases |steps|
  {
    if steps != [] {
      EventfdCounts(Next(s, steps[0]), steps[1..]);
    }
  }

  // The loop thread alone: one iteration from a written eventfd, up to the next test.
  function Iteration(tasks: nat): seq<Step> {
    [Return(true), ReadEventfd, Take] + seq(tasks, _ => Execute) + [Finish, Check]
  }

  lemma {:induction false} ExecuteAll(s: State, n: nat)
    requires s.pc == Running && n == |s.batch|
    ensures var steps := seq(n, _ => Execute) + [Finish, Check];
      && Legal(s, steps)
      && Run(s, steps).pc == (if s.stop then Idle else Polling)
      && Run(s, steps).tasks == s.tasks && Run(s, steps).counter == s.counter
      && Tasks(Run(s, steps).executed) == Tasks(s.executed) + s.batch
    decreases n
  {
    var steps := seq(n, _ => Execute) + [Finish, Check];
    if n == 0 {
      assert steps == [Finish, Check] && steps[1..] == [Check] && [Check][1..] == [];
      assert Tasks(s.executed) + s.batch == Tasks(s.executed);
    } else {
      assert steps[1..] == seq(n - 1, _ => Execute) + [Finish, Check];
      var t := Next(s, Execute);
      ExecuteAll(t, n - 1);
      assert Tasks(t.executed) == Tasks(s.executed) + [s.batch[0]];
      assert s.batch == [s.batch[0]] + t.batch;
    }
  }

  // A written eventfd is enough: with no further event the loop thread can run
  // everything that was queued, and then blocks again with the eventfd read, or
  // returns if it was stopped.
  lemma WakeupIsEnough(s: State)
    requires s.pc == Polling && s.counter > 0
    ensures var steps := Iteration(|s.tasks|);
      && Legal(s, steps)
      && Run(s, steps).pc == (if s.stop then Idle else Polling)
      && Run(s, steps).tasks == [] && Run(s, steps).counter == 0
      && Tasks(Run(s, steps).executed) == Tasks(s.executed) + s.tasks
  {
    var steps := Iteration(|s.tasks|);
    var rest := seq(|s.tasks|, _ => Execute) + [Finish, Check];
    var s1 := Next(s, Return(true));
    var s2 := Next(s1, ReadEventfd);
    var s3 := Next(s2, Take);
    assert steps[1..] == [ReadEventfd, Take] + rest;
    assert steps[1..][1..] == [Take] + rest;
    assert steps[1..][1..][1..] == rest;
    ExecuteAll(s3, |s.tasks|);
    assert Legal(s2, [Take] + rest) && Run(s2, [Take] + rest) == Run(s3, rest);
    assert Legal(s1, [ReadEventfd, Take] + rest) && Run(s1, [ReadEventfd, Take] + rest) == Run(s3, rest);
  }

  lemma LegalCons(s: State, step: Step, tail: seq<Step>)
    requires Enabled(s, step) && Legal(Next(s, step), tail)
    ensures Legal(s, [step] + tail) && Run(s, [step] + tail) == Run(Next(s, step), tail)
  {
    assert ([step] + tail)[1..] == tail;
  }

  // Two limits of the protocol: queue() alone leaves the loop blocked,
  lemma QueueDoesNotWake() returns (steps: seq<Step>, s: State)
    ensures Reached(steps, s) && s.pc == Polling && s.counter == 0 && s.tasks != [] && s.owed == {}
  {
    var s1 := Next(Created(), Start);
    var s2 := Next(s1, Check);
    s := Next(s2, Queue);
    LegalCons(s2, Queue, []);
    LegalCons(s1, Check, [Queue] + []);
    LegalCons(Created(), Start, [Check] + ([Queue] + []));
    steps := [Start] + ([Check] + ([Queue] + []));
  }

  // and a stop() that returns before start() is forgotten.
  lemma EarlyStopIsForgotten() returns (steps: seq<Step>, s: State)
    ensures Reached(steps, s) && s.stops == 1 && s.stopsOwed == {} && s.pc == Polling && !s.stop
  {
    var s1 := Next(Created(), StopSet);
    var s2 := Next(s1, StopWake(0));
    var s3 := Next(s2, Start);
    s := Next(s3, Check);
    LegalCons(s3, Check, []);
    LegalCons(s2, Start, [Check] + []);
    LegalCons(s1, StopWake(0), [Start] + ([Check] + []));
    LegalCons(Created(), StopSet, [StopWake(0)] + ([Start] + ([Check] + [])));
    steps := [StopSet] + ([StopWake(0)] + ([Start] + ([Check] + [])));
  }
}
