// net/base/Looper.cpp in its own form. Each method is one locked region, one
// eventfd access, or, for RunTasks, the loop over the batch.
module Loopers {
  import opened Basics
  import opened LooperProtocol

  // A batch run to its end; the i-th task pushes spawns[i] tasks of its own.
  function Spawned(s: State, n: nat): State
    decreases n
  {
    if n == 0 then s else Spawned(Pushed(s, false), n - 1)
  }

  function AllRun(s: State, spawns: seq<nat>): State
    requires |spawns| == |s.batch|
    decreases |spawns|
  {
    if spawns == [] then s
    else
      SpawnedBatch(Executed(s), spawns[0]);
      AllRun(Spawned(Executed(s), spawns[0]), spawns[1..])
  }

  lemma {:induction false} SpawnedBatch(s: State, n: nat)
    ensures Spawned(s, n).batch == s.batch && Spawned(s, n).batches == s.batches && Spawned(s, n).pc == s.pc
    ensures Spawned(s, n).executed == s.executed && s.tasks <= Spawned(s, n).tasks
    decreases n
  {
    if n > 0 {
      assert s.tasks <= Pushed(s, false).tasks;
      SpawnedBatch(Pushed(s, false), n - 1);
    }
  }

  // What a batch does: it runs every task it was given, in order, and none of
  // those pushed on the way.
  lemma {:induction false} AllRunRuns(s: State, spawns: seq<nat>)
    requires |spawns| == |s.batch|
    ensures AllRun(s, spawns).batch == [] && s.tasks <= AllRun(s, spawns).tasks
    ensures AllRun(s, spawns).batches == s.batches
    ensures Tasks(AllRun(s, spawns).executed) == Tasks(s.executed) + s.batch
    decreases |spawns|
  {
    if spawns == [] {
      assert Tasks(s.executed) + s.batch == Tasks(s.executed);
    } else {
      var t := Spawned(Executed(s), spawns[0]);
      SpawnedBatch(Executed(s), spawns[0]);
      AllRunRuns(t, spawns[1..]);
      assert Tasks(t.executed) == Tasks(s.executed) + [s.batch[0]];
      assert s.batch == [s.batch[0]] + t.batch;
    }
  }

  lemma {:induction false} RunConcat(s: State, a: seq<Step>, b: seq<Step>)
    requires Legal(s, a) && Legal(Run(s, a), b)
    ensures Legal(s, a + b) && Run(s, a + b) == Run(Run(s, a), b)
    decreases |a|
  {
    if a == [] {
      assert a + b == b;
    } else {
      assert (a + b)[1..] == a[1..] + b;
      RunConcat(Next(s, a[0]), a[1..], b);
    }
  }

  // The pushes of one task are steps of the loop thread.
  lemma {:induction false} SpawnedIsRun(s: State, n: nat) returns (steps: seq<Step>)
    requires InCallback(s.pc)
    ensures Legal(s, steps) && Run(s, steps) == Spawned(s, n)
    decreases n
  {
    steps := [];
    if n > 0 {
      var rest := SpawnedIsRun(Next(s, QueueInLoop), n - 1);
      steps := [QueueInLoop] + rest;
      assert steps[1..] == rest;
    }
  }

  // So is the whole batch, up to the end of the loop over it.
  lemma {:induction false} AllRunIsRun(s: State, spawns: seq<nat>) returns (steps: seq<Step>)
    requires s.pc == Running && |spawns| == |s.batch|
    ensures Legal(s, steps) && Run(s, steps) == AllRun(s, spawns).(pc := LoopTest)
    decreases |spawns|
  {
    if spawns == [] {
      steps := [Finish];
      assert steps[1..] == [];
    } else {
      var t := Next(s, Execute);
      var pushes := SpawnedIsRun(t, spawns[0]);
      SpawnedBatch(t, spawns[0]);
      var rest := AllRunIsRun(Spawned(t, spawns[0]), spawns[1..]);
      RunConcat(t, pushes, rest);
      steps := [Execute] + (pushes + rest);
      assert steps[1..] == pushes + rest;
    }
  }

  // A std::function, by some name for it.
  type Func = nat

  function Sizes(spawns: seq<seq<Func>>): seq<nat> {
    seq(|spawns|, i requires 0 <= i < |spawns| => |spawns[i]|)
  }

  lemma AllRunNext(s: State, spawns: seq<seq<Func>>)
    requires spawns != [] && |s.batch| == |spawns|
    ensures
      var t := Spawned(Executed(s), |spawns[0]|);
      |t.batch| == |spawns| - 1 && AllRun(s, Sizes(spawns)) == AllRun(t, Sizes(spawns[1..]))
  {
    assert Sizes(spawns)[1..] == Sizes(spawns[1..]);
    SpawnedBatch(Executed(s), |spawns[0]|);
  }

  lemma FlattenNext(spawns: seq<seq<Func>>, i: nat)
    requires i < |spawns|
    ensures Flatten(spawns[..i + 1]) == Flatten(spawns[..i]) + spawns[i]
  {
    FlattenSnoc(spawns[..i], spawns[i]);
    assert spawns[..i + 1] == spawns[..i] + [spawns[i]];
  }

  class Looper {
    var stop: bool
    var counter: nat       // the eventfd
    var tasks: seq<Func>
    var batch: seq<Func>   // the local vector of start()
    // Program counter and accounting, as in State: the numbered tasks that stand
    // for those in tasks and batch, and which function each number stands for.
    ghost var pc: Pc
    ghost var queued: seq<Task>
    ghost var taken: seq<Task>
    ghost var funcs: seq<Func>
    ghost var owed: set<nat>
    ghost var stopsOwed: set<nat>
    ghost var stops: nat
    ghost var unseen: set<nat>
    ghost var pushed: seq<Task>
    ghost var executed: seq<Record>
    ghost var batches: nat

    ghost predicate Valid()
      reads this`tasks, this`batch, this`queued, this`taken, this`funcs, this`pushed
    {
      |funcs| == |pushed| && StandsFor(queued, tasks) && StandsFor(taken, batch)
    }

    ghost predicate StandsFor(numbers: seq<Task>, fs: seq<Func>)
      reads this`funcs
    {
      |numbers| == |fs| && forall i :: 0 <= i < |fs| ==> numbers[i].id < |funcs| && funcs[numbers[i].id] == fs[i]
    }

    ghost function View(): State
      reads this
    {
      State(stop, counter, queued, taken, pc, owed, stopsOwed, stops, unseen, pushed, executed, batches)
    }

    constructor ()
      ensures Valid() && View() == Created() && tasks == []
    {
      stop, counter, tasks, batch := false, 0, [], [];
      pc, queued, taken, funcs := Idle, [], [], [];
      owed, stopsOwed, stops, unseen, pushed, executed, batches := {}, {}, 0, {}, [], [], 0;
    }

    method Queue(func: Func, ghost viaRun: bool)
      requires Valid()
      modifies this`tasks, this`queued, this`funcs, this`pushed
      ensures Valid() && View() == Pushed(old(View()), viaRun)
      ensures tasks == old(tasks) + [func] && funcs == old(funcs) + [func]
    {
      ghost var task := Task(|pushed|, viaRun, batches);
      tasks := tasks + [func];
      queued, pushed, funcs := queued + [task], pushed + [task], funcs + [func];
    }

    method Wakeup()
      requires Valid()
      modifies this`counter
      ensures Valid() && counter == old(counter) + 1
    {
      counter := counter + 1;
    }

    // run() from another thread, up to and after its eventfd write.
    method RunPush(func: Func) returns (ghost id: nat)
      requires Valid()
      modifies this`tasks, this`queued, this`funcs, this`pushed, this`owed
      ensures Valid() && View() == Next(old(View()), Step.RunPush) && id == old(|pushed|)
      ensures tasks == old(tasks) + [func]
    {
      id := |pushed|;
      Queue(func, true);
      owed := owed + {id};
    }

    method RunWake(ghost id: nat)
      requires Valid() && id in owed
      modifies this`counter, this`owed
      ensures Valid() && View() == Next(old(View()), Step.RunWake(id))
    {
      Wakeup();
      owed := owed - {id};
    }

    // stop() in the loop thread.
    method Stop()
      requires Valid() && InCallback(pc)
      modifies this`stop, this`counter, this`stops, this`unseen
      ensures Valid() && View() == Next(old(View()), StopInLoop)
    {
      stop := true;
      unseen, stops := unseen + {stops}, stops + 1;
      Wakeup();
    }

    // stop() in another thread, up to and after its eventfd write.
    method StopSet() returns (ghost call: nat)
      requires Valid()
      modifies this`stop, this`stops, this`unseen, this`stopsOwed
      ensures Valid() && View() == Next(old(View()), Step.StopSet) && call == old(stops)
    {
      stop := true;
      call := stops;
      unseen, stops, stopsOwed := unseen + {call}, stops + 1, stopsOwed + {call};
    }

    method StopWake(ghost call: nat)
      requires Valid() && call in stopsOwed
      modifies this`counter, this`stopsOwed
      ensures Valid() && View() == Next(old(View()), Step.StopWake(call))
    {
      Wakeup();
      stopsOwed := stopsOwed - {call};
    }

    // The entry of start(), and while(!stop_).
    method Start()
      requires Valid() && pc == Idle
      modifies this`stop, this`pc, this`unseen
      ensures Valid() && View() == Next(old(View()), Step.Start)
    {
      stop := false;
      pc, unseen := LoopTest, {};
    }

    method Test() returns (goOn: bool)
      requires Valid() && pc == LoopTest
      modifies this`pc, this`unseen
      ensures Valid() && View() == Next(old(View()), Check) && (goOn <==> pc == Polling)
    {
      goOn := !stop;
      if goOn {
        pc := Polling;
      } else {
        pc, unseen := Idle, {};
      }
    }

    // The read callback of wakeupEvent_.
    method ReadCallback()
      requires Valid() && pc == Handling(true)
      modifies this`counter, this`pc
      ensures Valid() && View() == Next(old(View()), ReadEventfd)
    {
      counter := 0;
      pc := Handling(false);
    }

    method TakeTasks()
      requires Valid() && pc == Handling(false) && batch == []
      modifies this`tasks, this`batch, this`queued, this`taken, this`pc, this`batches
      ensures Valid() && View() == Next(old(View()), Take)
      ensures batch == old(tasks) && tasks == []
    {
      tasks, batch := batch, tasks;
      queued, taken, pc, batches := taken, queued, Running, batches + 1;
    }

    method QueueMany(fs: seq<Func>)
      requires Valid()
      modifies this`tasks, this`queued, this`funcs, this`pushed
      ensures Valid() && View() == Spawned(old(View()), |fs|) && tasks == old(tasks) + fs
    {
      var i := 0;
      while i < |fs|
        invariant i <= |fs| && Valid() && Spawned(View(), |fs| - i) == Spawned(old(View()), |fs|)
        invariant tasks == old(tasks) + fs[..i]
      {
        Queue(fs[i], false);
        i := i + 1;
      }
    }

    // One turn of the loop: the task is called and queues `fs`.
    method CallTask(fs: seq<Func>) returns (func: Func)
      requires Valid() && batch != []
      modifies this`tasks, this`queued, this`funcs, this`pushed, this`batch, this`taken, this`executed
      ensures Valid() && old(View()).batch != [] && View() == Spawned(Executed(old(View())), |fs|)
      ensures func == old(batch)[0] && batch == old(batch)[1..] && tasks == old(tasks) + fs
    {
      func := batch[0];
      executed := executed + [Record(taken[0], batches)];
      batch, taken := batch[1..], taken[1..];
      QueueMany(fs);
    }

    // for(auto& task : tasks) task(): the functions of the batch are called in
    // order, and the i-th queues spawns[i].
    method CallAll(spawns: seq<seq<Func>>) returns (ran: seq<Func>)
      requires Valid() && |spawns| == |batch|
      modifies this`tasks, this`queued, this`funcs, this`pushed, this`batch, this`taken, this`executed
      ensures Valid() && batch == [] && View() == AllRun(old(View()), Sizes(spawns))
      ensures ran == old(batch) && tasks == old(tasks) + Flatten(spawns)
    {
      ghost var begin, all, before := View(), batch, tasks;
      ran := [];
      var i := 0;
      while i < |spawns|
        invariant i <= |spawns| && Called(begin, all, before, spawns, i, ran)
      {
        var func := CallNext(begin, all, before, spawns, i, ran);
        ran := ran + [func];
        i := i + 1;
      }
      assert spawns[i..] == [] && Sizes(spawns[i..]) == [] && spawns[..i] == spawns;
    }

    // The first `i` tasks of the batch have been called, the rest is still there.
    ghost predicate Called(begin: State, all: seq<Func>, before: seq<Func>, spawns: seq<seq<Func>>, i: nat, ran: seq<Func>)
      requires |spawns| == |begin.batch| && i <= |spawns|
      reads this
    {
      && Valid() && ran + batch == all && |batch| == |spawns| - i
      && AllRun(View(), Sizes(spawns[i..])) == AllRun(begin, Sizes(spawns))
      && tasks == before + Flatten(spawns[..i])
    }

    method CallNext(ghost begin: State, ghost all: seq<Func>, ghost before: seq<Func>, spawns: seq<seq<Func>>, i: nat,
                    ghost ran: seq<Func>)
      returns (func: Func)
      requires |spawns| == |begin.batch| && i < |spawns| && Called(begin, all, before, spawns, i, ran)
      modifies this`tasks, this`queued, this`funcs, this`pushed, this`batch, this`taken, this`executed
      ensures Called(begin, all, before, spawns, i + 1, ran + [func])
    {
      AllRunNext(View(), spawns[i..]);
      FlattenNext(spawns, i);
      assert spawns[i..][1..] == spawns[i + 1..];
      func := CallTask(spawns[i]);
    }

    // The loop up to the test of start(): a run of the protocol.
    method RunTasks(spawns: seq<seq<Func>>) returns (ran: seq<Func>, ghost steps: seq<Step>)
      requires Valid() && pc == Running && |spawns| == |batch|
      modifies this`tasks, this`queued, this`funcs, this`pushed, this`batch, this`taken, this`executed, this`pc
      ensures Valid() && View() == AllRun(old(View()), Sizes(spawns)).(pc := LoopTest)
      ensures Legal(old(View()), steps) && Run(old(View()), steps) == View()
      ensures Tasks(executed) == Tasks(old(executed)) + old(taken) && batch == []
      ensures ran == old(batch) && tasks == old(tasks) + Flatten(spawns)
    {
      ghost var sizes := Sizes(spawns);
      steps := AllRunIsRun(View(), sizes);
      AllRunRuns(View(), sizes);
      ran := CallAll(spawns);
      pc := LoopTest;
    }
  }
}
