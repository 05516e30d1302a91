// net/base/Looper.cpp: the loop thread, the threads that hand it tasks or stop
// it, and the eventfd that wakes it, as a transition system. A region that holds
// mutex_ is one step; a push and the eventfd write that follows it are two.
module LooperProtocol {

  // `id` is the place in the order of pushes, `pushedAt` the number of batches
  // taken before the push; neither is in the program.
  datatype Task = Task(id: nat, viaRun: bool, pushedAt: nat)
  datatype Record = Record(task: Task, batch: nat)

  datatype Pc =
    | Idle                     // before start() or after it returned
    | LoopTest                 // while(!stop_)
    | Polling                  // blocked in poll
    | Handling(wakeup: bool)   // running the active events; the wakeup event is still to come
    | Running                  // running the batch

  datatype State = State(
    stop: bool,
    counter: nat,              // eventfd
    tasks: seq<Task>,          // tasks_
    batch: seq<Task>,          // what is left of the local vector of start()
    pc: Pc,
    // Accounting, read by no step of the program. Tasks and calls of stop() are numbered.
    owed: set<nat>,            // tasks pushed by run() from another thread, eventfd not yet written
    stopsOwed: set<nat>,       // stop() calls from another thread, eventfd not yet written
    stops: nat,                // stop() calls made
    unseen: set<nat>,          // those made since the last start() that the loop has not seen
    pushed: seq<Task>, executed: seq<Record>, batches: nat)

  datatype Step =
    // the loop thread
    | Start | Check | Return(wakeup: bool) | ReadEventfd | Take | Execute | Finish
    | QueueInLoop | StopInLoop
    // other threads
    | RunPush | RunWake(id: nat) | Queue | StopSet | StopWake(call: nat)

  function Created(): State {
    State(false, 0, [], [], Idle, {}, {}, 0, {}, [], [], 0)
  }

  function Pushed(s: State, viaRun: bool): State {
    var task := Task(|s.pushed|, viaRun, s.batches);
    s.(tasks := s.tasks + [task], pushed := s.pushed + [task])
  }

  predicate InCallback(pc: Pc) {
    pc.Handling? || pc.Running?
  }

  predicate Enabled(s: State, step: Step) {
    match step
    case Start => s.pc == Idle
    case Check => s.pc == LoopTest
    case Return(wakeup) => s.pc == Polling && (wakeup ==> s.counter > 0)
    case ReadEventfd => s.pc == Handling(true)
    case Take => s.pc == Handling(false)
    case Execute => s.pc == Running && s.batch != []
    case Finish => s.pc == Running && s.batch == []
    case QueueInLoop => InCallback(s.pc)
    case StopInLoop => InCallback(s.pc)
    case RunPush => true
    case RunWake(id) => id in s.owed
    case Queue => true
    case StopSet => true
    case StopWake(call) => call in s.stopsOwed
  }

  function Taken(s: State): State {
    s.(batch := s.tasks, tasks := [], pc := Running, batches := s.batches + 1)
  }

  function Executed(s: State): State
    requires s.batch != []
  {
    s.(batch := s.batch[1..], executed := s.executed + [Record(s.batch[0], s.batches)])
  }

  // stop_ = true, by the next call of stop().
  function Stopped(s: State): State {
    s.(stop := true, stops := s.stops + 1, unseen := s.unseen + {s.stops})
  }

  function Next(s: State, step: Step): State
    requires Enabled(s, step)
  {
    match step
    case Start => s.(stop := false, unseen := {}, pc := LoopTest)
    case Check => if s.stop then s.(unseen := {}, pc := Idle) else s.(pc := Polling)
    case Return(wakeup) => s.(pc := Handling(wakeup))
    case ReadEventfd => s.(counter := 0, pc := Handling(false))
    case Take => Taken(s)
    case Execute => Executed(s)
    case Finish => s.(pc := LoopTest)
    case QueueInLoop => Pushed(s, false)
    case StopInLoop => Stopped(s).(counter := s.counter + 1)
    case RunPush => Pushed(s, true).(owed := s.owed + {|s.pushed|})
    case RunWake(id) => s.(owed := s.owed - {id}, counter := s.counter + 1)
    case Queue => Pushed(s, false)
    case StopSet => Stopped(s).(stopsOwed := s.stopsOwed + {s.stops})
    case StopWake(call) => s.(counter := s.counter + 1, stopsOwed := s.stopsOwed - {call})
  }

  // The states of a run, and that each of its steps is enabled.
  predicate Legal(s: State, steps: seq<Step>)
    decreases |steps|
  {
    steps != [] ==> Enabled(s, steps[0]) && Legal(Next(s, steps[0]), steps[1..])
  }

  function Run(s: State, steps: seq<Step>): State
    requires Legal(s, steps)
    decreases |steps|
  {
    if steps == [] then s else Run(Next(s, steps[0]), steps[1..])
  }

  // ---- The invariant ----

  function Tasks(records: seq<Record>): seq<Task> {
    seq(|records|, i requires 0 <= i < |records| => records[i].task)
  }

  // First in, first out, and each task in the very next batch after its push.
  ghost predicate Fifo(s: State) {
    && Tasks(s.executed) + s.batch + s.tasks == s.pushed
    && (forall i :: 0 <= i < |s.pushed| ==> s.pushed[i].id == i)
    && (forall t :: t in s.tasks ==> t.pushedAt == s.batches)
    && (forall t :: t in s.batch ==> t.pushedAt == s.batches - 1)
    && (forall r :: r in s.executed ==> r.batch == r.task.pushedAt + 1)
    && (s.batch != [] ==> s.pc == Running)
  }

  // Unless the loop is on its way to take the tasks, a written eventfd or a
  // write still owed will make poll return.
  ghost predicate Awake(s: State) {
    && (!s.pc.Handling? && s.counter == 0 ==> forall t :: t in s.tasks && t.viaRun ==> t.id in s.owed)
    && (s.pc == Polling && s.counter == 0 ==> s.unseen <= s.stopsOwed)
    && (s.pc != Idle ==> (s.stop <==> s.unseen != {}))
    && (forall call :: call in s.unseen ==> call < s.stops)
  }

  ghost predicate Inv(s: State) {
    Fifo(s) && Awake(s)
  }

  lemma NextAwake(s: State, step: Step)
    requires Awake(s) && Enabled(s, step)
    ensures Awake(Next(s, step))
  {
  }

  lemma PushedFifo(s: State, viaRun: bool)
    requires Fifo(s)
    ensures Fifo(Pushed(s, viaRun))
  {
    var t := Pushed(s, viaRun);
    assert Tasks(t.executed) + t.batch + t.tasks == Tasks(s.executed) + s.batch + s.tasks + [t.tasks[|s.tasks|]];
  }

  lemma ExecutedFifo(s: State)
    requires Fifo(s) && s.batch != []
    ensures Fifo(Executed(s))
  {
    var t := Executed(s);
    assert s.batch[0] in s.batch;
    assert Tasks(t.executed) == Tasks(s.executed) + [s.batch[0]];
    assert s.batch == [s.batch[0]] + t.batch;
  }

  lemma NextFifo(s: State, step: Step)
    requires Fifo(s) && Enabled(s, step)
    ensures Fifo(Next(s, step))
  {
    match step
    case QueueInLoop => PushedFifo(s, false);
    case RunPush => PushedFifo(s, true);
    case Queue => PushedFifo(s, false);
    case Execute => ExecutedFifo(s);
    case _ =>
  }

  lemma {:induction false} RunKeeps(s: State, steps: seq<Step>)
    requires Inv(s) && Legal(s, steps)
    ensures Inv(Run(s, steps))
    decreases |steps|
  {
    if steps != [] {
      NextAwake(s, steps[0]);
      NextFifo(s, steps[0]);
      RunKeeps(Next(s, steps[0]), steps[1..]);
    }
  }
}
