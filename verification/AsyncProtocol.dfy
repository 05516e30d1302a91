// The two-thread protocol of logger/AsyncLogger.cpp as a transition system.
// Regions that hold mutex_ are single steps; everything flush() and stop() do
// without it is split into its separate accesses, so that an append can fall
// between any two of them.
module AsyncProtocol {
  import opened Basics
  import opened LogFiles

  const CAPACITY := 4 * 1024 * 1024
  const MAX_EXTRAS := 64

  // A message a buffer really copied. `id` is its place in the order of
  // acceptance; the program has no such number, it is here to tell equal texts apart.
  datatype Entry = Entry(id: nat, text: string)
  type Block = seq<Entry>

  function Text(b: Block): string {
    if b == [] then "" else b[0].text + Text(b[1..])
  }

  // What strlen sees of a std::string.
  function CString(data: string): string {
    if data == "" || data[0] == '\0' then "" else [data[0]] + CString(data[1..])
  }

  function Remain(b: Block): int {
    CAPACITY - |Text(b)|
  }

  // LogBuffer::append.
  function Copied(b: Block, data: string, id: nat): Block {
    var text := CString(data);
    if Remain(b) > |text| && text != "" then b + [Entry(id, text)] else b
  }

  // Where the consumer is: the writer thread, and, once stop() has joined it,
  // the thread that called stop().
  datatype Pc =
    | Test                       // while(running_)
    | Region                     // about to take the mutex
    | Waiting                    // inside cond_.wait_for, mutex released
    | FlushTest                  // bufferForWrite_ && !bufferForWrite_->empty()
    | FlushMark                  // isWriting_ = true
    | FlushWrite                 // the file append of the write buffer
    | FlushReset                 // buffer.reset()
    | FlushUnmark                // isWriting_ = false
    | FlushLoop                  // the file append of the next queued buffer, if any
    | FlushPop                   // its reset and pop
    | Exited                     // the writer thread has returned
    | DrainWrite | DrainLog | DrainExtras  // the moves in stop()
    | Stopped

  datatype State = State(
    running: bool, isWriting: bool,
    log: Option<Block>, write: Option<Block>,  // unique_ptr: None after a move
    extras: seq<Block>,
    pending: multiset<string>,                 // appends past the running_ test, before the mutex
    pc: Pc, draining: bool,
    queue: seq<Block>,                         // the consumer's local bufferToWrite
    files: Log,
    // Accounting, read by no step.
    ledger: Ledger, accepted: Block, written: Block,
    spilled: bool,   // extraBuffers_.push has happened in append
    overtook: bool,  // a non-empty buffer has been put in front of an older one
    jumped: bool,    // a message has reached the files while an older one of another buffer waited
    late: bool)      // an append took the mutex after stop() began to drain

  function Contents(b: Option<Block>): Block {
    if b.Some? then b.value else []
  }

  function Started(files: Log): State {
    State(true, false, Some([]), Some([]), [], multiset{}, Test, false, [], files,
          Ledger([], [], []), [], [], false, false, false, false)
  }

  datatype Step = Submit(data: string) | Append(data: string) | Consume(target: string) | Stop

  // append(), before the mutex.
  function AppendChecked(s: State, data: string): (r: State)
    ensures r.files == s.files
  {
    if |data| > CAPACITY || !s.running then s
    else s.(pending := s.pending + multiset{data})
  }

  function Put(s: State, data: string): State {
    var b := Copied(Contents(s.log), data, |s.accepted|);
    s.(log := Some(b), accepted := s.accepted + b[|Contents(s.log)|..])
  }

  // std::swap(bufferForLog_, bufferForWrite_).
  function Swapped(s: State): State {
    s.(log := s.write, write := s.log, overtook := s.overtook || Overtakes(s))
  }

  function Spilled(s: State): State {
    s.(extras := s.extras + [Contents(s.log)], log := Some([]), spilled := true)
  }

  function Entering(s: State, data: string): State {
    s.(pending := s.pending - multiset{data}, late := s.late || s.draining)
  }

  // A log buffer that cannot take the data is exchanged, or queued, or left as it is.
  function WithRoom(s: State, data: string): State {
    if Remain(Contents(s.log)) > |data| then s
    else if !s.isWriting && Contents(s.write) == [] then Swapped(s)
    else if |s.extras| < MAX_EXTRAS then Spilled(s)
    else s
  }

  // append(), under the mutex.
  function AppendLocked(s: State, data: string): (r: State)
    ensures r.files == s.files
  {
    Put(WithRoom(Entering(s, data), data), data)
  }

  // The rest of the writer's mutex region.
  function Taken(s: State): (r: State)
    ensures r.files == s.files && r.pc == FlushTest
  {
    var t := if Contents(s.write) == [] then Swapped(s) else s;
    t.(queue := if t.extras == [] then t.queue else t.extras, extras := [], pc := FlushTest)
  }

  function Recording(s: State, b: Block, target: string): (r: State)
    requires Usable(s.files) && s.files.isOpen
    ensures Usable(r.files) && r.files.isOpen
  {
    s.(files := Recorded(s.files, Text(b), target),
       ledger := Entered(s.files, s.ledger, Text(b), target),
       written := s.written + b,
       jumped := s.jumped || Jumps(b, Unwritten(s)))
  }

  // The moves of stop(): the write buffer, then the log buffer, behind the extra ones.
  function WriteMoved(s: State): (r: State)
    ensures r.files == s.files && r.pc == DrainLog
  {
    if Contents(s.write) == [] then s.(pc := DrainLog)
    else s.(extras := s.extras + [Contents(s.write)], write := None, pc := DrainLog,
            overtook := s.overtook || Flatten(s.extras) != [])
  }

  function LogMoved(s: State): (r: State)
    ensures r.files == s.files && r.pc == DrainExtras
  {
    if Contents(s.log) == [] then s.(pc := DrainExtras)
    else s.(extras := s.extras + [Contents(s.log)], log := None, pc := DrainExtras)
  }

  function Consumed(s: State, target: string): (r: State)
    requires Usable(s.files) && s.files.isOpen
    ensures Usable(r.files) && r.files.isOpen
  {
    match s.pc
    case Test => s.(pc := if s.running then Region else Exited)
    case Region => if s.extras == [] && Contents(s.write) == [] then s.(pc := Waiting) else Taken(s)
    case Waiting => Taken(s)
    case FlushTest => s.(pc := if Contents(s.write) != [] then FlushMark else FlushLoop)
    case FlushMark => s.(isWriting := true, pc := FlushWrite)
    case FlushWrite => Recording(s, Contents(s.write), target).(pc := FlushReset)
    case FlushReset => s.(write := Some([]), pc := FlushUnmark)
    case FlushUnmark => s.(isWriting := false, pc := FlushLoop)
    case FlushLoop =>
      if s.queue == [] then s.(pc := if s.draining then Stopped else Test)
      else Recording(s, s.queue[0], target).(pc := FlushPop)
    case FlushPop => if s.queue == [] then s else s.(queue := s.queue[1..], pc := FlushLoop)
    case Exited => s.(draining := true, pc := DrainWrite)
    case DrainWrite => WriteMoved(s)
    case DrainLog => LogMoved(s)
    case DrainExtras => s.(queue := s.extras, extras := [], pc := FlushTest)
    case Stopped => s
  }

  function Next(s: State, step: Step): (r: State)
    requires Usable(s.files) && s.files.isOpen
    ensures Usable(r.files) && r.files.isOpen
  {
    match step
    case Submit(data) => AppendChecked(s, data)
    case Append(data) => AppendLocked(s, data)
    case Consume(target) => Consumed(s, target)
    case Stop => s.(running := false)
  }

  // A step that is not enabled would wait, read a moved-from pointer (an append
  // after stop() moved the buffer it needs), or overwrite a file by renaming onto it.
  predicate Enabled(s: State, step: Step) {
    match step
    case Submit(_) => true
    case Append(data) =>
      && data in s.pending
      && s.log.Some?
      && (Remain(s.log.value) <= |data| && !s.isWriting ==> s.write.Some?)
    case Consume(target) => SafeToRecord(s.files, target)
    case Stop => true
  }

  function Run(s: State, steps: seq<Step>): (r: State)
    requires Usable(s.files) && s.files.isOpen
    ensures Usable(r.files) && r.files.isOpen
    decreases |steps|
  {
    if steps == [] then s else Run(Next(s, steps[0]), steps[1..])
  }

  lemma {:induction false} RunExtend(s: State, steps: seq<Step>, step: Step)
    requires Usable(s.files) && s.files.isOpen
    ensures Run(s, steps + [step]) == Next(Run(s, steps), step)
    decreases |steps|
  {
    if steps == [] {
      assert steps + [step] == [step] && [step][1..] == [];
    } else {
      assert (steps + [step])[1..] == steps[1..] + [step];
      RunExtend(Next(s, steps[0]), steps[1..], step);
    }
  }

  predicate Legal(s: State, steps: seq<Step>)
    requires Usable(s.files) && s.files.isOpen
    decreases |steps|
  {
    steps != [] ==> Enabled(s, steps[0]) && Legal(Next(s, steps[0]), steps[1..])
  }

  // ---- flush() and the moves of stop() when nothing comes between their steps ----

  function WriteFlushed(s: State, name: string): (r: State)
    requires Usable(s.files) && s.files.isOpen
    ensures Usable(r.files) && r.files.isOpen
  {
    if Contents(s.write) == [] then s.(pc := FlushLoop)
    else Recording(s, Contents(s.write), name).(write := Some([]), pc := FlushLoop)
  }

  function QueueFlushed(s: State, names: seq<string>): (r: State)
    requires Usable(s.files) && s.files.isOpen && |names| == |s.queue|
    ensures Usable(r.files) && r.files.isOpen
    decreases |names|
  {
    if names == [] then s
    else QueueFlushed(Recording(s, s.queue[0], names[0]).(queue := s.queue[1..]), names[1..])
  }

  function BuffersDrained(s: State): State {
    LogMoved(WriteMoved(s))
  }

  // ---- Where every message is, in the order in which it will reach the files ----

  // Past its test of the write buffer, flush() will write the queue before it
  // looks at the write buffer again.
  predicate QueueFirst(pc: Pc) {
    pc in {FlushUnmark, FlushLoop, FlushPop}
  }

  // Between a file append and the reset or pop that follows, the buffer is
  // already in the files and is not counted a second time.
  function InWrite(s: State): Block {
    if s.pc == FlushReset then [] else Contents(s.write)
  }

  function InQueue(s: State): Block {
    Flatten(if s.pc == FlushPop && s.queue != [] then s.queue[1..] else s.queue)
  }

  function Behind(s: State): Block {
    if QueueFirst(s.pc) then Flatten(s.extras) else InQueue(s) + Flatten(s.extras)
  }

  function Ahead(s: State): Block {
    if QueueFirst(s.pc) then s.written + InQueue(s) + InWrite(s) else s.written + InWrite(s)
  }

  function Layout(s: State): Block {
    Ahead(s) + Behind(s) + Contents(s.log)
  }

  // What is accepted and not in the files, in no particular order.
  function Unwritten(s: State): Block {
    InWrite(s) + InQueue(s) + Flatten(s.extras) + Contents(s.log)
  }

  // Writing `b` now puts one of its messages in front of an older one that is
  // still in another buffer.
  predicate Jumps(b: Block, waiting: Block) {
    waiting != [] && ((waiting[0] !in b && OlderThanSome(waiting[0], b)) || Jumps(b, waiting[1..]))
  }

  predicate OlderThanSome(f: Entry, b: Block) {
    b != [] && (f.id < b[0].id || OlderThanSome(f, b[1..]))
  }

  // Swapping the log buffer into an empty write buffer puts it in front of these.
  predicate Overtakes(s: State) {
    Contents(s.log) != [] && Behind(s) != []
  }

  ghost predicate Inverted(b: Block) {
    exists p, q :: 0 <= p < q < |b| && b[p].id > b[q].id
  }
}
