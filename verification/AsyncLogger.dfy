// utils/Buffer.h (LogBuffer) and logger/AsyncLogger.cpp in their own form: the
// objects, their storage and the pointers the two threads exchange. Each
// method is one step of AsyncProtocol and is proved to be that step.
module AsyncLogging {
  import opened Basics
  import opened LogFiles
  import opened SyncLogging
  import opened AsyncProtocol

  class LogBuffer {
    const data: array<char>
    var cur: nat
    ghost var block: Block  // the messages the text consists of

    ghost predicate Valid()
      reads this, data
    {
      data.Length == CAPACITY && cur <= CAPACITY && data[..cur] == Text(block)
      && (forall e :: e in block ==> e.text != "")
    }

    predicate Empty()
      requires Valid()
      reads this, data
      ensures Empty() <==> block == []
    {
      cur == 0
    }

    function Left(): (r: int)
      requires Valid()
      reads this, data
      ensures r == Remain(block)
    {
      CAPACITY - cur
    }

    constructor ()
      ensures Valid() && fresh(data) && block == []
    {
      data := new char[CAPACITY];
      cur := 0;
      block := [];
    }

    method Append(buf: string, ghost id: nat)
      requires Valid()
      modifies this, data
      ensures Valid() && block == Copied(old(block), buf, id)
    {
      var len := StrLen(buf);
      if Left() > len {
        ghost var before := data[..cur];
        for i := 0 to len
          modifies data
          invariant data[..cur] == before
          invariant data[cur..cur + i] == buf[..i]
        {
          data[cur + i] := buf[i];
        }
        assert data[..cur + len] == before + buf[..len];
        ghost var entry := Entry(id, buf[..len]);
        TextSnoc(block, entry);
        cur := cur + len;
        if len > 0 {
          block := block + [entry];
        }
      }
    }

    method Reset()
      requires Valid()
      modifies this
      ensures Valid() && block == []
    {
      cur := 0;
      block := [];
    }
  }

  method StrLen(buf: string) returns (len: nat)
    ensures len <= |buf| && buf[..len] == CString(buf)
  {
    len := 0;
    while len < |buf| && buf[len] != '\0'
      invariant len <= |buf| && CString(buf) == buf[..len] + CString(buf[len..])
    {
      assert buf[len..][1..] == buf[len + 1..];
      len := len + 1;
    }
  }

  lemma {:induction false} TextSnoc(b: Block, e: Entry)
    ensures Text(b + [e]) == Text(b) + e.text
  {
    if b == [] {
      assert b + [e] == [e] && [e][1..] == [];
    } else {
      assert (b + [e])[1..] == b[1..] + [e];
      TextSnoc(b[1..], e);
    }
  }

  lemma QueueUnfolds(s: State, names: seq<string>, i: nat)
    requires Usable(s.files) && s.files.isOpen && i + |s.queue| == |names| && s.queue != []
    ensures QueueFlushed(s, names[i..])
         == QueueFlushed(Recording(s, s.queue[0], names[i]).(queue := s.queue[1..]), names[i + 1..])
  {
    assert names[i..][1..] == names[i + 1..];
  }

  // ---- Several buffers ----

  ghost predicate NoDuplicates(bs: seq<LogBuffer>) {
    forall i, j :: 0 <= i < j < |bs| ==> bs[i] != bs[j]
  }

  ghost function Blocks(bs: seq<LogBuffer>): (r: seq<Block>)
    reads bs
    ensures |r| == |bs| && forall i :: 0 <= i < |bs| ==> r[i] == bs[i].block
  {
    seq(|bs|, i requires 0 <= i < |bs| reads bs => bs[i].block)
  }

  ghost function BlockOf(b: LogBuffer?): Option<Block>
    reads b
  {
    if b == null then None else Some(b.block)
  }

  // Different buffers do not share their storage.
  ghost predicate Apart(bs: set<LogBuffer>) {
    forall a, b :: a in bs && b in bs && a != b ==> a.data != b.data
  }

  ghost function Storage(bs: set<LogBuffer>): set<object> {
    set b | b in bs :: b.data
  }

  ghost predicate AllValid(bs: set<LogBuffer>)
    reads bs, Storage(bs)
  {
    forall b :: b in bs ==> b.Valid()
  }

  // The program counter and the accounting of a State, and the rest of it.
  datatype Account = Account(
    pending: multiset<string>, pc: Pc, draining: bool, ledger: Ledger, accepted: Block, written: Block,
    spilled: bool, overtook: bool, jumped: bool, late: bool)

  const NEW_ACCOUNT := Account(multiset{}, Test, false, Ledger([], [], []), [], [], false, false, false, false)

  datatype Held = Held(
    log: Option<Block>, write: Option<Block>, extras: seq<Block>, queue: seq<Block>, files: Log)

  function AccountOf(s: State): Account {
    Account(s.pending, s.pc, s.draining, s.ledger, s.accepted, s.written, s.spilled, s.overtook, s.jumped, s.late)
  }

  function HeldOf(s: State): Held {
    Held(s.log, s.write, s.extras, s.queue, s.files)
  }

  predicate SameFlags(s: State, t: State) {
    t.running == s.running && t.isWriting == s.isWriting
  }

  lemma WriteFlushedParts(s: State, name: string)
    requires Usable(s.files) && s.files.isOpen && !s.isWriting
    ensures SameFlags(s, WriteFlushed(s, name))
    ensures
      HeldOf(WriteFlushed(s, name)) ==
        if Contents(s.write) == [] then HeldOf(s)
        else HeldOf(s).(files := Recorded(s.files, Text(Contents(s.write)), name), write := Some([]))
  {
    if Contents(s.write) == [] {
      assert WriteFlushed(s, name) == s.(pc := FlushLoop);
    } else {
      assert WriteFlushed(s, name) == Recording(s, Contents(s.write), name).(write := Some([]), pc := FlushLoop);
    }
  }

  lemma WriteMovedParts(s: State)
    ensures SameFlags(s, WriteMoved(s))
    ensures
      HeldOf(WriteMoved(s)) ==
        if Contents(s.write) == [] then HeldOf(s) else HeldOf(s).(extras := s.extras + [Contents(s.write)], write := None)
  {
    if Contents(s.write) == [] {
      assert WriteMoved(s) == s.(pc := DrainLog);
    }
  }

  lemma LogMovedParts(s: State)
    ensures SameFlags(s, LogMoved(s))
    ensures
      HeldOf(LogMoved(s)) ==
        if Contents(s.log) == [] then HeldOf(s) else HeldOf(s).(extras := s.extras + [Contents(s.log)], log := None)
  {
    if Contents(s.log) == [] {
      assert LogMoved(s) == s.(pc := DrainExtras);
    }
  }

  function Together(running: bool, isWriting: bool, h: Held, a: Account): State {
    State(running, isWriting, h.log, h.write, h.extras, a.pending, a.pc, a.draining, h.queue, h.files,
          a.ledger, a.accepted, a.written, a.spilled, a.overtook, a.jumped, a.late)
  }

  // The two threads exchange pointers to buffers; each buffer has one owner.
  class AsyncLogger {
    var running: bool
    var isWriting: bool
    var log: LogBuffer?         // bufferForLog_
    var write: LogBuffer?       // bufferForWrite_
    var extras: seq<LogBuffer>  // extraBuffers_
    var queue: seq<LogBuffer>   // bufferToWrite of the thread that flushes
    const fs: FileSystem
    var file: FileWriter
    ghost var buffers: set<LogBuffer>  // all that were made

    ghost var account: Account

    // Every pointer is to a buffer of this logger, and no buffer has two owners.
    ghost predicate Owned()
      reads this`log, this`write, this`extras, this`queue, this`buffers
    {
      && (log != null ==> log in buffers && log != write && log !in extras && log !in queue)
      && (write != null ==> write in buffers && write !in extras && write !in queue)
      && (forall b :: b in extras ==> b in buffers && b !in queue)
      && (forall b :: b in queue ==> b in buffers)
      && NoDuplicates(extras) && NoDuplicates(queue)
    }

    ghost predicate Valid()
      reads this`log, this`write, this`extras, this`queue, this`buffers, this`file
      reads buffers, Storage(buffers), fs, file
    {
      Owned() && Apart(buffers) && AllValid(buffers) && Usable(file.View(fs)) && file.isOpen
    }

    ghost function Holding(): Held
      reads this`log, this`write, this`extras, this`queue, this`file, log, write, extras, queue, fs, file
    {
      Held(BlockOf(log), BlockOf(write), Blocks(extras), Blocks(queue), file.View(fs))
    }

    ghost function View(): State
      reads this, log, write, extras, queue, fs, file
    {
      Together(running, isWriting, Holding(), account)
    }

    // Bookkeeping: everything but the buffers, the files and the flags.
    ghost method Note(s: State)
      requires Valid() && s.running == running && s.isWriting == isWriting && HeldOf(s) == Holding()
      modifies this`account
      ensures Valid() && View() == s && Holding() == old(Holding())
    {
      ghost var h, valid := Holding(), Valid();
      account := AccountOf(s);
      assert Holding() == h && Valid() == valid;
    }

    // Before start(): two empty buffers, and a file that is not open.
    ghost predicate Created()
      reads this, buffers, Storage(buffers), log, write, extras, queue, fs, file
    {
      && Owned() && Apart(buffers) && AllValid(buffers) && !running && !isWriting && account == NEW_ACCOUNT
      && Holding() == Held(Some([]), Some([]), [], [], Log(fs.files, file.path, false, -1))
    }

    constructor (fs: FileSystem, path: string)
      ensures Created() && this.fs == fs && file.path == path
      ensures fresh(buffers) && fresh(Storage(buffers)) && fresh(file)
    {
      running, isWriting, extras, queue := false, false, [], [];
      var a := new LogBuffer();
      var b := new LogBuffer();
      log, write, buffers := a, b, {a, b};
      this.fs := fs;
      file := new FileWriter(path);
      account := NEW_ACCOUNT;
      new;
      assert a.data != b.data && Apart(buffers);
      assert a.Valid() && b.Valid();
    }

    // After start() the writer thread is at its loop test.
    method Start()
      requires Created()
      modifies this`running, fs, file
      ensures Valid() && View() == Started(Opened(Log(old(fs.files), file.path, false, -1)))
    {
      running := true;
      file.Open(fs);
    }

    // std::swap(bufferForLog_, bufferForWrite_).
    method Swap()
      requires Valid()
      modifies this`log, this`write, this`account
      ensures Valid() && View() == Swapped(old(View()))
    {
      ghost var s, h := Swapped(View()), Holding();
      log, write := write, log;
      assert Holding() == h.(log := h.write, write := h.log);
      Note(s);
    }

    // extraBuffers_.push(std::move(bufferForLog_)).
    method PushLog()
      requires Valid() && log != null
      modifies this`log, this`extras
      ensures Valid() && log == null
      ensures Holding() == old(Holding()).(extras := old(Holding()).extras + [old(log.block)], log := None)
    {
      ghost var before := Blocks(extras);
      extras, log := extras + [log], null;
      assert Blocks(extras) == before + [old(log.block)];
    }

    // extraBuffers_.push(std::move(bufferForWrite_)).
    method PushWrite()
      requires Valid() && write != null
      modifies this`write, this`extras
      ensures Valid() && write == null
      ensures Holding() == old(Holding()).(extras := old(Holding()).extras + [old(write.block)], write := None)
    {
      ghost var before := Blocks(extras);
      extras, write := extras + [write], null;
      assert Blocks(extras) == before + [old(write.block)];
    }

    // bufferForLog_ = std::make_unique<Buffer>().
    method NewLog()
      requires Valid() && log == null
      modifies this`log, this`buffers
      ensures Valid() && log != null && fresh(log) && fresh(log.data)
      ensures Holding() == old(Holding()).(log := Some([]))
    {
      log := new LogBuffer();
      buffers := buffers + {log};
    }

    method Spill()
      requires Valid() && log != null
      modifies this`log, this`extras, this`account, this`buffers
      ensures Valid() && log != null && fresh(log) && fresh(log.data)
      ensures View() == Spilled(old(View()))
    {
      ghost var s, h := Spilled(View()), Holding();
      PushLog();
      NewLog();
      assert Holding() == h.(extras := h.extras + [h.log.value], log := Some([]));
      Note(s);
    }

    // append() before the mutex.
    method Submit(data: string) returns (go: bool)
      requires Valid()
      modifies this`account
      ensures Valid() && View() == Next(old(View()), Step.Submit(data))
      ensures go <==> |data| <= CAPACITY && running
    {
      go := |data| <= CAPACITY && running;
      Note(AppendChecked(View(), data));
    }

    method MakeRoom(data: string)
      requires Valid() && log != null && (log.Left() <= |data| && !isWriting ==> write != null)
      modifies this`log, this`write, this`extras, this`account, this`buffers
      ensures Valid() && log != null && View() == WithRoom(old(View()), data)
      ensures log in old(buffers) || (fresh(log) && fresh(log.data))
    {
      if log.Left() <= |data| {
        if !isWriting && write.Empty() {
          Swap();
        } else if |extras| < 64 {
          Spill();
        }
      }
    }

    // bufferForLog_->append(data).
    method Store(data: string)
      requires Valid() && log != null
      modifies this`account, log, log.data
      ensures Valid() && View() == Put(old(View()), data)
    {
      ghost var s := Put(View(), data);
      log.Append(data, |account.accepted|);
      Note(s);
    }

    // append() between taking and releasing mutex_.
    method Append(data: string)
      requires Valid() && Enabled(View(), Step.Append(data))
      modifies this`log, this`write, this`extras, this`account, this`buffers, buffers, Storage(buffers)
      ensures Valid() && View() == Next(old(View()), Step.Append(data))
    {
      Note(Entering(View(), data));
      MakeRoom(data);
      Store(data);
    }

    // writeToFile() from waking up, or not having to wait, to releasing mutex_.
    method Take()
      requires Valid() && write != null
      modifies this`log, this`write, this`extras, this`queue, this`account
      ensures Valid() && View() == Taken(old(View()))
    {
      if write.Empty() {
        Swap();
      }
      TakeExtras();
    }

    // bufferToWrite = std::move(extraBuffers_), unless there is nothing in it.
    method TakeExtras()
      requires Valid()
      modifies this`extras, this`queue, this`account
      ensures Valid()
      ensures
        var s := old(View());
        View() == s.(queue := if s.extras == [] then s.queue else s.extras, extras := [], pc := FlushTest)
    {
      ghost var s, h := View(), Holding();
      if extras != [] {
        queue, extras := extras, [];
      }
      assert Holding() == h.(queue := if h.extras == [] then h.queue else h.extras, extras := []);
      Note(s.(queue := Blocks(queue), extras := [], pc := FlushTest));
    }

    // The header and rotation rule, and the text.
    method WriteText(text: string, target: string)
      requires Valid()
      modifies this`file, fs, file
      ensures Valid() && Holding() == old(Holding()).(files := Recorded(old(Holding()).files, text, target))
      ensures file == old(file) || fresh(file)
    {
      ghost var l, w, e, q, valid := BlockOf(log), BlockOf(write), Blocks(extras), Blocks(queue), AllValid(buffers);
      WriteRaw(text, target);
      assert BlockOf(log) == l && BlockOf(write) == w && Blocks(extras) == e && Blocks(queue) == q;
      assert AllValid(buffers) == valid;
    }

    method WriteRaw(text: string, target: string)
      requires Usable(file.View(fs)) && file.isOpen
      modifies this`file, fs, file
      ensures Usable(file.View(fs)) && file.isOpen && file.View(fs) == Recorded(old(file.View(fs)), text, target)
      ensures file == old(file) || fresh(file)
    {
      Rotate(target);
      file.Append(fs, text);
    }

    method Rotate(target: string)
      requires Usable(file.View(fs)) && file.isOpen
      modifies this`file, fs, file
      ensures Usable(file.View(fs)) && file.isOpen && file.View(fs) == Headed(old(file.View(fs)), target)
      ensures file == old(file) || fresh(file)
    {
      if file.size == 0 {
        file.Append(fs, HEADER);
      } else if file.size > MAX_FILE_SIZE {
        file.Rename(fs, target);
        file := new FileWriter(LOG_PATH);
        file.Append(fs, HEADER);
      }
    }

    // The write lambda of flush(), up to the reset of the buffer.
    method WriteOut(b: LogBuffer, target: string)
      requires Valid() && b in buffers
      modifies this`file, this`account, fs, file
      ensures Valid() && View() == Recording(old(View()), b.block, target)
      ensures file == old(file) || fresh(file)
    {
      ghost var s := Recording(View(), b.block, target);
      WriteText(b.data[..b.cur], target);
      Note(s);
    }

    method ResetWrite()
      requires Valid() && write != null
      modifies write
      ensures Valid() && Holding() == old(Holding()).(write := Some([]))
    {
      write.Reset();
    }

    // flush() on the write buffer, not interrupted by an append.
    method FlushWriteBuffer(name: string)
      requires Valid() && account.pc == FlushTest && !isWriting
      modifies this`isWriting, this`file, this`account, fs, file, write
      ensures Valid() && View() == WriteFlushed(old(View()), name)
      ensures file == old(file) || fresh(file)
    {
      ghost var s := WriteFlushed(View(), name);
      WriteFlushedParts(View(), name);
      if write != null && !write.Empty() {
        WriteMarked(name);
      }
      Note(s);
    }

    method WriteMarked(name: string)
      requires Valid() && write != null && !isWriting
      modifies this`isWriting, this`file, fs, file, write
      ensures Valid() && !isWriting && (file == old(file) || fresh(file))
      ensures
        var h := old(Holding());
        Holding() == h.(files := Recorded(h.files, Text(h.write.value), name), write := Some([]))
    {
      Flag(true);
      WriteAndReset(name);
      Flag(false);
    }

    // isWriting_ = on.
    method Flag(on: bool)
      requires Valid()
      modifies this`isWriting
      ensures Valid() && Holding() == old(Holding()) && isWriting == on
    {
      ghost var h, valid := Holding(), Valid();
      isWriting := on;
      assert Holding() == h && Valid() == valid;
    }

    method WriteAndReset(name: string)
      requires Valid() && write != null
      modifies this`file, fs, file, write
      ensures Valid() && (file == old(file) || fresh(file))
      ensures
        var h := old(Holding());
        Holding() == h.(files := Recorded(h.files, Text(h.write.value), name), write := Some([]))
    {
      WriteText(write.data[..write.cur], name);
      ResetWrite();
    }

    // One turn of the loop over the local queue.
    method FlushHead(name: string)
      requires Valid() && queue != []
      modifies this`queue, this`file, this`account, fs, file, queue[0]
      ensures Valid() && View() == Recording(old(View()), old(queue[0].block), name).(queue := old(View()).queue[1..])
      ensures file == old(file) || fresh(file)
      ensures queue == old(queue)[1..]
    {
      WriteOut(queue[0], name);
      PopHead();
    }

    method PopHead()
      requires Valid() && queue != []
      modifies this`queue, queue[0]
      ensures Valid() && Holding() == old(Holding()).(queue := old(Holding()).queue[1..]) && queue == old(queue)[1..]
    {
      ResetHead();
      DropHead();
    }

    method ResetHead()
      requires Valid() && queue != []
      modifies queue[0]
      ensures Valid() && Holding() == old(Holding()).(queue := old(Holding()).queue[0 := []])
    {
      ghost var before := Blocks(queue);
      assert queue[0] in queue && forall i :: 1 <= i < |queue| ==> queue[i] != queue[0];
      queue[0].Reset();
      assert Blocks(queue) == before[0 := []];
    }

    method DropHead()
      requires Valid() && queue != []
      modifies this`queue
      ensures Valid() && Holding() == old(Holding()).(queue := old(Holding()).queue[1..]) && queue == old(queue)[1..]
    {
      ghost var before := Blocks(queue);
      queue := queue[1..];
      assert Blocks(queue) == before[1..];
    }

    // flush() on the local queue, with a rotation name for each buffer.
    method FlushQueue(names: seq<string>)
      requires Valid() && |names| == |queue|
      modifies this`queue, this`file, this`account, fs, file, queue
      ensures Valid() && View() == QueueFlushed(old(View()), names)
      ensures file == old(file) || fresh(file)
    {
      var i := 0;
      ghost var all := queue;
      while queue != []
        invariant Valid() && i + |queue| == |names| == |all| && queue == all[i..]
        invariant QueueFlushed(View(), names[i..]) == QueueFlushed(old(View()), names)
        invariant file == old(file) || fresh(file)
        decreases |queue|
      {
        QueueUnfolds(View(), names, i);
        FlushHead(names[i]);
        i := i + 1;
      }
    }

    // The moves of stop() after the join.
    method DrainBuffers()
      requires Valid() && log != null && write != null && account.pc == DrainWrite
      modifies this`log, this`write, this`extras, this`account
      ensures Valid() && View() == BuffersDrained(old(View()))
    {
      DrainWriteBuffer();
      DrainLogBuffer();
    }

    method DrainWriteBuffer()
      requires Valid() && write != null
      modifies this`write, this`extras, this`account
      ensures Valid() && View() == WriteMoved(old(View()))
    {
      ghost var s := WriteMoved(View());
      WriteMovedParts(View());
      if write.Empty() {
        Note(s);
      } else {
        PushWrite();
        Note(s);
      }
    }

    method DrainLogBuffer()
      requires Valid() && log != null
      modifies this`log, this`extras, this`account
      ensures Valid() && View() == LogMoved(old(View()))
    {
      ghost var s := LogMoved(View());
      LogMovedParts(View());
      if log.Empty() {
        Note(s);
      } else {
        PushLog();
        Note(s);
      }
    }

    // The loop that moves the extra queue into the local one.
    method DrainQueue()
      requires Valid() && queue == []
      modifies this`account, this`extras, this`queue
      ensures Valid() && queue == old(extras)
      ensures View() == old(View()).(queue := old(View()).extras, extras := [], pc := FlushTest)
    {
      ghost var all, s := extras, View().(queue := View().extras, extras := [], pc := FlushTest);
      while extras != []
        modifies this`extras, this`queue
        invariant Valid() && queue + extras == all
        decreases |extras|
      {
        MoveFront();
      }
      Note(s);
    }

    method MoveFront()
      requires Valid() && extras != []
      modifies this`extras, this`queue
      ensures Valid() && queue == old(queue) + [old(extras)[0]] && extras == old(extras)[1..]
    {
      assert extras[0] in extras && extras[0] !in queue;
      assert forall b :: b in extras[1..] ==> b in extras && b != extras[0];
      queue, extras := queue + [extras[0]], extras[1..];
    }
  }
}
