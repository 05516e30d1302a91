// The log file of the two logger back ends (utils/FileUtil.h FileWriter, and the
// header and rotation rule shared by logger/SyncLogger.cpp and
// AsyncLogger::flush), over a file system that is a map from paths to contents.
module LogFiles {
  import opened Basics

  const HEADER := "Date       Time            Tid  Level File            Function             Line  Msg\n"
  const MAX_FILE_SIZE := 100 * 1024 * 1024
  // Where every writer created by a rotation puts its file: <current directory>/log.log.
  const LOG_PATH := "./log.log"

  type Disk = map<string, string>

  // The file system and the state of the one FileWriter a logger owns.
  datatype Log = Log(disk: Disk, path: string, isOpen: bool, size: int)

  // An open writer writes to a file that exists, and knows its size.
  predicate Usable(l: Log) {
    l.isOpen ==> l.path in l.disk && l.size == |l.disk[l.path]|
  }

  function Opened(l: Log): (r: Log)
    requires Usable(l)
    ensures Usable(r) && r.isOpen && r.path == l.path
  {
    if l.isOpen then l
    else
      var disk := if l.path in l.disk then l.disk else l.disk[l.path := ""];
      Log(disk, l.path, true, |disk[l.path]|)
  }

  function Appended(l: Log, data: string): (r: Log)
    requires Usable(l)
    ensures Usable(r) && r.isOpen && r.path == l.path
  {
    var o := Opened(l);
    Log(o.disk[o.path := o.disk[o.path] + data], o.path, true, o.size + |data|)
  }

  // Opening loses nothing: every file keeps its text, the log file too, and at
  // most the log file is new, and empty.
  lemma OpeningKeepsFiles(l: Log)
    requires Usable(l)
    ensures
      var o := Opened(l);
      && o.disk.Keys == l.disk.Keys + {l.path}
      && (forall name :: name in l.disk ==> o.disk[name] == l.disk[name])
      && (l.path !in l.disk ==> o.disk[l.path] == "")
      && o.size == |o.disk[l.path]|
  {
  }

  // An append, which opens the file if need be, puts its data at the end of the
  // log file and touches no other.
  lemma AppendingExtends(l: Log, data: string)
    requires Usable(l)
    ensures
      var r := Appended(l, data);
      && r.disk.Keys == l.disk.Keys + {l.path}
      && (forall name :: name in l.disk && name != l.path ==> r.disk[name] == l.disk[name])
      && r.disk[l.path] == (if l.path in l.disk then l.disk[l.path] else "") + data
  {
    OpeningKeepsFiles(l);
  }

  // rename(2) replaces whatever the target held.
  function Moved(disk: Disk, path: string, target: string): Disk
    requires path in disk
  {
    (disk - {path})[target := disk[path]]
  }

  // The rotation rule: a new file begins with the header, a full one makes way for a new one.
  function Headed(l: Log, target: string): (r: Log)
    requires Usable(l) && l.isOpen
    ensures Usable(r) && r.isOpen
  {
    if l.size == 0 then Appended(l, HEADER)
    else if l.size > MAX_FILE_SIZE then Appended(Log(Moved(l.disk, l.path, target), LOG_PATH, false, -1), HEADER)
    else l
  }

  // The rule, then the data: what one SyncLogger::append, and one call of the
  // write lambda in AsyncLogger::flush, do to the files.
  function Recorded(l: Log, data: string, target: string): (r: Log)
    requires Usable(l) && l.isOpen
    ensures Usable(r) && r.isOpen
  {
    Appended(Headed(l, target), data)
  }

  // What the names a rotation uses have to be: unused by any other file.
  predicate FreshNames(l: Log, target: string) {
    && target != LOG_PATH
    && (target in l.disk ==> target == l.path)
    && (LOG_PATH in l.disk ==> LOG_PATH == l.path)
  }

  predicate SafeToRecord(l: Log, target: string) {
    l.size > MAX_FILE_SIZE ==> FreshNames(l, target)
  }

  // The whole message history, file by file: `rotated` are the names of the
  // finished files, oldest first, `bodies` the messages each one holds, and
  // `current` the messages in the file being written.
  datatype Ledger = Ledger(rotated: seq<string>, bodies: seq<seq<string>>, current: seq<string>)

  function Messages(g: Ledger): seq<string> {
    Flatten(g.bodies) + g.current
  }

  // What it means for the files to hold the ledger: each finished file is one
  // header followed by its messages, unsplit and in order, the current one is
  // too unless nothing was ever written, a file is finished only when it is
  // larger than MAX_FILE_SIZE, and none is larger than 2 * MAX_FILE_SIZE.
  ghost predicate Holds(l: Log, g: Ledger) {
    && Usable(l) && l.isOpen
    && |g.rotated| == |g.bodies|
    && (forall k, m :: 0 <= k < m < |g.rotated| ==> g.rotated[k] != g.rotated[m])
    && l.path !in g.rotated
    && (forall k :: 0 <= k < |g.rotated| ==>
          g.rotated[k] in l.disk && l.disk[g.rotated[k]] == HEADER + Flatten(g.bodies[k])
          && MAX_FILE_SIZE < |l.disk[g.rotated[k]]| <= 2 * MAX_FILE_SIZE)
    && (if l.disk[l.path] == "" then g.current == []
        else l.disk[l.path] == HEADER + Flatten(g.current))
    && l.size <= 2 * MAX_FILE_SIZE
  }

  function Entered(l: Log, g: Ledger, data: string, target: string): Ledger {
    if l.size > MAX_FILE_SIZE then Ledger(g.rotated + [target], g.bodies + [g.current], [data])
    else g.(current := g.current + [data])
  }

  lemma EnteredMessages(l: Log, g: Ledger, data: string, target: string)
    ensures Messages(Entered(l, g, data, target)) == Messages(g) + [data]
  {
    if l.size > MAX_FILE_SIZE {
      FlattenSnoc(g.bodies, g.current);
    }
  }

  // One record: with fresh names, nothing the files held is lost, the message is
  // whole, and header and size rules go on holding.
  lemma RecordedHolds(l: Log, g: Ledger, data: string, target: string)
    requires Holds(l, g) && SafeToRecord(l, target) && |data| <= MAX_FILE_SIZE
    ensures Holds(Recorded(l, data, target), Entered(l, g, data, target))
  {
    if l.size > MAX_FILE_SIZE {
      RotatedHolds(l, g, data, target);
    } else {
      FlattenSnoc(g.current, data);
    }
  }

  lemma RotatedHolds(l: Log, g: Ledger, data: string, target: string)
    requires Holds(l, g) && l.size > MAX_FILE_SIZE && FreshNames(l, target) && |data| <= MAX_FILE_SIZE
    ensures Holds(Recorded(l, data, target), Entered(l, g, data, target))
  {
    assert Flatten([data]) == data;
  }

  // The first message in an empty file comes behind the header line.
  lemma FirstRecordHasHeader(l: Log, data: string, target: string)
    requires Usable(l) && l.isOpen && l.size == 0
    ensures
      Recorded(l, data, target).disk[l.path] ==
        "Date       Time            Tid  Level File            Function             Line  Msg\n" + data
  {
    assert l.disk[l.path] == "" && "" + HEADER == HEADER;
  }

  // A rotation keeps every file on the disk intact, the finished one under its
  // new name, exactly when its names are unused (or the file it overwrites
  // happened to hold the very same text).
  lemma RotationKeepsFilesIff(l: Log, data: string, target: string)
    requires Usable(l) && l.isOpen && l.size > MAX_FILE_SIZE
    ensures
      var r := Recorded(l, data, target);
      (&& (forall name :: name in l.disk && name != l.path ==> name in r.disk && r.disk[name] == l.disk[name])
       && target in r.disk && r.disk[target] == l.disk[l.path])
      <==>
      (&& target != LOG_PATH
       && (LOG_PATH in l.disk ==> LOG_PATH == l.path)
       && (target in l.disk ==> l.disk[target] == l.disk[l.path]))
    ensures Recorded(l, data, target).path == "./log.log"
  {
    var moved := Moved(l.disk, l.path, target);
    var base := if LOG_PATH in moved then moved[LOG_PATH] else "";
    var r := Recorded(l, data, target);
    assert r.disk[LOG_PATH] == base + HEADER + data;
    assert |r.disk[LOG_PATH]| > |base|;
    assert forall name :: name in l.disk && name != l.path && name != target && name != LOG_PATH ==> r.disk[name] == l.disk[name];
    if LOG_PATH in l.disk && LOG_PATH != l.path && target != LOG_PATH {
      assert r.disk[LOG_PATH] != l.disk[LOG_PATH];
    }
    if target == LOG_PATH {
      assert base == l.disk[l.path];
      assert r.disk[target] != l.disk[l.path];
    }
  }

  // One call of append: the message and the name a rotation would use.
  datatype Call = Call(data: string, target: string)

  // SyncLogger::append on the values: oversized messages are refused.
  function Submitted(l: Log, c: Call): (r: Log)
    requires Usable(l) && l.isOpen
    ensures Usable(r) && r.isOpen
  {
    if |c.data| > MAX_FILE_SIZE then l else Recorded(l, c.data, c.target)
  }

  function RunCalls(l: Log, calls: seq<Call>): (r: Log)
    requires Usable(l) && l.isOpen
    ensures Usable(r) && r.isOpen
    decreases |calls|
  {
    if calls == [] then l else RunCalls(Submitted(l, calls[0]), calls[1..])
  }

  // The messages one call, and a run of calls, add to the log.
  function Kept(c: Call): seq<string> {
    if |c.data| > MAX_FILE_SIZE then [] else [c.data]
  }

  function Accepted(calls: seq<Call>): seq<string> {
    if calls == [] then [] else Kept(calls[0]) + Accepted(calls[1..])
  }

  lemma CallsCons(l: Log, c: Call, tail: seq<Call>)
    requires Usable(l) && l.isOpen && |c.data| <= MAX_FILE_SIZE
    ensures RunCalls(l, [c] + tail) == RunCalls(Submitted(l, c), tail)
    ensures Accepted([c] + tail) == [c.data] + Accepted(tail)
  {
    assert ([c] + tail)[1..] == tail;
  }

  // Such a rotation is two of them within a second, which give the same name:
  // a new logger that fills two files loses the first.
  lemma SecondRotationLosesFirstFile(first: string, second: string, third: string, target: string)
    requires |first| == |second| == MAX_FILE_SIZE && |third| <= MAX_FILE_SIZE && target != LOG_PATH
    ensures
      var l := Opened(Log(map[], LOG_PATH, false, -1));
      var calls := [Call(first, target)] + ([Call(second, target)] + ([Call(third, target)] + []));
      && Accepted(calls) == [first, second, third]
      && RunCalls(l, calls).disk == map[target := HEADER + second, LOG_PATH := HEADER + third]
  {
    var l := Opened(Log(map[], LOG_PATH, false, -1));
    var a, b, c := Call(first, target), Call(second, target), Call(third, target);
    var l1 := Submitted(l, a);
    assert "" + HEADER == HEADER;
    assert l1 == Log(map[LOG_PATH := HEADER + first], LOG_PATH, true, |HEADER| + |first|);
    var l2 := Submitted(l1, b);
    assert l2.disk == map[target := HEADER + first, LOG_PATH := HEADER + second];
    CallsCons(l2, c, []);
    CallsCons(l1, b, [c] + []);
    CallsCons(l, a, [b] + ([c] + []));
  }

  predicate SafeCalls(l: Log, calls: seq<Call>)
    requires Usable(l) && l.isOpen
    decreases |calls|
  {
    calls != [] ==>
      && (|calls[0].data| <= MAX_FILE_SIZE ==> SafeToRecord(l, calls[0].target))
      && SafeCalls(Submitted(l, calls[0]), calls[1..])
  }

  lemma SubmittedHolds(l: Log, g: Ledger, c: Call) returns (g': Ledger)
    requires Holds(l, g) && (|c.data| <= MAX_FILE_SIZE ==> SafeToRecord(l, c.target))
    ensures Holds(Submitted(l, c), g') && Messages(g') == Messages(g) + Kept(c)
  {
    if |c.data| > MAX_FILE_SIZE {
      g' := g;
    } else {
      RecordedHolds(l, g, c.data, c.target);
      EnteredMessages(l, g, c.data, c.target);
      g' := Entered(l, g, c.data, c.target);
    }
  }

  // Rotation preserves the log: over any calls, the files hold exactly the
  // messages that are not oversized, in order and unsplit.
  lemma {:induction false} RotationPreservesLog(l: Log, g: Ledger, calls: seq<Call>) returns (g': Ledger)
    requires Holds(l, g) && SafeCalls(l, calls)
    ensures Holds(RunCalls(l, calls), g')
    ensures Messages(g') == Messages(g) + Accepted(calls)
    ensures forall name :: name in g'.rotated ==> 104857600 < |RunCalls(l, calls).disk[name]| <= 209715200
    decreases |calls|
  {
    if calls == [] {
      g' := g;
    } else {
      var next := SubmittedHolds(l, g, calls[0]);
      g' := RotationPreservesLog(Submitted(l, calls[0]), next, calls[1..]);
    }
  }

  // From a new logger on an empty or missing file.
  lemma FreshLogHolds(disk: Disk, path: string)
    requires path in disk ==> disk[path] == ""
    ensures Holds(Opened(Log(disk, path, false, -1)), Ledger([], [], []))
  {
  }
}
