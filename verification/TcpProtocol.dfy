// net/TcpConnection.cpp as a transition system: what one loop-thread call or one
// event does to the send path, and every sequence of them.
module TcpProtocol {
  import opened Events

  datatype Status = Disconnected | Connecting | Connected | Disconnecting

  // What write(2) may answer. `Broken` stands for EPIPE and ECONNRESET, `Refused`
  // for every other error.
  datatype Outcome = Wrote(n: nat) | Refused | Broken

  datatype Connection = Connection(
    status: Status,
    listened: Mask,    // interest of the connection's event
    happened: Mask,    // what the poller last reported
    due: bool,         // the report holds a write event whose callback has not run yet
    backlog: string,   // sendBuffer_
    wire: string,      // every byte the socket took
    accepted: string,  // every byte of every send that was not refused
    open: bool,        // the socket, and its write side
    shut: bool)

  const FRESH := Connection(Connecting, NONE, 0, false, "", "", "", true, false)

  datatype Step =
    | Establish                            // connectComplete
    | Send(data: string, outcome: Outcome)
    | Shutdown
    | ForceClose                           // forceClose, or disconnectComplete after an end of file
    | HangUp                               // the close callback
    | Happen(mask: Mask)                   // the poller reports the event
    | HandleWrite(answer: Outcome)         // the write callback

  predicate Writable(m: Mask) {
    m & WRITE != 0
  }

  predicate Interested(m: Mask) {
    !Negative(m) && m & WRITE != 0
  }

  predicate First(c: Connection) {
    !Writable(c.happened) && c.backlog == ""
  }

  predicate MayAnswer(c: Connection, len: nat, outcome: Outcome) {
    outcome.Wrote? ==> outcome.n <= len && c.open && (c.shut ==> outcome.n == 0)
  }

  function Buffered(c: Connection, rest: string): Connection {
    if rest == "" then c
    else c.(backlog := c.backlog + rest,
            listened := if Writable(c.happened) then c.listened else Enabled(c.listened, WRITE))
  }

  function Sent(c: Connection, data: string, outcome: Outcome): Connection
    requires MayAnswer(c, |data|, outcome)
  {
    if c.status != Connected then c
    else
      var taken := c.(accepted := c.accepted + data);
      if !First(c) then Buffered(taken, data)
      else match outcome
        case Wrote(n) => Buffered(taken.(wire := c.wire + data[..n]), data[n..])
        case Refused => Buffered(taken, data)
        case Broken => c
  }

  function ShutDown(c: Connection): Connection {
    if c.status != Connected then c
    else c.(status := Disconnecting, shut := c.shut || !Writable(c.happened))
  }

  function Closed(c: Connection): Connection {
    c.(listened := NONE, open := false)
  }

  function Ended(c: Connection): Connection {
    if c.status == Connecting || c.status == Disconnected then c
    else Closed(c.(status := Disconnected))
  }

  function Flushed(c: Connection, n: nat): Connection
    requires n <= |c.backlog|
  {
    var rest := c.backlog[n..];
    var d := c.(wire := c.wire + c.backlog[..n], backlog := rest);
    if rest != "" then d
    else
      var quiet := d.(listened := Disabled(c.listened, WRITE));
      if c.status == Disconnecting then ShutDown(quiet) else quiet
  }

  function Written(c: Connection, outcome: Outcome): Connection
    requires MayAnswer(c, |c.backlog|, outcome)
  {
    var d := c.(due := false);
    if Writable(c.happened) && outcome.Wrote? then Flushed(d, outcome.n) else d
  }

  // The kernel reports writability only where it was asked to, and an event is
  // handled before the next report.
  predicate MayStep(c: Connection, step: Step) {
    match step
    case Send(data, outcome) => MayAnswer(c, |data|, outcome)
    case Happen(mask) => !c.due && (Writable(mask) ==> Interested(c.listened))
    case HandleWrite(answer) => c.due && MayAnswer(c, |c.backlog|, answer)
    case _ => true
  }

  function Next(c: Connection, step: Step): Connection
    requires MayStep(c, step)
  {
    match step
    case Establish => c.(status := Connected, listened := Enabled(c.listened, READ))
    case Send(data, outcome) => Sent(c, data, outcome)
    case Shutdown => ShutDown(c)
    case ForceClose => Ended(c)
    case HangUp => Closed(c)
    case Happen(mask) => c.(happened := mask, due := Writable(mask))
    case HandleWrite(answer) => Written(c, answer)
  }

  predicate Legal(c: Connection, run: seq<Step>)
    decreases |run|
  {
    run == [] || (MayStep(c, run[0]) && Legal(Next(c, run[0]), run[1..]))
  }

  function Run(c: Connection, run: seq<Step>): Connection
    requires Legal(c, run)
    decreases |run|
  {
    if run == [] then c else Run(Next(c, run[0]), run[1..])
  }

  // ---- callbacks ---------------------------------------------------------------

  /** The write-complete callback is called in send, or queued by handleWrite. */
  predicate Completes(c: Connection, step: Step) {
    match step
    case Send(data, outcome) => c.status == Connected && First(c) && outcome == Wrote(|data|)
    case HandleWrite(answer) => Writable(c.happened) && answer == Wrote(|c.backlog|)
    case _ => false
  }

  /** The high-water callback is called with a mark of `mark`. */
  predicate Overflows(c: Connection, step: Step, mark: nat)
    requires MayStep(c, step)
  {
    && step.Send?
    && c.status == Connected
    && var n := if !First(c) || step.outcome.Refused? then 0 else if step.outcome.Wrote? then step.outcome.n else |step.data|;
    n < |step.data| && |c.backlog| + |step.data| - n >= mark
  }
}

module TcpTheorems {
  import opened Events
  import opened TcpProtocol

  /** What every reachable connection keeps; the first line is the order of the stream. */
  predicate Inv(c: Connection) {
    && c.wire + c.backlog == c.accepted
    && (c.listened == NONE || !Negative(c.listened))
    && (c.due ==> Writable(c.happened))
    && (c.due && c.open ==> !Negative(c.listened))
  }

  lemma BufferedKeepsInv(c: Connection, rest: string)
    requires c.wire + c.backlog + rest == c.accepted
    requires (c.listened == NONE || !Negative(c.listened)) && (c.due ==> Writable(c.happened))
    requires c.due && c.open ==> !Negative(c.listened)
    ensures Inv(Buffered(c, rest))
  {
    assert c.wire + (c.backlog + rest) == c.accepted;
  }

  lemma SentKeepsInv(c: Connection, data: string, outcome: Outcome)
    requires Inv(c) && MayAnswer(c, |data|, outcome)
    ensures Inv(Sent(c, data, outcome))
  {
    if c.status == Connected {
      var taken := c.(accepted := c.accepted + data);
      if First(c) && outcome.Wrote? {
        var n := outcome.n;
        assert data == data[..n] + data[n..];
        assert (c.wire + data[..n]) + c.backlog + data[n..] == taken.accepted;
        BufferedKeepsInv(taken.(wire := c.wire + data[..n]), data[n..]);
      } else {
        BufferedKeepsInv(taken, data);
      }
    }
  }

  lemma WrittenKeepsInv(c: Connection, outcome: Outcome)
    requires Inv(c) && c.due && MayAnswer(c, |c.backlog|, outcome)
    ensures Inv(Written(c, outcome))
  {
    if outcome.Wrote? {
      var n := outcome.n;
      assert c.backlog == c.backlog[..n] + c.backlog[n..];
      assert c.accepted == (c.wire + c.backlog[..n]) + c.backlog[n..];
    }
  }

  lemma NextKeepsInv(c: Connection, step: Step)
    requires Inv(c) && MayStep(c, step)
    ensures Inv(Next(c, step))
  {
    match step
    case Send(data, outcome) => SentKeepsInv(c, data, outcome);
    case HandleWrite(answer) => WrittenKeepsInv(c, answer);
    case _ =>
  }

  /** In every run the bytes on the wire are a prefix of what was accepted, and the backlog is the rest. */
  lemma {:induction false} StreamOrder(c: Connection, run: seq<Step>)
    requires Inv(c) && Legal(c, run)
    ensures Inv(Run(c, run))
    ensures Run(c, run).wire + Run(c, run).backlog == Run(c, run).accepted
    ensures Run(c, run).wire <= Run(c, run).accepted
    decreases |run|
  {
    if run != [] {
      NextKeepsInv(c, run[0]);
      StreamOrder(Next(c, run[0]), run[1..]);
    }
  }

  /** What a step asks to send, unless the connection is not up or the peer is gone. */
  function Offered(c: Connection, step: Step): string {
    if step.Send? && c.status == Connected && !(First(c) && step.outcome == Broken) then step.data else ""
  }

  function Accepted(c: Connection, run: seq<Step>): string
    requires Legal(c, run)
    decreases |run|
  {
    if run == [] then "" else Offered(c, run[0]) + Accepted(Next(c, run[0]), run[1..])
  }

  lemma OfferedIsAccepted(c: Connection, step: Step)
    requires MayStep(c, step)
    ensures Next(c, step).accepted == c.accepted + Offered(c, step)
  {
    assert c.accepted + "" == c.accepted;
  }

  lemma {:induction false} AcceptedAccumulates(c: Connection, run: seq<Step>)
    requires Legal(c, run)
    ensures Run(c, run).accepted == c.accepted + Accepted(c, run)
    decreases |run|
  {
    if run != [] {
      OfferedIsAccepted(c, run[0]);
      AcceptedAccumulates(Next(c, run[0]), run[1..]);
      var rest := Accepted(Next(c, run[0]), run[1..]);
      assert (c.accepted + Offered(c, run[0])) + rest == c.accepted + (Offered(c, run[0]) + rest);
    } else {
      assert c.accepted + "" == c.accepted;
    }
  }

  /** From the first byte: the wire is a prefix of the accepted sends laid end to end. */
  lemma WireIsPrefixOfSends(run: seq<Step>)
    requires Legal(FRESH, run)
    ensures Run(FRESH, run).wire + Run(FRESH, run).backlog == Accepted(FRESH, run)
  {
    StreamOrder(FRESH, run);
    AcceptedAccumulates(FRESH, run);
    assert "" + Accepted(FRESH, run) == Accepted(FRESH, run);
  }

  // ---- the wire and the socket's answers ---------------------------------------------

  /** How many bytes the socket said it took. */
  function Took(c: Connection, step: Step): nat {
    match step
    case Send(_, Wrote(n)) => if c.status == Connected && !Writable(c.happened) && c.backlog == "" then n else 0
    case HandleWrite(Wrote(n)) => n
    case _ => 0
  }

  function TookAll(c: Connection, run: seq<Step>): nat
    requires Legal(c, run)
    decreases |run|
  {
    if run == [] then 0 else Took(c, run[0]) + TookAll(Next(c, run[0]), run[1..])
  }

  /** The wire grows by exactly what the socket took: with StreamOrder, by those bytes of the accepted stream. */
  lemma {:induction false} WireIsWhatTheSocketTook(c: Connection, run: seq<Step>)
    requires Inv(c) && Legal(c, run)
    ensures |Run(c, run).wire| == |c.wire| + TookAll(c, run)
    decreases |run|
  {
    if run != [] {
      NextKeepsInv(c, run[0]);
      WireIsWhatTheSocketTook(Next(c, run[0]), run[1..]);
    }
  }

  // ---- reading --------------------------------------------------------------------------

  /** The mask is not negative and has both read bits. */
  predicate Reads(m: Mask) {
    m & 0x8003 == 0x3
  }

  lemma MasksKeepReads(m: Mask)
    ensures m == NONE || !Negative(m) ==> Reads(Enabled(m, READ))
    ensures Reads(m) ==> Reads(Enabled(m, WRITE)) && Reads(Disabled(m, WRITE))
  {
  }

  /** A step that does not close changes no interest but these. */
  lemma ListenedChanges(c: Connection, step: Step)
    requires MayStep(c, step)
    ensures
      var m := Next(c, step).listened;
      || m == c.listened || m == Enabled(c.listened, WRITE) || m == Disabled(c.listened, WRITE)
      || (step == Establish && m == Enabled(c.listened, READ)) || !Next(c, step).open
    ensures Next(c, step).open ==> c.open
  {
  }

  lemma NextReads(c: Connection, step: Step)
    requires c.listened == NONE || !Negative(c.listened)
    requires MayStep(c, step) && (c.open ==> Reads(c.listened))
    ensures Next(c, step).open ==> Reads(Next(c, step).listened)
  {
    MasksKeepReads(c.listened);
    ListenedChanges(c, step);
  }

  lemma {:induction false} ReadsUntilClosed(c: Connection, run: seq<Step>)
    requires Inv(c) && Legal(c, run) && (c.open ==> Reads(c.listened))
    ensures Run(c, run).open ==> Reads(Run(c, run).listened)
    decreases |run|
  {
    if run != [] {
      NextKeepsInv(c, run[0]);
      NextReads(c, run[0]);
      ReadsUntilClosed(Next(c, run[0]), run[1..]);
    }
  }

  /** From its establishment to its close a connection listens for reads, whatever is sent, drained or shut down. */
  lemma {:induction false} EstablishedReads(c: Connection, run: seq<Step>)
    requires Inv(c) && Legal(c, run) && Establish in run
    ensures Run(c, run).open ==> Reads(Run(c, run).listened)
    decreases |run|
  {
    NextKeepsInv(c, run[0]);
    if run[0] == Establish {
      MasksKeepReads(c.listened);
      ReadsUntilClosed(Next(c, Establish), run[1..]);
    } else {
      EstablishedReads(Next(c, run[0]), run[1..]);
    }
  }

  // ---- callbacks ---------------------------------------------------------------

  /** The step has the socket take bytes, or none of none: at once, or from the backlog. */
  predicate Writes(c: Connection, step: Step) {
    match step
    case Send(data, outcome) => c.status == Connected && First(c) && outcome.Wrote?
    case HandleWrite(answer) => answer.Wrote?
    case _ => false
  }

  /** Completion is reported exactly when such a step leaves everything accepted on the wire. */
  lemma CompletesIff(c: Connection, step: Step)
    requires Inv(c) && MayStep(c, step)
    ensures Completes(c, step) <==> Writes(c, step) && Next(c, step).wire == Next(c, step).accepted
  {
    NextKeepsInv(c, step);
    var d := Next(c, step);
    assert |d.accepted| == |d.wire| + |d.backlog|;
    assert d.wire == d.accepted <==> d.backlog == "";
  }

  lemma OverflowsIff(c: Connection, step: Step, mark: nat)
    requires MayStep(c, step)
    ensures Overflows(c, step, mark) <==> |Next(c, step).backlog| > |c.backlog| && |Next(c, step).backlog| >= mark
  {
    if step.Send? && c.status == Connected {
      if !First(c) || step.outcome.Refused? {
        assert Next(c, step).backlog == c.backlog + step.data;
      } else if step.outcome.Wrote? {
        assert Next(c, step).backlog == c.backlog + step.data[step.outcome.n..];
      } else {
        assert Next(c, step) == c;
      }
    } else {
      assert |Next(c, step).backlog| <= |c.backlog|;
    }
  }

  // ---- the backlog can reach the wire, or is stuck --------------------------------

  predicate CanDrain(c: Connection) {
    c.backlog == "" || (c.open && !c.shut && (c.due || Interested(c.listened)))
  }

  predicate SendFree(run: seq<Step>) {
    forall step :: step in run ==> !step.Send?
  }

  ghost predicate Drains(c: Connection) {
    exists run :: SendFree(run) && Legal(c, run) && Run(c, run).wire == c.accepted
  }

  lemma StuckStays(c: Connection, step: Step)
    requires Inv(c) && MayStep(c, step) && !step.Send? && !CanDrain(c)
    ensures !CanDrain(Next(c, step)) && Next(c, step).wire == c.wire && Next(c, step).accepted == c.accepted
  {
    if step.HandleWrite? && step.answer.Wrote? {
      assert c.shut && step.answer.n == 0;
      assert c.backlog[0..] == c.backlog && c.wire + c.backlog[..0] == c.wire;
    }
  }

  lemma {:induction false} StuckForGood(c: Connection, run: seq<Step>)
    requires Inv(c) && Legal(c, run) && SendFree(run) && !CanDrain(c)
    ensures Run(c, run).wire == c.wire && Run(c, run).accepted == c.accepted
    decreases |run|
  {
    if run != [] {
      StuckStays(c, run[0]);
      NextKeepsInv(c, run[0]);
      StuckForGood(Next(c, run[0]), run[1..]);
    }
  }

  lemma FlushRun(c: Connection)
    requires Inv(c) && c.due && c.open && !c.shut
    ensures Drains(c)
  {
    var step := HandleWrite(Wrote(|c.backlog|));
    NextKeepsInv(c, step);
    var run := [step];
    assert run[1..] == [];
    assert Legal(Next(c, step), run[1..]);
    assert Run(c, run) == Next(c, step);
    assert SendFree(run) && Legal(c, run) && Run(c, run).wire == c.accepted;
  }

  lemma ReportRun(c: Connection)
    requires Inv(c) && !c.due && Interested(c.listened) && c.open && !c.shut
    ensures Drains(c)
  {
    var report := Happen(WRITE);
    var d := Next(c, report);
    NextKeepsInv(c, report);
    FlushRun(d);
    var tail :| SendFree(tail) && Legal(d, tail) && Run(d, tail).wire == d.accepted;
    var run := [report] + tail;
    assert run[1..] == tail;
    assert Run(c, run) == Run(d, tail);
    assert SendFree(run) && Legal(c, run) && Run(c, run).wire == c.accepted;
  }

  /** Without another send, some run brings the whole backlog to the wire exactly when the socket takes bytes and the event waits for them. */
  lemma DrainsIff(c: Connection)
    requires Inv(c)
    ensures Drains(c) <==> CanDrain(c)
  {
    if c.backlog == "" {
      var run: seq<Step> := [];
      assert SendFree(run) && Legal(c, run) && Run(c, run).wire == c.accepted;
    } else if CanDrain(c) {
      if c.due {
        FlushRun(c);
      } else {
        ReportRun(c);
      }
    } else if Drains(c) {
      var run :| SendFree(run) && Legal(c, run) && Run(c, run).wire == c.accepted;
      StuckForGood(c, run);
      assert false;
    }
  }

  /** A send on a working connection strands its bytes exactly when a stale report says writable while nothing waits for it. */
  lemma SendStrandsIff(c: Connection, data: string, outcome: Outcome)
    requires Inv(c) && Drains(c) && c.status == Connected && c.open && !c.shut
    requires MayAnswer(c, |data|, outcome)
    ensures !Drains(Sent(c, data, outcome)) <==> data != "" && Writable(c.happened) && !c.due && !Interested(c.listened)
  {
    SentKeepsInv(c, data, outcome);
    DrainsIff(c);
    DrainsIff(Sent(c, data, outcome));
  }

  /** Every send between a drain and the next report is such a send. */
  lemma DrainStrandsTheNextSend(c: Connection, data: string, outcome: Outcome)
    requires Inv(c) && c.due && c.open && !c.shut && c.status == Connected && data != ""
    requires MayAnswer(c, |data|, outcome)
    ensures
      var drained := Written(c, Wrote(|c.backlog|));
      && drained.wire == c.accepted
      && Sent(drained, data, outcome).wire == c.accepted
      && !Drains(Sent(drained, data, outcome))
  {
    var drained := Written(c, Wrote(|c.backlog|));
    WrittenKeepsInv(c, Wrote(|c.backlog|));
    DrainsIff(drained);
    SendStrandsIff(drained, data, outcome);
  }

  /** A report without the write bit ends that: the next send goes to the socket itself, and what it leaves can drain. */
  lemma ReportClearsTheWay(c: Connection, mask: Mask, data: string, n: nat)
    requires Inv(c) && c.status == Connected && c.open && !c.shut && c.backlog == "" && n <= |data|
    requires mask & 0x4 == 0 && MayStep(c, Happen(mask))
    ensures
      var sent := Next(Next(c, Happen(mask)), Send(data, Wrote(n)));
      sent.wire == c.wire + data[..n] && sent.backlog == data[n..] && Drains(sent)
  {
    var reported := Next(c, Happen(mask));
    NextKeepsInv(c, Happen(mask));
    NextKeepsInv(reported, Send(data, Wrote(n)));
    DrainsIff(reported);
    SendStrandsIff(reported, data, Wrote(n));
  }

  /** Once the last byte is written, the event no longer waits for writability. */
  lemma DrainQuiets(c: Connection)
    requires Inv(c) && c.due && MayStep(c, HandleWrite(Wrote(|c.backlog|)))
    ensures
      var d := Next(c, HandleWrite(Wrote(|c.backlog|)));
      d.wire == c.accepted && d.backlog == "" && !Interested(d.listened) && !d.due
  {
    NextKeepsInv(c, HandleWrite(Wrote(|c.backlog|)));
  }

  lemma LegalCons(c: Connection, step: Step, tail: seq<Step>)
    requires MayStep(c, step) && Legal(Next(c, step), tail)
    ensures Legal(c, [step] + tail) && Run(c, [step] + tail) == Run(Next(c, step), tail)
  {
    assert ([step] + tail)[1..] == tail;
  }

  /** Such a send, from a new connection: a short write, its rest after a report, and one more byte. */
  lemma SendCanStrand() returns (run: seq<Step>)
    ensures Legal(FRESH, run)
    ensures
      var c := Run(FRESH, run);
      c.status == Connected && c.open && !c.shut && c.wire == "ab" && c.backlog == "c" && !Drains(c)
  {
    var c1 := Next(FRESH, Establish);
    var c2 := Next(c1, Send("ab", Wrote(1)));
    assert "ab"[..1] == "a" && "ab"[1..] == "b" && c2.wire == "a" && c2.backlog == "b";
    var c3 := Next(c2, Happen(WRITE));
    var c4 := Next(c3, HandleWrite(Wrote(1)));
    assert "b"[..1] == "b" && "b"[1..] == "" && c4.wire == "ab" && c4.backlog == "";
    var c5 := Next(c4, Send("c", Refused));
    assert c5.backlog == "c" && !CanDrain(c5);
    LegalCons(c4, Send("c", Refused), []);
    LegalCons(c3, HandleWrite(Wrote(1)), [Send("c", Refused)] + []);
    LegalCons(c2, Happen(WRITE), [HandleWrite(Wrote(1))] + ([Send("c", Refused)] + []));
    var tail := [Happen(WRITE)] + ([HandleWrite(Wrote(1))] + ([Send("c", Refused)] + []));
    LegalCons(c1, Send("ab", Wrote(1)), tail);
    LegalCons(FRESH, Establish, [Send("ab", Wrote(1))] + tail);
    run := [Establish] + ([Send("ab", Wrote(1))] + tail);
    StreamOrder(FRESH, run);
    DrainsIff(c5);
  }

  // ---- shutting down -------------------------------------------------------------

  /** shutdown loses the backlog exactly when no write report is outstanding; with one, it never shuts the write side. */
  lemma ShutdownLosesBacklogIff(c: Connection)
    requires Inv(c) && Drains(c) && c.status == Connected && c.open && !c.shut
    ensures !Drains(ShutDown(c)) <==> c.backlog != "" && !Writable(c.happened)
    ensures ShutDown(c).shut <==> !Writable(c.happened)
  {
    NextKeepsInv(c, Shutdown);
    DrainsIff(c);
    DrainsIff(ShutDown(c));
  }

  /** Such a shutdown, from a new connection: right after a short write. */
  lemma ShutdownCanLose() returns (run: seq<Step>)
    ensures Legal(FRESH, run)
    ensures
      var c := Run(FRESH, run);
      c.open && c.shut && c.accepted == "ab" && c.wire == "a" && !Drains(c)
  {
    var c1 := Next(FRESH, Establish);
    var c2 := Next(c1, Send("ab", Wrote(1)));
    assert "ab"[..1] == "a" && "ab"[1..] == "b" && c2.wire == "a" && c2.backlog == "b";
    var c3 := Next(c2, Shutdown);
    LegalCons(c2, Shutdown, []);
    LegalCons(c1, Send("ab", Wrote(1)), [Shutdown] + []);
    LegalCons(FRESH, Establish, [Send("ab", Wrote(1))] + ([Shutdown] + []));
    run := [Establish] + ([Send("ab", Wrote(1))] + ([Shutdown] + []));
    StreamOrder(FRESH, run);
    DrainsIff(c3);
  }

  /** The shutdown that handleWrite owes after a drain never comes. */
  lemma {:induction false} DeferredShutdownNeverComes(c: Connection, run: seq<Step>)
    requires Legal(c, run) && c.status != Connected && Establish !in run
    ensures Run(c, run).status != Connected && Run(c, run).shut == c.shut
    decreases |run|
  {
    if run != [] {
      DeferredShutdownNeverComes(Next(c, run[0]), run[1..]);
    }
  }

  lemma {:induction false} RefusedUnlessConnected(c: Connection, run: seq<Step>)
    requires Legal(c, run) && c.status != Connected && Establish !in run
    ensures Run(c, run).accepted == c.accepted && Run(c, run).status != Connected
    decreases |run|
  {
    if run != [] {
      RefusedUnlessConnected(Next(c, run[0]), run[1..]);
    }
  }

  /** After shutdown no send is accepted any more; what was accepted before stays due. */
  lemma ShutdownEndsSends(c: Connection, run: seq<Step>)
    requires Inv(c) && c.status == Connected && Legal(Next(c, Shutdown), run) && Establish !in run
    ensures Run(Next(c, Shutdown), run).accepted == c.accepted
    ensures Run(Next(c, Shutdown), run).wire <= c.accepted
    ensures Next(c, Shutdown).backlog == c.backlog && Next(c, Shutdown).open == c.open
  {
    NextKeepsInv(c, Shutdown);
    RefusedUnlessConnected(Next(c, Shutdown), run);
    StreamOrder(Next(c, Shutdown), run);
  }

  /** Nor before a new connection is established. */
  lemma RefusedUntilEstablished(run: seq<Step>)
    requires Legal(FRESH, run) && Establish !in run
    ensures Run(FRESH, run).accepted == "" && Run(FRESH, run).wire == ""
  {
    RefusedUnlessConnected(FRESH, run);
    StreamOrder(FRESH, run);
  }

  // ---- closing --------------------------------------------------------------------

  /** A closed connection sends nothing more, whatever is called on it. */
  lemma {:induction false} ClosedIsSilent(c: Connection, run: seq<Step>)
    requires Legal(c, run) && !c.open
    ensures Run(c, run).wire == c.wire && !Run(c, run).open
    decreases |run|
  {
    if run != [] {
      ClosedIsSilent(Next(c, run[0]), run[1..]);
    }
  }

  /** forceClose on a connection that is up: the poller and the socket let go of it, and over every run after it no byte is sent and, until it is established again, none is accepted. */
  lemma ForceCloseEnds(c: Connection, run: seq<Step>)
    requires c.status == Connected || c.status == Disconnecting
    requires Legal(Next(c, ForceClose), run)
    ensures
      var d := Next(c, ForceClose);
      && !d.open && d.listened == 0xFFFF && d.status == Disconnected && d.wire == c.wire && d.accepted == c.accepted
      && !Run(d, run).open && Run(d, run).wire == c.wire
      && (Establish !in run ==> Run(d, run).accepted == c.accepted)
  {
    ClosedIsSilent(Next(c, ForceClose), run);
    if Establish !in run {
      RefusedUnlessConnected(Next(c, ForceClose), run);
    }
  }

  /** It does so exactly then. */
  lemma ForceClosesIff(c: Connection)
    requires c.open
    ensures !Next(c, ForceClose).open <==> c.status == Connected || c.status == Disconnecting
    ensures c.status == Connecting || c.status == Disconnected ==> Next(c, ForceClose) == c
  {
  }

  /** A hang-up closes too, but leaves the state: a connected one goes on accepting bytes that no run sends. */
  lemma HangUpEnds(c: Connection, run: seq<Step>, data: string)
    requires Legal(Next(c, HangUp), run)
    ensures
      var d := Next(c, HangUp);
      && !d.open && d.listened == 0xFFFF && d.status == c.status && d.wire == c.wire
      && !Run(d, run).open && Run(d, run).wire == c.wire
      && (c.status == Connected ==> Sent(d, data, Refused).accepted == c.accepted + data)
  {
    ClosedIsSilent(Next(c, HangUp), run);
  }
}
