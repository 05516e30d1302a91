// net/TcpConnection.cpp in its own form: the methods that move bytes from send to
// the socket, over a real buffer and a real event. The answers of the socket are
// parameters; each method returns which callbacks it called.
module TcpConnections {
  import opened Buffers
  import opened Events
  import opened TcpProtocol

  class TcpConnection {
    const event: Event
    const sendBuffer: Buffer
    var status: Status
    var highWaterMark: nat
    // The socket, and what the caller has been promised.
    var open: bool
    var shut: bool
    var due: bool
    ghost var wire: string
    ghost var accepted: string

    ghost predicate Valid()
      reads this, sendBuffer, sendBuffer.data
    {
      sendBuffer.Valid()
    }

    ghost function View(): Connection
      requires Valid()
      reads this, event, sendBuffer, sendBuffer.data
    {
      Connection(status, event.listened, event.happened, due, sendBuffer.Contents(), wire, accepted, open, shut)
    }

    constructor (fd: nat, mark: nat)
      ensures Valid() && View() == FRESH && highWaterMark == mark
      ensures fresh(event) && fresh(sendBuffer) && fresh(sendBuffer.data)
    {
      event := new Event(fd);
      sendBuffer := new Buffer(1024);
      status, highWaterMark := Connecting, mark;
      open, shut, due := true, false, false;
      wire, accepted := "", "";
    }

    // The head of send: what the socket takes at once. `rest` is left to buffer.
    method WriteFirst(data: string, outcome: Outcome) returns (rest: string, error: bool)
      requires Valid() && First(View()) && MayAnswer(View(), |data|, outcome)
      modifies this`wire, this`accepted
      ensures error <==> outcome.Broken?
      ensures error ==> wire == old(wire) && accepted == old(accepted) && rest == data
      ensures !error ==> accepted == old(accepted) + data
      ensures outcome.Wrote? ==> wire == old(wire) + data[..outcome.n] && rest == data[outcome.n..]
      ensures outcome.Refused? ==> wire == old(wire) && rest == data
    {
      rest, error := data, false;
      match outcome {
        case Wrote(n) =>
          wire := wire + data[..n];
          rest := data[n..];
        case Refused =>
        case Broken =>
          error := true;
      }
      if !error {
        accepted := accepted + data;
      }
    }

    // The tail of send. `high` tells that the high-water callback was called.
    method Enqueue(rest: string) returns (high: bool)
      requires Valid() && rest != ""
      modifies event`listened, sendBuffer, sendBuffer.data
      ensures Valid() && View() == Buffered(old(View()), rest)
      ensures sendBuffer.data == old(sendBuffer.data) || fresh(sendBuffer.data)
      ensures high <==> |View().backlog| >= highWaterMark
    {
      high := sendBuffer.Readable() + |rest| >= highWaterMark;
      sendBuffer.Append(rest);
      if !Writable(event.happened) {
        event.Enable(WRITE);
      }
    }

    method Send(data: string, outcome: Outcome) returns (complete: bool, high: bool)
      requires Valid() && MayAnswer(View(), |data|, outcome)
      modifies this`wire, this`accepted, event`listened, sendBuffer, sendBuffer.data
      ensures Valid() && View() == Next(old(View()), Step.Send(data, outcome))
      ensures sendBuffer.data == old(sendBuffer.data) || fresh(sendBuffer.data)
      ensures complete <==> Completes(old(View()), Step.Send(data, outcome))
      ensures high <==> Overflows(old(View()), Step.Send(data, outcome), highWaterMark)
    {
      complete, high := false, false;
      if status != Connected {
        return;
      }
      var rest, error := data, false;
      if !Writable(event.happened) && sendBuffer.Readable() == 0 {
        assert sendBuffer.Contents() == "";
        rest, error := WriteFirst(data, outcome);
        complete := outcome.Wrote? && rest == "";
      } else {
        accepted := accepted + data;
      }
      if !error && rest != "" {
        high := Enqueue(rest);
      }
    }

    method Shutdown()
      requires Valid()
      modifies this`status, this`shut
      ensures Valid() && View() == Next(old(View()), Step.Shutdown)
    {
      if status != Connected {
        return;
      }
      status := Disconnecting;
      if !Writable(event.happened) {
        shut := true;
      }
    }

    // `told` tells that the close callback was called.
    method ForceClose() returns (told: bool)
      requires Valid()
      modifies this`status, this`open, event`listened
      ensures Valid() && View() == Next(old(View()), Step.ForceClose)
      ensures told <==> old(status) != Connecting && old(status) != Disconnected
    {
      told := status != Connecting && status != Disconnected;
      if told {
        status := Disconnecting;
        DisconnectComplete();
      }
    }

    method DisconnectComplete()
      requires Valid()
      modifies this`status, this`open, event`listened
      ensures Valid() && View() == Closed(old(View()).(status := Disconnected))
    {
      status := Disconnected;
      HandleClose();
    }

    method HandleClose()
      requires Valid()
      modifies this`open, event`listened
      ensures Valid() && View() == Next(old(View()), Step.HangUp)
    {
      event.Change(Cancel);
      open := false;
    }

    method ConnectComplete()
      requires Valid()
      modifies this`status, event`listened
      ensures Valid() && View() == Next(old(View()), Step.Establish)
    {
      status := Connected;
      event.Enable(READ);
    }

    // The poller's report, before Event::handle calls the callbacks.
    method Happen(mask: Mask)
      requires Valid() && MayStep(View(), Step.Happen(mask))
      modifies this`due, event`happened
      ensures Valid() && View() == Next(old(View()), Step.Happen(mask))
    {
      event.SetHappened(mask);
      due := Writable(mask);
    }

    // The end of a drain in handleWrite.
    method Drained()
      requires Valid() && sendBuffer.Contents() == ""
      modifies this`status, this`shut, event`listened
      ensures Valid()
      ensures
        var quiet := old(View()).(listened := Disabled(old(event.listened), WRITE));
        View() == if old(status) == Disconnecting then ShutDown(quiet) else quiet
    {
      event.Disable(WRITE);
      if status == Disconnecting {
        Shutdown();
      }
    }

    method Flush(n: nat) returns (complete: bool)
      requires Valid() && n <= |sendBuffer.Contents()|
      modifies this`status, this`shut, this`wire, event`listened, sendBuffer
      ensures Valid() && View() == Flushed(old(View()), n)
      ensures complete <==> n == |old(View()).backlog|
    {
      wire := wire + sendBuffer.Contents()[..n];
      sendBuffer.Retrieve(n);
      complete := sendBuffer.Readable() == 0;
      if complete {
        assert sendBuffer.Contents() == "";
        Drained();
      }
    }

    // `complete` tells that the write-complete callback was queued.
    method HandleWrite(answer: Outcome) returns (complete: bool)
      requires Valid() && MayStep(View(), Step.HandleWrite(answer))
      modifies this, event`listened, sendBuffer
      ensures Valid() && View() == Next(old(View()), Step.HandleWrite(answer))
      ensures complete <==> Completes(old(View()), Step.HandleWrite(answer))
      ensures highWaterMark == old(highWaterMark)
    {
      complete := false;
      due := false;
      if Writable(event.happened) && answer.Wrote? {
        complete := Flush(answer.n);
      }
    }
  }
}
