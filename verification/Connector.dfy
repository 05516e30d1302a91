// net/Connector.cpp in its own form. The answers of connect(2) and getpeername(2)
// are parameters; timers counts the calls of start that the looper still owes.
module Connectors {
  import opened Basics
  import opened Events
  import opened ConnectorProtocol

  class Connector {
    var event: Event?
    var couldConnect: bool
    var status: Status
    var retryDelayMs: nat
    var timers: nat
    // Accounting, as in ConnectorProtocol.Connector.
    ghost var attempts: seq<Fate>
    ghost var since: nat
    ghost var delays: seq<nat>
    ghost var dangling: nat

    ghost predicate Registered()
      reads this, event
    {
      event != null && event.listened != NONE
    }

    ghost function View(): ConnectorProtocol.Connector
      reads this, event
    {
      ConnectorProtocol.Connector(couldConnect, status, retryDelayMs, Registered(), timers,
                                  attempts, since, delays, dangling)
    }

    constructor ()
      ensures View() == CREATED
    {
      event := null;
      couldConnect, status, retryDelayMs, timers := true, Disconnected, INIT_RETRY_DELAY, 0;
      attempts, since, delays, dangling := [], 0, [], 0;
    }

    // `thrown` tells that the error went to the caller.
    method Start(answer: Option<Errno>, fd: nat) returns (thrown: bool)
      modifies this
      ensures View() == Next(old(View()), Step.Start(answer))
      ensures thrown <==> old(couldConnect) && answer.Some? && answer.value in {EACCES, EPERM, EAFNOSUPPORT, OTHER}
      ensures event == old(event) || fresh(event)
    {
      thrown := false;
      if !couldConnect {
        return;
      }
      couldConnect := false;
      attempts := attempts + [InFlight];
      match answer {
        case None =>
          CheckConnect(fd);
        case Some(e) =>
          if e in {EINPROGRESS, EINTR, EISCONN} {
            CheckConnect(fd);
          } else if e in {EAGAIN, EADDRINUSE, EADDRNOTAVAIL, ECONNREFUSED, ENETUNREACH} {
            Retry(Refused);
          } else {
            assert e == EACCES || e == EPERM || e == EAFNOSUPPORT || e == OTHER;
            attempts := Resolve(attempts, Thrown);
            thrown := true;
          }
      }
    }

    // A retry timer calls start.
    method Fire(answer: Option<Errno>, fd: nat) returns (thrown: bool)
      requires timers > 0
      modifies this
      ensures View() == Next(old(View()), Step.Fire(answer))
      ensures event == old(event) || fresh(event)
    {
      timers := timers - 1;
      thrown := Start(answer, fd);
    }

    method Stop()
      modifies this`couldConnect, this`status, event
      ensures View() == Next(old(View()), Step.Stop)
    {
      if !couldConnect {
        return;
      }
      couldConnect := true;
      if event != null {
        event.Change(Cancel);
      }
      status := Disconnected;
    }

    method Restart(answer: Option<Errno>, fd: nat) returns (thrown: bool)
      modifies this
      ensures View() == Next(old(View()), Step.Restart(answer))
      ensures event == old(event) || fresh(event)
    {
      Forget();
      thrown := Start(answer, fd);
    }

    // The lines of restart before it calls start.
    method Forget()
      modifies this`couldConnect, this`status, this`retryDelayMs, this`attempts, this`since, this`delays
      ensures View() == Reset(old(View()))
    {
      attempts := if status == Connecting then Resolve(attempts, Abandoned) else attempts;
      since, delays := |attempts|, [];
      couldConnect := true;
      status := Disconnected;
      retryDelayMs := INIT_RETRY_DELAY;
    }

    method Retry(ghost fate: Fate)
      modifies this`couldConnect, this`status, this`timers, this`retryDelayMs, this`attempts, this`delays
      ensures View() == Retrying(old(View()), fate)
    {
      couldConnect := true;
      status := Disconnected;
      timers := timers + 1;
      delays := delays + [retryDelayMs];
      attempts := Resolve(attempts, fate);
      retryDelayMs := Min(retryDelayMs * 2, MAX_RETRY_DELAY);
    }

    method CheckConnect(fd: nat)
      modifies this`status, this`event, this`dangling
      ensures View() == Checked(old(View()))
      ensures fresh(event)
    {
      if Registered() {
        dangling := dangling + 1;
      }
      status := Connecting;
      var e := new Event(fd);
      e.Enable(WRITE);
      event := e;
    }

    // `peer` tells that the socket has a peer; `connected` that the connect
    // callback was called.
    method WriteCallback(peer: bool) returns (connected: bool)
      requires Registered()
      modifies this, event
      ensures View() == OnWrite(old(View()), peer)
      ensures connected <==> old(status) == Connecting && peer
      ensures event == old(event)
    {
      connected := false;
      if status != Connecting {
        return;
      }
      event.Change(Cancel);
      if peer {
        status := Connected;
        attempts := Resolve(attempts, Reached);
        connected := true;
      } else {
        Retry(Unpeered);
      }
    }

    method ErrorCallback()
      modifies this`couldConnect, this`status, this`timers, this`retryDelayMs, this`attempts, this`delays
      ensures View() == OnError(old(View()))
    {
      if status == Connecting {
        Retry(Errored);
      }
    }

    // Event::handle with these bits happened.
    method Handle(write: bool, error: bool, peer: bool) returns (connected: bool)
      requires Registered()
      modifies this, event
      ensures View() == Next(old(View()), Report(write, error, peer))
      ensures connected <==> Connects(old(View()), Report(write, error, peer))
    {
      connected := false;
      if write {
        connected := WriteCallback(peer);
      }
      if error {
        ErrorCallback();
      }
    }
  }
}
