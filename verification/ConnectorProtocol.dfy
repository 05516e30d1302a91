// net/Connector.cpp as a transition system: calls, retry timers and poller reports.
module ConnectorProtocol {
  import opened Basics

  const INIT_RETRY_DELAY := 500           // milliseconds
  const MAX_RETRY_DELAY := 30 * 1000

  datatype Errno =
    | EINPROGRESS | EINTR | EISCONN
    | EAGAIN | EADDRINUSE | EADDRNOTAVAIL | ECONNREFUSED | ENETUNREACH
    | EACCES | EPERM | EAFNOSUPPORT | OTHER

  predicate Underway(answer: Option<Errno>) {
    answer.None? || answer.value in {EINPROGRESS, EINTR, EISCONN}
  }

  predicate Retryable(e: Errno) {
    e in {EAGAIN, EADDRINUSE, EADDRNOTAVAIL, ECONNREFUSED, ENETUNREACH}
  }

  datatype Status = Disconnected | Connecting | Connected

  // What became of an attempt. Three ways to a retry: connect was refused, the
  // socket got writable without a peer, or an error was reported alone. `Thrown`
  // went to the caller, `Abandoned` was still in flight at a restart.
  datatype Fate = InFlight | Reached | Refused | Unpeered | Errored | Thrown | Abandoned

  predicate Retried(f: Fate) {
    f.Refused? || f.Unpeered? || f.Errored?
  }

  datatype Connector = Connector(
    couldConnect: bool,
    status: Status,
    delay: nat,            // retryDelayMs_
    registered: bool,      // event_ is with the poller
    timers: nat,           // scheduled calls of start that have not fired
    // Accounting: every attempt, the first one since the last restart, the delays
    // scheduled since then, and the events replaced while still with the poller.
    attempts: seq<Fate>,
    since: nat,
    delays: seq<nat>,
    dangling: nat)

  const CREATED := Connector(true, Disconnected, INIT_RETRY_DELAY, false, 0, [], 0, [], 0)

  datatype Step =
    | Start(answer: Option<Errno>)
    | Fire(answer: Option<Errno>)     // a retry timer
    | Restart(answer: Option<Errno>)
    | Stop
    | Report(write: bool, error: bool, peer: bool)  // Event::handle

  function Resolve(attempts: seq<Fate>, fate: Fate): (r: seq<Fate>) {
    if attempts == [] then [] else attempts[..|attempts| - 1] + [fate]
  }

  function Retrying(c: Connector, fate: Fate): Connector {
    c.(couldConnect := true, status := Disconnected, delay := Min(c.delay * 2, MAX_RETRY_DELAY),
       timers := c.timers + 1, delays := c.delays + [c.delay], attempts := Resolve(c.attempts, fate))
  }

  function Checked(c: Connector): Connector {
    c.(status := Connecting, registered := true, dangling := if c.registered then c.dangling + 1 else c.dangling)
  }

  function Attempted(c: Connector, answer: Option<Errno>): Connector {
    var t := c.(couldConnect := false, attempts := c.attempts + [InFlight]);
    if Underway(answer) then Checked(t)
    else if Retryable(answer.value) then Retrying(t, Refused)
    else t.(attempts := Resolve(t.attempts, Thrown))
  }

  function Started(c: Connector, answer: Option<Errno>): Connector {
    if c.couldConnect then Attempted(c, answer) else c
  }

  function Stopped(c: Connector): Connector {
    if c.couldConnect then c.(registered := false, status := Disconnected) else c
  }

  function Reset(c: Connector): Connector {
    c.(couldConnect := true, status := Disconnected, delay := INIT_RETRY_DELAY,
       attempts := if c.status == Connecting then Resolve(c.attempts, Abandoned) else c.attempts,
       since := |c.attempts|, delays := [])
  }

  function OnWrite(c: Connector, peer: bool): Connector {
    if c.status != Connecting then c
    else
      var t := c.(registered := false);
      if peer then t.(status := Connected, attempts := Resolve(t.attempts, Reached)) else Retrying(t, Unpeered)
  }

  function OnError(c: Connector): Connector {
    if c.status == Connecting then Retrying(c, Errored) else c
  }

  // The write callback comes first; both belong to the same report.
  function Reported(c: Connector, write: bool, error: bool, peer: bool): Connector {
    var t := if write then OnWrite(c, peer) else c;
    if error then OnError(t) else t
  }

  predicate MayStep(c: Connector, step: Step) {
    (step.Fire? ==> c.timers > 0) && (step.Report? ==> c.registered)
  }

  function Next(c: Connector, step: Step): Connector
    requires MayStep(c, step)
  {
    match step
    case Start(answer) => Started(c, answer)
    case Fire(answer) => Started(c.(timers := c.timers - 1), answer)
    case Restart(answer) => Started(Reset(c), answer)
    case Stop => Stopped(c)
    case Report(write, error, peer) => Reported(c, write, error, peer)
  }

  /** The step calls the connect callback. */
  predicate Connects(c: Connector, step: Step) {
    step.Report? && step.write && step.peer && c.status == Connecting
  }

  predicate Legal(c: Connector, run: seq<Step>)
    decreases |run|
  {
    run == [] || (MayStep(c, run[0]) && Legal(Next(c, run[0]), run[1..]))
  }

  function Run(c: Connector, run: seq<Step>): Connector
    requires Legal(c, run)
    decreases |run|
  {
    if run == [] then c else Run(Next(c, run[0]), run[1..])
  }
}

module ConnectorTheorems {
  import opened Basics
  import opened ConnectorProtocol

  function Pow2(k: nat): (p: nat)
    ensures p >= 1
  {
    if k == 0 then 1 else 2 * Pow2(k - 1)
  }

  /** The k-th delay since a restart: doubled each time, up to the limit. */
  function Backoff(k: nat): nat {
    Min(INIT_RETRY_DELAY * Pow2(k), MAX_RETRY_DELAY)
  }

  predicate Waits(c: Connector) {
    c.attempts == [] || Retried(c.attempts[|c.attempts| - 1]) || c.since == |c.attempts|
  }

  predicate LastIs(c: Connector, fate: Fate) {
    c.attempts != [] && c.since < |c.attempts| && c.attempts[|c.attempts| - 1] == fate
  }

  /** The attempts: all but the last are settled, and since a restart all but the last were retried. */
  predicate Attempts(c: Connector) {
    && c.since <= |c.attempts|
    && (forall i :: 0 <= i < |c.attempts| - 1 ==> c.attempts[i] != InFlight)
    && (forall i :: c.since <= i < |c.attempts| - 1 ==> Retried(c.attempts[i]))
  }

  /** The fields agree with the fate of the last attempt. */
  predicate Agrees(c: Connector) {
    && (c.couldConnect <==> Waits(c))
    && (c.status == Connecting <==> LastIs(c, InFlight))
    && (c.status == Connected <==> LastIs(c, Reached))
    && !LastIs(c, Abandoned)
    && (c.since == |c.attempts| ==> forall i :: 0 <= i < |c.attempts| ==> c.attempts[i] != InFlight)
  }

  predicate Delays(c: Connector) {
    && |c.delays| == (if c.couldConnect then |c.attempts| - c.since else |c.attempts| - c.since - 1)
    && (forall k :: 0 <= k < |c.delays| ==> c.delays[k] == Backoff(k))
    && c.delay == Backoff(|c.delays|)
  }

  /** Waiting for a retry means that a timer will bring it; an attempt in flight is listened for. */
  predicate Awaited(c: Connector) {
    && (c.couldConnect && c.since < |c.attempts| ==> c.timers > 0)
    && (c.status == Connecting ==> c.registered)
    && (c.since == |c.attempts| ==> c.attempts == [])
  }

  predicate Inv(c: Connector) {
    Attempts(c) && Agrees(c) && Delays(c) && Awaited(c)
  }

  lemma BackoffDoubles(k: nat)
    ensures Backoff(k + 1) == Min(2 * Backoff(k), MAX_RETRY_DELAY)
  {
    assert Pow2(k + 1) == 2 * Pow2(k);
  }

  lemma RetryingKeeps(c: Connector, fate: Fate)
    requires Attempts(c) && Delays(c) && LastIs(c, InFlight) && !c.couldConnect && Retried(fate)
    ensures Inv(Retrying(c, fate))
  {
    BackoffDoubles(|c.delays|);
  }

  lemma BegunKeeps(c: Connector)
    requires Attempts(c) && Agrees(c) && Delays(c) && c.couldConnect
    ensures
      var t := c.(couldConnect := false, attempts := c.attempts + [InFlight]);
      Attempts(t) && Delays(t) && LastIs(t, InFlight)
  {
  }

  lemma AttemptedKeeps(c: Connector, answer: Option<Errno>)
    requires Attempts(c) && Agrees(c) && Delays(c) && c.couldConnect
    ensures Inv(Attempted(c, answer))
  {
    BegunKeeps(c);
    if !Underway(answer) && Retryable(answer.value) {
      RetryingKeeps(c.(couldConnect := false, attempts := c.attempts + [InFlight]), Refused);
    }
  }

  lemma ResetKeeps(c: Connector)
    requires Inv(c)
    ensures Attempts(Reset(c)) && Agrees(Reset(c)) && Delays(Reset(c)) && Reset(c).couldConnect
  {
    assert Backoff(0) == INIT_RETRY_DELAY;
  }

  lemma OnWriteKeeps(c: Connector, peer: bool)
    requires Inv(c)
    ensures Inv(OnWrite(c, peer))
  {
    if c.status == Connecting && !peer {
      RetryingKeeps(c.(registered := false), Unpeered);
    }
  }

  lemma OnErrorKeeps(c: Connector)
    requires Inv(c)
    ensures Inv(OnError(c))
  {
    if c.status == Connecting {
      RetryingKeeps(c, Errored);
    }
  }

  lemma StoppedKeeps(c: Connector)
    requires Inv(c)
    ensures Inv(Stopped(c)) && Stopped(c) == c.(registered := c.registered && !c.couldConnect)
  {
    if c.couldConnect {
      assert !LastIs(c, InFlight) && !LastIs(c, Reached);
    }
  }

  // The timer that fires may be the one a waiting connector relies on: the
  // attempt it starts takes over.
  lemma FiredKeeps(c: Connector, answer: Option<Errno>)
    requires Inv(c) && c.timers > 0
    ensures Inv(Started(c.(timers := c.timers - 1), answer))
  {
    if c.couldConnect {
      AttemptedKeeps(c.(timers := c.timers - 1), answer);
    }
  }

  lemma StartedKeeps(c: Connector, answer: Option<Errno>)
    requires Inv(c)
    ensures Inv(Started(c, answer))
  {
    if c.couldConnect {
      AttemptedKeeps(c, answer);
    }
  }

  lemma RestartedKeeps(c: Connector, answer: Option<Errno>)
    requires Inv(c)
    ensures Inv(Started(Reset(c), answer))
  {
    ResetKeeps(c);
    AttemptedKeeps(Reset(c), answer);
  }

  lemma ReportedKeeps(c: Connector, write: bool, error: bool, peer: bool)
    requires Inv(c)
    ensures Inv(Reported(c, write, error, peer))
  {
    OnWriteKeeps(c, peer);
    OnErrorKeeps(if write then OnWrite(c, peer) else c);
  }

  lemma NextKeeps(c: Connector, step: Step)
    requires Inv(c) && MayStep(c, step)
    ensures Inv(Next(c, step))
  {
    if step.Start? {
      StartedKeeps(c, step.answer);
    } else if step.Fire? {
      FiredKeeps(c, step.answer);
    } else if step.Restart? {
      RestartedKeeps(c, step.answer);
    } else if step.Stop? {
      StoppedKeeps(c);
    } else {
      ReportedKeeps(c, step.write, step.error, step.peer);
    }
  }

  /** In every run, restarts and stray timers included: at most one attempt is in flight, the last. */
  lemma {:induction false} RunKeeps(c: Connector, run: seq<Step>)
    requires Inv(c) && Legal(c, run)
    ensures Inv(Run(c, run))
    decreases |run|
  {
    if run != [] {
      NextKeeps(c, run[0]);
      RunKeeps(Next(c, run[0]), run[1..]);
    }
  }

  lemma CreatedInv()
    ensures Inv(CREATED)
  {
    assert Backoff(0) == INIT_RETRY_DELAY;
  }

  // ---- main results: every run of a new connector -----------------------------------

  lemma OneAttemptAtATime(run: seq<Step>, i: nat)
    requires Legal(CREATED, run) && i < |Run(CREATED, run).attempts|
    ensures Run(CREATED, run).attempts[i] == InFlight ==>
              i == |Run(CREATED, run).attempts| - 1 && Run(CREATED, run).status == Connecting && Run(CREATED, run).registered
  {
    CreatedInv();
    RunKeeps(CREATED, run);
  }

  /** Between restarts at most one attempt reaches the peer, the last. */
  lemma ReachesAtMostOnce(run: seq<Step>, i: nat, j: nat)
    requires Legal(CREATED, run)
    requires Run(CREATED, run).since <= i <= j < |Run(CREATED, run).attempts|
    requires Run(CREATED, run).attempts[i] == Reached && Run(CREATED, run).attempts[j] == Reached
    ensures i == j == |Run(CREATED, run).attempts| - 1 && Run(CREATED, run).status == Connected
  {
    CreatedInv();
    RunKeeps(CREATED, run);
  }

  function Calls(c: Connector, run: seq<Step>): nat
    requires Legal(c, run)
    decreases |run|
  {
    if run == [] then 0 else (if Connects(c, run[0]) then 1 else 0) + Calls(Next(c, run[0]), run[1..])
  }

  function Restarts(run: seq<Step>): nat {
    if run == [] then 0 else (if run[0].Restart? then 1 else 0) + Restarts(run[1..])
  }

  lemma CallResolves(c: Connector, step: Step)
    requires Inv(c) && MayStep(c, step)
    ensures Connects(c, step) ==> c.status != Connected && Next(c, step).status == Connected
    ensures c.status == Connected && !step.Restart? ==> Next(c, step).status == Connected
    ensures Connects(c, step) <==> LastIs(c, InFlight) && LastIs(Next(c, step), Reached) && |Next(c, step).attempts| == |c.attempts|
  {
  }

  lemma {:induction false} CallsBounded(c: Connector, run: seq<Step>)
    requires Inv(c) && Legal(c, run)
    ensures Calls(c, run) <= Restarts(run) + if c.status == Connected then 0 else 1
    decreases |run|
  {
    if run != [] {
      CallResolves(c, run[0]);
      NextKeeps(c, run[0]);
      CallsBounded(Next(c, run[0]), run[1..]);
    }
  }

  lemma {:induction false} NoRestarts(run: seq<Step>)
    requires RestartFree(run)
    ensures Restarts(run) == 0
  {
    if run != [] {
      assert run[0] in run;
      NoRestarts(run[1..]);
    }
  }

  /** After any run, however it began, the connect callback is called at most once until the next restart, and not at all once connected. */
  lemma ConnectsAtMostOnce(before: seq<Step>, run: seq<Step>)
    requires Legal(CREATED, before) && Legal(Run(CREATED, before), run) && RestartFree(run)
    ensures Calls(Run(CREATED, before), run) <= if Run(CREATED, before).status == Connected then 0 else 1
  {
    CreatedInv();
    RunKeeps(CREATED, before);
    CallsBounded(Run(CREATED, before), run);
    NoRestarts(run);
  }

  /** The k-th retry since a restart was scheduled after min(500 * 2^k, 30000) ms; every attempt but the last was retried. */
  lemma RetryDelays(run: seq<Step>, k: nat)
    requires Legal(CREATED, run) && k < |Run(CREATED, run).delays|
    ensures Run(CREATED, run).delays[k] == Min(500 * Pow2(k), 30000)
    ensures
      var d := Run(CREATED, run);
      |d.delays| <= |d.attempts| - d.since <= |d.delays| + 1 && Retried(d.attempts[d.since + k])
  {
    CreatedInv();
    RunKeeps(CREATED, run);
  }

  /** The connector never gives up by itself: it is connected, in flight, thrown out of, or has a retry timer running. */
  lemma RetryIsPending(run: seq<Step>)
    requires Legal(CREATED, run) && Run(CREATED, run).attempts != []
    ensures
      var d := Run(CREATED, run);
      d.status == Connected || d.status == Connecting || d.timers > 0 || d.attempts[|d.attempts| - 1] == Thrown
  {
    CreatedInv();
    RunKeeps(CREATED, run);
  }

  // ---- what an answer of connect means -----------------------------------------------

  /** One attempt of start, by the answer of connect: it is waited for, retried after the current delay, or thrown. */
  lemma StartAnswers(c: Connector, answer: Option<Errno>)
    requires c.couldConnect
    ensures
      var d := Next(c, Start(answer));
      && (answer in {None, Some(EINPROGRESS), Some(EINTR), Some(EISCONN)} ==>
            && d.status == Connecting && d.registered && !d.couldConnect && d.attempts == c.attempts + [InFlight]
            && d.timers == c.timers && d.delays == c.delays && d.delay == c.delay)
      && (answer in {Some(EAGAIN), Some(EADDRINUSE), Some(EADDRNOTAVAIL), Some(ECONNREFUSED), Some(ENETUNREACH)} ==>
            && d.status == Disconnected && d.couldConnect && d.attempts == c.attempts + [Refused]
            && d.timers == c.timers + 1 && d.delays == c.delays + [c.delay] && d.delay == Min(2 * c.delay, 30000))
      && (answer in {Some(EACCES), Some(EPERM), Some(EAFNOSUPPORT), Some(OTHER)} ==>
            && d.status == c.status && !d.couldConnect && d.attempts == c.attempts + [Thrown]
            && d.timers == c.timers && d.delays == c.delays && d.delay == c.delay)
  {
    var begun := c.attempts + [InFlight];
    assert begun[..|begun| - 1] == c.attempts;
  }

  /** A timer makes the attempt that a call of start would make; neither does anything while start may not connect. */
  lemma FireIsStart(c: Connector, answer: Option<Errno>)
    requires c.timers > 0
    ensures Next(c, Fire(answer)) == Next(c, Start(answer)).(timers := Next(c, Start(answer)).timers - 1)
    ensures !c.couldConnect ==> Next(c, Start(answer)) == c
  {
  }

  lemma ResetForgets(c: Connector)
    requires c.status == Connecting ==> c.attempts != []
    ensures
      var r := Reset(c);
      && r.couldConnect && r.delay == 500 && r.delays == [] && r.since == |c.attempts| == |r.attempts| && r.timers == c.timers
      && r.attempts == if c.status == Connecting then c.attempts[..|c.attempts| - 1] + [Abandoned] else c.attempts
  {
  }

  /** A restart always makes an attempt, and begins the delays again: a first retry after 500 ms, a second after 1000; an attempt in flight is abandoned. */
  lemma RestartBeginsAgain(c: Connector, answer: Option<Errno>)
    requires c.status == Connecting ==> c.attempts != []
    ensures
      var d := Next(c, Restart(answer));
      && |d.attempts| == |c.attempts| + 1 && d.since == |c.attempts|
      && (answer == None ==> d.status == Connecting && d.delays == [] && d.delay == 500)
      && (answer == Some(ECONNREFUSED) ==> d.delays == [500] && d.delay == 1000 && d.timers == c.timers + 1)
      && (d.attempts[..|c.attempts|] ==
            if c.status == Connecting then c.attempts[..|c.attempts| - 1] + [Abandoned] else c.attempts)
  {
    var r := Reset(c);
    ResetForgets(c);
    StartAnswers(r, answer);
    assert forall fate :: (r.attempts + [fate])[..|r.attempts|] == r.attempts;
    assert Next(c, Restart(answer)) == Next(r, Start(answer));
  }

  /** What a report means for the attempt in flight, and that it means nothing to any other. */
  lemma ReportOutcome(c: Connector, write: bool, error: bool, peer: bool)
    requires Inv(c) && c.registered
    ensures
      var d := Next(c, Report(write, error, peer));
      if c.status != Connecting || (!write && !error) then d == c
      else
        && d.attempts == c.attempts[..|c.attempts| - 1] + [if write && peer then Reached else if write then Unpeered else Errored]
        && (d.status == Connected <==> write && peer) && (d.registered <==> !write)
        && (write && peer ==> d.timers == c.timers && d.delays == c.delays && !d.couldConnect)
        && (!(write && peer) ==>
              d.timers == c.timers + 1 && d.delays == c.delays + [c.delay] && d.couldConnect && d.status == Disconnected)
  {
  }

  function RetriedCount(attempts: seq<Fate>): nat {
    if attempts == [] then 0
    else RetriedCount(attempts[..|attempts| - 1]) + if Retried(attempts[|attempts| - 1]) then 1 else 0
  }

  function Fires(run: seq<Step>): nat {
    if run == [] then 0 else (if run[0].Fire? then 1 else 0) + Fires(run[1..])
  }

  lemma CountSnoc(attempts: seq<Fate>, fate: Fate)
    ensures RetriedCount(attempts + [fate]) == RetriedCount(attempts) + if Retried(fate) then 1 else 0
  {
    assert (attempts + [fate])[..|attempts|] == attempts;
  }

  lemma OneAttempt(c: Connector, answer: Option<Errno>) returns (fate: Fate)
    requires c.couldConnect
    ensures
      var d := Attempted(c, answer);
      d.attempts == c.attempts + [fate] && d.timers == c.timers + if Retried(fate) then 1 else 0
  {
    var begun := c.attempts + [InFlight];
    assert begun[..|begun| - 1] == c.attempts;
    fate := if Underway(answer) then InFlight else if Retryable(answer.value) then Refused else Thrown;
  }

  lemma AttemptCounts(c: Connector, answer: Option<Errno>)
    requires c.couldConnect
    ensures Attempted(c, answer).timers - c.timers == RetriedCount(Attempted(c, answer).attempts) - RetriedCount(c.attempts)
  {
    var fate := OneAttempt(c, answer);
    CountSnoc(c.attempts, fate);
  }

  lemma ResolveCounts(attempts: seq<Fate>, fate: Fate)
    requires attempts != [] && attempts[|attempts| - 1] == InFlight
    ensures RetriedCount(Resolve(attempts, fate)) == RetriedCount(attempts) + if Retried(fate) then 1 else 0
  {
    CountSnoc(attempts[..|attempts| - 1], fate);
  }

  lemma RestartCounts(c: Connector, answer: Option<Errno>)
    requires Inv(c)
    ensures
      var d := Started(Reset(c), answer);
      d.timers - c.timers == RetriedCount(d.attempts) - RetriedCount(c.attempts)
  {
    if c.status == Connecting {
      ResolveCounts(c.attempts, Abandoned);
    }
    AttemptCounts(Reset(c), answer);
  }

  lemma ReportCounts(c: Connector, write: bool, error: bool, peer: bool)
    requires Inv(c) && c.registered && c.status == Connecting && (write || error)
    ensures
      var d := Reported(c, write, error, peer);
      d.timers - c.timers == RetriedCount(d.attempts) - RetriedCount(c.attempts)
  {
    ReportOutcome(c, write, error, peer);
    var before := c.attempts[..|c.attempts| - 1];
    assert c.attempts == before + [InFlight];
    CountSnoc(before, InFlight);
    CountSnoc(before, if write && peer then Reached else if write then Unpeered else Errored);
  }

  lemma StepCounts(c: Connector, step: Step)
    requires Inv(c) && MayStep(c, step)
    ensures
      var d := Next(c, step);
      d.timers + (if step.Fire? then 1 else 0) - c.timers == RetriedCount(d.attempts) - RetriedCount(c.attempts)
  {
    match step
    case Start(answer) =>
      if c.couldConnect {
        AttemptCounts(c, answer);
      }
    case Fire(answer) =>
      if c.couldConnect {
        AttemptCounts(c.(timers := c.timers - 1), answer);
      }
    case Restart(answer) => RestartCounts(c, answer);
    case Report(write, error, peer) =>
      if c.status == Connecting && (write || error) {
        ReportCounts(c, write, error, peer);
      } else {
        ReportOutcome(c, write, error, peer);
      }
    case Stop =>
  }

  lemma {:induction false} RunCounts(c: Connector, run: seq<Step>)
    requires Inv(c) && Legal(c, run)
    ensures Run(c, run).timers + Fires(run) - c.timers == RetriedCount(Run(c, run).attempts) - RetriedCount(c.attempts)
    decreases |run|
  {
    if run != [] {
      StepCounts(c, run[0]);
      NextKeeps(c, run[0]);
      RunCounts(Next(c, run[0]), run[1..]);
    }
  }

  /** Over every run: the timers that have fired and those still running are exactly one for each retried attempt. */
  lemma OneTimerPerRetry(run: seq<Step>)
    requires Legal(CREATED, run)
    ensures Run(CREATED, run).timers + Fires(run) == RetriedCount(Run(CREATED, run).attempts)
  {
    CreatedInv();
    RunCounts(CREATED, run);
  }

  // ---- an attempt is resolved once ---------------------------------------------------

  lemma ErrorAfterWriteIsIdle(c: Connector, peer: bool)
    requires Inv(c)
    ensures Reported(c, true, true, peer) == Reported(c, true, false, peer)
  {
  }

  predicate Extends(d: seq<Fate>, c: seq<Fate>) {
    |c| <= |d| && forall i :: 0 <= i < |c| && c[i] != InFlight ==> d[i] == c[i]
  }

  lemma StartedExtends(c: Connector, answer: Option<Errno>)
    ensures Extends(Started(c, answer).attempts, c.attempts)
  {
  }

  lemma ReportedExtends(c: Connector, write: bool, error: bool, peer: bool)
    requires Inv(c)
    ensures Extends(Reported(c, write, error, peer).attempts, c.attempts)
  {
  }

  lemma NextExtends(c: Connector, step: Step)
    requires Inv(c) && MayStep(c, step)
    ensures Extends(Next(c, step).attempts, c.attempts)
  {
    match step
    case Start(answer) => StartedExtends(c, answer);
    case Fire(answer) => StartedExtends(c.(timers := c.timers - 1), answer);
    case Restart(answer) =>
      StartedExtends(Reset(c), answer);
      assert Extends(Reset(c).attempts, c.attempts);
    case Stop =>
    case Report(write, error, peer) => ReportedExtends(c, write, error, peer);
  }

  lemma {:induction false} ResolvedOnce(c: Connector, run: seq<Step>)
    requires Inv(c) && Legal(c, run)
    ensures Extends(Run(c, run).attempts, c.attempts)
    decreases |run|
  {
    if run != [] {
      NextExtends(c, run[0]);
      NextKeeps(c, run[0]);
      ResolvedOnce(Next(c, run[0]), run[1..]);
    }
  }

  predicate RestartFree(run: seq<Step>) {
    forall step :: step in run ==> !step.Restart?
  }

  /** Once connected, only a restart brings another attempt: stale timers and late reports change nothing. */
  lemma {:induction false} ConnectedIsFinal(c: Connector, run: seq<Step>)
    requires Inv(c) && Legal(c, run) && c.status == Connected && RestartFree(run)
    ensures Run(c, run) == c.(timers := Run(c, run).timers)
    decreases |run|
  {
    if run != [] {
      assert !run[0].Restart?;
      NextKeeps(c, run[0]);
      assert Next(c, run[0]) == c.(timers := Next(c, run[0]).timers);
      ConnectedIsFinal(Next(c, run[0]), run[1..]);
    }
  }

  // ---- stop does not stop ---------------------------------------------------------------

  function WithoutStops(run: seq<Step>): seq<Step> {
    if run == [] then []
    else (if run[0].Stop? then [] else [run[0]]) + WithoutStops(run[1..])
  }

  /** Equal but for the event's registration, which `d` may keep where `c` lost it. */
  predicate Alike(c: Connector, d: Connector) {
    && d == c.(registered := d.registered, dangling := d.dangling)
    && (c.registered ==> d.registered)
  }

  lemma StartedAlike(c: Connector, d: Connector, answer: Option<Errno>)
    requires Alike(c, d)
    ensures Alike(Started(c, answer), Started(d, answer))
  {
  }

  lemma ReportedAlike(c: Connector, d: Connector, write: bool, error: bool, peer: bool)
    requires Inv(c) && Alike(c, d)
    ensures Alike(Reported(c, write, error, peer), Reported(d, write, error, peer))
  {
  }

  lemma NextAlike(c: Connector, d: Connector, step: Step)
    requires Inv(c) && Inv(d) && Alike(c, d) && MayStep(c, step) && !step.Stop?
    ensures MayStep(d, step) && Alike(Next(c, step), Next(d, step))
  {
    match step
    case Start(answer) => StartedAlike(c, d, answer);
    case Fire(answer) => StartedAlike(c.(timers := c.timers - 1), d.(timers := d.timers - 1), answer);
    case Restart(answer) => StartedAlike(Reset(c), Reset(d), answer);
    case Report(write, error, peer) => ReportedAlike(c, d, write, error, peer);
  }

  lemma {:induction false} StopsAreIdleFrom(c: Connector, d: Connector, run: seq<Step>)
    requires Inv(c) && Inv(d) && Alike(c, d) && Legal(c, run)
    ensures Legal(d, WithoutStops(run)) && Alike(Run(c, run), Run(d, WithoutStops(run)))
    decreases |run|
  {
    if run != [] {
      var next := Next(c, run[0]);
      NextKeeps(c, run[0]);
      if run[0].Stop? {
        StoppedKeeps(c);
        StopsAreIdleFrom(next, d, run[1..]);
        assert [] + WithoutStops(run[1..]) == WithoutStops(run[1..]);
      } else {
        NextAlike(c, d, run[0]);
        NextKeeps(d, run[0]);
        StopsAreIdleFrom(next, Next(d, run[0]), run[1..]);
        WithoutStopsHead(run);
      }
    }
  }

  lemma WithoutStopsHead(run: seq<Step>)
    requires run != [] && !run[0].Stop?
    ensures WithoutStops(run) != [] && WithoutStops(run)[0] == run[0] && WithoutStops(run)[1..] == WithoutStops(run[1..])
  {
  }

  /** Every run makes the same attempts, with the same fates and delays, as the run with its stops left out. */
  lemma StopsAreIdle(run: seq<Step>)
    requires Legal(CREATED, run)
    ensures Legal(CREATED, WithoutStops(run))
    ensures Run(CREATED, run).attempts == Run(CREATED, WithoutStops(run)).attempts
    ensures Run(CREATED, run).delays == Run(CREATED, WithoutStops(run)).delays
    ensures Run(CREATED, run).timers == Run(CREATED, WithoutStops(run)).timers
  {
    CreatedInv();
    StopsAreIdleFrom(CREATED, CREATED, run);
  }

  /** The next timer begins an attempt after a stop exactly when it would have without it. */
  lemma FireAfterStopIff(c: Connector, answer: Option<Errno>)
    requires Inv(c) && c.timers > 0
    ensures |Next(Next(c, Stop), Fire(answer)).attempts| > |c.attempts| <==> c.couldConnect
    ensures |Next(c, Fire(answer)).attempts| > |c.attempts| <==> c.couldConnect
  {
    StoppedKeeps(c);
  }

  // ---- the event of an attempt -------------------------------------------------------------

  /** The last attempt that got as far as an event ended without the write callback. */
  predicate Lingers(attempts: seq<Fate>) {
    attempts != [] &&
    match attempts[|attempts| - 1]
    case InFlight | Errored | Abandoned => true
    case Reached | Unpeered => false
    case Refused | Thrown => Lingers(attempts[..|attempts| - 1])
  }

  lemma LingersSnoc(attempts: seq<Fate>, fate: Fate)
    ensures
      Lingers(attempts + [fate]) <==>
        fate in {InFlight, Errored, Abandoned} || (fate in {Refused, Thrown} && Lingers(attempts))
  {
    assert (attempts + [fate])[..|attempts|] == attempts;
  }

  /** The poller holds the event exactly when an attempt after the first `from` left it there. */
  predicate Tracks(c: Connector, from: nat) {
    from <= |c.attempts| && (c.registered <==> Lingers(c.attempts[from..]))
  }

  /** How many attempts there were at the last stop that cancelled, counting from `from`. */
  function LastCancel(c: Connector, run: seq<Step>, from: nat): nat
    requires Legal(c, run)
    decreases |run|
  {
    if run == [] then from else LastCancel(Next(c, run[0]), run[1..], CancelAt(c, run[0], from))
  }

  function CancelAt(c: Connector, step: Step, from: nat): nat {
    if step.Stop? && c.couldConnect then |c.attempts| else from
  }

  lemma ResolvedTracks(attempts: seq<Fate>, fate: Fate, from: nat)
    requires from < |attempts|
    ensures
      Lingers(Resolve(attempts, fate)[from..]) <==>
        fate in {InFlight, Errored, Abandoned} || (fate in {Refused, Thrown} && Lingers(attempts[from..|attempts| - 1]))
  {
    assert Resolve(attempts, fate)[from..] == attempts[from..|attempts| - 1] + [fate];
    LingersSnoc(attempts[from..|attempts| - 1], fate);
  }

  lemma AttemptedTracks(c: Connector, answer: Option<Errno>, from: nat)
    requires c.couldConnect && Tracks(c, from)
    ensures Tracks(Attempted(c, answer), from)
  {
    var t := c.attempts + [InFlight];
    assert t[from..] == c.attempts[from..] + [InFlight] && t[from..|t| - 1] == c.attempts[from..];
    LingersSnoc(c.attempts[from..], InFlight);
    ResolvedTracks(t, Refused, from);
    ResolvedTracks(t, Thrown, from);
  }

  lemma InFlightTracks(c: Connector, from: nat)
    requires Inv(c) && Tracks(c, from) && c.status == Connecting
    ensures from < |c.attempts|
  {
    assert c.registered && |c.attempts[from..]| > 0;
  }

  lemma ResetTracks(c: Connector, from: nat)
    requires Inv(c) && Tracks(c, from)
    ensures Tracks(Reset(c), from)
  {
    if c.status == Connecting {
      InFlightTracks(c, from);
      ResolvedTracks(c.attempts, Abandoned, from);
    }
  }

  lemma ReportedTracks(c: Connector, write: bool, error: bool, peer: bool, from: nat)
    requires Inv(c) && Tracks(c, from)
    ensures Tracks(Reported(c, write, error, peer), from)
  {
    if c.status == Connecting {
      InFlightTracks(c, from);
      ResolvedTracks(c.attempts, Reached, from);
      ResolvedTracks(c.attempts, Unpeered, from);
      ResolvedTracks(c.attempts, Errored, from);
    }
  }

  lemma NextTracks(c: Connector, step: Step, from: nat)
    requires Inv(c) && MayStep(c, step) && Tracks(c, from)
    ensures Tracks(Next(c, step), CancelAt(c, step, from))
  {
    match step
    case Start(answer) =>
      if c.couldConnect {
        AttemptedTracks(c, answer, from);
      }
    case Fire(answer) =>
      if c.couldConnect {
        AttemptedTracks(c.(timers := c.timers - 1), answer, from);
      }
    case Restart(answer) =>
      ResetTracks(c, from);
      AttemptedTracks(Reset(c), answer, from);
    case Report(write, error, peer) => ReportedTracks(c, write, error, peer, from);
    case Stop =>
      assert c.attempts[|c.attempts|..] == [];
  }

  lemma {:induction false} RunTracks(c: Connector, run: seq<Step>, from: nat)
    requires Inv(c) && Legal(c, run) && Tracks(c, from)
    ensures Tracks(Run(c, run), LastCancel(c, run, from))
    decreases |run|
  {
    if run != [] {
      NextTracks(c, run[0], from);
      NextKeeps(c, run[0]);
      RunTracks(Next(c, run[0]), run[1..], CancelAt(c, run[0], from));
    }
  }

  /** The step begins an attempt that gets as far as an event. */
  predicate Launches(c: Connector, step: Step) {
    match step
    case Start(answer) => c.couldConnect && Underway(answer)
    case Fire(answer) => c.couldConnect && Underway(answer)
    case Restart(answer) => Underway(answer)
    case _ => false
  }

  /** After any run, with stops and restarts, a step replaces an event that the poller still holds exactly when it launches an attempt and, since the last stop that cancelled, the last event was left uncancelled. */
  lemma EventDanglesIff(run: seq<Step>, step: Step)
    requires Legal(CREATED, run) && MayStep(Run(CREATED, run), step)
    ensures
      var d := Run(CREATED, run);
      var from := LastCancel(CREATED, run, 0);
      && from <= |d.attempts|
      && (Next(d, step).dangling > d.dangling <==> Launches(d, step) && Lingers(d.attempts[from..]))
  {
    CreatedInv();
    RunKeeps(CREATED, run);
    assert CREATED.attempts[0..] == [];
    RunTracks(CREATED, run, 0);
  }

  /** A restart while an attempt is in flight always does, if the next one gets underway. */
  lemma RestartInFlightDangles(run: seq<Step>, answer: Option<Errno>)
    requires Legal(CREATED, run) && Run(CREATED, run).status == Connecting && Underway(answer)
    ensures Next(Run(CREATED, run), Restart(answer)).dangling == Run(CREATED, run).dangling + 1
  {
    CreatedInv();
    RunKeeps(CREATED, run);
  }

  /** Every attempt that ends in an error report without the write bit has its event replaced by the next attempt while the poller still holds it; with the write bit it never has. */
  lemma ErrorOnlyDangles(c: Connector, write: bool, answer: Option<Errno>)
    requires Inv(c) && c.status == Connecting && Underway(answer)
    ensures
      var retried := Next(c, Report(write, true, false));
      && retried.timers > 0
      && (Next(retried, Fire(answer)).dangling == c.dangling + 1 <==> !write)
      && Next(retried, Fire(answer)).status == Connecting
  {
    var retried := Next(c, Report(write, true, false));
    NextKeeps(c, Report(write, true, false));
    assert retried.couldConnect && retried.dangling == c.dangling && (retried.registered <==> !write);
  }

  predicate Tidy(step: Step) {
    !step.Restart? && (step.Report? ==> step.write)
  }

  /** When every report carries the write bit and nothing restarts, no event dangles. */
  lemma {:induction false} NothingDangles(c: Connector, run: seq<Step>)
    requires Inv(c) && Legal(c, run) && (forall step :: step in run ==> Tidy(step))
    requires c.registered <==> c.status == Connecting
    ensures Run(c, run).dangling == c.dangling
    ensures Run(c, run).registered <==> Run(c, run).status == Connecting
    decreases |run|
  {
    if run != [] {
      assert Tidy(run[0]);
      NextKeeps(c, run[0]);
      NothingDangles(Next(c, run[0]), run[1..]);
    }
  }
}
