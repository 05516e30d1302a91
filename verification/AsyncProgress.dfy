// What whole turns of the writer do: a turn writes everything that waited for it,
// and two turns everything that was accepted before, whatever appends come between.
module AsyncProgress {
  import opened Basics
  import opened LogFiles
  import opened AsyncProtocol
  import opened AsyncInvariant
  import opened AsyncTheorems
  import opened AsyncTurn

  // ---- What matters of a state here, and what each step does to it ----

  datatype Mark = Mark(pc: Pc, written: Block, coming: Block, upcoming: Block, accepted: Block, turn: nat)

  function MarkOf(s: State): Mark {
    Mark(s.pc, s.written, Coming(s), Upcoming(s), s.accepted, Turn(s))
  }

  ghost predicate Linked(m: Mark, step: Step, n: Mark) {
    && Among(m.coming, n.coming) && m.written <= n.written
    && (m.pc != Test && n.pc == Test ==> m.coming == m.written && Among(m.upcoming, n.coming))
    && (m.pc == Test || n.pc != Test ==> Among(m.upcoming, n.upcoming))
    && (!step.Consume? ==> n.pc == m.pc)
    && (step.Consume? && m.pc == Test ==> n.pc == Region)
  }

  ghost predicate LinkedAt(tr: seq<Mark>, steps: seq<Step>, i: nat)
    requires |tr| == |steps| + 1 && i < |steps|
  {
    Linked(tr[i], steps[i], tr[i + 1])
  }

  ghost predicate Trace(tr: seq<Mark>, steps: seq<Step>) {
    |tr| == |steps| + 1 && forall i :: 0 <= i < |steps| ==> LinkedAt(tr, steps, i)
  }

  lemma LeavesTest(s: State, target: string)
    requires s.pc == Test && Usable(s.files) && s.files.isOpen
    ensures Consumed(s, target).pc == if s.running then Region else Exited
  {
  }

  lemma StepLinked(s: State, step: Step)
    requires Inv(s) && Enabled(s, step) && !Gone(s) && !Gone(Next(s, step))
    ensures Linked(MarkOf(s), step, MarkOf(Next(s, step)))
  {
    StepOnward(s, step);
    StepCloser(s, step);
    if !step.Consume? {
      OnlyConsumeMoves(s, step);
    } else if s.pc == Test {
      LeavesTest(s, step.target);
    }
  }

  // A run that ends in the loop never left it.
  ghost predicate Stays(s: State, steps: seq<Step>) {
    Inv(s) && Legal(s, steps) && !Gone(Run(s, steps))
  }

  lemma StaysNext(s: State, steps: seq<Step>)
    requires Stays(s, steps) && steps != []
    ensures Stays(Next(s, steps[0]), steps[1..]) && Linked(MarkOf(s), steps[0], MarkOf(Next(s, steps[0])))
  {
    NextKeeps(s, steps[0]);
    if Gone(s) {
      GoneStays(s, steps);
    }
    if Gone(Next(s, steps[0])) {
      GoneStays(Next(s, steps[0]), steps[1..]);
    }
    StepLinked(s, steps[0]);
  }

  lemma LinkMoves(m: Mark, steps: seq<Step>, tr: seq<Mark>, i: nat)
    requires steps != [] && |tr| == |steps| && i < |steps| - 1 && LinkedAt(tr, steps[1..], i)
    ensures LinkedAt([m] + tr, steps, i + 1)
  {
    assert ([m] + tr)[i + 1] == tr[i] && ([m] + tr)[i + 2] == tr[i + 1];
  }

  lemma TraceCons(m: Mark, steps: seq<Step>, tr: seq<Mark>)
    requires steps != [] && Trace(tr, steps[1..]) && Linked(m, steps[0], tr[0])
    ensures Trace([m] + tr, steps)
  {
    forall i | 0 < i < |steps| ensures LinkedAt([m] + tr, steps, i) {
      LinkMoves(m, steps, tr, i - 1);
    }
    assert LinkedAt([m] + tr, steps, 0);
  }

  // The states of a run, first to last.
  function Marks(s: State, steps: seq<Step>): (tr: seq<Mark>)
    requires Usable(s.files) && s.files.isOpen
    ensures |tr| == |steps| + 1 && tr[0] == MarkOf(s) && tr[|steps|] == MarkOf(Run(s, steps))
    decreases |steps|
  {
    if steps == [] then [MarkOf(s)] else [MarkOf(s)] + Marks(Next(s, steps[0]), steps[1..])
  }

  lemma {:induction false} RunTrace(s: State, steps: seq<Step>)
    requires Stays(s, steps)
    ensures Trace(Marks(s, steps), steps)
    decreases |steps|
  {
    if steps != [] {
      StaysNext(s, steps);
      RunTrace(Next(s, steps[0]), steps[1..]);
      TraceCons(MarkOf(s), steps, Marks(Next(s, steps[0]), steps[1..]));
    }
  }

  lemma ComingNext(tr: seq<Mark>, steps: seq<Step>, i: nat)
    requires Trace(tr, steps) && i < |steps|
    ensures Among(tr[i].coming, tr[i + 1].coming) && tr[i].written <= tr[i + 1].written
  {
    assert LinkedAt(tr, steps, i);
  }

  // ---- A turn writes what was coming ----

  lemma {:induction false} ComingFrom(tr: seq<Mark>, steps: seq<Step>, i: nat, j: nat)
    requires Trace(tr, steps) && i <= j <= |steps|
    ensures Among(tr[i].coming, tr[j].coming) && tr[i].written <= tr[j].written
    decreases j - i
  {
    if i < j {
      ComingNext(tr, steps, i);
      ComingFrom(tr, steps, i + 1, j);
      AmongTrans(tr[i].coming, tr[i + 1].coming, tr[j].coming);
    }
  }

  lemma {:induction false} BackAtTest(tr: seq<Mark>, steps: seq<Step>, i: nat, j: nat)
    requires Trace(tr, steps) && i <= j <= |steps| && tr[i].pc != Test && tr[j].pc == Test
    ensures Among(tr[i].coming, tr[j].written)
    decreases j - i
  {
    assert LinkedAt(tr, steps, i);
    if tr[i + 1].pc == Test {
      ComingFrom(tr, steps, i + 1, j);
      PrefixAmong(tr[i].written, tr[j].written);
    } else {
      BackAtTest(tr, steps, i + 1, j);
      AmongTrans(tr[i].coming, tr[i + 1].coming, tr[j].written);
    }
  }

  // The writer has made a step between the two.
  predicate Consuming(steps: seq<Step>, i: nat, j: nat)
    requires i <= j <= |steps|
  {
    exists k :: i <= k < j && steps[k].Consume?
  }

  // The first such step.
  lemma {:induction false} FirstConsume(tr: seq<Mark>, steps: seq<Step>, i: nat, j: nat) returns (k: nat)
    requires Trace(tr, steps) && i <= j <= |steps| && Consuming(steps, i, j)
    ensures i <= k < j && steps[k].Consume? && tr[k].pc == tr[i].pc
    ensures forall m :: i <= m < k ==> !steps[m].Consume?
    decreases j - i
  {
    if steps[i].Consume? {
      k := i;
    } else {
      assert LinkedAt(tr, steps, i);
      k := FirstConsume(tr, steps, i + 1, j);
    }
  }

  lemma TurnWrites(tr: seq<Mark>, steps: seq<Step>, i: nat, j: nat)
    requires Trace(tr, steps) && i <= j <= |steps| && Resting(tr[i].pc) && tr[j].pc == Test && Consuming(steps, i, j)
    ensures Among(tr[i].coming, tr[j].written)
  {
    if tr[i].pc == Test {
      var k := FirstConsume(tr, steps, i, j);
      assert LinkedAt(tr, steps, k);
      ComingFrom(tr, steps, i, k + 1);
      BackAtTest(tr, steps, k + 1, j);
      AmongTrans(tr[i].coming, tr[k + 1].coming, tr[j].written);
    } else {
      BackAtTest(tr, steps, i, j);
    }
  }

  lemma ComingHolds(s: State)
    requires Resting(s.pc)
    ensures Among(Contents(s.write), Coming(s)) && Among(Flatten(s.extras), Coming(s))
    ensures Contents(s.write) == [] ==> Among(Contents(s.log), Coming(s))
  {
  }

  lemma {:induction false} SomeConsume(steps: seq<Step>)
    requires Consumes(steps) > 0
    ensures Consuming(steps, 0, |steps|)
  {
    if steps[0].Consume? {
      assert steps[0].Consume?;
    } else {
      SomeConsume(steps[1..]);
      var k :| 0 <= k < |steps| - 1 && steps[1..][k].Consume?;
      assert steps[k + 1].Consume?;
    }
  }

  // From the test, the region or the wait to the next test: the write buffer and
  // the extra buffers are in the files, and so is the log buffer unless the write
  // buffer was in its way.
  lemma EveryTurnWrites(s: State, steps: seq<Step>)
    requires Inv(s) && Legal(s, steps) && Resting(s.pc) && Consumes(steps) > 0
    requires Run(s, steps).pc == Test
    ensures
      var written := Run(s, steps).written;
      && Among(Contents(s.write), written) && Among(Flatten(s.extras), written)
      && (Contents(s.write) == [] ==> Among(Contents(s.log), written))
  {
    RunKeeps(s, steps);
    var tr := Marks(s, steps);
    RunTrace(s, steps);
    SomeConsume(steps);
    TurnWrites(tr, steps, 0, |steps|);
    ComingHolds(s);
  }

  // ---- Two turns write everything ----

  lemma UpcomingNext(tr: seq<Mark>, steps: seq<Step>, i: nat)
    requires Trace(tr, steps) && i < |steps| && (tr[i].pc == Test || tr[i + 1].pc != Test)
    ensures Among(tr[i].upcoming, tr[i + 1].upcoming)
  {
    assert LinkedAt(tr, steps, i);
  }

  lemma UpcomingReturns(tr: seq<Mark>, steps: seq<Step>, i: nat, j: nat)
    requires Trace(tr, steps) && i < j <= |steps| && tr[i].pc != Test && tr[i + 1].pc == Test
    ensures Among(tr[i].upcoming, tr[j].coming)
  {
    assert LinkedAt(tr, steps, i);
    ComingFrom(tr, steps, i + 1, j);
    AmongTrans(tr[i].upcoming, tr[i + 1].coming, tr[j].coming);
  }

  lemma {:induction false} UpcomingFrom(tr: seq<Mark>, steps: seq<Step>, i: nat, j: nat)
    requires Trace(tr, steps) && i <= j <= |steps| && tr[i].pc != Test && tr[j].pc == Test
    ensures Among(tr[i].upcoming, tr[j].coming)
    decreases j - i
  {
    if tr[i + 1].pc == Test {
      UpcomingReturns(tr, steps, i, j);
    } else {
      UpcomingNext(tr, steps, i);
      UpcomingFrom(tr, steps, i + 1, j);
      AmongTrans(tr[i].upcoming, tr[i + 1].upcoming, tr[j].coming);
    }
  }

  // Up to the first step of the writer, and over it.
  lemma {:induction false} UpcomingUntil(tr: seq<Mark>, steps: seq<Step>, i: nat, k: nat)
    requires Trace(tr, steps) && i <= k < |steps| && tr[i].pc == Test && steps[k].Consume?
    requires forall m :: i <= m < k ==> !steps[m].Consume?
    ensures Among(tr[i].upcoming, tr[k + 1].upcoming) && tr[k + 1].pc == Region
    decreases k - i
  {
    assert LinkedAt(tr, steps, i);
    UpcomingNext(tr, steps, i);
    if i < k {
      UpcomingUntil(tr, steps, i + 1, k);
      AmongTrans(tr[i].upcoming, tr[i + 1].upcoming, tr[k + 1].upcoming);
    }
  }

  lemma TurnBringsUp(tr: seq<Mark>, steps: seq<Step>, i: nat, j: nat)
    requires Trace(tr, steps) && i <= j <= |steps| && tr[i].pc == Test && tr[j].pc == Test && Consuming(steps, i, j)
    ensures Among(tr[i].upcoming, tr[j].coming)
  {
    var k := FirstConsume(tr, steps, i, j);
    UpcomingUntil(tr, steps, i, k);
    UpcomingFrom(tr, steps, k + 1, j);
    AmongTrans(tr[i].upcoming, tr[k + 1].upcoming, tr[j].coming);
  }

  lemma TwoTurnsWrite(tr: seq<Mark>, steps: seq<Step>, i: nat, j: nat, k: nat)
    requires Trace(tr, steps) && i <= j <= k <= |steps| && tr[i].pc == tr[j].pc == tr[k].pc == Test
    requires Consuming(steps, i, j) && Consuming(steps, j, k)
    ensures Among(tr[i].upcoming, tr[k].written)
  {
    TurnBringsUp(tr, steps, i, j);
    TurnWrites(tr, steps, j, k);
    AmongTrans(tr[i].upcoming, tr[j].coming, tr[k].written);
  }

  // ---- A turn has an end ----

  // What a state of a logger that nobody stops promises, besides its links.
  ghost predicate Going(m: Mark) {
    0 < m.turn <= 137 && (m.pc == Test ==> Among(m.accepted, m.upcoming))
  }

  // The turn is over, or its end is closer by the writer's steps.
  predicate Advances(m: Mark, step: Step, n: Mark) {
    && m.accepted <= n.accepted
    && ((step.Consume? && n.pc == Test) || n.turn + (if step.Consume? then 1 else 0) <= m.turn)
  }

  predicate AdvancesAt(tr: seq<Mark>, steps: seq<Step>, i: nat)
    requires |tr| == |steps| + 1 && i < |steps|
  {
    Advances(tr[i], steps[i], tr[i + 1])
  }

  ghost predicate GoingTrace(tr: seq<Mark>, steps: seq<Step>) {
    && Trace(tr, steps)
    && (forall m :: m in tr ==> Going(m))
    && (forall i :: 0 <= i < |steps| ==> AdvancesAt(tr, steps, i))
  }

  // Nobody calls stop().
  ghost predicate Unstopped(s: State, steps: seq<Step>) {
    Inv(s) && FewExtras(s) && Looping(s) && Legal(s, steps) && Stop !in steps
  }

  lemma IsGoing(s: State)
    requires Inv(s) && FewExtras(s) && Looping(s)
    ensures Going(MarkOf(s))
  {
    TurnPositive(s);
    TurnAtMost(s);
    if s.pc == Test {
      AcceptedUpcoming(s);
    }
  }

  lemma UnstoppedNext(s: State, steps: seq<Step>)
    requires Unstopped(s, steps) && steps != []
    ensures
      var t := Next(s, steps[0]);
      && Unstopped(t, steps[1..]) && Going(MarkOf(s)) && Linked(MarkOf(s), steps[0], MarkOf(t))
      && Advances(MarkOf(s), steps[0], MarkOf(t))
  {
    assert steps[0] in steps;
    StepTurn(s, steps[0]);
    NextKeeps(s, steps[0]);
    StepLinked(s, steps[0]);
    IsGoing(s);
  }

  lemma GoingCons(m: Mark, steps: seq<Step>, tr: seq<Mark>)
    requires steps != [] && GoingTrace(tr, steps[1..]) && Linked(m, steps[0], tr[0]) && Going(m)
    requires Advances(m, steps[0], tr[0])
    ensures GoingTrace([m] + tr, steps)
  {
    TraceCons(m, steps, tr);
    var all := [m] + tr;
    forall i | 0 <= i < |steps| ensures AdvancesAt(all, steps, i) {
      if i > 0 {
        assert AdvancesAt(tr, steps[1..], i - 1);
        assert all[i] == tr[i - 1] && all[i + 1] == tr[i];
      }
    }
  }

  lemma {:induction false} RunGoing(s: State, steps: seq<Step>)
    requires Unstopped(s, steps)
    ensures GoingTrace(Marks(s, steps), steps) && Unstopped(Run(s, steps), [])
    decreases |steps|
  {
    if steps == [] {
      IsGoing(s);
    } else {
      UnstoppedNext(s, steps);
      RunGoing(Next(s, steps[0]), steps[1..]);
      GoingCons(MarkOf(s), steps, Marks(Next(s, steps[0]), steps[1..]));
    }
  }

  // How many steps of the writer there are from the i-th on.
  function From(steps: seq<Step>, i: nat): nat
    requires i <= |steps|
  {
    Consumes(steps[i..])
  }

  lemma FromNext(steps: seq<Step>, i: nat)
    requires i < |steps|
    ensures From(steps, i) == From(steps, i + 1) + if steps[i].Consume? then 1 else 0
  {
    assert steps[i..][1..] == steps[i + 1..];
  }

  // Where the turn that is on at tr[i] ends.
  lemma {:induction false} TurnEnds(tr: seq<Mark>, steps: seq<Step>, i: nat) returns (k: nat)
    requires GoingTrace(tr, steps) && i <= |steps| && From(steps, i) >= tr[i].turn
    ensures i < k <= |steps| && tr[k].pc == Test && Consuming(steps, i, k)
    ensures From(steps, k) >= From(steps, i) - tr[i].turn
    decreases |steps| - i
  {
    assert Going(tr[i]) && i < |steps|;
    assert AdvancesAt(tr, steps, i);
    FromNext(steps, i);
    if steps[i].Consume? && tr[i + 1].pc == Test {
      k := i + 1;
    } else {
      k := TurnEnds(tr, steps, i + 1);
    }
  }

  lemma OneTurn(tr: seq<Mark>, steps: seq<Step>, i: nat) returns (k: nat)
    requires GoingTrace(tr, steps) && i <= |steps| && From(steps, i) >= 137
    ensures i < k <= |steps| && tr[k].pc == Test && Consuming(steps, i, k) && From(steps, k) >= From(steps, i) - 137
  {
    assert Going(tr[i]);
    k := TurnEnds(tr, steps, i);
  }

  lemma {:induction false} AcceptedGrows(tr: seq<Mark>, steps: seq<Step>, i: nat)
    requires GoingTrace(tr, steps) && i <= |steps|
    ensures tr[0].accepted <= tr[i].accepted
  {
    if i > 0 {
      AcceptedGrows(tr, steps, i - 1);
      assert AdvancesAt(tr, steps, i - 1);
    }
  }

  lemma TraceWrites(tr: seq<Mark>, steps: seq<Step>)
    requires GoingTrace(tr, steps) && Consumes(steps) >= 411
    ensures Among(tr[0].accepted, tr[|steps|].written)
  {
    assert steps[0..] == steps;
    var i := OneTurn(tr, steps, 0);
    var j := OneTurn(tr, steps, i);
    var k := OneTurn(tr, steps, j);
    AcceptedGrows(tr, steps, i);
    PrefixAmong(tr[0].accepted, tr[i].accepted);
    TwoTurnsWrite(tr, steps, i, j, k);
    ComingFrom(tr, steps, k, |steps|);
    PrefixAmong(tr[k].written, tr[|steps|].written);
    assert Going(tr[i]);
    AmongTrans(tr[0].accepted, tr[i].accepted, tr[i].upcoming);
    AmongTrans(tr[0].accepted, tr[i].upcoming, tr[k].written);
    AmongTrans(tr[0].accepted, tr[k].written, tr[|steps|].written);
  }

  // While nobody calls stop(): whatever else the threads do, an accepted message
  // is in the files once the writer has made 411 more accesses.
  lemma EverythingIsWritten(files: Log, before: seq<Step>, s: State, steps: seq<Step>)
    requires Reached(files, before, s) && Legal(s, steps) && Stop !in before && Stop !in steps
    requires Consumes(steps) >= 411
    ensures Among(s.accepted, Run(s, steps).written)
  {
    StartedInv(files);
    RunGoing(Started(files), before);
    RunGoing(s, steps);
    TraceWrites(Marks(s, steps), steps);
  }
}
