/** A Sleep outside all futures survives a shutdown: when exactly the clock is empty afterwards, and
    a run that leaves it ticking. */
module Leftover {
  import opened Types
  import opened Time
  import opened Executor
  import opened Machine
  import opened Refinement
  import opened Shutdown
  import opened Timing
  import opened Ownership

  /** Nobody drops a registered Sleep that is outside all futures, or takes it into one, and no turn
      passes. */
  predicate LeavesOutside(h: Held, op: HeldOp) {
    match op
    case Plain(ForgetSleep(k)) => k in h.owner || k !in h.base.clock.upcoming
    case Plain(Turn(_)) => false
    case Hold(k, _) => k !in h.base.clock.upcoming
    case _ => true
  }

  ghost predicate LeavingRun(h: Held, ops: seq<HeldOp>, t: Held)
    decreases |ops|
  {
    if ops == [] then h == t
    else HeldNext(h, ops[0]).Some? && LeavesOutside(h, ops[0]) && LeavingRun(HeldNext(h, ops[0]).value, ops[1..], t)
  }

  ghost predicate Outside(h: Held, k: SleepKey) {
    k in h.base.clock.upcoming && k !in h.owner
  }

  lemma StaysRegistered(s: State, op: Op, t: State, k: SleepKey)
    requires Good(s) && Next(s, op) == Some(t) && k in s.clock.upcoming && op != ForgetSleep(k) && !op.Turn?
    ensures k in t.clock.upcoming
  {
    NextGood(s, op);
    AbsTidy(s);
    SleepStep(Abs(s), op, k);
  }

  lemma OutsideStep(h: Held, op: HeldOp, t: Held, k: SleepKey)
    requires HeldInv(h) && Outside(h, k) && HeldNext(h, op) == Some(t) && LeavesOutside(h, op)
    ensures Outside(t, k)
  {
    match op {
      case Plain(o) =>
        var m := PlainShape(h, o, t);
        StaysRegistered(h.base, o, m, k);
      case EndPoll(result, wakes) => StaysRegistered(h.base, Return(result, Drops(h, wakes)), t.base, k);
      case _ =>
    }
  }

  /** Over every run: a Sleep registered outside all futures stays registered, outside them, unless
      it is dropped or taken into one, or a turn passes. */
  lemma {:induction false} OutsideStays(h: Held, ops: seq<HeldOp>, t: Held, k: SleepKey)
    requires HeldInv(h) && Outside(h, k) && LeavingRun(h, ops, t)
    ensures Outside(t, k)
    decreases |ops|
  {
    if ops != [] {
      var m := HeldNext(h, ops[0]).value;
      OutsideStep(h, ops[0], m, k);
      HeldKeeps(h, ops[0], m);
      OutsideStays(m, ops[1..], t, k);
    }
  }

  /** When exactly a shutdown empties the clock, over every run: if meanwhile no registered Sleep
      moves in or out of the futures, none is registered outside, and none outside is dropped, then
      at the end no Sleep is registered iff every registered Sleep was inside a future at the call. */
  lemma ShutdownEmptiesExactly(start: Instant, before: seq<HeldOp>, h: Held, stopping: Held, ops: seq<HeldOp>, t: Held)
    requires HeldRun(HeldStart(start), before, h) && HeldNext(h, Plain(StopSimulation)) == Some(stopping)
    requires OrderlyRun(stopping, ops, t) && LeavingRun(stopping, ops, t)
    requires t.base.frames == [] && t.base.ex.polling.None?
    ensures t.base.clock.upcoming == map[] <==> AllHeld(h)
  {
    if AllHeld(h) {
      ShutdownEmptiesClock(start, before, h, stopping, ops, t);
    } else {
      var k :| k in h.base.clock.upcoming && k !in h.owner;
      HeldReached(start, before, h);
      HeldKeeps(h, Plain(StopSimulation), stopping);
      StopBegins(h, stopping);
      OutsideStays(stopping, ops, t, k);
    }
  }

  // ----- a run that leaves a Sleep behind -----

  /** The polled task of `OneTask`, with a Sleep registered outside its future, on the way through
      a shutdown that it called. */
  function Late(start: Instant, deadline: Instant, node: Node, state: TaskState, stopped: bool, frames: seq<Frame>): Held {
    var h := OneTask(start, true);
    var clock := Clock(start, start, map[0 := deadline], map[0 := Sleeping(1)], map[0 := deadline]);
    var queue := if state.AbortedReady? then [1] else [];
    var ex := h.base.ex.(queue := queue, shared := map[1 := Shared(state, 0)], nodes := [node], finalStopped := stopped);
    h.(base := h.base.(ex := ex, clock := clock, frames := frames))
  }

  function LateRunning(start: Instant, deadline: Instant): Held {
    Late(start, deadline, Node(Running, {1}), Waiting, false, [])
  }

  function LateCalled(start: Instant, deadline: Instant): Held {
    Late(start, deadline, Node(Running, {1}), Waiting, true, [StopAllFrame(0, 1)])
  }

  function LateMarked(start: Instant, deadline: Instant): Held {
    Late(start, deadline, Node(FinalStopped, {1}), Waiting, true, [StopAllFrame(1, 1), StopNodeFrame(0, {1})])
  }

  function LateAborted(start: Instant, deadline: Instant, frames: seq<Frame>): Held {
    Late(start, deadline, Node(FinalStopped, {1}), AbortedReady, true, frames)
  }

  /** The shutdown is over, and the poll of the aborted task has ended. */
  function LateOver(start: Instant, deadline: Instant): Held {
    var h := LateAborted(start, deadline, []);
    h.(base := h.base.(ex := h.base.ex.(polling := None, verdicts := map[1 := Dropped])))
  }

  lemma LateIsRunning(start: Instant, deadline: Instant) returns (ops: seq<HeldOp>)
    requires start < deadline
    ensures ops == [Plain(SpawnTask(0)), Plain(Turn([])), Plain(MakeSleep(0, deadline)), Plain(AwaitSleep(0, 1))]
    ensures HeldRun(HeldStart(start), ops, LateRunning(start, deadline))
  {
    var waiting, polled, t := OneTask(start, false), OneTask(start, true), LateRunning(start, deadline);
    OneTaskIsSpawned(start);
    OneTaskIsPolled(start);
    var made := LateIsRegistered(start, deadline);
    ops := [Plain(SpawnTask(0)), Plain(Turn([])), Plain(MakeSleep(0, deadline)), Plain(AwaitSleep(0, 1))];
    HeldFour(HeldStart(start), ops[0], waiting, ops[1], polled, ops[2], made, ops[3], t);
  }

  lemma LateIsRegistered(start: Instant, deadline: Instant) returns (made: Held)
    requires start < deadline
    ensures HeldNext(OneTask(start, true), Plain(MakeSleep(0, deadline))) == Some(made)
    ensures HeldNext(made, Plain(AwaitSleep(0, 1))) == Some(LateRunning(start, deadline))
  {
    var t := LateRunning(start, deadline);
    made := HeldNext(OneTask(start, true), Plain(MakeSleep(0, deadline))).value;
    var clock := PollSleep(made.base.clock, 0, 1).value.0;
    assert clock.sleeps == t.base.clock.sleeps;
    assert clock.upcoming == t.base.clock.upcoming;
    assert clock == t.base.clock;
    assert made.base.ex == t.base.ex;
  }

  lemma LateIsCalled(start: Instant, deadline: Instant)
    ensures HeldNext(LateRunning(start, deadline), Plain(StopSimulation)) == Some(LateCalled(start, deadline))
  {
    assert Push<Frame>([], StopAllFrame(0, 1)) == [StopAllFrame(0, 1)];
  }

  lemma LateIsMarked(start: Instant, deadline: Instant)
    ensures HeldNext(LateCalled(start, deadline), Plain(StopAllNext)) == Some(LateMarked(start, deadline))
  {
    var s, t := LateCalled(start, deadline).base, LateMarked(start, deadline).base;
    assert Push(Pop(s.frames), StopAllFrame(1, 1)) == [StopAllFrame(1, 1)];
    assert Push([StopAllFrame(1, 1)], StopNodeFrame(0, {1})) == t.frames;
    assert SetLevel(s.ex, 0, FinalStopped) == t.ex;
  }

  lemma LateIsAborted(start: Instant, deadline: Instant)
    ensures HeldNext(LateMarked(start, deadline), Plain(StopVisit(1))) ==
            Some(LateAborted(start, deadline, [StopAllFrame(1, 1), StopNodeFrame(0, {})]))
  {
    var s, t := LateMarked(start, deadline).base, LateAborted(start, deadline, [StopAllFrame(1, 1), StopNodeFrame(0, {})]).base;
    assert Abort(s.ex, 1) == t.ex;
    assert {1 as Id} - {1} == {};
    assert Pop(s.frames) == [StopAllFrame(1, 1)];
    assert Push(Pop(s.frames), StopNodeFrame(0, {})) == t.frames;
  }

  lemma LateHasReturned(start: Instant, deadline: Instant)
    ensures HeldNext(LateAborted(start, deadline, [StopAllFrame(1, 1), StopNodeFrame(0, {})]), Plain(StopReturn)) ==
            Some(LateAborted(start, deadline, [StopAllFrame(1, 1)]))
    ensures HeldNext(LateAborted(start, deadline, [StopAllFrame(1, 1)]), Plain(StopAllReturn)) ==
            Some(LateAborted(start, deadline, []))
  {
    assert Pop([StopAllFrame(1, 1), StopNodeFrame(0, {})]) == [StopAllFrame(1, 1)];
    assert Pop([StopAllFrame(1, 1)]) == [];
  }

  lemma LateIsOver(start: Instant, deadline: Instant)
    ensures HeldNext(LateAborted(start, deadline, []), HeldOp.EndPoll(Pending, [])) == Some(LateOver(start, deadline))
  {
    var h := LateAborted(start, deadline, []);
    assert DropWakes([]) == [];
    assert Drops(h, []) == [];
    assert h.base.ex.verdicts[1 := Dropped] == map[1 := Dropped];
    assert Executor.EndPoll(h.base.ex, Pending, []) == Ok(LateOver(start, deadline).base.ex);
  }

  /** What the task does from its call on: the whole shutdown, and the end of its poll. */
  function LateOps(): seq<HeldOp> {
    [Plain(StopAllNext), Plain(StopVisit(1)), Plain(StopReturn), Plain(StopAllReturn), HeldOp.EndPoll(Pending, [])]
  }

  lemma LateEnds(start: Instant, deadline: Instant)
    ensures var h, t := LateCalled(start, deadline), LateOver(start, deadline);
            HeldRun(h, LateOps(), t) && OrderlyRun(h, LateOps(), t) && LeavingRun(h, LateOps(), t)
  {
    var h := [LateCalled(start, deadline), LateMarked(start, deadline),
              LateAborted(start, deadline, [StopAllFrame(1, 1), StopNodeFrame(0, {})]),
              LateAborted(start, deadline, [StopAllFrame(1, 1)]), LateAborted(start, deadline, []), LateOver(start, deadline)];
    LateIsMarked(start, deadline);
    LateIsAborted(start, deadline);
    LateHasReturned(start, deadline);
    LateIsOver(start, deadline);
    QuietFive(h[0], LateOps()[0], h[1], LateOps()[1], h[2], LateOps()[2], h[3], LateOps()[3], h[4], LateOps()[4], h[5]);
  }

  ghost predicate Quietly(h: Held, op: HeldOp, t: Held) {
    HeldNext(h, op) == Some(t) && LeavesOutside(h, op) && Orderly(h, op)
  }

  lemma QuietFive(h0: Held, a: HeldOp, h1: Held, b: HeldOp, h2: Held, c: HeldOp, h3: Held, d: HeldOp, h4: Held, e: HeldOp, h5: Held)
    requires Quietly(h0, a, h1) && Quietly(h1, b, h2) && Quietly(h2, c, h3) && Quietly(h3, d, h4) && Quietly(h4, e, h5)
    ensures var ops := [a, b, c, d, e]; HeldRun(h0, ops, h5) && LeavingRun(h0, ops, h5) && OrderlyRun(h0, ops, h5)
  {
    QuietChain([h0, h1, h2, h3, h4, h5], [a, b, c, d, e]);
  }

  /** `ops` lead along the states `h`, and are quiet for the Sleeps outside all futures. */
  lemma {:induction false} QuietChain(h: seq<Held>, ops: seq<HeldOp>)
    requires |h| == |ops| + 1
    requires forall i :: 0 <= i < |ops| ==> Quietly(h[i], ops[i], h[i + 1])
    ensures HeldRun(h[0], ops, h[|ops|]) && LeavingRun(h[0], ops, h[|ops|]) && OrderlyRun(h[0], ops, h[|ops|])
    decreases |ops|
  {
    if ops != [] { QuietChain(h[1..], ops[1..]); }
  }

  /** The run: a task registers a Sleep that is not inside its future and stops the simulation. When
      that is over, the Sleep is still registered, and the next turn of the run loop advances the
      clock. */
  lemma LateSleepSurvives(start: Instant, deadline: Instant)
    returns (before: seq<HeldOp>, h: Held, stopping: Held, t: Held, order: seq<SleepKey>)
    requires start < deadline
    ensures HeldRun(HeldStart(start), before, h) && !AllHeld(h) && HeldNext(h, Plain(StopSimulation)) == Some(stopping)
    ensures OrderlyRun(stopping, LateOps(), t) && LeavingRun(stopping, LateOps(), t)
    ensures t.base.ex.finalStopped && t.base.frames == [] && t.base.ex.polling.None? && 0 in t.base.clock.upcoming
    ensures Next(t.base, Turn(order)).Some? && Next(t.base, Turn(order)).value.clock.now > t.base.clock.now
  {
    h, stopping, t := LateRunning(start, deadline), LateCalled(start, deadline), LateOver(start, deadline);
    before := LateIsRunning(start, deadline);
    LateIsCalled(start, deadline);
    LateEnds(start, deadline);
    HeldReached(start, before, h);
    assert 0 in h.base.clock.upcoming;
    LateIsGood(start, before, h, stopping, t);
    order := RegisteredSleepMovesClock(t.base);
  }

  lemma LateIsGood(start: Instant, before: seq<HeldOp>, h: Held, stopping: Held, t: Held)
    requires HeldRun(HeldStart(start), before, h) && HeldNext(h, Plain(StopSimulation)) == Some(stopping)
    requires HeldRun(stopping, LateOps(), t)
    ensures Good(t.base)
  {
    HeldReached(start, before, h);
    HeldKeeps(h, Plain(StopSimulation), stopping);
    HeldRunKeeps(stopping, LateOps(), t);
  }
}
