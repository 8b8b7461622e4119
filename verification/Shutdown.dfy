/** Stopping nodes and the whole simulation, under arbitrary re-entrancy: destructors
    that run during a stop may spawn, abort, restart nodes or stop again. */
module Shutdown {
  import opened Types
  import opened Time
  import opened Executor
  import opened Machine
  import opened Eager
  import opened Refinement

  /** What the eager view of a good state satisfies. */
  ghost predicate Tidy(g: Eager) {
    && NoDuplicates(g.queue)
    && (forall id :: id in g.queue ==> id in g.live)
    && (forall id :: id in g.live ==> id in g.verdicts && g.live[id] < |g.levels|)
    && (forall id :: id in g.verdicts ==> 0 < id <= g.nextId)
    && (forall id :: id in g.verdicts ==> (g.verdicts[id].Undecided? <==> (id in g.live || g.polling == Some(id))))
    && (g.polling.Some? ==> g.polling.value in g.verdicts)
    && ClockInv(g.clock)
    && (forall k :: k in g.clock.sleeps && g.clock.sleeps[k].Sleeping? ==> g.clock.sleeps[k].waker in g.verdicts)
    && (forall i :: 0 <= i < |g.frames| ==> TidyFrame(g, g.frames[i]))
    && |g.levels| > 0
  }

  ghost predicate TidyFrame(g: Eager, f: Frame) {
    match f
    case StopNodeFrame(n, todo) => n < |g.levels| && forall id :: id in todo ==> id in g.live && g.live[id] == n
    case StopAllFrame(next, count) => g.finalStopped && next <= count == |g.levels|
  }

  lemma {:induction false} KeepNoDuplicates(q: seq<Id>, keep: set<Id>)
    requires NoDuplicates(q)
    ensures NoDuplicates(Keep(q, keep))
  {
    if q != [] {
      KeepNoDuplicates(q[1..], keep);
      KeepMember(q[1..], keep, q[0]);
      TailMembers(q);
    }
  }

  lemma AbsTidy(s: State)
    requires Inv(s)
    ensures Tidy(Abs(s))
  {
    var g := Abs(s);
    KeepNoDuplicates(s.ex.queue, ReadyIds(s.ex));
    forall id | id in g.queue ensures id in g.live { KeepMember(s.ex.queue, ReadyIds(s.ex), id); }
    forall id | id in g.live ensures id in g.verdicts && g.live[id] < |g.levels| { assert TaskInv(s.ex, id); }
    forall id | id in g.verdicts
      ensures 0 < id <= g.nextId && (g.verdicts[id].Undecided? <==> (id in g.live || g.polling == Some(id)))
    {
      assert TaskInv(s.ex, id);
    }
    if g.polling.Some? { assert TaskInv(s.ex, g.polling.value); }
    forall k | k in g.clock.sleeps && g.clock.sleeps[k].Sleeping? ensures g.clock.sleeps[k].waker in g.verdicts {
      assert TaskInv(s.ex, g.clock.sleeps[k].waker);
    }
    forall i | 0 <= i < |g.frames| ensures TidyFrame(g, g.frames[i]) { assert FrameInv(s, s.frames[i]); }
  }

  ghost predicate InTodo(g: Eager, id: Id) {
    exists i :: 0 <= i < |g.frames| && g.frames[i].StopNodeFrame? && id in g.frames[i].todo
  }

  ghost predicate NodePending(g: Eager, n: NodeIx) {
    exists i :: 0 <= i < |g.frames| && g.frames[i].StopAllFrame? && g.frames[i].next <= n
  }

  /** A live task of a stopped node is still on the list of an active `stop_node`, and
      after `stop_simulation` a node is finally stopped unless an active
      `stop_simulation` has yet to reach it. */
  ghost predicate StopInv(g: Eager) {
    && (forall id :: id in g.live && g.live[id] < |g.levels| && !g.levels[g.live[id]].Running? ==> InTodo(g, id))
    && (g.finalStopped ==> forall n :: 0 <= n < |g.levels| ==> g.levels[n].FinalStopped? || NodePending(g, n))
  }

  lemma KillKeepsStop(g: Eager, id: Id)
    requires Tidy(g) && StopInv(g)
    ensures StopInv(Kill(g, id))
  {
    var h := Kill(g, id);
    forall x | x in h.live && h.live[x] < |h.levels| && !h.levels[h.live[x]].Running? ensures InTodo(h, x) {
      assert InTodo(g, x);
      var i :| 0 <= i < |g.frames| && g.frames[i].StopNodeFrame? && x in g.frames[i].todo;
      assert h.frames[i].StopNodeFrame? && x in h.frames[i].todo;
    }
    if h.finalStopped {
      forall n | 0 <= n < |h.levels| ensures h.levels[n].FinalStopped? || NodePending(h, n) {
        if NodePending(g, n) {
          var i :| 0 <= i < |g.frames| && g.frames[i].StopAllFrame? && g.frames[i].next <= n;
          assert h.frames[i].StopAllFrame? && h.frames[i].next <= n;
        }
      }
    }
  }

  /** Enlarging the stack, restarting running nodes and adding live tasks on running nodes is harmless. */
  lemma MoreFrames(g: Eager, h: Eager)
    requires Tidy(g) && StopInv(g)
    requires |h.frames| >= |g.frames| && forall i :: 0 <= i < |g.frames| ==> h.frames[i] == g.frames[i]
    ensures forall id :: InTodo(g, id) ==> InTodo(h, id)
    ensures forall n :: NodePending(g, n) ==> NodePending(h, n)
  {
    forall id | InTodo(g, id) ensures InTodo(h, id) {
      var i :| 0 <= i < |g.frames| && g.frames[i].StopNodeFrame? && id in g.frames[i].todo;
      assert h.frames[i].StopNodeFrame? && id in h.frames[i].todo;
    }
    forall n | NodePending(g, n) ensures NodePending(h, n) {
      var i :| 0 <= i < |g.frames| && g.frames[i].StopAllFrame? && g.frames[i].next <= n;
      assert h.frames[i].StopAllFrame? && h.frames[i].next <= n;
    }
  }

  lemma BeginStopKeepsStop(g: Eager, n: NodeIx, isFinal: bool)
    requires Tidy(g) && n < |g.levels|
    requires forall id :: id in g.live && !g.levels[g.live[id]].Running? ==> InTodo(g, id)
    requires g.finalStopped ==> forall m :: 0 <= m < |g.levels| && m != n ==> g.levels[m].FinalStopped? || NodePending(g, m)
    requires g.finalStopped ==> isFinal || g.levels[n].FinalStopped? || NodePending(g, n)
    ensures StopInv(EBeginStop(g, n, isFinal))
  {
    var h := EBeginStop(g, n, isFinal);
    forall id | InTodo(g, id) ensures InTodo(h, id) {
      var i :| 0 <= i < |g.frames| && g.frames[i].StopNodeFrame? && id in g.frames[i].todo;
      assert h.frames[i].StopNodeFrame? && id in h.frames[i].todo;
    }
    forall m | NodePending(g, m) ensures NodePending(h, m) {
      var i :| 0 <= i < |g.frames| && g.frames[i].StopAllFrame? && g.frames[i].next <= m;
      assert h.frames[i].StopAllFrame? && h.frames[i].next <= m;
    }
    forall id | id in h.live && !h.levels[h.live[id]].Running? ensures InTodo(h, id) {
      if g.levels[g.live[id]].Running? {
        var last := |h.frames| - 1;
        assert h.frames[last].StopNodeFrame? && id in h.frames[last].todo;
      }
    }
  }

  lemma PopKeepsStop(g: Eager)
    requires Tidy(g) && StopInv(g) && g.frames != []
    requires Top(g.frames).StopNodeFrame? ==> Top(g.frames).todo == {}
    requires Top(g.frames).StopAllFrame? ==> Top(g.frames).next == Top(g.frames).count
    ensures StopInv(g.(frames := Pop(g.frames)))
  {
    var h := g.(frames := Pop(g.frames));
    var last := |g.frames| - 1;
    assert TidyFrame(g, g.frames[last]);
    forall id | id in h.live && h.live[id] < |h.levels| && !h.levels[h.live[id]].Running? ensures InTodo(h, id) {
      assert InTodo(g, id);
      var i :| 0 <= i < |g.frames| && g.frames[i].StopNodeFrame? && id in g.frames[i].todo;
      assert i != last && h.frames[i] == g.frames[i];
    }
    if h.finalStopped {
      forall n | 0 <= n < |h.levels| ensures h.levels[n].FinalStopped? || NodePending(h, n) {
        if !g.levels[n].FinalStopped? {
          assert NodePending(g, n);
          var i :| 0 <= i < |g.frames| && g.frames[i].StopAllFrame? && g.frames[i].next <= n;
          assert i != last && h.frames[i] == g.frames[i];
        }
      }
    }
  }

  /** A stop of the simulation moves on to its next node. */
  lemma NextTodo(g: Eager, m: Eager)
    requires Tidy(g) && StopInv(g) && g.frames != [] && Top(g.frames).StopAllFrame?
    requires m == g.(frames := Push(Pop(g.frames), Top(g.frames).(next := Top(g.frames).next + 1)))
    ensures forall id :: id in m.live && !m.levels[m.live[id]].Running? ==> InTodo(m, id)
    ensures m.finalStopped ==> forall n :: 0 <= n < |m.levels| && n != Top(g.frames).next ==> m.levels[n].FinalStopped? || NodePending(m, n)
  {
    var last := |g.frames| - 1;
    forall id | id in m.live && !m.levels[m.live[id]].Running? ensures InTodo(m, id) {
      assert InTodo(g, id);
      var i :| 0 <= i < |g.frames| && g.frames[i].StopNodeFrame? && id in g.frames[i].todo;
      assert i != last && m.frames[i] == g.frames[i];
    }
    forall n | 0 <= n < |m.levels| && n != Top(g.frames).next && m.finalStopped ensures m.levels[n].FinalStopped? || NodePending(m, n) {
      if !g.levels[n].FinalStopped? {
        assert NodePending(g, n);
        var i :| 0 <= i < |g.frames| && g.frames[i].StopAllFrame? && g.frames[i].next <= n;
        assert m.frames[i].StopAllFrame? && m.frames[i].next <= n;
      }
    }
  }

  lemma StopAllNextKeepsStop(g: Eager)
    requires Tidy(g) && StopInv(g) && EEnabled(g, StopAllNext)
    ensures StopInv(EStep(g, StopAllNext).value)
  {
    var f := Top(g.frames);
    var m := g.(frames := Push(Pop(g.frames), f.(next := f.next + 1)));
    forall i | 0 <= i < |m.frames| ensures TidyFrame(m, m.frames[i]) { assert TidyFrame(g, g.frames[i]); }
    NextTodo(g, m);
    BeginStopKeepsStop(m, f.next, true);
  }

  lemma {:induction false} WakesKeepStop(g: Eager, ids: seq<Id>)
    ensures var h := EWakeAll(g, ids);
            && h.live == g.live && h.levels == g.levels && h.frames == g.frames && h.finalStopped == g.finalStopped
            && h.verdicts == g.verdicts && h.clock == g.clock && h.polling == g.polling && h.trace == g.trace
            && h.nextId == g.nextId
    decreases |ids|
  {
    if ids != [] { WakesKeepStop(EWake(g, ids[0]), ids[1..]); }
  }

  lemma SameStop(g: Eager, h: Eager)
    requires StopInv(g)
    requires h.live == g.live && h.levels == g.levels && h.frames == g.frames && h.finalStopped == g.finalStopped
    ensures StopInv(h)
  {
    forall id | InTodo(g, id) ensures InTodo(h, id) {
      var i :| 0 <= i < |g.frames| && g.frames[i].StopNodeFrame? && id in g.frames[i].todo;
      assert h.frames[i] == g.frames[i];
    }
    forall n | NodePending(g, n) ensures NodePending(h, n) {
      var i :| 0 <= i < |g.frames| && g.frames[i].StopAllFrame? && g.frames[i].next <= n;
      assert h.frames[i] == g.frames[i];
    }
  }

  lemma UserKeepsStop(g: Eager, op: Op)
    requires Tidy(g) && StopInv(g) && EEnabled(g, op) && EStep(g, op).Ok?
    requires op.SpawnTask? || op.StartNode? || op.CreateNode? || op.StopSimulation?
    ensures StopInv(EStep(g, op).value)
  {
    var h := EStep(g, op).value;
    MoreFrames(g, h);
    if op.StopSimulation? {
      forall n | 0 <= n < |h.levels| ensures NodePending(h, n) {
        var last := |h.frames| - 1;
        assert h.frames[last].StopAllFrame? && h.frames[last].next <= n;
      }
    }
    if op.StartNode? && h.finalStopped {
      forall n | 0 <= n < |h.levels| ensures h.levels[n].FinalStopped? || NodePending(h, n) {
        assert g.levels[n].FinalStopped? || NodePending(g, n);
      }
    }
  }

  lemma StepKeepsStop(g: Eager, op: Op)
    requires Tidy(g) && StopInv(g) && ENext(g, op).Some?
    ensures StopInv(ENext(g, op).value)
  {
    var h := ENext(g, op).value;
    match op
    case AbortTask(id) =>
      KillKeepsStop(g, id);
      SameStop(if id in g.live then Kill(g, id) else g, h);
    case StopVisit(id) =>
      KillKeepsStop(g, id);
      SameStop(if id in g.live then Kill(g, id) else g, h);
    case StopNode(n) => BeginStopKeepsStop(g, n, false);
    case StopReturn => PopKeepsStop(g);
    case StopAllReturn => PopKeepsStop(g);
    case StopAllNext => StopAllNextKeepsStop(g);
    case SpawnTask(_) => UserKeepsStop(g, op);
    case StartNode(_) => UserKeepsStop(g, op);
    case CreateNode => UserKeepsStop(g, op);
    case StopSimulation => UserKeepsStop(g, op);
    case Turn(order) =>
      if (g.finalStopped || g.queue == []) && order != [] { WakesKeepStop(EAdvanced(g, order), Wakers(g.clock, order)); }
      SameStop(g, h);
    case Return(r, drops) =>
      ReturnShape(g, r, drops);
      KillKeepsStop(g, g.polling.value);
      SameStop(if r.Finished? then Kill(g, g.polling.value) else g, h);
    case _ => SameStop(g, h);
  }

  /** The eager state at the instant after the clock moved, before the due tasks are woken. */
  ghost function EAdvanced(g: Eager, order: seq<SleepKey>): Eager
    requires order != [] && AllSleeping(g.clock, order)
  {
    g.(clock := Advance(g.clock, order), trace := Push(g.trace, TimeAdvanced(StepSize(g.clock, order))))
  }

  // ----- over whole runs -----

  ghost predicate Good(s: State) {
    Inv(s) && StopInv(Abs(s))
  }

  /** One step of the real executor, seen through the eager one. */
  lemma NextGood(s: State, op: Op)
    requires Good(s) && Next(s, op).Some?
    ensures Good(Next(s, op).value)
    ensures ENext(Abs(s), op) == Some(Abs(Next(s, op).value))
    ensures Tidy(Abs(s)) && Tidy(Abs(Next(s, op).value))
  {
    NextLockstep(s, op);
    AbsTidy(s);
    AbsTidy(Next(s, op).value);
    StepKeepsStop(Abs(s), op);
  }

  lemma {:induction false} RunGood(s: State, ops: seq<Op>, t: State)
    requires Good(s) && Run(s, ops, t)
    ensures Good(t)
    decreases |ops|
  {
    if ops != [] {
      NextGood(s, ops[0]);
      RunGood(Next(s, ops[0]).value, ops[1..], t);
    }
  }

  lemma StartGood(start: Instant)
    ensures Good(Start(start))
  {
    StartInv(start);
  }

  lemma ReachableGood(s: State)
    requires Reachable(s)
    ensures Good(s)
  {
    var start: Instant, ops: seq<Op> :| Run(Start(start), ops, s);
    StartGood(start);
    RunGood(Start(start), ops, s);
  }

  /** Every live task of a stopped node is on the list of a stop of that node in progress. */
  lemma LiveIsListed(s: State)
    requires Good(s)
    ensures forall id :: id in s.ex.shared ==> s.ex.shared[id].node < |s.ex.nodes|
    ensures forall id :: IsLive(s.ex, id) && !s.ex.nodes[s.ex.shared[id].node].level.Running? ==>
              exists i :: 0 <= i < |s.frames| && s.frames[i].StopNodeFrame? && s.frames[i].node == s.ex.shared[id].node
  {
    AbsTidy(s);
    var g := Abs(s);
    forall id | id in s.ex.shared ensures s.ex.shared[id].node < |s.ex.nodes| { assert TaskInv(s.ex, id); }
    forall id | IsLive(s.ex, id) && !s.ex.nodes[s.ex.shared[id].node].level.Running?
      ensures exists i :: 0 <= i < |s.frames| && s.frames[i].StopNodeFrame? && s.frames[i].node == s.ex.shared[id].node
    {
      assert id in g.live && InTodo(g, id);
      var i :| 0 <= i < |g.frames| && g.frames[i].StopNodeFrame? && id in g.frames[i].todo;
      assert TidyFrame(g, g.frames[i]);
      assert s.frames[i].StopNodeFrame? && s.frames[i].node == s.ex.shared[id].node;
    }
  }

  /** Stopping a node is complete: once no stop of that node is in progress, a node that
      is not running has no waiting or ready task, whatever destructors did meanwhile. */
  lemma StoppedNodeIsEmpty(s: State, n: NodeIx)
    requires Reachable(s) && n < |s.ex.nodes| && !s.ex.nodes[n].level.Running?
    requires forall i :: 0 <= i < |s.frames| && s.frames[i].StopNodeFrame? ==> s.frames[i].node != n
    ensures forall id :: id in s.ex.shared && s.ex.shared[id].node == n ==> !IsLive(s.ex, id)
  {
    ReachableGood(s);
    LiveIsListed(s);
  }

  /** Shutdown is complete: after `stop_simulation`, once no stop is in progress, every
      node is finally stopped, no task is waiting or ready, and every handle except
      that of the task being polled is decided. */
  lemma ShutdownIsComplete(s: State)
    requires Good(s) && s.ex.finalStopped && s.frames == []
    ensures forall n :: 0 <= n < |s.ex.nodes| ==> s.ex.nodes[n].level.FinalStopped?
    ensures forall id :: id in s.ex.shared ==> !IsLive(s.ex, id)
    ensures forall id :: id in s.ex.verdicts && s.ex.polling != Some(id) ==> !s.ex.verdicts[id].Undecided?
  {
    LiveIsListed(s);
    AbsTidy(s);
    var g := Abs(s);
    forall n | 0 <= n < |s.ex.nodes| ensures s.ex.nodes[n].level.FinalStopped? {
      assert g.levels[n].FinalStopped? || NodePending(g, n);
    }
  }

  /** The eager view of a finished shutdown with no registered sleep. */
  ghost predicate Over(g: Eager) {
    && g.finalStopped
    && (forall i :: 0 <= i < |g.frames| ==> g.frames[i].StopAllFrame?)
    && (forall n :: 0 <= n < |g.levels| ==> g.levels[n].FinalStopped?)
    && g.clock.upcoming == map[]
  }

  lemma OverStep(g: Eager, op: Op)
    requires Over(g) && ENext(g, op).Some? && (op.AwaitSleep? ==> !Registers(g.clock, op.key))
    ensures var h := ENext(g, op).value; Over(h) && h.trace == g.trace && h.clock.now == g.clock.now
  {
    match op {
      case Return(r, drops) => ReturnShape(g, r, drops);
      case _ =>
    }
  }

  /** What the end of a poll leaves alone. */
  lemma ReturnShape(g: Eager, r: PollResult, drops: seq<DropEffect>)
    requires g.polling.Some? && EReturn(g, r, drops).Ok?
    ensures var h := EReturn(g, r, drops).value;
            && h.finalStopped == g.finalStopped && h.levels == g.levels && h.clock == g.clock
            && h.trace == g.trace && h.nextId == g.nextId && h.polling.None?
            && h.frames == (if r.Finished? then Strike(g.frames, g.polling.value) else g.frames)
            && h.live == (if r.Finished? then g.live - {g.polling.value} else g.live)
            && h.verdicts == (if r.Finished? then g.verdicts[g.polling.value := Returned(r.value)]
                              else if g.polling.value in g.live then g.verdicts
                              else g.verdicts[g.polling.value := Dropped])
  {
    var id := g.polling.value;
    if r.Finished? {
      WakesKeepStop(Kill(g.(polling := None), id).(verdicts := g.verdicts[id := Returned(r.value)]), WakesOf(drops));
    } else {
      WakesKeepStop(g.(polling := None, verdicts := g.verdicts[id := Dropped]), WakesOf(drops));
    }
  }

  lemma ReturnClock(g: Eager, r: PollResult, drops: seq<DropEffect>)
    requires ENext(g, Return(r, drops)).Some?
    ensures var h := ENext(g, Return(r, drops)).value;
            h.clock == g.clock && h.trace == g.trace && h.finalStopped == g.finalStopped
  {
    ReturnShape(g, r, drops);
  }

  /** What a turn does that moves the clock. */
  lemma AdvanceShape(g: Eager, order: seq<SleepKey>)
    requires Tidy(g) && ENext(g, Turn(order)).Some? && order != [] && (g.finalStopped || g.queue == [])
    ensures AllSleeping(g.clock, order) && StepSize(g.clock, order) > 0
    ensures var h := ENext(g, Turn(order)).value;
            && h == EWakeAll(EAdvanced(g, order), Wakers(g.clock, order))
            && h.live == g.live && h.levels == g.levels && h.frames == g.frames && h.finalStopped == g.finalStopped
            && h.verdicts == g.verdicts && h.polling == g.polling && h.nextId == g.nextId
            && h.clock == Advance(g.clock, order)
            && h.trace == Push(g.trace, TimeAdvanced(StepSize(g.clock, order)))
  {
    AdvanceExact(g.clock, order);
    WakesKeepStop(EAdvanced(g, order), Wakers(g.clock, order));
  }

  /** No label of the run registers a Sleep. */
  ghost predicate RegistersNone(s: State, ops: seq<Op>)
    decreases |ops|
  {
    ops != [] ==>
      && (ops[0].AwaitSleep? ==> !Registers(s.clock, ops[0].key))
      && (Next(s, ops[0]).Some? ==> RegistersNone(Next(s, ops[0]).value, ops[1..]))
  }

  lemma {:induction false} OverRun(s: State, ops: seq<Op>, t: State)
    requires Inv(s) && Over(Abs(s)) && Run(s, ops, t) && RegistersNone(s, ops)
    ensures Over(Abs(t)) && t.trace == s.trace && t.clock.now == s.clock.now
    decreases |ops|
  {
    if ops != [] {
      NextLockstep(s, ops[0]);
      OverStep(Abs(s), ops[0]);
      OverRun(Next(s, ops[0]).value, ops[1..], t);
    }
  }

  lemma OverNow(s: State)
    requires Good(s) && s.ex.finalStopped && s.frames == [] && s.clock.upcoming == map[]
    ensures Over(Abs(s))
  {
    ShutdownIsComplete(s);
  }

  /** Shutdown is absorbing: if no Sleep is registered at its end and none is registered later,
      no event of any kind is emitted, the clock stands still, and every node stays finally
      stopped, in every continuation. */
  lemma ShutdownIsAbsorbing(s: State, ops: seq<Op>, t: State)
    requires Good(s) && s.ex.finalStopped && s.frames == [] && s.clock.upcoming == map[]
    requires Run(s, ops, t) && RegistersNone(s, ops)
    ensures t.trace == s.trace && t.clock.now == s.clock.now && t.clock.upcoming == map[]
    ensures t.ex.finalStopped && forall n :: 0 <= n < |t.ex.nodes| ==> t.ex.nodes[n].level.FinalStopped?
  {
    OverNow(s);
    OverRun(s, ops, t);
    assert forall n :: 0 <= n < |t.ex.nodes| ==> Abs(t).levels[n] == t.ex.nodes[n].level;
  }

  /** From the call of `stop_simulation` on, no task is run again, even while the stop is
      still in progress and whatever destructors do. */
  lemma {:induction false} NoRunAfterStop(s: State, ops: seq<Op>, t: State)
    requires Inv(s) && s.ex.finalStopped && Run(s, ops, t)
    ensures t.ex.finalStopped
    ensures |s.trace| <= |t.trace| && t.trace[..|s.trace|] == s.trace
    ensures forall i :: |s.trace| <= i < |t.trace| ==> !t.trace[i].TaskRun? && !t.trace[i].NodeSpawned?
    decreases |ops|
  {
    if ops != [] {
      StopIsFinal(s, ops[0]);
      var m := Next(s, ops[0]).value;
      NoRunAfterStop(m, ops[1..], t);
      assert t.trace[..|s.trace|] == t.trace[..|m.trace|][..|s.trace|];
      forall i | |s.trace| <= i < |t.trace| ensures !t.trace[i].TaskRun? && !t.trace[i].NodeSpawned? {
        if i < |m.trace| { assert t.trace[i] == t.trace[..|m.trace|][i]; }
      }
    }
  }

  lemma StopIsFinal(s: State, op: Op)
    requires Inv(s) && s.ex.finalStopped && Next(s, op).Some?
    ensures var m := Next(s, op).value;
            && Inv(m) && m.ex.finalStopped
            && (m.trace == s.trace || (m.trace != [] && m.trace == Push(s.trace, Top(m.trace)) && !Top(m.trace).TaskRun? && !Top(m.trace).NodeSpawned?))
  {
    NextLockstep(s, op);
    AbsTidy(s);
    FinalStep(Abs(s), op);
  }

  lemma FinalStep(g: Eager, op: Op)
    requires Tidy(g) && g.finalStopped && ENext(g, op).Some?
    ensures var h := ENext(g, op).value;
            && h.finalStopped
            && (h.trace == g.trace || (h.trace != [] && h.trace == Push(g.trace, Top(h.trace)) && !Top(h.trace).TaskRun? && !Top(h.trace).NodeSpawned?))
  {
    match op {
      case Turn(order) => if order != [] { AdvanceShape(g, order); }
      case Return(r, drops) => ReturnShape(g, r, drops);
      case _ =>
    }
  }
}
