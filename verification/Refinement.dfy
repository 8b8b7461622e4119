/** The lazily deleting executor refines the eager one, label by label. */
module Refinement {
  import opened Types
  import opened Time
  import opened Executor
  import opened Machine
  import opened Eager
  import opened Safety

  /** The part of `q` that is in `keep`, in order. */
  function Keep(q: seq<Id>, keep: set<Id>): seq<Id> {
    if q == [] then []
    else if q[0] in keep then [q[0]] + Keep(q[1..], keep)
    else Keep(q[1..], keep)
  }

  function ReadyIds(e: Exec): set<Id> {
    set id | id in e.shared && e.shared[id].state.Ready?
  }

  function LiveTasks(e: Exec): map<Id, NodeIx> {
    map id | id in e.shared && Live(e.shared[id].state) :: e.shared[id].node
  }

  function Levels(nodes: seq<Node>): seq<Level> {
    seq(|nodes|, i requires 0 <= i < |nodes| => nodes[i].level)
  }

  function AbsFrame(f: Frame, live: set<Id>): Frame {
    if f.StopNodeFrame? then f.(todo := f.todo * live) else f
  }

  function AbsFrames(frames: seq<Frame>, live: set<Id>): seq<Frame> {
    seq(|frames|, i requires 0 <= i < |frames| => AbsFrame(frames[i], live))
  }

  /** Forget the dead: the queue keeps its READY entries, the map its live tasks. */
  function Abs(s: State): Eager {
    Eager(
      Keep(s.ex.queue, ReadyIds(s.ex)),
      LiveTasks(s.ex),
      Levels(s.ex.nodes),
      s.ex.finalStopped,
      s.ex.polling,
      s.ex.verdicts,
      s.clock,
      s.nextId,
      s.trace,
      AbsFrames(s.frames, LiveTasks(s.ex).Keys))
  }

  function AbsOutcome(r: Outcome<State>): Outcome<Eager> {
    match r case Ok(s) => Ok(Abs(s)) case Panic(f) => Panic(f)
  }

  // ----- filtering -----

  lemma {:induction false} KeepMember(q: seq<Id>, keep: set<Id>, x: Id)
    ensures x in Keep(q, keep) <==> x in q && x in keep
  {
    if q != [] {
      KeepMember(q[1..], keep, x);
      assert q == [q[0]] + q[1..];
    }
  }

  lemma {:induction false} KeepAppend(q: seq<Id>, x: Id, keep: set<Id>)
    ensures Keep(q + [x], keep) == if x in keep then Keep(q, keep) + [x] else Keep(q, keep)
  {
    if q == [] {
      assert q + [x] == [x];
    } else {
      assert (q + [x])[1..] == q[1..] + [x];
      KeepAppend(q[1..], x, keep);
    }
  }

  lemma {:induction false} KeepLess(q: seq<Id>, keep: set<Id>, x: Id)
    ensures Keep(q, keep - {x}) == Without(Keep(q, keep), x)
  {
    if q != [] {
      KeepLess(q[1..], keep, x);
      if q[0] in keep {
        assert Keep(q, keep)[1..] == Keep(q[1..], keep);
      }
    }
  }

  lemma {:induction false} KeepMore(q: seq<Id>, keep: set<Id>, x: Id)
    requires x !in q
    ensures Keep(q, keep + {x}) == Keep(q, keep)
  {
    if q != [] {
      KeepMore(q[1..], keep, x);
    }
  }

  lemma {:induction false} WithoutAbsent(q: seq<Id>, x: Id)
    requires x !in q
    ensures Without(q, x) == q
  {
    if q != [] {
      WithoutAbsent(q[1..], x);
    }
  }

  // ----- lockstep, operation by operation -----

  lemma AbsWake(s: State, id: Id)
    requires Inv(s) && id in s.ex.shared
    ensures Abs(s.(ex := Wake(s.ex, id))) == EWake(Abs(s), id)
  {
    var e, e' := s.ex, Wake(s.ex, id);
    assert TaskInv(e, id);
    KeepMember(e.queue, ReadyIds(e), id);
    if e.shared[id].state.Waiting? {
      assert ReadyIds(e') == ReadyIds(e) + {id};
      KeepAppend(e.queue, id, ReadyIds(e'));
      KeepMore(e.queue, ReadyIds(e), id);
      assert LiveTasks(e') == LiveTasks(e);
    }
  }

  lemma AbsAbort(s: State, id: Id)
    requires Inv(s)
    ensures id in s.ex.tasks ==> id in s.ex.shared
    ensures Abs(s.(ex := Abort(s.ex, id))) == EAbort(Abs(s), id)
  {
    var e := s.ex;
    assert TaskInv(e, id);
    if IsLive(e, id) {
      var e' := Abort(e, id);
      var kept := Keep(e.queue, ReadyIds(e));
      assert ReadyIds(e') == ReadyIds(e) - {id};
      KeepLess(e.queue, ReadyIds(e), id);
      KeepAppend(e.queue, id, ReadyIds(e'));
      assert Keep(e'.queue, ReadyIds(e')) == Without(kept, id);
      assert LiveTasks(e') == LiveTasks(e) - {id};
      AbsFramesLess(s.frames, LiveTasks(e).Keys, id);
    } else {
      AbortDead(e, id);
    }
  }

  lemma AbsFramesLess(frames: seq<Frame>, live: set<Id>, id: Id)
    ensures AbsFrames(frames, live - {id}) == Strike(AbsFrames(frames, live), id)
  {
    forall i | 0 <= i < |frames|
      ensures AbsFrames(frames, live - {id})[i] == Strike(AbsFrames(frames, live), id)[i]
    {
      if frames[i].StopNodeFrame? {
        assert frames[i].todo * (live - {id}) == frames[i].todo * live - {id};
      }
    }
  }

  lemma SpawnSets(e: Exec, id: Id, n: NodeIx)
    requires ExecInv(e) && n < |e.nodes| && id !in e.shared
    ensures var e' := Spawn(e, id, n);
            && ReadyIds(e') == ReadyIds(e) + {id}
            && LiveTasks(e') == LiveTasks(e)[id := n]
            && Levels(e'.nodes) == Levels(e.nodes)
            && e'.queue == e.queue + [id] && id !in e.queue
  {
    assert TaskInv(e, id);
    var e' := Spawn(e, id, n);
    assert ReadyIds(e') == ReadyIds(e) + {id};
    assert LiveTasks(e') == LiveTasks(e)[id := n];
    assert Levels(e'.nodes) == Levels(e.nodes);
  }

  lemma AbsSpawn(s: State, n: NodeIx)
    requires Inv(s) && n < |s.ex.nodes| && s.ex.nodes[n].level.Running?
    ensures AbsOutcome(Step(s, SpawnTask(n))) == EStep(Abs(s), SpawnTask(n))
  {
    var e, id := s.ex, s.nextId + 1;
    var e' := Spawn(e, id, n);
    SpawnSets(e, id, n);
    KeepAppend(e.queue, id, ReadyIds(e'));
    KeepMore(e.queue, ReadyIds(e), id);
    assert LiveTasks(e').Keys == LiveTasks(e).Keys + {id};
    FreshOutsideFrames(s, id);
  }

  lemma FreshOutsideFrames(s: State, id: Id)
    requires Inv(s) && id !in s.ex.shared
    ensures AbsFrames(s.frames, LiveTasks(s.ex).Keys + {id}) == AbsFrames(s.frames, LiveTasks(s.ex).Keys)
  {
    var live := LiveTasks(s.ex).Keys;
    forall i | 0 <= i < |s.frames| ensures AbsFrame(s.frames[i], live + {id}) == AbsFrame(s.frames[i], live) {
      assert FrameInv(s, s.frames[i]);
      if s.frames[i].StopNodeFrame? {
        assert s.frames[i].todo * (live + {id}) == s.frames[i].todo * live;
      }
    }
  }

  lemma AbsBeginStop(s: State, n: NodeIx, isFinal: bool)
    requires Inv(s) && n < |s.ex.nodes|
    ensures Abs(BeginStop(s, n, isFinal)) == EBeginStop(Abs(s), n, isFinal)
  {
    var t, h := BeginStop(s, n, isFinal), EBeginStop(Abs(s), n, isFinal);
    assert Levels(t.ex.nodes) == h.levels;
    var live := LiveTasks(s.ex).Keys;
    assert s.ex.nodes[n].tasks * live == TasksOn(Abs(s), n) by {
      forall id ensures id in s.ex.nodes[n].tasks * live <==> id in TasksOn(Abs(s), n) {
        assert TaskInv(s.ex, id);
      }
    }
    assert AbsFrames(t.frames, live) == h.frames;
  }

  lemma AbsStopVisit(s: State, id: Id)
    requires Inv(s) && Enabled(s, StopVisit(id))
    ensures Abs(Step(s, StopVisit(id)).value) == EAbort(Abs(s), id)
  {
    var t := Step(s, StopVisit(id)).value;
    AbsAbort(s, id);
    var mid := s.(ex := Abort(s.ex, id));
    assert TaskInv(s.ex, id);
    assert id !in LiveTasks(mid.ex);
    forall i | 0 <= i < |s.frames|
      ensures AbsFrame(t.frames[i], LiveTasks(mid.ex).Keys) == AbsFrame(s.frames[i], LiveTasks(mid.ex).Keys)
    {
      if s.frames[i].StopNodeFrame? {
        assert (s.frames[i].todo - {id}) * LiveTasks(mid.ex).Keys == s.frames[i].todo * LiveTasks(mid.ex).Keys;
      }
    }
    assert AbsFrames(t.frames, LiveTasks(mid.ex).Keys) == AbsFrames(s.frames, LiveTasks(mid.ex).Keys);
  }

  lemma AbsPopFrame(s: State)
    requires s.frames != []
    ensures Abs(s).frames != [] && Top(Abs(s).frames) == AbsFrame(Top(s.frames), LiveTasks(s.ex).Keys)
    ensures Abs(s.(frames := Pop(s.frames))) == Abs(s).(frames := Pop(Abs(s).frames))
  {
    assert Abs(s.(frames := Pop(s.frames))).frames == Pop(Abs(s).frames);
  }

  lemma AbsStopAllNext(s: State)
    requires Inv(s) && Enabled(s, StopAllNext)
    ensures AbsOutcome(Step(s, StopAllNext)) == EStep(Abs(s), StopAllNext)
  {
    AbsPopFrame(s);
    var f := Top(s.frames);
    var m := s.(frames := Push(Pop(s.frames), f.(next := f.next + 1)));
    assert Abs(m).frames == Push(Pop(Abs(s).frames), f.(next := f.next + 1));
    assert forall i :: 0 <= i < |m.frames| ==> FrameInv(m, m.frames[i]) by {
      forall i | 0 <= i < |m.frames| ensures FrameInv(m, m.frames[i]) { assert FrameInv(s, s.frames[i]); }
    }
    AbsBeginStop(m, f.next, true);
  }

  /** A stale pop is a stuttering step of the eager executor. */
  lemma DiscardStutters(s: State)
    requires Inv(s) && s.ex.queue != [] && s.ex.polling.None? && s.frames == []
    requires s.ex.queue[0] in s.ex.shared && !s.ex.shared[s.ex.queue[0]].state.Ready?
    ensures Discard(s.ex).Ok? && ExecInv(Discard(s.ex).value)
    ensures Abs(s.(ex := Discard(s.ex).value)) == Abs(s)
    ensures Inv(s.(ex := Discard(s.ex).value))
  {
    DiscardKeeps(s.ex);
    var e, e' := s.ex, Discard(s.ex).value;
    assert ReadyIds(e') == ReadyIds(e);
    assert LiveTasks(e') == LiveTasks(e);
    assert Levels(e'.nodes) == Levels(e.nodes);
  }

  /** The inner loop pops exactly what the eager executor's queue has in front. */
  lemma {:induction false} AbsPopReady(s: State)
    requires Inv(s) && s.ex.polling.None? && s.frames == []
    ensures PopReady(s.ex).Ok?
    ensures var (e, task) := PopReady(s.ex).value;
            var g := Abs(s);
            && (task.Some? <==> g.queue != [])
            && (task.None? ==> e.queue == [])
            && Abs(s.(ex := e)) == (if g.queue == [] then g else g.(queue := g.queue[1..], polling := Some(g.queue[0])))
            && (task.Some? ==> task.value == g.queue[0])
            && Inv(s.(ex := e))
    decreases |s.ex.queue|
  {
    var e := s.ex;
    if e.queue != [] {
      assert e.queue[0] in e.queue && TaskInv(e, e.queue[0]);
      if e.shared[e.queue[0]].state.Ready? {
        TakeReady(e);
        var e', id := PopReady(e).value.0, e.queue[0];
        assert ReadyIds(e') == ReadyIds(e) - {id};
        TailMembers(e.queue);
        KeepLess(e.queue[1..], ReadyIds(e), id);
        KeepMember(e.queue[1..], ReadyIds(e), id);
        WithoutAbsent(Keep(e.queue[1..], ReadyIds(e)), id);
        assert LiveTasks(e') == LiveTasks(e);
      } else {
        DiscardStutters(s);
        AbsPopReady(s.(ex := Discard(e).value));
      }
    }
  }

  lemma {:induction false} AbsWakeAll(s: State, ids: seq<Id>)
    requires Inv(s) && forall id :: id in ids ==> id in s.ex.shared
    ensures Abs(s.(ex := WakeAll(s.ex, ids))) == EWakeAll(Abs(s), ids)
    ensures Inv(s.(ex := WakeAll(s.ex, ids)))
    decreases |ids|
  {
    if ids != [] {
      AbsWake(s, ids[0]);
      StepSafe(s, WakeTask(ids[0]));
      AbsWakeAll(s.(ex := Wake(s.ex, ids[0])), ids[1..]);
    }
  }

  lemma AbsTurn(s: State, order: seq<SleepKey>)
    requires Inv(s) && Enabled(s, Turn(order))
    ensures AbsOutcome(Step(s, Turn(order))) == ETurn(Abs(s), order)
  {
    if !s.ex.finalStopped { AbsPopReady(s); }
    var (e, task) := NextTask(s.ex).value;
    if task.None? && order != [] {
      AdvanceExact(s.clock, order);
      assert forall i :: 0 <= i < |order| ==> order[i] in order;
      var m := s.(ex := e, clock := Advance(s.clock, order), trace := Push(s.trace, TimeAdvanced(StepSize(s.clock, order))));
      assert Inv(m);
      AbsWakeAll(m, Wakers(s.clock, order));
    }
  }

  lemma FinishedSets(e: Exec, value: int)
    requires ExecInv(e) && e.polling.Some? && e.polling.value in e.verdicts
    requires EndPollState(e, Finished(value)).Ok?
    ensures var e', id := EndPollState(e, Finished(value)).value, e.polling.value;
            && Levels(e'.nodes) == Levels(e.nodes)
            && ReadyIds(e') == ReadyIds(e) - {id}
            && LiveTasks(e') == LiveTasks(e) - {id}
  {
    EndPollStateKeeps(e, Finished(value));
    var e', id := EndPollState(e, Finished(value)).value, e.polling.value;
    assert Levels(e'.nodes) == Levels(e.nodes);
    assert ReadyIds(e') == ReadyIds(e) - {id};
    assert LiveTasks(e') == LiveTasks(e) - {id};
  }

  lemma PendingSets(e: Exec)
    requires ExecInv(e) && e.polling.Some? && e.polling.value in e.verdicts
    requires EndPollState(e, Pending).Ok?
    ensures var e' := EndPollState(e, Pending).value;
            Levels(e'.nodes) == Levels(e.nodes) && ReadyIds(e') == ReadyIds(e) && LiveTasks(e') == LiveTasks(e)
  {
    EndPollStateKeeps(e, Pending);
    var e' := EndPollState(e, Pending).value;
    assert Levels(e'.nodes) == Levels(e.nodes);
    assert ReadyIds(e') == ReadyIds(e);
    assert LiveTasks(e') == LiveTasks(e);
  }

  /** The eager executor's view of a poll that ends, before destructors run. */
  lemma AbsEndPoll(s: State, result: PollResult)
    requires Inv(s) && s.ex.polling.Some? && s.frames == []
    ensures TaskInv(s.ex, s.ex.polling.value)
    ensures EndPollState(s.ex, result).Ok?
    ensures Ok(Abs(s.(ex := EndPollState(s.ex, result).value))) == EReturn(Abs(s), result, [])
    ensures Inv(s.(ex := EndPollState(s.ex, result).value))
  {
    EndPollStateKeeps(s.ex, result);
    EndPollKeeps(s.ex, result, []);
    var e, id, e' := s.ex, s.ex.polling.value, EndPollState(s.ex, result).value;
    if result.Pending? {
      PendingSets(e);
    } else {
      FinishedSets(e, result.value);
      KeepLess(e.queue, ReadyIds(e), id);
      var g := Abs(s.(ex := e'));
      assert g.frames == Strike(Abs(s).frames, id);
      assert g == Kill(Abs(s).(polling := None), id).(verdicts := e.verdicts[id := Returned(result.value)]);
    }
  }

  lemma AbsReturn(s: State, result: PollResult, drops: seq<DropEffect>)
    requires Inv(s) && Enabled(s, Return(result, drops))
    ensures AbsOutcome(Step(s, Return(result, drops))) == EReturn(Abs(s), result, drops)
  {
    EndPollKeeps(s.ex, result, drops);
    AbsEndPoll(s, result);
    if DropsFuture(s.ex, result) && DropUsesContext !in drops {
      AbsWakeAll(s.(ex := EndPollState(s.ex, result).value), WakesOf(drops));
    }
  }

  lemma SameStopReturn(s: State)
    requires Inv(s) && s.frames != [] && Top(s.frames).StopNodeFrame?
    ensures Enabled(s, StopReturn) <==> EEnabled(Abs(s), StopReturn)
  {
    AbsPopFrame(s);
    var todo, live := Top(s.frames).todo, LiveTasks(s.ex).Keys;
    if Enabled(s, StopReturn) {
      assert todo * live == {};
    }
    if EEnabled(Abs(s), StopReturn) {
      forall id | id in todo ensures !IsLive(s.ex, id) { assert id !in todo * live; }
    }
  }

  lemma SameIds(s: State)
    requires Inv(s)
    ensures forall id :: id in s.ex.shared <==> id in s.ex.verdicts
  {
    forall id ensures id in s.ex.shared <==> id in s.ex.verdicts { assert TaskInv(s.ex, id); }
  }

  lemma SameStopLabels(s: State, op: Op)
    requires Inv(s) && (op.StopVisit? || op.StopReturn? || op.StopAllNext? || op.StopAllReturn?)
    ensures Enabled(s, op) <==> EEnabled(Abs(s), op)
  {
    if s.frames != [] {
      AbsPopFrame(s);
      if op.StopReturn? && Top(s.frames).StopNodeFrame? { SameStopReturn(s); }
    }
  }

  lemma SameLabels(s: State, op: Op)
    requires Inv(s)
    ensures Enabled(s, op) <==> EEnabled(Abs(s), op)
  {
    if op.StopVisit? || op.StopReturn? || op.StopAllNext? || op.StopAllReturn? {
      SameStopLabels(s, op);
    } else {
      SameIds(s);
    }
  }

  /** Lockstep: in every good state the two executors offer the same labels, and each
      label has the same outcome in both, panics included, up to forgetting the dead. */
  lemma Lockstep(s: State, op: Op)
    requires Inv(s)
    ensures Enabled(s, op) <==> EEnabled(Abs(s), op)
    ensures Enabled(s, op) ==> AbsOutcome(Step(s, op)) == EStep(Abs(s), op)
  {
    SameLabels(s, op);
    if Enabled(s, op) {
      match op {
        case WakeTask(id) => AbsWake(s, id);
        case SpawnTask(n) => if s.ex.nodes[n].level.Running? { AbsSpawn(s, n); }
        case AbortTask(id) => AbsAbort(s, id);
        case StopNode(n) => AbsBeginStop(s, n, false);
        case StopVisit(id) => AbsStopVisit(s, id);
        case StopReturn => AbsPopFrame(s);
        case StopAllNext => AbsStopAllNext(s);
        case StopAllReturn => AbsPopFrame(s);
        case Turn(order) => AbsTurn(s, order);
        case Return(r, drops) => AbsReturn(s, r, drops);
        case _ => LockstepRest(s, op);
      }
    }
  }

  lemma LockstepRest(s: State, op: Op)
    requires Inv(s) && Enabled(s, op) && EEnabled(Abs(s), op)
    requires op.StartNode? || op.CreateNode? || op.StopSimulation? || op.TakeIds? || op.MakeSleep? || op.AwaitSleep? || op.ForgetSleep?
    ensures AbsOutcome(Step(s, op)) == EStep(Abs(s), op)
  {
    if Step(s, op).Ok? {
      var t := Step(s, op).value;
      match op {
        case StartNode(n) => assert Levels(SetLevel(s.ex, n, Running).nodes) == Levels(s.ex.nodes)[n := Running];
        case CreateNode => assert Levels(t.ex.nodes) == Push(Levels(s.ex.nodes), Running);
        case StopSimulation => assert Abs(t).frames == Push(Abs(s).frames, StopAllFrame(0, |s.ex.nodes|));
        case _ =>
      }
    }
  }

  lemma NextLockstep(s: State, op: Op)
    requires Inv(s)
    ensures Next(s, op).Some? <==> ENext(Abs(s), op).Some?
    ensures Next(s, op).Some? ==> Inv(Next(s, op).value) && Abs(Next(s, op).value) == ENext(Abs(s), op).value
  {
    Lockstep(s, op);
    if Next(s, op).Some? { NextKeeps(s, op); }
  }

  /** Refinement over whole runs: the lazy executor performs `ops` exactly when the
      eager one does, ending in corresponding states with the same event trace and
      the same verdict for every task. */
  lemma {:induction false} Refines(s: State, ops: seq<Op>, t: State)
    requires Inv(s) && Run(s, ops, t)
    ensures ERun(Abs(s), ops, Abs(t)) && Inv(t)
    ensures Abs(t).trace == t.trace && Abs(t).verdicts == t.ex.verdicts
    decreases |ops|
  {
    if ops != [] {
      NextLockstep(s, ops[0]);
      Refines(Next(s, ops[0]).value, ops[1..], t);
    }
  }

  lemma {:induction false} Simulates(s: State, ops: seq<Op>, h: Eager) returns (t: State)
    requires Inv(s) && ERun(Abs(s), ops, h)
    ensures Run(s, ops, t) && Abs(t) == h && Inv(t)
    decreases |ops|
  {
    if ops == [] {
      t := s;
    } else {
      NextLockstep(s, ops[0]);
      t := Simulates(Next(s, ops[0]).value, ops[1..], h);
    }
  }

  /** States that differ only in their dead entries have the same future: the same
      label sequences are possible and leave the same trace and verdicts. */
  lemma SameFuture(s1: State, s2: State, ops: seq<Op>, t1: State) returns (t2: State)
    requires Inv(s1) && Inv(s2) && Abs(s1) == Abs(s2)
    requires Run(s1, ops, t1)
    ensures Run(s2, ops, t2)
    ensures t2.trace == t1.trace && t2.ex.verdicts == t1.ex.verdicts && t2.clock == t1.clock
  {
    Refines(s1, ops, t1);
    t2 := Simulates(s2, ops, Abs(t1));
  }
}
