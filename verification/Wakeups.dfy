/** No lost wakeup, with bounded fairness, and what each step may emit. */
module Wakeups {
  import opened Types
  import opened Time
  import opened Executor
  import opened Machine
  import opened Safety
  import opened Eager
  import opened Refinement
  import opened Shutdown

  /** The events one label adds to the trace. */
  ghost function Emitted(g: Eager, op: Op): seq<Event> {
    match op
    case Turn(order) =>
      if !g.finalStopped && g.queue != [] then [TaskRun(g.queue[0])]
      else if order == [] || order[0] !in g.clock.upcoming then []
      else [TimeAdvanced(StepSize(g.clock, order))]
    case SpawnTask(_) => [TaskSpawned]
    case CreateNode => [NodeSpawned(|g.levels|)]
    case _ => []
  }

  lemma StepEmits(g: Eager, op: Op)
    requires Tidy(g) && ENext(g, op).Some?
    ensures ENext(g, op).value.trace == g.trace + Emitted(g, op)
  {
    match op {
      case Turn(order) =>
        if (g.finalStopped || g.queue == []) && order != [] { AdvanceShape(g, order); }
      case Return(r, drops) => ReturnClock(g, r, drops);
      case _ =>
    }
  }

  /** How many ready tasks are queued ahead of `id`. */
  function Ahead(q: seq<Id>, id: Id): nat {
    if q == [] || q[0] == id then 0 else 1 + Ahead(q[1..], id)
  }

  function Turns(ops: seq<Op>): nat {
    if ops == [] then 0 else (if ops[0].Turn? then 1 else 0) + Turns(ops[1..])
  }

  /** The task that a label ends, other than by running it. */
  function Killed(g: Eager, op: Op): Option<Id> {
    match op
    case AbortTask(x) => Some(x)
    case StopVisit(x) => Some(x)
    case Return(r, _) => if r.Finished? then g.polling else None
    case _ => None
  }

  /** The label takes `id` itself or a task queued ahead of it out of the queue. */
  predicate KillsAhead(g: Eager, op: Op, id: Id) {
    var x := Killed(g, op);
    x.Some? && x.value in g.queue && Ahead(g.queue, x.value) <= Ahead(g.queue, id)
  }

  /** No label of the run does. */
  ghost predicate KillFree(s: State, ops: seq<Op>, id: Id)
    decreases |ops|
  {
    ops != [] ==>
      && !KillsAhead(Abs(s), ops[0], id)
      && (Next(s, ops[0]).Some? ==> KillFree(Next(s, ops[0]).value, ops[1..], id))
  }

  function Runs(id: Id, trace: seq<Event>): nat {
    if trace == [] then 0 else (if trace[0] == TaskRun(id) then 1 else 0) + Runs(id, trace[1..])
  }

  lemma {:induction false} RunsConcat(id: Id, a: seq<Event>, b: seq<Event>)
    ensures Runs(id, a + b) == Runs(id, a) + Runs(id, b)
  {
    if a == [] {
      assert a + b == b;
    } else {
      assert (a + b)[1..] == a[1..] + b;
      RunsConcat(id, a[1..], b);
    }
  }

  lemma {:induction false} AheadAppend(q: seq<Id>, x: Id, id: Id)
    requires id in q
    ensures Ahead(q + [x], id) == Ahead(q, id) && id in q + [x]
  {
    if q[0] != id {
      assert (q + [x])[1..] == q[1..] + [x];
      AheadAppend(q[1..], x, id);
    }
  }

  lemma {:induction false} AheadNew(q: seq<Id>, id: Id)
    requires id !in q
    ensures Ahead(q + [id], id) == |q|
  {
    if q == [] {
      assert q + [id] == [id];
    } else {
      assert (q + [id])[1..] == q[1..] + [id];
      AheadNew(q[1..], id);
    }
  }

  lemma {:induction false} AheadWithout(q: seq<Id>, x: Id, id: Id)
    requires id in q && x != id
    ensures id in Without(q, x) && Ahead(Without(q, x), id) <= Ahead(q, id)
  {
    if q[0] == id {
      assert Without(q, x)[0] == id;
    } else {
      AheadWithout(q[1..], x, id);
      if q[0] != x {
        assert Without(q, x)[1..] == Without(q[1..], x);
        assert Without(q, x)[0] == q[0];
      }
    }
  }

  lemma {:induction false} AheadWithoutBehind(q: seq<Id>, x: Id, id: Id)
    requires id in q && (x in q ==> Ahead(q, x) > Ahead(q, id))
    ensures id in Without(q, x) && Ahead(Without(q, x), id) == Ahead(q, id)
  {
    if q[0] == id {
      assert Without(q, x)[0] == id;
    } else {
      assert q[0] != x;
      AheadWithoutBehind(q[1..], x, id);
      assert Without(q, x)[1..] == Without(q[1..], x);
    }
  }

  lemma {:induction false} AheadWakes(g: Eager, ids: seq<Id>, id: Id)
    requires id in g.queue
    ensures id in EWakeAll(g, ids).queue && Ahead(EWakeAll(g, ids).queue, id) == Ahead(g.queue, id)
    decreases |ids|
  {
    if ids != [] {
      if ids[0] in g.live && ids[0] !in g.queue { AheadAppend(g.queue, ids[0], id); }
      AheadWakes(EWake(g, ids[0]), ids[1..], id);
    }
  }

  /** `op` runs the queued task `id` now, or it dies, or it stays queued at the same instant,
      one place further after each turn. */
  ghost predicate QueuedOn(g: Eager, op: Op, h: Eager, id: Id) {
    && h.clock.now == g.clock.now
    && (op.Turn? && Ahead(g.queue, id) == 0 ==> Emitted(g, op) == [TaskRun(id)])
    && (!(op.Turn? && Ahead(g.queue, id) == 0) ==>
          && Runs(id, Emitted(g, op)) == 0
          && (id in h.live ==>
                && id in h.queue
                && Ahead(h.queue, id) + (if op.Turn? then 1 else 0) <= Ahead(g.queue, id))
          && (!KillsAhead(g, op, id) ==>
                && id in h.live
                && Ahead(h.queue, id) + (if op.Turn? then 1 else 0) == Ahead(g.queue, id)))
    && (forall e :: e in Emitted(g, op) ==> !e.TimeAdvanced?)
  }

  lemma QueuedTurn(g: Eager, order: seq<SleepKey>, id: Id)
    requires Tidy(g) && ENext(g, Turn(order)).Some? && id in g.queue && !g.finalStopped
    ensures QueuedOn(g, Turn(order), ENext(g, Turn(order)).value, id)
  {}

  lemma QueuedAbort(g: Eager, x: Id, id: Id)
    requires Tidy(g) && id in g.queue
    ensures var h := EAbort(g, x);
            && h.clock == g.clock
            && (id in h.live ==> id in h.queue && Ahead(h.queue, id) <= Ahead(g.queue, id))
            && (x !in g.queue || Ahead(g.queue, x) > Ahead(g.queue, id) ==> id in h.live && Ahead(h.queue, id) == Ahead(g.queue, id))
  {
    if x !in g.queue || Ahead(g.queue, x) > Ahead(g.queue, id) {
      AheadWithoutBehind(g.queue, x, id);
    } else if x != id {
      AheadWithout(g.queue, x, id);
    }
  }

  lemma QueuedAborts(g: Eager, op: Op, id: Id)
    requires Tidy(g) && ENext(g, op).Some? && id in g.queue && !g.finalStopped && (op.AbortTask? || op.StopVisit?)
    ensures QueuedOn(g, op, ENext(g, op).value, id)
  {
    QueuedAbort(g, op.id, id);
  }

  lemma QueuedMore(g: Eager, op: Op, id: Id)
    requires Tidy(g) && ENext(g, op).Some? && id in g.queue && !g.finalStopped && (op.WakeTask? || op.SpawnTask?)
    ensures QueuedOn(g, op, ENext(g, op).value, id)
  {
    if op.WakeTask? { AheadWakes(g, [op.id], id); } else { AheadAppend(g.queue, g.nextId + 1, id); }
  }

  /** The labels that leave queue and tasks alone. */
  lemma QueuedRest(g: Eager, op: Op, id: Id)
    requires Tidy(g) && ENext(g, op).Some? && id in g.queue && !g.finalStopped
    requires !op.AbortTask? && !op.StopVisit? && !op.WakeTask? && !op.SpawnTask? && !op.Return? && !op.Turn?
    ensures QueuedOn(g, op, ENext(g, op).value, id)
  {
    if op.AwaitSleep? { PollSleepOne(g.clock, op.key, op.waker, op.key); }
  }

  /** One step in the life of a queued task. */
  lemma QueuedStep(g: Eager, op: Op, id: Id)
    requires Tidy(g) && ENext(g, op).Some? && id in g.queue && !g.finalStopped
    ensures QueuedOn(g, op, ENext(g, op).value, id)
  {
    match op
    case AbortTask(_) => QueuedAborts(g, op, id);
    case StopVisit(_) => QueuedAborts(g, op, id);
    case WakeTask(_) => QueuedMore(g, op, id);
    case SpawnTask(_) => QueuedMore(g, op, id);
    case Return(r, drops) => QueuedReturn(g, r, drops, id);
    case Turn(order) => QueuedTurn(g, order, id);
    case _ => QueuedRest(g, op, id);
  }

  lemma QueuedReturn(g: Eager, r: PollResult, drops: seq<DropEffect>, id: Id)
    requires Tidy(g) && EEnabled(g, Return(r, drops)) && EReturn(g, r, drops).Ok? && id in g.queue
    ensures var h := EReturn(g, r, drops).value;
            && h.clock.now == g.clock.now
            && (id in h.live ==> id in h.queue && Ahead(h.queue, id) <= Ahead(g.queue, id))
            && (!KillsAhead(g, Return(r, drops), id) ==> id in h.live && Ahead(h.queue, id) == Ahead(g.queue, id))
  {
    ReturnShape(g, r, drops);
    if r.Pending? { QueuedPending(g, drops, id); } else { QueuedFinish(g, r.value, drops, id); }
  }

  lemma QueuedPending(g: Eager, drops: seq<DropEffect>, id: Id)
    requires Tidy(g) && g.polling.Some? && EReturn(g, Pending, drops).Ok? && id in g.queue
    ensures var h := EReturn(g, Pending, drops).value; id in h.queue && Ahead(h.queue, id) == Ahead(g.queue, id)
  {
    AheadWakes(g.(polling := None, verdicts := g.verdicts[g.polling.value := Dropped]), WakesOf(drops), id);
  }

  lemma QueuedFinish(g: Eager, v: int, drops: seq<DropEffect>, id: Id)
    requires Tidy(g) && g.polling.Some? && EReturn(g, Finished(v), drops).Ok? && id in g.queue
    ensures var h, p := EReturn(g, Finished(v), drops).value, g.polling.value;
            && (p != id ==> id in h.queue && Ahead(h.queue, id) <= Ahead(g.queue, id))
            && (p !in g.queue || Ahead(g.queue, p) > Ahead(g.queue, id) ==>
                  p != id && Ahead(h.queue, id) == Ahead(g.queue, id))
  {
    var p := g.polling.value;
    var left := Kill(g.(polling := None), p).(verdicts := g.verdicts[p := Returned(v)]);
    if p !in g.queue || Ahead(g.queue, p) > Ahead(g.queue, id) {
      AheadWithoutBehind(g.queue, p, id);
      AheadWakes(left, WakesOf(drops), id);
    } else if p != id {
      AheadWithout(g.queue, p, id);
      AheadWakes(left, WakesOf(drops), id);
    }
  }

  /** A wake of a waiting task, also during its own poll, queues it last; a second wake
      changes nothing, so it cannot add a poll. */
  lemma WakeQueues(s: State, id: Id)
    requires Inv(s) && id in s.ex.shared && s.ex.shared[id].state.Waiting?
    ensures var t := s.(ex := Wake(s.ex, id));
            && Abs(t).queue == Abs(s).queue + [id]
            && Ahead(Abs(t).queue, id) == |Abs(s).queue|
            && Wake(t.ex, id) == t.ex
  {
    AbsWake(s, id);
    assert TaskInv(s.ex, id);
    KeepMember(s.ex.queue, ReadyIds(s.ex), id);
    AheadNew(Abs(s).queue, id);
  }

  /** What has happened by the time a queued task was run or died; `a` is the run from `s` to `m`,
      `gained` what the trace gained, `ahead` the number of ready tasks that were in front. */
  ghost predicate Served(s: State, id: Id, ahead: nat, a: seq<Op>, m: State, gained: seq<Event>) {
    && (forall i :: 0 <= i < |gained| ==> !gained[i].TimeAdvanced?)
    && Turns(a) <= ahead + 1
    && (|| !IsLive(m.ex, id)
        || (&& gained != [] && Top(gained) == TaskRun(id) && Runs(id, gained) == 1
            && (KillFree(s, a, id) ==> Turns(a) == ahead + 1)))
  }

  lemma ServedLater(s: State, s1: State, id: Id, ahead: nat, ahead1: nat, op: Op, a: seq<Op>, m: State,
                    emitted: seq<Event>, gained: seq<Event>)
    requires Next(s, op) == Some(s1) && Served(s1, id, ahead1, a, m, gained)
    requires Runs(id, emitted) == 0 && forall i :: 0 <= i < |emitted| ==> !emitted[i].TimeAdvanced?
    requires ahead1 + (if op.Turn? then 1 else 0) <= ahead
    requires !KillsAhead(Abs(s), op, id) ==> ahead1 + (if op.Turn? then 1 else 0) == ahead
    ensures Served(s, id, ahead, [op] + a, m, emitted + gained)
  {
    assert ([op] + a)[1..] == a;
    RunsConcat(id, emitted, gained);
  }

  lemma Regroup<T>(a: seq<T>, b: seq<T>, c: seq<T>)
    ensures (a + b) + c == a + (b + c)
  {}

  lemma ServedNow(s: State, id: Id, ahead: nat, op: Op, m: State, emitted: seq<Event>)
    requires forall i :: 0 <= i < |emitted| ==> !emitted[i].TimeAdvanced?
    requires !IsLive(m.ex, id) || (op.Turn? && ahead == 0 && emitted == [TaskRun(id)])
    ensures Served(s, id, ahead, [op], m, emitted)
  {
    assert [op][1..] == [];
    if emitted == [TaskRun(id)] { assert emitted[1..] == []; }
  }

  /** No lost wakeup: take any run from a state where `id` is ready, with more turns of
      the run loop than ready tasks ahead of it and no stop of the simulation. Some prefix
      of the run ends with the poll of `id`, or `id` died. Until then the clock stood
      still, `id` was polled only that once, and at most one turn was spent per task ahead
      of it; exactly one each if no task ahead of it was aborted or completed meanwhile. */
  lemma {:induction false} WokenTaskRuns(s: State, ops: seq<Op>, t: State, id: Id)
    returns (a: seq<Op>, m: State, gained: seq<Event>)
    requires Inv(s) && Run(s, ops, t) && id in Abs(s).queue && !t.ex.finalStopped
    requires Turns(ops) > Ahead(Abs(s).queue, id)
    ensures a <= ops && Run(s, a, m)
    ensures m.clock.now == s.clock.now && m.trace == s.trace + gained
    ensures Served(s, id, Ahead(Abs(s).queue, id), a, m, gained)
    decreases |ops|
  {
    var op, g := ops[0], Abs(s);
    var s1 := Next(s, op).value;
    NotFinalBefore(s, ops, t);
    QueuedLockstep(s, op, id);
    var emitted := Emitted(g, op);
    if (op.Turn? && Ahead(g.queue, id) == 0) || !IsLive(s1.ex, id) {
      ServedNow(s, id, Ahead(g.queue, id), op, s1, emitted);
      a, m, gained := [op], s1, emitted;
      RunCons(s, op, [], s1);
    } else {
      a, m, gained := WokenTaskRuns(s1, ops[1..], t, id);
      ServedLater(s, s1, id, Ahead(g.queue, id), Ahead(Abs(s1).queue, id), op, a, m, emitted, gained);
      RunCons(s, op, a, m);
      Regroup(s.trace, emitted, gained);
      a, gained := [op] + a, emitted + gained;
    }
  }

  lemma QueuedLockstep(s: State, op: Op, id: Id)
    requires Inv(s) && Next(s, op).Some? && id in Abs(s).queue && !s.ex.finalStopped
    ensures var s1, emitted := Next(s, op).value, Emitted(Abs(s), op);
            var q, q1, turn := Abs(s).queue, Abs(s1).queue, if op.Turn? then 1 else 0;
            && Inv(s1) && s1.trace == s.trace + emitted && s1.clock.now == s.clock.now
            && (forall i :: 0 <= i < |emitted| ==> !emitted[i].TimeAdvanced?)
            && (if op.Turn? && Ahead(q, id) == 0 then emitted == [TaskRun(id)]
                else
                  && Runs(id, emitted) == 0
                  && (IsLive(s1.ex, id) ==> id in q1 && Ahead(q1, id) + turn <= Ahead(q, id))
                  && (!KillsAhead(Abs(s), op, id) ==> Ahead(q1, id) + turn == Ahead(q, id)))
  {
    NextLockstep(s, op);
    AbsTidy(s);
    StepEmits(Abs(s), op);
    QueuedStep(Abs(s), op, id);
    var emitted := Emitted(Abs(s), op);
    forall i | 0 <= i < |emitted| ensures !emitted[i].TimeAdvanced? { assert emitted[i] in emitted; }
  }

  lemma {:induction false} NotFinalBefore(s: State, ops: seq<Op>, t: State)
    requires Inv(s) && Run(s, ops, t) && !t.ex.finalStopped
    ensures !s.ex.finalStopped
    decreases |ops|
  {
    if ops != [] {
      NextKeeps(s, ops[0]);
      NotFinalBefore(Next(s, ops[0]).value, ops[1..], t);
      if s.ex.finalStopped { StopIsFinal(s, ops[0]); }
    }
  }
}
