/** The order in which a stop visits its snapshot does not matter. */
module StopOrder {
  import opened Types
  import opened Time
  import opened Executor
  import opened Machine
  import opened Safety
  import opened Refinement
  import opened Shutdown

  /** `held` names the Sleeps inside each task's future; they are unregistered when it is dropped. */
  type Holdings = map<Id, set<SleepKey>>

  function HeldBy(held: Holdings, id: Id): set<SleepKey> {
    if id in held then held[id] else {}
  }

  function DropSleeps(c: Clock, keys: set<SleepKey>): Clock {
    c.(sleeps := c.sleeps - keys, upcoming := c.upcoming - keys)
  }

  predicate EntriesKnown(e: Exec) {
    forall id :: id in e.tasks ==> id in e.shared
  }

  /** One iteration of the loop in `stop_node`: abort a task and drop the future it gives up. */
  function StopTask(s: State, id: Id, held: Holdings): (t: State)
    requires EntriesKnown(s.ex)
    ensures EntriesKnown(t.ex)
  {
    var (e, dropped) := AbortLocal(s.ex, id);
    s.(ex := e, clock := if dropped then DropSleeps(s.clock, HeldBy(held, id)) else s.clock)
  }

  /** The whole loop over the snapshot in the given order, with destructors that only
      unregister sleeps. */
  function StopTasks(s: State, order: seq<Id>, held: Holdings): State
    requires EntriesKnown(s.ex)
    decreases |order|
  {
    if order == [] then s else StopTasks(StopTask(s, order[0], held), order[1..], held)
  }

  function Members(order: seq<Id>): set<Id> {
    set id | id in order
  }

  /** The sleeps that go away: those held by members whose future is in its cell. */
  function Released(e: Exec, ids: set<Id>, held: Holdings): set<SleepKey> {
    set id, k | id in ids && id in held && id in e.tasks && e.tasks[id] && k in held[id] :: k
  }

  /** What one task looks like after a stop of `ids`: it depends on the set only. */
  ghost predicate StoppedTask(e: Exec, f: Exec, ids: set<Id>, id: Id) {
    && (id in f.shared <==> id in e.shared)
    && (id in f.tasks <==> id in e.tasks)
    && (id in f.verdicts <==> id in e.verdicts)
    && (id in e.shared ==>
          f.shared[id] == (if id in ids && Live(e.shared[id].state) then e.shared[id].(state := AbortedReady) else e.shared[id]))
    && (id in e.tasks ==> f.tasks[id] == (e.tasks[id] && id !in ids))
    && (id in e.verdicts ==>
          f.verdicts[id] == (if id in ids && id in e.tasks && e.tasks[id] then Dropped else e.verdicts[id]))
  }

  /** The state after a stop of `ids`, up to the positions of dead entries in the queue. */
  ghost predicate Stopped(s: State, t: State, ids: set<Id>, held: Holdings) {
    && t.ex.nodes == s.ex.nodes && t.ex.finalStopped == s.ex.finalStopped && t.ex.polling == s.ex.polling
    && (forall id :: StoppedTask(s.ex, t.ex, ids, id))
    && t.clock == DropSleeps(s.clock, Released(s.ex, ids, held))
    && t.nextId == s.nextId && t.trace == s.trace && t.frames == s.frames
    && Abs(t).queue == Keep(Abs(s).queue, Abs(s).live.Keys - ids)
  }

  lemma {:induction false} KeepLive(q: seq<Id>, live: set<Id>)
    requires forall x :: x in q ==> x in live
    ensures Keep(q, live) == q
  {
    if q != [] {
      assert q[0] in q;
      forall x | x in q[1..] ensures x in live { assert x in q; }
      KeepLive(q[1..], live);
    }
  }

  lemma {:induction false} KeepTwice(q: seq<Id>, a: set<Id>, b: set<Id>)
    ensures Keep(Keep(q, a), b) == Keep(q, a * b)
  {
    if q != [] {
      KeepTwice(q[1..], a, b);
      if q[0] in a { assert Keep(q, a)[1..] == Keep(q[1..], a); }
    }
  }

  lemma StopTaskInv(s: State, x: Id, held: Holdings)
    requires Inv(s)
    ensures EntriesKnown(s.ex)
    ensures Inv(StopTask(s, x, held))
  {
    forall id | id in s.ex.tasks ensures id in s.ex.shared { assert TaskInv(s.ex, id); }
    AbortKeeps(s.ex, x);
    assert TaskInv(s.ex, x);
    var t := StopTask(s, x, held);
    assert ClockInv(DropSleeps(s.clock, HeldBy(held, x)));
    SameFrames(s, t);
  }

  lemma StopTaskQueue(s: State, x: Id, held: Holdings)
    requires Inv(s)
    ensures EntriesKnown(s.ex)
    ensures Abs(StopTask(s, x, held)).queue == Keep(Abs(s).queue, Abs(s).live.Keys - {x})
  {
    StopTaskInv(s, x, held);
    AbsAbort(s, x);
    AbsTidy(s);
    var q, live := Abs(s).queue, Abs(s).live.Keys;
    KeepLive(q, live);
    KeepLess(q, live, x);
    if x !in live { assert live - {x} == live; }
  }

  lemma StopTaskEach(s: State, x: Id, held: Holdings, id: Id)
    requires Inv(s)
    ensures EntriesKnown(s.ex)
    ensures StoppedTask(s.ex, StopTask(s, x, held).ex, {x}, id)
  {
    StopTaskInv(s, x, held);
    assert TaskInv(s.ex, x) && TaskInv(s.ex, id);
  }

  lemma StopTaskClock(s: State, x: Id, held: Holdings)
    requires Inv(s)
    ensures EntriesKnown(s.ex)
    ensures StopTask(s, x, held).clock == DropSleeps(s.clock, Released(s.ex, {x}, held))
  {
    StopTaskInv(s, x, held);
    assert TaskInv(s.ex, x);
    if AbortLocal(s.ex, x).1 {
      assert Released(s.ex, {x}, held) == HeldBy(held, x);
    } else {
      assert Released(s.ex, {x}, held) == {};
      assert DropSleeps(s.clock, {}) == s.clock;
    }
  }

  lemma StopTaskExact(s: State, x: Id, held: Holdings)
    requires Inv(s)
    ensures EntriesKnown(s.ex)
    ensures Stopped(s, StopTask(s, x, held), {x}, held)
  {
    StopTaskQueue(s, x, held);
    StopTaskClock(s, x, held);
    forall id ensures StoppedTask(s.ex, StopTask(s, x, held).ex, {x}, id) { StopTaskEach(s, x, held, id); }
  }

  lemma StoppedLive(s: State, t: State, ids: set<Id>, held: Holdings)
    requires Stopped(s, t, ids, held)
    ensures Abs(t).live.Keys == Abs(s).live.Keys - ids
  {
    forall id ensures id in Abs(t).live <==> id in Abs(s).live && id !in ids {
      assert StoppedTask(s.ex, t.ex, ids, id);
    }
  }

  lemma StoppedCompose(s: State, m: State, t: State, a: set<Id>, b: set<Id>, held: Holdings)
    requires Stopped(s, m, a, held) && Stopped(m, t, b, held)
    ensures Stopped(s, t, a + b, held)
  {
    forall id ensures StoppedTask(s.ex, t.ex, a + b, id) {
      assert StoppedTask(s.ex, m.ex, a, id) && StoppedTask(m.ex, t.ex, b, id);
    }
    var r1, r2 := Released(s.ex, a, held), Released(m.ex, b, held);
    assert r1 + r2 == Released(s.ex, a + b, held) by { ReleasedUnion(s, m, a, b, held); }
    assert t.clock == DropSleeps(s.clock, r1 + r2);
    var live := Abs(s).live.Keys;
    StoppedLive(s, m, a, held);
    KeepTwice(Abs(s).queue, live - a, live - a - b);
    assert (live - a) * (live - a - b) == live - (a + b);
  }

  lemma ReleasedUnion(s: State, m: State, a: set<Id>, b: set<Id>, held: Holdings)
    requires Stopped(s, m, a, held)
    ensures Released(s.ex, a, held) + Released(m.ex, b, held) == Released(s.ex, a + b, held)
  {
    forall k ensures k in Released(s.ex, a + b, held) <==> k in Released(s.ex, a, held) || k in Released(m.ex, b, held) {
      if k in Released(s.ex, a + b, held) {
        var id :| id in a + b && id in held && id in s.ex.tasks && s.ex.tasks[id] && k in held[id];
        assert StoppedTask(s.ex, m.ex, a, id);
      }
      if k in Released(m.ex, b, held) {
        var id :| id in b && id in held && id in m.ex.tasks && m.ex.tasks[id] && k in held[id];
        assert StoppedTask(s.ex, m.ex, a, id);
      }
    }
  }

  lemma StoppedNone(s: State, held: Holdings)
    requires Inv(s)
    ensures Stopped(s, s, {}, held)
  {
    AbsTidy(s);
    KeepLive(Abs(s).queue, Abs(s).live.Keys);
    assert Abs(s).live.Keys - {} == Abs(s).live.Keys;
    assert Released(s.ex, {}, held) == {};
    assert DropSleeps(s.clock, {}) == s.clock;
  }

  lemma StoppedCons(s: State, x: Id, rest: seq<Id>, t: State, held: Holdings)
    requires Inv(s) && EntriesKnown(s.ex) && Stopped(StopTask(s, x, held), t, Members(rest), held)
    ensures Stopped(s, t, Members([x] + rest), held)
  {
    StopTaskExact(s, x, held);
    StoppedCompose(s, StopTask(s, x, held), t, {x}, Members(rest), held);
    assert Members([x] + rest) == {x} + Members(rest);
  }

  lemma {:induction false} StopTasksExact(s: State, order: seq<Id>, held: Holdings)
    requires Inv(s)
    ensures EntriesKnown(s.ex)
    ensures Inv(StopTasks(s, order, held))
    ensures Stopped(s, StopTasks(s, order, held), Members(order), held)
    decreases |order|
  {
    if order == [] {
      StopTaskInv(s, 0, held);
      StoppedNone(s, held);
      assert Members(order) == {};
    } else {
      var x, rest := order[0], order[1..];
      StopTaskInv(s, x, held);
      var m := StopTask(s, x, held);
      StopTasksExact(m, rest, held);
      var t := StopTasks(m, rest, held);
      StoppedCons(s, x, rest, t, held);
      assert order == [x] + rest && t == StopTasks(s, order, held);
    }
  }

  lemma SameStopped(s: State, t1: State, t2: State, ids: set<Id>, held: Holdings)
    requires Stopped(s, t1, ids, held) && Stopped(s, t2, ids, held)
    ensures t1.ex.shared == t2.ex.shared && t1.ex.tasks == t2.ex.tasks && t1.ex.verdicts == t2.ex.verdicts
    ensures t1.clock == t2.clock && Abs(t1) == Abs(t2)
  {
    assert t1.ex.shared == t2.ex.shared by {
      forall id ensures (id in t1.ex.shared <==> id in t2.ex.shared) && (id in t1.ex.shared ==> t1.ex.shared[id] == t2.ex.shared[id]) {
        assert StoppedTask(s.ex, t1.ex, ids, id) && StoppedTask(s.ex, t2.ex, ids, id);
      }
    }
    assert t1.ex.tasks == t2.ex.tasks by {
      forall id ensures (id in t1.ex.tasks <==> id in t2.ex.tasks) && (id in t1.ex.tasks ==> t1.ex.tasks[id] == t2.ex.tasks[id]) {
        assert StoppedTask(s.ex, t1.ex, ids, id) && StoppedTask(s.ex, t2.ex, ids, id);
      }
    }
    assert t1.ex.verdicts == t2.ex.verdicts by {
      forall id ensures (id in t1.ex.verdicts <==> id in t2.ex.verdicts) && (id in t1.ex.verdicts ==> t1.ex.verdicts[id] == t2.ex.verdicts[id]) {
        assert StoppedTask(s.ex, t1.ex, ids, id) && StoppedTask(s.ex, t2.ex, ids, id);
      }
    }
    assert LiveTasks(t1.ex) == LiveTasks(t2.ex);
  }

  /** Order independence of a stop: two orders of the same snapshot, with destructors that only
      unregister sleeps, give the same task states, map, node sets, handles and clock, and the
      same queue up to dead entries. */
  lemma StopOrderIsIrrelevant(s: State, order1: seq<Id>, order2: seq<Id>, held: Holdings)
    requires Inv(s) && Members(order1) == Members(order2)
    ensures EntriesKnown(s.ex)
    ensures var t1, t2 := StopTasks(s, order1, held), StopTasks(s, order2, held);
            && Inv(t1) && Inv(t2)
            && t1.ex.shared == t2.ex.shared && t1.ex.tasks == t2.ex.tasks && t1.ex.nodes == t2.ex.nodes
            && t1.ex.verdicts == t2.ex.verdicts && t1.clock == t2.clock
            && (forall id :: id in t1.ex.queue <==> id in t2.ex.queue)
            && Abs(t1) == Abs(t2)
  {
    StopTasksExact(s, order1, held);
    StopTasksExact(s, order2, held);
    var t1, t2 := StopTasks(s, order1, held), StopTasks(s, order2, held);
    SameStopped(s, t1, t2, Members(order1), held);
    forall id ensures id in t1.ex.queue <==> id in t2.ex.queue {
      assert TaskInv(t1.ex, id) && TaskInv(t2.ex, id);
    }
  }

  /** Hence HashSet order cannot make runs diverge: whatever happens after the stop, the same
      labels are possible and leave the same event trace and the same handles. */
  lemma StopOrderLeavesNoTrace(s: State, order1: seq<Id>, order2: seq<Id>, held: Holdings, ops: seq<Op>, u1: State)
    returns (u2: State)
    requires Inv(s) && Members(order1) == Members(order2)
    requires EntriesKnown(s.ex) && Run(StopTasks(s, order1, held), ops, u1)
    ensures Run(StopTasks(s, order2, held), ops, u2)
    ensures u2.trace == u1.trace && u2.ex.verdicts == u1.ex.verdicts && u2.clock == u1.clock
  {
    StopOrderIsIrrelevant(s, order1, order2, held);
    u2 := SameFuture(StopTasks(s, order1, held), StopTasks(s, order2, held), ops, u1);
  }

  // ----- the loop is a run of the machine -----

  lemma DropNext(c: Clock, keys: set<SleepKey>, k: SleepKey)
    requires k in keys
    ensures DropSleeps(DropSleep(c, k), keys - {k}) == DropSleeps(c, keys)
  {}

  lemma DropAbsent(c: Clock, keys: set<SleepKey>, k: SleepKey)
    requires ClockInv(c) && k in keys && k !in c.sleeps
    ensures DropSleeps(c, keys - {k}) == DropSleeps(c, keys)
  {
    assert c.sleeps - keys == c.sleeps - (keys - {k});
    assert c.upcoming - keys == c.upcoming - (keys - {k});
  }

  lemma {:induction false} ForgetAll(s: State, keys: set<SleepKey>, t: State) returns (ops: seq<Op>)
    requires Inv(s) && t == s.(clock := DropSleeps(s.clock, keys))
    ensures Run(s, ops, t) && Inv(t)
    decreases |keys|
  {
    if keys == {} {
      assert DropSleeps(s.clock, {}) == s.clock;
      ops := [];
    } else {
      var k :| k in keys;
      if k in s.clock.sleeps {
        NextKeepsForget(s, k);
        var m := s.(clock := DropSleep(s.clock, k));
        DropNext(s.clock, keys, k);
        ops := ForgetAll(m, keys - {k}, t);
        RunCons(s, ForgetSleep(k), ops, t);
        ops := [ForgetSleep(k)] + ops;
      } else {
        DropAbsent(s.clock, keys, k);
        ops := ForgetAll(s, keys - {k}, t);
      }
    }
  }

  lemma NextKeepsForget(s: State, k: SleepKey)
    requires Inv(s) && k in s.clock.sleeps
    ensures Next(s, ForgetSleep(k)) == Some(s.(clock := DropSleep(s.clock, k)))
    ensures Inv(s.(clock := DropSleep(s.clock, k)))
  {
    NextKeeps(s, ForgetSleep(k));
  }

  function WithFrame(s: State, n: NodeIx, todo: set<Id>): State {
    s.(frames := Push(s.frames, StopNodeFrame(n, todo)))
  }

  lemma VisitStep(s: State, n: NodeIx, todo: set<Id>, x: Id) returns (m: State)
    requires Inv(WithFrame(s, n, todo)) && Inv(s) && IsLive(s.ex, x) && x in todo
    ensures x in s.ex.tasks && m == WithFrame(s.(ex := Abort(s.ex, x)), n, todo - {x})
    ensures Next(WithFrame(s, n, todo), StopVisit(x)) == Some(m) && Inv(m)
  {
    assert TaskInv(s.ex, x);
    var s0 := WithFrame(s, n, todo);
    assert Pop(s0.frames) == s.frames;
    NextKeeps(s0, StopVisit(x));
    m := Next(s0, StopVisit(x)).value;
  }

  lemma VisitForgets(s: State, n: NodeIx, todo: set<Id>, x: Id, held: Holdings, m: State) returns (ops: seq<Op>)
    requires EntriesKnown(s.ex) && Inv(m) && m == WithFrame(s.(ex := Abort(s.ex, x)), n, todo - {x})
    ensures var t := WithFrame(StopTask(s, x, held), n, todo - {x}); Inv(t) && Run(m, ops, t)
  {
    var t := WithFrame(StopTask(s, x, held), n, todo - {x});
    var keys := if AbortLocal(s.ex, x).1 then HeldBy(held, x) else {};
    assert DropSleeps(s.clock, {}) == s.clock;
    ops := ForgetAll(m, keys, t);
  }

  lemma VisitLive(s: State, n: NodeIx, todo: set<Id>, x: Id, held: Holdings) returns (ops: seq<Op>)
    requires Inv(WithFrame(s, n, todo)) && Inv(s) && IsLive(s.ex, x) && x in todo
    ensures EntriesKnown(s.ex)
    ensures var t := WithFrame(StopTask(s, x, held), n, todo - {x});
            Inv(t) && Run(WithFrame(s, n, todo), ops, t)
  {
    StopTaskInv(s, x, held);
    var m := VisitStep(s, n, todo, x);
    ops := VisitForgets(s, n, todo, x, held, m);
    RunCons(WithFrame(s, n, todo), StopVisit(x), ops, WithFrame(StopTask(s, x, held), n, todo - {x}));
    ops := [StopVisit(x)] + ops;
  }

  lemma VisitOne(s: State, n: NodeIx, todo: set<Id>, x: Id, held: Holdings) returns (ops: seq<Op>, left: set<Id>)
    requires Inv(WithFrame(s, n, todo)) && Inv(s) && (IsLive(s.ex, x) ==> x in todo)
    ensures EntriesKnown(s.ex)
    ensures var t := StopTask(s, x, held);
            && Inv(t) && Inv(WithFrame(t, n, left)) && Run(WithFrame(s, n, todo), ops, WithFrame(t, n, left))
            && (forall id :: IsLive(t.ex, id) <==> IsLive(s.ex, id) && id != x)
            && todo - {x} <= left <= todo
  {
    StopTaskInv(s, x, held);
    StopTaskExact(s, x, held);
    forall id ensures IsLive(StopTask(s, x, held).ex, id) <==> IsLive(s.ex, id) && id != x {
      assert StoppedTask(s.ex, StopTask(s, x, held).ex, {x}, id);
    }
    if IsLive(s.ex, x) {
      ops := VisitLive(s, n, todo, x, held);
      left := todo - {x};
    } else {
      AbortDead(s.ex, x);
      ops, left := [], todo;
    }
  }

  /** The loop of `stop_node` over its snapshot, in any order, followed by its return, is a run
      of the machine from the state in which the stop has just begun. */
  lemma {:induction false} StopLoopIsRun(s: State, n: NodeIx, todo: set<Id>, order: seq<Id>, held: Holdings)
    returns (ops: seq<Op>)
    requires Inv(WithFrame(s, n, todo)) && Inv(s)
    requires forall id :: IsLive(s.ex, id) ==> (id in todo <==> id in order)
    ensures EntriesKnown(s.ex)
    ensures Run(WithFrame(s, n, todo), ops, StopTasks(s, order, held))
    decreases |order|
  {
    StopTaskInv(s, 0, held);
    var s0 := WithFrame(s, n, todo);
    if order == [] {
      ops := [StopReturn];
      assert Pop(s0.frames) == s.frames;
      assert Next(s0, StopReturn) == Some(s);
      RunCons(s0, StopReturn, [], s);
    } else {
      var x := order[0];
      var first, left := VisitOne(s, n, todo, x, held);
      var t := StopTask(s, x, held);
      forall id | IsLive(t.ex, id) ensures id in left <==> id in order[1..] {
        assert order == [x] + order[1..];
      }
      var rest := StopLoopIsRun(t, n, left, order[1..], held);
      RunConcat(s0, first, WithFrame(t, n, left), rest, StopTasks(s, order, held));
      ops := first + rest;
    }
  }
}
