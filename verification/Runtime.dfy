/** The runtime as the source writes it: one context whose fields are updated in place
    (src/executor.rs, src/time.rs, src/node_id.rs). Every method is a run of the machine, so
    every theorem about runs is about these methods; the source's assertions are `assert`s
    that the verifier discharges. */
module Runtime {
  import opened Types
  import opened Time
  import opened Executor
  import opened Machine
  import opened Refinement
  import opened Shutdown
  import opened Wakeups
  import opened Timing
  import opened Outcomes

  lemma {:induction false} WakeAllLast(e: Exec, ids: seq<Id>, x: Id)
    requires (forall id :: id in ids ==> id in e.shared) && x in e.shared
    ensures WakeAll(e, ids + [x]) == Wake(WakeAll(e, ids), x)
    decreases |ids|
  {
    if ids == [] {
      assert ids + [x] == [x];
    } else {
      assert (ids + [x])[1..] == ids[1..] + [x];
      WakeAllLast(Wake(e, ids[0]), ids[1..], x);
    }
  }

  lemma {:induction false} WakersLast(c: Clock, order: seq<SleepKey>, k: SleepKey)
    requires AllSleeping(c, order + [k]) && AllSleeping(c, order)
    requires k in c.sleeps && c.sleeps[k].Sleeping?
    ensures Wakers(c, order + [k]) == Wakers(c, order) + [c.sleeps[k].waker]
  {
    if order == [] {
      assert order + [k] == [k];
    } else {
      assert (order + [k])[1..] == order[1..] + [k];
      WakersLast(c, order[1..], k);
    }
  }

  /** Executor and clock after popping one due entry and waking its task. */
  function PopEvent(e: Exec, c: Clock, k: SleepKey): (Exec, Clock)
    requires k in c.upcoming && k in c.sleeps && c.sleeps[k].Sleeping? && c.sleeps[k].waker in e.shared
  {
    (Wake(e, c.sleeps[k].waker), c.(upcoming := c.upcoming - {k}, sleeps := c.sleeps[k := Done(c.upcoming[k])]))
  }

  /** What the popping loop has reached after `order`. */
  ghost predicate Popped(e: Exec, c: Clock, order: seq<SleepKey>, f: Exec, d: Clock) {
    && AllSleeping(c, order)
    && (forall id :: id in Wakers(c, order) ==> id in e.shared)
    && f == WakeAll(e, Wakers(c, order))
    && d == Marked(c, order)
  }

  /** The clock after `order` has been popped. */
  function Marked(c: Clock, order: seq<SleepKey>): Clock
    requires AllSleeping(c, order)
  {
    c.(upcoming := c.upcoming - ToSet(order),
       sleeps := map k | k in c.sleeps :: if k in ToSet(order) then Done(c.upcoming[k]) else c.sleeps[k])
  }

  lemma MarkedStep(c: Clock, order: seq<SleepKey>, k: SleepKey)
    requires AllSleeping(c, order) && k in c.upcoming && k in c.sleeps && c.sleeps[k].Sleeping? && k !in order
    ensures AllSleeping(c, order + [k])
    ensures var d := Marked(c, order);
            && k in d.upcoming && k in d.sleeps && d.sleeps[k] == c.sleeps[k] && d.upcoming[k] == c.upcoming[k]
            && Marked(c, order + [k]) == d.(upcoming := d.upcoming - {k}, sleeps := d.sleeps[k := Done(c.upcoming[k])])
  {
    assert ToSet(order + [k]) == ToSet(order) + {k};
    var d, d' := Marked(c, order), Marked(c, order + [k]);
    assert d'.upcoming == d.upcoming - {k};
    assert d'.sleeps == d.sleeps[k := Done(c.upcoming[k])];
  }

  lemma MinusOne(m: map<SleepKey, Instant>, k: SleepKey)
    requires k in m
    ensures |m - {k}| == |m| - 1
  {
    MinusSize(m, {k});
  }

  /** The invariant of the popping loop. */
  ghost predicate DueSoFar(e: Exec, c: Clock, order: seq<SleepKey>, f: Exec, d: Clock) {
    && NoDuplicates(order)
    && (forall k :: k in order ==> k in c.upcoming && c.upcoming[k] <= c.now)
    && Popped(e, c, order, f, d)
  }

  lemma AllDue(e: Exec, c: Clock, order: seq<SleepKey>, f: Exec, d: Clock)
    requires DueSoFar(e, c, order, f, d)
    requires !exists k :: k in d.upcoming && d.upcoming[k] <= d.now
    ensures forall k :: k in order <==> k in c.upcoming && c.upcoming[k] <= c.now
  {
    forall k | k in c.upcoming && c.upcoming[k] <= c.now ensures k in order {
      assert k !in d.upcoming;
    }
  }

  lemma PopStep(e: Exec, c: Clock, order: seq<SleepKey>, f: Exec, d: Clock, k: SleepKey)
    requires DueSoFar(e, c, order, f, d) && k in d.upcoming && d.upcoming[k] <= d.now
    requires k in c.upcoming ==> k in c.sleeps && c.sleeps[k].Sleeping? && c.sleeps[k].waker in e.shared
    ensures k in c.upcoming && k !in order && k in d.sleeps && d.sleeps[k] == c.sleeps[k]
    ensures d.upcoming[k] == c.upcoming[k] && f.shared.Keys == e.shared.Keys
    ensures DueSoFar(e, c, order + [k], PopEvent(f, d, k).0, PopEvent(f, d, k).1)
  {
    assert k !in ToSet(order);
    MarkedStep(c, order, k);
    WakersLast(c, order, k);
    WakeAllLast(e, Wakers(c, order), c.sleeps[k].waker);
  }

  lemma OrderIsComplete(c: Clock, order: seq<SleepKey>, next: Instant, first: SleepKey)
    requires IsNext(c, first) && c.upcoming[first] == next && NoDuplicates(order)
    requires forall k :: k in order ==> k in c.upcoming && c.upcoming[k] == next
    requires forall k :: k in c.upcoming && k !in order ==> c.upcoming[k] > next
    ensures IsWakeOrder(c, order) && order != [] && c.upcoming[order[0]] == next
  {
    assert first in order;
    forall k ensures k in order <==> IsNext(c, k) {}
    assert order[0] in order;
  }

  /** Executor and clock after `wait_until_next_future_ready` has advanced the time. */
  ghost predicate Waited(e: Exec, c: Clock, order: seq<SleepKey>, f: Exec, d: Clock) {
    && order != [] && IsWakeOrder(c, order) && AllSleeping(c, order)
    && (forall id :: id in Wakers(c, order) ==> id in e.shared)
    && f == WakeAll(e, Wakers(c, order))
    && d == Advance(c, order)
  }

  lemma PoppedIsWaited(e: Exec, c: Clock, c1: Clock, first: SleepKey, order: seq<SleepKey>, f: Exec, d: Clock)
    requires IsNext(c, first)
    requires c1 == c.(now := c.upcoming[first], time := c.time + Since(c.upcoming[first], c.now))
    requires DueSoFar(e, c1, order, f, d) && forall k :: k in order <==> k in c1.upcoming && c1.upcoming[k] <= c1.now
    ensures Waited(e, c, order, f, d)
  {
    OrderIsComplete(c, order, c1.now, first);
    assert forall i :: 0 <= i < |order| ==> Wakers(c, order)[i] == Wakers(c1, order)[i];
    assert Wakers(c, order) == Wakers(c1, order);
  }

  lemma {:induction false} SharedGrows(s: State, ops: seq<Op>, t: State)
    requires Inv(s) && Run(s, ops, t)
    ensures forall id :: id in s.ex.shared ==> id in t.ex.shared
    decreases |ops|
  {
    if ops != [] {
      NextLockstep(s, ops[0]);
      AbsTidy(s);
      var m := Next(s, ops[0]).value;
      forall id | id in s.ex.shared ensures id in m.ex.shared {
        assert TaskInv(s.ex, id) && TaskInv(m.ex, id);
        OutcomeStep(Abs(s), ops[0], id);
      }
      SharedGrows(m, ops[1..], t);
    }
  }

  lemma DeadAll(s: State, ops: seq<Op>, t: State)
    requires Inv(s) && Run(s, ops, t)
    ensures forall id :: id in s.ex.shared && !IsLive(s.ex, id) ==> id in t.ex.shared && !IsLive(t.ex, id)
  {
    forall id | id in s.ex.shared && !IsLive(s.ex, id) ensures id in t.ex.shared && !IsLive(t.ex, id) {
      DeadStill(s, ops, t, id);
    }
  }

  lemma StillDead(s: State, ops: seq<Op>, t: State)
    requires Inv(s) && Run(s, ops, t)
    ensures forall id :: id in s.ex.shared ==> id in t.ex.shared && (!IsLive(s.ex, id) ==> !IsLive(t.ex, id))
  {
    DeadAll(s, ops, t);
    SharedGrows(s, ops, t);
  }

  lemma RunLast(s: State, ops: seq<Op>, m: State, op: Op, t: State)
    requires Run(s, ops, m) && Next(m, op) == Some(t)
    ensures Run(s, ops + [op], t)
  {
    RunCons(m, op, [], t);
    RunConcat(s, ops, m, [op], t);
  }

  lemma Extend(s: State, ops: seq<Op>, m: State, op: Op, t: State)
    requires Good(m) && Run(s, ops, m) && Next(m, op) == Some(t)
    ensures Good(t) && Run(s, ops + [op], t)
  {
    NextGood(m, op);
    RunLast(s, ops, m, op, t);
  }

  /** A turn that runs a task. */
  lemma TurnRuns(s: State, order: seq<SleepKey>, e: Exec, id: Id)
    requires Good(s) && s.ex.polling.None? && s.frames == [] && IsWakeOrder(s.clock, order)
    requires NextTask(s.ex) == Ok((e, Some(id)))
    ensures Next(s, Turn(order)) == Some(s.(ex := e, trace := s.trace + [TaskRun(id)]))
  {}

  /** The turn that leaves the loop. */
  lemma TurnIdles(s: State, e: Exec)
    requires Good(s) && s.ex.polling.None? && s.frames == [] && s.clock.upcoming == map[]
    requires NextTask(s.ex) == Ok((e, None))
    ensures Next(s, Turn([])) == Some(s.(ex := e))
    ensures e.queue == [] || e.finalStopped
  {
    assert IsWakeOrder(s.clock, []);
    if !s.ex.finalStopped { AbsPopReady(s); }
  }

  /** What `wait_until_next_future_ready` needs. */
  lemma CanWait(s: State)
    requires Good(s) && s.ex.polling.None? && s.frames == []
    ensures NextTask(s.ex).Ok? && (NextTask(s.ex).value.1.None? ==> NextTask(s.ex).value.0.polling.None?)
    ensures ClockInv(s.clock)
    ensures forall k :: k in s.clock.sleeps && s.clock.sleeps[k].Sleeping? ==> s.clock.sleeps[k].waker in NextTask(s.ex).value.0.shared
  {
    NextTaskKeeps(s);
  }

  /** A turn that advances the clock. */
  lemma TurnWaits(s: State, e: Exec, order: seq<SleepKey>, f: Exec, d: Clock)
    requires Good(s) && s.ex.polling.None? && s.frames == []
    requires NextTask(s.ex) == Ok((e, None)) && Waited(e, s.clock, order, f, d)
    ensures Next(s, Turn(order)) ==
            Some(s.(ex := f, clock := d, trace := Push(s.trace, TimeAdvanced(Since(d.now, s.clock.now)))))
  {
    assert order[0] in order;
  }

  lemma NextTaskKeeps(s: State)
    requires Good(s) && s.ex.polling.None? && s.frames == []
    ensures NextTask(s.ex).Ok? && NextTask(s.ex).value.0.shared.Keys == s.ex.shared.Keys
    ensures NextTask(s.ex).value.1.None? ==> NextTask(s.ex).value.0.polling.None?
    ensures NextTask(s.ex).value.1.Some? ==> NextTask(s.ex).value.0.polling == NextTask(s.ex).value.1
  {
    if !s.ex.finalStopped { AbsPopReady(s); }
  }

  // ----- what code performs -----

  /** Not a label of the run loop. */
  predicate IsCode(op: Op) {
    !op.Turn? && !op.Return?
  }

  predicate OnlyCode(ops: seq<Op>) {
    forall op :: op in ops ==> IsCode(op)
  }

  /** A run without labels of the run loop. */
  ghost predicate CodeRun(s: State, ops: seq<Op>, t: State) {
    OnlyCode(ops) && Run(s, ops, t)
  }

  lemma CodeConcat(s: State, a: seq<Op>, m: State, b: seq<Op>, t: State)
    requires CodeRun(s, a, m) && CodeRun(m, b, t)
    ensures CodeRun(s, a + b, t)
  {
    RunConcat(s, a, m, b, t);
  }

  lemma CodeExtend(s: State, ops: seq<Op>, m: State, op: Op, t: State)
    requires Good(m) && CodeRun(s, ops, m) && Next(m, op) == Some(t) && IsCode(op)
    ensures Good(t) && CodeRun(s, ops + [op], t)
  {
    Extend(s, ops, m, op, t);
  }

  lemma CodeOne(s: State, op: Op, t: State)
    requires Good(s) && Next(s, op) == Some(t) && IsCode(op)
    ensures Good(t) && CodeRun(s, [op], t)
  {
    CodeExtend(s, [], s, op, t);
    assert [] + [op] == [op];
  }

  predicate IsStop(op: Op) {
    op.StopNode? || op.StopSimulation?
  }

  predicate OfTask(op: Op) {
    op.WakeTask? || op.SpawnTask? || op.AbortTask?
  }

  predicate OfNode(op: Op) {
    op.StartNode? || op.CreateNode? || op.TakeIds?
  }

  predicate OfSleep(op: Op) {
    op.MakeSleep? || op.AwaitSleep? || op.ForgetSleep?
  }

  /** A label of user code that is not a stop. */
  predicate IsPlain(op: Op) {
    OfTask(op) || OfNode(op) || OfSleep(op)
  }

  /** A label of user code; the others are those of stops in progress and of the run loop. */
  predicate IsUser(op: Op) {
    IsPlain(op) || IsStop(op)
  }

  /** Code can perform `a`: it names things that exist and does not panic, and a stop is not nested
      too deeply. */
  ghost predicate Playable(s: State, a: Op, depth: nat) {
    IsUser(a) && Next(s, a).Some? && (IsStop(a) ==> depth > 0)
  }

  /** The labels of performing `a`: `a` itself, and for a stop what follows until it returns. What
      cannot be performed is left out. */
  ghost predicate Plays(s: State, a: Op, depth: nat, ops: seq<Op>, t: State) {
    && CodeRun(s, ops, t) && t.frames == s.frames
    && (if Playable(s, a, depth) then ops != [] && ops[0] == a && (!IsStop(a) ==> ops == [a]) else ops == [])
  }

  lemma PlaysPlain(s: State, a: Op, depth: nat, done: bool, t: State)
    requires Good(s) && !IsStop(a) && (done <==> IsPlain(a) && Next(s, a).Some?) && t.frames == s.frames
    requires if done then Next(s, a) == Some(t) else t == s
    ensures Good(t) && Plays(s, a, depth, if done then [a] else [], t)
  {
    if done { CodeOne(s, a, t); }
  }

  /** Those of performing `actions`, one after the other. */
  ghost predicate Played(s: State, actions: seq<Op>, depth: nat, ops: seq<Op>, t: State)
    decreases |actions|
  {
    if actions == [] then ops == [] && s == t
    else exists a, m, b :: Played(s, Pop(actions), depth, a, m) && Plays(m, Top(actions), depth, b, t) && ops == a + b
  }

  lemma PlayedNext(s: State, actions: seq<Op>, i: nat, depth: nat, a: seq<Op>, m: State, b: seq<Op>, t: State)
    requires i < |actions| && Played(s, actions[..i], depth, a, m) && Plays(m, actions[i], depth, b, t)
    ensures Played(s, actions[..i + 1], depth, a + b, t)
  {
    assert Pop(actions[..i + 1]) == actions[..i] && Top(actions[..i + 1]) == actions[i];
  }

  // ----- rounds of the run loop -----

  /** What a task does in its poll, how it ends, and whom its future wakes if it is dropped then. */
  datatype Round = Round(code: seq<Op>, result: PollResult, wakes: seq<Id>)

  ghost function Known(s: State, wakes: seq<Id>): seq<Id> {
    if forall id :: id in wakes ==> id in s.ex.shared then wakes else []
  }

  /** The labels of a poll. */
  ghost predicate Polled(s: State, round: Round, depth: nat, ops: seq<Op>, t: State) {
    && ops != []
    && exists m :: Played(s, round.code, depth, Pop(ops), m) && Top(ops) == Return(round.result, DropWakes(Known(m, round.wakes)))
  }

  /** The labels of one round: one turn and, if it takes a task, the poll of that task. */
  ghost predicate TakesTurn(s: State, round: Round, depth: nat, ops: seq<Op>, t: State) {
    && Run(s, ops, t) && ops != [] && ops[0].Turn?
    && Next(s, ops[0]).Some?
    && var m := Next(s, ops[0]).value;
       if m.ex.polling.Some? then Polled(m, round, depth, ops[1..], t) else ops[1..] == []
  }

  lemma {:induction false} CodeHasNoTurns(ops: seq<Op>)
    requires OnlyCode(ops)
    ensures Turns(ops) == 0
  {
    if ops != [] {
      assert ops[0] in ops;
      CodeHasNoTurns(ops[1..]);
    }
  }

  lemma {:induction false} TurnsConcat(a: seq<Op>, b: seq<Op>)
    ensures Turns(a + b) == Turns(a) + Turns(b)
  {
    if a == [] {
      assert a + b == b;
    } else {
      assert (a + b)[1..] == a[1..] + b;
      TurnsConcat(a[1..], b);
    }
  }

  lemma {:induction false} PlayedIsCode(s: State, actions: seq<Op>, depth: nat, ops: seq<Op>, t: State)
    requires Played(s, actions, depth, ops, t)
    ensures CodeRun(s, ops, t) && t.frames == s.frames
    decreases |actions|
  {
    if actions != [] {
      var a, m, b :| Played(s, Pop(actions), depth, a, m) && Plays(m, Top(actions), depth, b, t) && ops == a + b;
      PlayedIsCode(s, Pop(actions), depth, a, m);
      CodeConcat(s, a, m, b, t);
    }
  }

  lemma {:induction false} TraceGrows(s: State, ops: seq<Op>, t: State)
    requires Inv(s) && Run(s, ops, t)
    ensures s.trace <= t.trace
    decreases |ops|
  {
    if ops != [] {
      NextLockstep(s, ops[0]);
      AbsTidy(s);
      StepEmits(Abs(s), ops[0]);
      TraceGrows(Next(s, ops[0]).value, ops[1..], t);
    }
  }

  /** A round is one turn. It runs the task at the head of the queue if one is ready; otherwise it
      advances the time if a Sleep is registered; otherwise it does nothing. */
  ghost predicate RoundRan(s: State, ops: seq<Op>, t: State) {
    && Turns(ops) == 1
    && if HasReady(s) then Abs(s).queue != [] && s.trace + [TaskRun(Abs(s).queue[0])] <= t.trace
       else if s.clock.upcoming != map[] then
         t.clock.now > s.clock.now && t.trace == s.trace + [TimeAdvanced(t.clock.now - s.clock.now)]
       else t.trace == s.trace && t.clock == s.clock
  }

  lemma PollHasNoTurns(s: State, round: Round, depth: nat, ops: seq<Op>, t: State)
    requires Polled(s, round, depth, ops, t)
    ensures Turns(ops) == 0
  {
    var m :| Played(s, round.code, depth, Pop(ops), m) && Top(ops) == Return(round.result, DropWakes(Known(m, round.wakes)));
    PlayedIsCode(s, round.code, depth, Pop(ops), m);
    CodeThenReturn(Pop(ops), Top(ops));
    assert Pop(ops) + [Top(ops)] == ops;
  }

  lemma CodeThenReturn(code: seq<Op>, last: Op)
    requires OnlyCode(code) && last.Return?
    ensures Turns(code + [last]) == 0
  {
    CodeHasNoTurns(code);
    TurnsConcat(code, [last]);
  }

  /** A turn without a poll. */
  lemma IdleTurn(s: State, round: Round, depth: nat, order: seq<SleepKey>, t: State)
    requires Good(s) && Next(s, Turn(order)) == Some(t) && t.ex.polling.None?
    ensures Good(t) && TakesTurn(s, round, depth, [Turn(order)], t)
  {
    Extend(s, [], s, Turn(order), t);
    assert [] + [Turn(order)] == [Turn(order)];
  }

  /** A turn with the poll it begins. */
  lemma RunTurn(s: State, round: Round, depth: nat, order: seq<SleepKey>, m: State, poll: seq<Op>, t: State)
    requires Next(s, Turn(order)) == Some(m) && m.ex.polling.Some?
    requires Run(m, poll, t) && Polled(m, round, depth, poll, t)
    ensures TakesTurn(s, round, depth, [Turn(order)] + poll, t)
  {
    RunCons(s, Turn(order), poll, t);
    assert ([Turn(order)] + poll)[1..] == poll;
  }

  lemma PolledBy(s: State, round: Round, depth: nat, code: seq<Op>, m: State, t: State)
    requires CodeRun(s, code, m) && Played(s, round.code, depth, code, m)
    requires Next(m, Return(round.result, DropWakes(Known(m, round.wakes)))) == Some(t)
    ensures var ops := code + [Return(round.result, DropWakes(Known(m, round.wakes)))];
            Run(s, ops, t) && Polled(s, round, depth, ops, t)
  {
    var last := Return(round.result, DropWakes(Known(m, round.wakes)));
    RunLast(s, code, m, last, t);
    assert Pop(code + [last]) == code;
  }

  lemma OneTurn(s: State, round: Round, depth: nat, ops: seq<Op>, t: State)
    requires TakesTurn(s, round, depth, ops, t)
    ensures Turns(ops) == 1
  {
    var m := Next(s, ops[0]).value;
    if m.ex.polling.Some? { PollHasNoTurns(m, round, depth, ops[1..], t); }
  }

  lemma RoundIsATurn(s: State, round: Round, depth: nat, ops: seq<Op>, t: State)
    requires Good(s) && TakesTurn(s, round, depth, ops, t)
    ensures RoundRan(s, ops, t) && (Next(s, ops[0]).value.ex.polling.Some? <==> HasReady(s))
  {
    OneTurn(s, round, depth, ops, t);
    TurnChooses(s, ops[0].order);
    TurnPolls(s, ops[0].order);
    RoundTrace(s, ops, t);
  }

  lemma RoundTrace(s: State, ops: seq<Op>, t: State)
    requires Good(s) && Run(s, ops, t) && ops != []
    ensures Next(s, ops[0]).Some? && Next(s, ops[0]).value.trace <= t.trace
    ensures ops[1..] == [] ==> t == Next(s, ops[0]).value
  {
    NextGood(s, ops[0]);
    TraceGrows(Next(s, ops[0]).value, ops[1..], t);
  }

  /** A turn begins a poll iff a task is ready. */
  lemma TurnPolls(s: State, order: seq<SleepKey>)
    requires Good(s) && Next(s, Turn(order)).Some?
    ensures Next(s, Turn(order)).value.ex.polling.Some? <==> HasReady(s)
  {
    TurnChooses(s, order);
    NextTaskKeeps(s);
    var t := Next(s, Turn(order)).value;
    var (e, task) := NextTask(s.ex).value;
    if task.None? && order != [] {
      WakeAllStable(e, Wakers(s.clock, order));
    }
    if task.Some? { assert t.trace == s.trace + [TaskRun(task.value)]; }
    if task.None? { assert order == [] ==> t.trace == s.trace; }
  }

  lemma StopSimulationBegins(s: State, t: State)
    requires Good(s)
    requires t == s.(ex := s.ex.(finalStopped := true), frames := Push(s.frames, StopAllFrame(0, |s.ex.nodes|)))
    ensures Good(t) && CodeRun(s, [StopSimulation], t)
  {
    assert Next(s, StopSimulation) == Some(t);
    CodeOne(s, StopSimulation, t);
  }

  lemma StopReturns(s: State)
    requires Good(s) && s.frames != []
    requires Top(s.frames).StopNodeFrame? ==> forall id :: id in Top(s.frames).todo ==> !IsLive(s.ex, id)
    requires Top(s.frames).StopAllFrame? ==> Top(s.frames).next == Top(s.frames).count
    ensures Next(s, if Top(s.frames).StopNodeFrame? then StopReturn else StopAllReturn) == Some(s.(frames := Pop(s.frames)))
  {}

  /** The state after a stop visited a task, before the destructor of its future. */
  function Visited(s: State, id: Id): State
    requires s.frames != [] && Top(s.frames).StopNodeFrame? && (id in s.ex.tasks ==> id in s.ex.shared)
  {
    if IsLive(s.ex, id) then
      s.(ex := Abort(s.ex, id), frames := Push(Pop(s.frames), Top(s.frames).(todo := Top(s.frames).todo - {id})))
    else s
  }

  lemma VisitIsRun(s: State, id: Id) returns (ops: seq<Op>)
    requires Good(s) && s.frames != [] && Top(s.frames).StopNodeFrame? && id in Top(s.frames).todo
    ensures id in s.ex.tasks ==> id in s.ex.shared
    ensures Good(Visited(s, id)) && CodeRun(s, ops, Visited(s, id))
    ensures id in Visited(s, id).ex.shared && !IsLive(Visited(s, id).ex, id)
    ensures !IsLive(s.ex, id) ==> AbortLocal(s.ex, id) == (s.ex, false)
  {
    assert FrameInv(s, s.frames[|s.frames| - 1]);
    assert TaskInv(s.ex, id);
    ops := [];
    if IsLive(s.ex, id) {
      CodeOne(s, StopVisit(id), Visited(s, id));
      ops := [StopVisit(id)];
    } else {
      AbortDead(s.ex, id);
    }
  }

  lemma DeadStill(s: State, ops: seq<Op>, t: State, id: Id)
    requires Inv(s) && Run(s, ops, t) && id in s.ex.shared && !IsLive(s.ex, id)
    ensures id in t.ex.shared && !IsLive(t.ex, id)
  {
    var gained := DeadStaysDead(s, ops, t, id);
  }

  lemma PollReturns(s: State, result: PollResult, drops: seq<DropEffect>, wakes: seq<Id>, t: State)
    requires Inv(s) && s.ex.polling.Some? && s.frames == []
    requires drops == DropWakes(wakes) && forall id :: id in wakes ==> id in s.ex.shared
    requires s.ex.polling.value in s.ex.shared && s.ex.polling.value in s.ex.verdicts && EndPollState(s.ex, result).Ok?
    requires t.clock == s.clock && t.nextId == s.nextId && t.trace == s.trace && t.frames == s.frames
    requires t.ex == (if DropsFuture(s.ex, result) then WakeAll(EndPollState(s.ex, result).value, wakes)
                      else EndPollState(s.ex, result).value)
    ensures Next(s, Return(result, drops)) == Some(t)
  {
    EndPollKeeps(s.ex, result, drops);
    assert Enabled(s, Return(result, drops));
  }

  /** The state after a poll, put together from `FinishPoll`. */
  lemma PollReturned(s: State, result: PollResult, drops: seq<DropEffect>, wakes: seq<Id>, t: State)
    requires Good(s) && s.ex.polling.Some? && s.frames == []
    requires drops == DropWakes(wakes) && forall id :: id in wakes ==> id in s.ex.shared
    requires s.ex.polling.value in s.ex.shared && s.ex.polling.value in s.ex.verdicts && EndPollState(s.ex, result).Ok?
    requires t.clock == s.clock && t.nextId == s.nextId && t.trace == s.trace && t.frames == s.frames
    requires t.ex == (if DropsFuture(s.ex, result) then WakeAll(EndPollState(s.ex, result).value, wakes)
                      else EndPollState(s.ex, result).value)
    ensures Next(s, Return(result, drops)) == Some(t) && Good(t) && Run(s, [Return(result, drops)], t)
  {
    PollReturns(s, result, drops, wakes, t);
    Extend(s, [], s, Return(result, drops), t);
    assert [] + [Return(result, drops)] == [Return(result, drops)];
  }

  class Context {
    // ExecutorQueue
    var readyQueue: seq<Id>
    // Executor
    var shared: map<Id, Shared>
    var tasks: map<Id, bool>
    var nodes: seq<Node>
    var finalStopped: bool
    var polling: Option<Id>
    var verdicts: map<Id, Verdict>
    // TimeScheduler and the time cell
    var now: Instant
    var time: Instant
    var upcoming: map<SleepKey, Instant>
    var sleeps: map<SleepKey, SleepState>
    var deadlines: map<SleepKey, Instant>  // history, not in the source
    // id counter, recorded events
    var preNextGlobalId: nat
    var recordedEvents: seq<Event>
    // the active calls of stop_node and stop_simulation
    ghost var frames: seq<Frame>

    ghost function Ex(): Exec
      reads this
    {
      Exec(readyQueue, shared, tasks, nodes, finalStopped, polling, verdicts)
    }

    ghost function Clk(): Clock
      reads this
    {
      Clock(now, time, upcoming, sleeps, deadlines)
    }

    ghost function View(): State
      reads this
    {
      State(Ex(), Clk(), preNextGlobalId, recordedEvents, frames)
    }

    ghost predicate Valid()
      reads this
    {
      Good(View())
    }

    constructor (start: Instant)
      ensures View() == Start(start) && Valid()
    {
      readyQueue, shared, tasks, nodes := [], map[], map[], [Node(Running, {})];
      finalStopped, polling, verdicts := false, None, map[];
      now, time, upcoming, sleeps, deadlines := start, start, map[], map[], map[];
      preNextGlobalId, recordedEvents, frames := 0, [], [];
      new;
      StartGood(start);
    }

    /** `TaskShared::wake_by_ref` */
    method WakeByRef(id: Id)
      requires id in shared
      modifies this`readyQueue, this`shared
      ensures Ex() == Wake(old(Ex()), id)
    {
      if shared[id].state.Waiting? {
        shared := shared[id := shared[id].(state := Ready)];
        readyQueue := readyQueue + [id];
      }
    }

    /** `spawn_task_on_node` and `Executor::spawn` on a running node. */
    method SpawnTaskOnNode(n: NodeIx) returns (id: Id)
      requires n < |nodes| && nodes[n].level.Running?
      modifies this`readyQueue, this`shared, this`tasks, this`verdicts, this`nodes, this`preNextGlobalId, this`recordedEvents
      ensures id == preNextGlobalId == old(preNextGlobalId) + 1
      ensures Ex() == Spawn(old(Ex()), id, n)
      ensures recordedEvents == old(recordedEvents) + [TaskSpawned]
    {
      recordedEvents := recordedEvents + [TaskSpawned];
      id := preNextGlobalId + 1;
      preNextGlobalId := id;
      shared := shared[id := Shared(Waiting, n)];
      tasks := tasks[id := true];
      verdicts := verdicts[id := Undecided];
      nodes := nodes[n := nodes[n].(tasks := nodes[n].tasks + {id})];
      WakeByRef(id);
    }

    /** `remove_task_entry`; its three assertions hold whenever the run loop calls it. */
    method RemoveTaskEntry(id: Id)
      requires RemoveEntry(Ex(), id).Ok?
      modifies this`tasks, this`nodes
      ensures Ok(Ex()) == RemoveEntry(old(Ex()), id)
    {
      assert id in tasks;
      assert !tasks[id];
      tasks := tasks - {id};
      var n := shared[id].node;
      assert id in nodes[n].tasks;
      nodes := nodes[n := nodes[n].(tasks := nodes[n].tasks - {id})];
    }

    /** Its use: the entry of a finished or aborted task, just popped from the queue, is discarded. */
    method DiscardHead(ghost e: Exec, id: Id, state: TaskState)
      requires ExecInv(e) && e.polling.None? && e.queue != [] && e.queue[0] == id && Ex() == e.(queue := e.queue[1..])
      requires id in shared
      requires (shared[id].state, state) == (CompleteReady, Complete) || (shared[id].state, state) == (AbortedReady, Aborted)
      modifies this`shared, this`tasks, this`nodes
      ensures ExecInv(Ex()) && PopReady(Ex()) == PopReady(e)
    {
      DiscardKeeps(e);
      shared := shared[id := shared[id].(state := state)];
      RemoveTaskEntry(id);
      assert Discard(e) == Ok(Ex());
    }

    /** The ready task, just popped from the queue, is about to be run: its future leaves its cell. */
    method TakeHead(ghost e: Exec, id: Id)
      requires ExecInv(e) && e.polling.None? && e.queue != [] && e.queue[0] == id && Ex() == e.(queue := e.queue[1..])
      requires id in shared && shared[id].state.Ready?
      modifies this`shared, this`tasks, this`polling, this`recordedEvents
      ensures PopReady(e) == Ok((Ex(), Some(id))) && recordedEvents == old(recordedEvents) + [TaskRun(id)]
    {
      TakeReady(e);
      assert id in tasks && tasks[id];
      tasks := tasks[id := false];
      recordedEvents := recordedEvents + [TaskRun(id)];
      shared := shared[id := shared[id].(state := Waiting)];
      polling := Some(id);
    }

    /** The closure at the head of the outer loop of `run_current_context`: discard dead
        entries until a ready task is found, and take its future out of its cell. */
    method TakeNextTask() returns (task: Option<Id>)
      requires Inv(View()) && polling.None?
      modifies this`readyQueue, this`tasks, this`nodes, this`shared, this`polling, this`recordedEvents
      ensures NextTask(old(Ex())) == Ok((Ex(), task))
      ensures recordedEvents == (if task.Some? then old(recordedEvents) + [TaskRun(task.value)] else old(recordedEvents))
    {
      if finalStopped {
        return None;
      }
      while readyQueue != []
        invariant ExecInv(Ex()) && polling.None?
        invariant PopReady(Ex()) == PopReady(old(Ex()))
        invariant recordedEvents == old(recordedEvents)
        decreases |readyQueue|
      {
        ghost var e := Ex();
        var id := readyQueue[0];
        assert id in e.queue && TaskInv(e, id);
        readyQueue := readyQueue[1..];
        assert id in tasks;
        match shared[id].state {
          case Ready =>
            TakeHead(e, id);
            return Some(id);
          case CompleteReady => DiscardHead(e, id, Complete);
          case AbortedReady => DiscardHead(e, id, Aborted);
          case _ =>
            assert false;
        }
      }
      return None;
    }

    /** `PriorityQueue::peek`: some entry of least priority. */
    method PeekUpcoming() returns (k: SleepKey)
      requires upcoming != map[]
      ensures IsNext(Clk(), k)
    {
      ghost var m := SomeMinimum(Clk(), upcoming.Keys);
      k :| k in upcoming && forall j :: j in upcoming ==> upcoming[k] <= upcoming[j];
    }

    /** One round of the loop at the end of `wait_until_next_future_ready`. */
    method PopOne(k: SleepKey)
      requires k in upcoming && k in sleeps && sleeps[k].Sleeping? && sleeps[k].waker in shared
      modifies this`upcoming, this`sleeps, this`readyQueue, this`shared
      ensures (Ex(), Clk()) == PopEvent(old(Ex()), old(Clk()), k)
    {
      var waker := sleeps[k].waker;
      sleeps := sleeps[k := Done(upcoming[k])];
      upcoming := upcoming - {k};
      WakeByRef(waker);
    }

    /** That loop: pop every entry that is due. */
    method PopDue(ghost e: Exec, ghost c: Clock) returns (ghost order: seq<SleepKey>)
      requires Ex() == e && Clk() == c
      requires forall k :: k in c.upcoming ==> k in c.sleeps && c.sleeps[k].Sleeping? && c.sleeps[k].waker in e.shared
      modifies this`upcoming, this`sleeps, this`readyQueue, this`shared
      ensures forall k :: k in order <==> k in c.upcoming && c.upcoming[k] <= c.now
      ensures DueSoFar(e, c, order, Ex(), Clk())
    {
      order := [];
      ghost var f, d := e, c;
      while exists k :: k in upcoming && upcoming[k] <= now
        invariant Ex() == f && Clk() == d
        invariant DueSoFar(e, c, order, f, d)
        decreases |d.upcoming|
      {
        var k :| k in upcoming && upcoming[k] <= now;
        PopStep(e, c, order, f, d, k);
        MinusOne(d.upcoming, k);
        PopOne(k);
        f, d := PopEvent(f, d, k).0, PopEvent(f, d, k).1;
        order := order + [k];
      }
      AllDue(e, c, order, f, d);
    }

    /** `wait_until_next_future_ready`: move to the earliest deadline and pop what is due. */
    method WaitUntilNextFutureReady() returns (advanced: bool, ghost order: seq<SleepKey>)
      requires ClockInv(Clk()) && forall k :: k in sleeps && sleeps[k].Sleeping? ==> sleeps[k].waker in shared
      modifies this`upcoming, this`sleeps, this`now, this`time, this`recordedEvents, this`readyQueue, this`shared
      ensures advanced <==> old(upcoming) != map[]
      ensures !advanced ==> order == [] && View() == old(View())
      ensures advanced ==>
                && Waited(old(Ex()), old(Clk()), order, Ex(), Clk())
                && recordedEvents == Push(old(recordedEvents), TimeAdvanced(Since(now, old(now))))
    {
      if upcoming == map[] {
        return false, [];
      }
      ghost var c := Clk();
      var first := PeekUpcoming();
      var next := upcoming[first];
      var dt := Since(next, now);
      recordedEvents := recordedEvents + [TimeAdvanced(dt)];
      time := time + dt;
      now := next;
      ghost var e, c1 := Ex(), Clk();
      order := PopDue(e, c1);
      PoppedIsWaited(e, c, c1, first, order, Ex(), Clk());
      return true, order;
    }

    /** `abort_local`; true when the caller receives the future and must drop it. */
    method AbortLocally(id: Id) returns (dropped: bool)
      requires id in tasks ==> id in shared
      modifies this`readyQueue, this`shared, this`tasks, this`verdicts
      ensures (Ex(), dropped) == AbortLocal(old(Ex()), id)
    {
      if id !in tasks {
        return false;
      }
      match shared[id].state {
        case Ready =>
          shared := shared[id := shared[id].(state := AbortedReady)];
        case Waiting =>
          shared := shared[id := shared[id].(state := AbortedReady)];
          readyQueue := readyQueue + [id];
        case _ =>
          return false;
      }
      dropped := tasks[id];
      tasks := tasks[id := false];
      if dropped {
        verdicts := verdicts[id := Dropped];
      }
    }

    /** `Sleep::poll`, except for the panic on a Sleep that was ready at its first poll. */
    method PollSleepAt(k: SleepKey, w: Id) returns (ready: Option<Instant>)
      requires k in sleeps && !sleeps[k].Taken?
      modifies this`sleeps, this`upcoming
      ensures PollSleep(old(Clk()), k, w) == Ok((Clk(), ready))
    {
      match sleeps[k] {
        case Init(d) =>
          if now >= d {
            sleeps := sleeps[k := Taken];
            ready := Some(d);
          } else {
            sleeps := sleeps[k := Sleeping(w)];
            upcoming := upcoming[k := d];
            ready := None;
          }
        case Sleeping(_) =>
          sleeps := sleeps[k := Sleeping(w)];
          ready := None;
        case Done(t) =>
          ready := Some(t);
      }
    }

    /** The wakes of a destructor that runs while the run loop holds the context. */
    method WakeEach(ids: seq<Id>)
      requires forall id :: id in ids ==> id in shared
      modifies this`readyQueue, this`shared
      ensures Ex() == WakeAll(old(Ex()), ids)
    {
      var i := 0;
      while i < |ids|
        invariant 0 <= i <= |ids|
        invariant Ex() == WakeAll(old(Ex()), ids[..i])
      {
        WakeAllLast(old(Ex()), ids[..i], ids[i]);
        assert ids[..i] + [ids[i]] == ids[..i + 1];
        WakeByRef(ids[i]);
        i := i + 1;
      }
      assert ids[..i] == ids;
    }

    /** What `run_current_context` does after `Task::run` returned; `wakes` are the wakes the
        future's destructor performs, if the future is dropped here. */
    method FinishPoll(result: PollResult, wakes: seq<Id>)
      requires ExecInv(Ex()) && polling.Some?
      requires forall id :: id in wakes ==> id in shared
      modifies this`readyQueue, this`shared, this`tasks, this`nodes, this`polling, this`verdicts
      ensures polling.None?
      ensures old(polling.value in shared && polling.value in verdicts)
      ensures EndPollState(old(Ex()), result).Ok?
      ensures Ex() == (if DropsFuture(old(Ex()), result) then WakeAll(EndPollState(old(Ex()), result).value, wakes)
                       else EndPollState(old(Ex()), result).value)
    {
      var id := polling.value;
      EndPollStateKeeps(Ex(), result);
      polling := None;
      match result {
        case Pending =>
          match shared[id].state {
            case AbortedReady =>
              verdicts := verdicts[id := Dropped];
              WakeEach(wakes);
            case Waiting =>
              assert id in tasks && !tasks[id];
              tasks := tasks[id := true];
            case Ready =>
              assert id in tasks && !tasks[id];
              tasks := tasks[id := true];
            case _ =>
              assert false;
          }
        case Finished(v) =>
          assert verdicts[id].Undecided?;
          verdicts := verdicts[id := Returned(v)];
          match shared[id].state {
            case Waiting =>
              shared := shared[id := shared[id].(state := Complete)];
              RemoveTaskEntry(id);
            case Ready =>
              shared := shared[id := shared[id].(state := CompleteReady)];
            case AbortedReady =>
              shared := shared[id := shared[id].(state := CompleteReady)];
            case _ =>
              assert false;
          }
          WakeEach(wakes);
      }
    }

    // ----- user code -----

    method PerformSleep(op: Op) returns (done: bool)
      requires OfSleep(op)
      modifies this`sleeps, this`deadlines, this`upcoming
      ensures done <==> Next(old(View()), op).Some?
      ensures if done then Next(old(View()), op) == Some(View()) else View() == old(View())
    {
      match op {
        case MakeSleep(k, d) =>
          done := k !in deadlines;
          if done { sleeps, deadlines := sleeps[k := Init(d)], deadlines[k := d]; }
        case AwaitSleep(k, w) =>
          done := k in sleeps && w in shared && !sleeps[k].Taken?;
          if done { var _ := PollSleepAt(k, w); }
        case ForgetSleep(k) =>
          done := k in sleeps;
          if done { sleeps, upcoming := sleeps - {k}, upcoming - {k}; }
      }
    }

    method PerformNode(op: Op) returns (done: bool)
      requires OfNode(op)
      modifies this`nodes, this`recordedEvents, this`preNextGlobalId
      ensures done <==> Next(old(View()), op).Some?
      ensures if done then Next(old(View()), op) == Some(View()) else View() == old(View())
    {
      match op {
        case StartNode(n) =>
          done := n < |nodes| && !nodes[n].level.FinalStopped?;
          if done && nodes[n].level.Stopped? { nodes := nodes[n := nodes[n].(level := Running)]; }
        case CreateNode =>
          done := !finalStopped;
          if done {
            recordedEvents := recordedEvents + [NodeSpawned(|nodes|)];
            nodes := nodes + [Node(Running, {})];
          }
        case TakeIds(n) =>
          done := true;
          preNextGlobalId := preNextGlobalId + n;
      }
    }

    method PerformTask(op: Op) returns (done: bool)
      requires Inv(View()) && OfTask(op)
      modifies this`readyQueue, this`shared, this`tasks, this`verdicts, this`nodes, this`preNextGlobalId, this`recordedEvents
      ensures done <==> Next(old(View()), op).Some?
      ensures if done then Next(old(View()), op) == Some(View()) else View() == old(View())
    {
      match op {
        case WakeTask(id) =>
          done := id in shared;
          if done { WakeByRef(id); }
        case SpawnTask(n) =>
          done := n < |nodes| && nodes[n].level.Running?;
          if done { var _ := SpawnTaskOnNode(n); }
        case AbortTask(id) =>
          assert TaskInv(Ex(), id);
          done := id in shared;
          if done { var _ := AbortLocally(id); }
      }
    }

    /** One action of user code other than a stop. False when the source would panic or the
        label names something that does not exist; such executions do not continue. */
    method Perform(op: Op) returns (done: bool)
      requires Inv(View())
      modifies this
      ensures frames == old(frames) && polling == old(polling) && time == old(time)
      ensures done <==> IsPlain(op) && Next(old(View()), op).Some?
      ensures if done then Next(old(View()), op) == Some(View()) else View() == old(View())
    {
      if OfTask(op) {
        done := PerformTask(op);
      } else if OfNode(op) {
        done := PerformNode(op);
      } else if OfSleep(op) {
        done := PerformSleep(op);
      } else {
        done := false;
      }
    }

    /** Any one action of user code, if it can be performed; `depth` bounds the nesting of stops. */
    method PerformAny(action: Op, depth: nat) returns (ghost ops: seq<Op>)
      requires Good(View())
      modifies this
      ensures Good(View()) && Plays(old(View()), action, depth, ops, View())
      ensures polling == old(polling) && time == old(time)
      decreases depth, 1
    {
      ops := [];
      if action.StopNode? {
        if depth > 0 && action.node < |nodes| { ops := StopNodeNow(action.node, depth - 1); }
      } else if action.StopSimulation? {
        if depth > 0 { ops := StopSimulationNow(depth - 1); }
      } else {
        ghost var s := View();
        var done := Perform(action);
        PlaysPlain(s, action, depth, done, View());
        ops := if done then [action] else [];
      }
    }

    /** User code: a poll, a destructor or a simulator callback. It performs the given actions, as
        far as they can be performed, and may stop nodes or the simulation, whose destructors are
        arbitrary user code again; `depth` bounds that nesting. */
    method UserCode(actions: seq<Op>, depth: nat) returns (ghost ops: seq<Op>)
      requires Good(View())
      modifies this
      ensures Good(View()) && CodeRun(old(View()), ops, View()) && Played(old(View()), actions, depth, ops, View())
      ensures frames == old(frames) && polling == old(polling) && time == old(time)
      decreases depth, 2
    {
      ops := [];
      ghost var s := View();
      var i := 0;
      while i < |actions|
        invariant 0 <= i <= |actions| && Good(View())
        invariant CodeRun(s, ops, View()) && Played(s, actions[..i], depth, ops, View())
        invariant frames == s.frames && polling == s.ex.polling && time == s.clock.time
      {
        ghost var m := View();
        ghost var more := PerformAny(actions[i], depth);
        PlayedNext(s, actions, i, depth, ops, m, more, View());
        CodeConcat(s, ops, m, more, View());
        ops := ops + more;
        i := i + 1;
      }
      assert actions[..i] == actions;
    }

    /** `stop_node` up to its snapshot: true if the node was running and its tasks must go. */
    method MarkStopped(n: NodeIx, isFinal: bool) returns (wasRunning: bool)
      requires n < |nodes|
      modifies this`nodes, this`frames
      ensures View() == BeginStop(old(View()), n, isFinal)
      ensures wasRunning == old(nodes[n].level.Running?)
    {
      wasRunning := nodes[n].level.Running?;
      if wasRunning {
        frames := Push(frames, StopNodeFrame(n, nodes[n].tasks));
        nodes := nodes[n := nodes[n].(level := if isFinal then FinalStopped else Stopped)];
      } else if isFinal {
        nodes := nodes[n := nodes[n].(level := FinalStopped)];
      }
    }

    /** The borrow of one iteration of the loop in `stop_node`. */
    method AbortVisited(id: Id) returns (dropped: bool)
      requires Good(View()) && frames != [] && Top(frames).StopNodeFrame? && (id in tasks ==> id in shared)
      requires id in shared && (!IsLive(Ex(), id) ==> AbortLocal(Ex(), id) == (Ex(), false))
      modifies this`readyQueue, this`shared, this`tasks, this`verdicts, this`frames
      ensures View() == Visited(old(View()), id)
    {
      frames := Visited(View(), id).frames;
      dropped := AbortLocally(id);
    }

    /** One iteration of the loop in `stop_node`: abort a task of the snapshot, and drop the
        future outside the borrow. */
    method VisitTask(id: Id, depth: nat) returns (ghost ops: seq<Op>)
      requires Good(View()) && frames != [] && Top(frames).StopNodeFrame? && id in Top(frames).todo
      modifies this
      ensures Good(View()) && CodeRun(old(View()), ops, View())
      ensures old(id in tasks ==> id in shared) && frames == Visited(old(View()), id).frames
      ensures polling == old(polling) && time == old(time) && !IsLive(Ex(), id)
      decreases depth, 3
    {
      ghost var s := View();
      ops := VisitIsRun(s, id);
      ghost var m := Visited(s, id);
      var dropped := AbortVisited(id);
      if dropped {
        var destructor: seq<Op> := *;
        ghost var more := UserCode(destructor, depth);
        CodeConcat(s, ops, m, more, View());
        DeadStill(m, more, View(), id);
        ops := ops + more;
      }
    }

    /** The return of `stop_node`'s loop, or of `stop_simulation`. */
    method LeaveStop(ghost s: State, ghost before: seq<Op>) returns (ghost ops: seq<Op>)
      requires Good(View()) && CodeRun(s, before, View()) && frames != []
      requires Top(frames).StopNodeFrame? ==> forall id :: id in Top(frames).todo ==> !IsLive(Ex(), id)
      requires Top(frames).StopAllFrame? ==> Top(frames).next == Top(frames).count
      modifies this`frames
      ensures Good(View()) && CodeRun(s, ops, View()) && View() == old(View()).(frames := Pop(old(frames)))
      ensures before <= ops
    {
      ghost var m := View();
      StopReturns(m);
      ghost var op := if Top(frames).StopNodeFrame? then StopReturn else StopAllReturn;
      frames := Pop(frames);
      CodeExtend(s, before, m, op, View());
      ops := before + [op];
    }

    /** The loop of `stop_node` over its snapshot in arbitrary order. */
    method AbortAll(snapshot: set<Id>, depth: nat) returns (ghost ops: seq<Op>)
      requires Good(View()) && frames != [] && Top(frames).StopNodeFrame? && Top(frames).todo == snapshot
      modifies this
      ensures Good(View()) && CodeRun(old(View()), ops, View())
      ensures frames != [] && frames == Push(Pop(old(frames)), Top(frames)) && Top(frames).StopNodeFrame? && Top(frames).todo <= snapshot
      ensures polling == old(polling) && time == old(time)
      ensures forall id :: id in snapshot ==> id in shared && !IsLive(Ex(), id)
      decreases depth, 4
    {
      ghost var s := View();
      ghost var cur := s;
      assert FrameInv(s, s.frames[|s.frames| - 1]);
      ops := [];
      var todo := snapshot;
      while todo != {}
        invariant View() == cur && Good(cur) && CodeRun(s, ops, cur)
        invariant cur.frames != [] && cur.frames == Push(Pop(s.frames), Top(cur.frames)) && Top(cur.frames).StopNodeFrame?
        invariant todo <= Top(cur.frames).todo <= snapshot && cur.ex.polling == s.ex.polling && cur.clock.time == s.clock.time
        invariant forall id :: id in snapshot ==> id in cur.ex.shared && (id in todo || !IsLive(cur.ex, id))
        decreases todo
      {
        var id :| id in todo;
        ghost var more := VisitTask(id, depth);
        StillDead(cur, more, View());
        CodeConcat(s, ops, cur, more, View());
        ops := ops + more;
        todo := todo - {id};
        cur := View();
      }
    }

    /** That loop, its return, and the simulators' `stop_node` callbacks. Afterwards no task of the
        snapshot is live. */
    method DrainStop(snapshot: set<Id>, depth: nat) returns (ghost ops: seq<Op>)
      requires Good(View()) && frames != [] && Top(frames).StopNodeFrame? && Top(frames).todo == snapshot
      modifies this
      ensures Good(View()) && CodeRun(old(View()), ops, View())
      ensures frames == Pop(old(frames)) && polling == old(polling) && time == old(time)
      ensures forall id :: id in snapshot ==> !IsLive(Ex(), id)
      decreases depth, 5
    {
      ghost var s := View();
      ops := AbortAll(snapshot, depth);
      ops := LeaveStop(s, ops);
      ghost var m := View();
      var code: seq<Op> := *;
      ghost var callbacks := UserCode(code, depth);
      StillDead(m, callbacks, View());
      CodeConcat(s, ops, m, callbacks, View());
      ops := ops + callbacks;
    }

    /** `NodeId::stop`. If the node was running, none of its tasks survives. */
    method StopNodeNow(n: NodeIx, depth: nat) returns (ghost ops: seq<Op>)
      requires Good(View()) && n < |nodes|
      modifies this
      ensures Good(View()) && CodeRun(old(View()), ops, View())
      ensures frames == old(frames) && polling == old(polling) && time == old(time)
      ensures ops != [] && ops[0] == StopNode(n)
      ensures old(nodes[n].level.Running?) ==> forall id :: id in old(nodes[n].tasks) ==> !IsLive(Ex(), id)
      decreases depth, 6
    {
      ghost var s := View();
      var wasRunning := MarkStopped(n, false);
      assert Next(s, StopNode(n)) == Some(View());
      CodeOne(s, StopNode(n), View());
      ops := [StopNode(n)];
      if wasRunning {
        ghost var m := View();
        ghost var more := DrainStop(nodes[n].tasks, depth);
        CodeConcat(s, ops, m, more, View());
        ops := ops + more;
      }
    }

    /** `stop_simulation` */
    method StopSimulationNow(depth: nat) returns (ghost ops: seq<Op>)
      requires Good(View())
      modifies this
      ensures Good(View()) && CodeRun(old(View()), ops, View()) && finalStopped
      ensures ops != [] && ops[0] == StopSimulation
      ensures frames == old(frames) && polling == old(polling) && time == old(time)
      decreases depth, 8
    {
      ghost var s := View();
      finalStopped := true;
      var count := |nodes|;
      frames := Push(frames, StopAllFrame(0, count));
      ghost var m := View();
      StopSimulationBegins(s, m);
      ops := [StopSimulation];
      ghost var more := StopEachNode(count, depth);
      CodeConcat(s, ops, m, more, View());
      ops := LeaveStop(s, ops + more);
      assert frames == old(frames);
    }

    /** The loop of `stop_simulation`. */
    method StopEachNode(count: nat, depth: nat) returns (ghost ops: seq<Op>)
      requires Good(View()) && finalStopped && frames != [] && Top(frames) == StopAllFrame(0, count)
      modifies this
      ensures Good(View()) && CodeRun(old(View()), ops, View()) && finalStopped
      ensures frames == Push(Pop(old(frames)), StopAllFrame(count, count)) && Top(frames) == StopAllFrame(count, count)
      ensures polling == old(polling) && time == old(time)
      decreases depth, 7
    {
      ghost var s := View();
      ops := [];
      var i := 0;
      while i < count
        invariant 0 <= i <= count && Good(View()) && CodeRun(s, ops, View()) && finalStopped
        invariant frames == Push(Pop(s.frames), StopAllFrame(i, count))
        invariant polling == s.ex.polling && time == s.clock.time
      {
        ghost var m := View();
        ghost var more := StopNextNode(i, count, depth);
        CodeConcat(s, ops, m, more, View());
        ops := ops + more;
        i := i + 1;
      }
    }

    /** One iteration of `stop_simulation`: `stop_node(node, true)`. */
    method StopNextNode(i: NodeIx, count: nat, depth: nat) returns (ghost ops: seq<Op>)
      requires Good(View()) && finalStopped && frames != [] && Top(frames) == StopAllFrame(i, count) && i < count
      modifies this
      ensures Good(View()) && CodeRun(old(View()), ops, View()) && finalStopped
      ensures frames == Push(Pop(old(frames)), StopAllFrame(i + 1, count)) && polling == old(polling)
      ensures time == old(time)
      decreases depth, 6
    {
      ghost var s := View();
      assert FrameInv(s, s.frames[|s.frames| - 1]);
      frames := Push(Pop(frames), StopAllFrame(i + 1, count));
      var wasRunning := MarkStopped(i, true);
      assert Next(s, StopAllNext) == Some(View());
      CodeOne(s, StopAllNext, View());
      ops := [StopAllNext];
      if wasRunning {
        ghost var m := View();
        ghost var more := DrainStop(nodes[i].tasks, depth);
        NoRunAfterStop(m, more, View());
        CodeConcat(s, ops, m, more, View());
        ops := ops + more;
      }
    }

    // ----- the run loop -----

    /** One round of `run_current_context`: a poll of the next ready task, or an advance of
        the clock, or nothing, in which case the loop is left. `round` is what a task does. */
    method RunOnce(round: Round, depth: nat) returns (ranOn: bool, ghost ops: seq<Op>)
      requires Good(View()) && polling.None? && frames == []
      modifies this
      ensures Good(View()) && polling.None? && frames == []
      ensures TakesTurn(old(View()), round, depth, ops, View())
      ensures RoundRan(old(View()), ops, View())
      ensures ranOn <==> HasReady(old(View())) || old(upcoming) != map[]
      ensures !ranOn ==> upcoming == map[] && (readyQueue == [] || finalStopped)
    {
      ghost var s := View();
      NextTaskKeeps(s);
      var task := TakeNextTask();
      ghost var order;
      if task.None? {
        ranOn, order := AdvanceOrLeave(s);
        ops := [Turn(order)];
        IdleTurn(s, round, depth, order, View());
      } else {
        ops := RunTaken(s, task.value, round, depth);
        ranOn := true;
      }
      RoundIsATurn(s, round, depth, ops, View());
    }

    /** A turn that runs task `id`, taken in state `s`, with its poll. */
    method RunTaken(ghost s: State, id: Id, round: Round, depth: nat) returns (ghost ops: seq<Op>)
      requires Good(s) && s.ex.polling.None? && s.frames == [] && NextTask(s.ex) == Ok((Ex(), Some(id)))
      requires View() == s.(ex := Ex(), trace := s.trace + [TaskRun(id)]) && polling.Some?
      modifies this
      ensures Good(View()) && polling.None? && frames == [] && TakesTurn(s, round, depth, ops, View())
      ensures Next(s, ops[0]).value.ex.polling.Some?
    {
      ghost var order := WakeOrderExists(s.clock);
      TurnRuns(s, order, Ex(), id);
      ghost var m := View();
      NextGood(s, Turn(order));
      ghost var more := PollTask(round, depth);
      RunTurn(s, round, depth, order, m, more, View());
      ops := [Turn(order)] + more;
    }

    /** The else-branch of the outer loop, after no task was found in state `s`. */
    method AdvanceOrLeave(ghost s: State) returns (ranOn: bool, ghost order: seq<SleepKey>)
      requires Good(s) && s.ex.polling.None? && s.frames == []
      requires NextTask(s.ex) == Ok((Ex(), None)) && View() == s.(ex := Ex())
      modifies this`upcoming, this`sleeps, this`now, this`time, this`recordedEvents, this`readyQueue, this`shared
      ensures Next(s, Turn(order)) == Some(View())
      ensures ranOn <==> s.clock.upcoming != map[]
      ensures !ranOn ==> upcoming == map[] && (readyQueue == [] || finalStopped)
    {
      ghost var e := Ex();
      CanWait(s);
      ranOn, order := WaitUntilNextFutureReady();
      if ranOn { TurnWaits(s, e, order, Ex(), Clk()); } else { TurnIdles(s, e); }
    }

    /** `Task::run` and what follows it: arbitrary user code with an arbitrary result. */
    method PollTask(round: Round, depth: nat) returns (ghost ops: seq<Op>)
      requires Good(View()) && polling.Some? && frames == []
      modifies this
      ensures Good(View()) && polling.None? && frames == []
      ensures Run(old(View()), ops, View()) && Polled(old(View()), round, depth, ops, View())
    {
      ghost var s := View();
      ghost var code := UserCode(round.code, depth);
      ghost var m := View();
      EndTask(round.result, round.wakes);
      PolledBy(s, round, depth, code, m, View());
      ops := code + [Return(round.result, DropWakes(Known(m, round.wakes)))];
    }

    /** The end of a poll. */
    method EndTask(result: PollResult, wakes: seq<Id>)
      requires Good(View()) && polling.Some? && frames == []
      modifies this`readyQueue, this`shared, this`tasks, this`nodes, this`polling, this`verdicts
      ensures Good(View()) && polling.None?
      ensures Next(old(View()), Return(result, DropWakes(Known(old(View()), wakes)))) == Some(View())
    {
      ghost var m := View();
      var known := wakes;
      if exists id :: id in known && id !in shared { known := []; }
      FinishPoll(result, known);
      PollReturned(m, result, DropWakes(known), known, View());
    }

    /** `run_current_context`, observed for at most as many rounds as given. Whatever user code does,
        each round is one turn of the machine and, but for the one that leaves the loop, runs a
        task or advances the time. The loop is left only when nothing is registered to wait for
        and nothing is ready or the simulation was stopped. */
    method RunCurrentContext(rounds: seq<Round>, depth: nat) returns (exited: bool, ghost ops: seq<Op>)
      requires Good(View()) && polling.None? && frames == []
      modifies this
      ensures Good(View()) && polling.None? && frames == []
      ensures Run(old(View()), ops, View())
      ensures if exited then 1 <= Turns(ops) <= |rounds| else Turns(ops) == |rounds|
      ensures |recordedEvents| >= |old(recordedEvents)| + Turns(ops) - (if exited then 1 else 0)
      ensures exited ==> upcoming == map[] && (readyQueue == [] || finalStopped)
    {
      ghost var s := View();
      ops, exited := [], false;
      var i := 0;
      while i < |rounds| && !exited
        invariant 0 <= i <= |rounds| && Good(View()) && polling.None? && frames == []
        invariant Run(s, ops, View()) && Turns(ops) == i && (exited ==> i > 0)
        invariant |recordedEvents| >= |s.trace| + i - (if exited then 1 else 0)
        invariant exited ==> upcoming == map[] && (readyQueue == [] || finalStopped)
        decreases |rounds| - i
      {
        ghost var m := View();
        ghost var more;
        var ranOn;
        ranOn, more := RunOnce(rounds[i], depth);
        RunConcat(s, ops, m, more, View());
        TurnsConcat(ops, more);
        ops := ops + more;
        exited := !ranOn;
        i := i + 1;
      }
    }

    /** `ContextInstallGuard::destroy`, with its assertion at line 52: no task is queued, or the
        simulation was stopped. Then the time is taken before the final stop, during which it does
        not change, and afterwards every node is finally stopped and no task is live. */
    method Destroy(depth: nat) returns (timeElapsed: Outcome<Instant>, ghost ops: seq<Op>)
      requires Good(View()) && polling.None? && frames == []
      modifies this
      ensures timeElapsed == (if old(readyQueue) == [] || old(finalStopped) then Ok(time) else Panic(Internal(52)))
      ensures time == old(time)
      ensures Good(View()) && CodeRun(old(View()), ops, View())
      ensures timeElapsed.Ok? ==>
                ops != [] && ops[0] == StopSimulation && AllStopped(View())
    {
      if readyQueue != [] && !finalStopped {
        return Panic(Internal(52)), [];
      }
      timeElapsed := Ok(time);
      ops := StopSimulationNow(depth);
      ShutdownIsComplete(View());
    }
  }

  /** What `Simulate` has performed: the set-up code, the rounds of the run loop, and then, if the
      loop was left, the final stop. */
  ghost predicate Simulated(start: Instant, setUp: seq<Op>, rounds: nat, depth: nat, exited: bool, ops: seq<Op>, t: State) {
    && Run(Start(start), ops, t)
    && (exists a, m :: Played(Start(start), setUp, depth, a, m) && a <= ops)
    && (if exited then 1 <= Turns(ops) <= rounds else Turns(ops) == rounds)
    && (exited ==> AllStopped(t))
  }

  /** What a final stop leaves. */
  ghost predicate AllStopped(t: State) {
    && t.ex.finalStopped && (forall n :: 0 <= n < |t.ex.nodes| ==> t.ex.nodes[n].level.FinalStopped?)
    && forall id :: id in t.ex.shared ==> !IsLive(t.ex, id)
  }

  lemma LoopSimulated(start: Instant, setUp: seq<Op>, rounds: nat, depth: nat, a: seq<Op>, m: State, b: seq<Op>, t: State)
    requires Played(Start(start), setUp, depth, a, m) && CodeRun(Start(start), a, m) && Run(m, b, t) && Turns(b) == rounds
    ensures Simulated(start, setUp, rounds, depth, false, a + b, t)
  {
    CodeHasNoTurns(a);
    TurnsConcat(a, b);
    RunConcat(Start(start), a, m, b, t);
  }

  lemma StopSimulated(start: Instant, setUp: seq<Op>, rounds: nat, left: nat, depth: nat, ops: seq<Op>, m: State, b: seq<Op>, t: State)
    requires Simulated(start, setUp, left, depth, false, ops, m) && 1 <= left <= rounds && CodeRun(m, b, t) && AllStopped(t)
    ensures Simulated(start, setUp, rounds, depth, true, ops + b, t)
  {
    CodeHasNoTurns(b);
    TurnsConcat(ops, b);
    RunConcat(Start(start), ops, m, b, t);
    var a, n :| Played(Start(start), setUp, depth, a, n) && a <= ops;
    assert a <= ops + b;
  }

  /** `run_simulation` with what `SimBuilder::run` subtracts: if the run loop is left within the
      given rounds, the assertion in `destroy` holds, and the reported time is the sum of the
      TimeAdvanced events of the whole trace, as the event handler is given it. */
  method Simulate(start: Instant, setUp: seq<Op>, rounds: seq<Round>, depth: nat)
    returns (exited: bool, elapsed: int, events: seq<Event>, ghost ops: seq<Op>, ghost t: State)
    ensures Simulated(start, setUp, |rounds|, depth, exited, ops, t) && events == t.trace
    ensures exited ==> elapsed == Elapsed(events)
  {
    var cx := new Context(start);
    ghost var begun := cx.UserCode(setUp, depth);
    ghost var m := cx.View();
    ghost var ran;
    exited, ran := cx.RunCurrentContext(rounds, depth);
    LoopSimulated(start, setUp, Turns(ran), depth, begun, m, ran, cx.View());
    m, ops := cx.View(), begun + ran;
    elapsed := 0;
    if exited {
      var time;
      ghost var stopped;
      time, stopped := cx.Destroy(depth);
      assert time.Ok?;
      StopSimulated(start, setUp, |rounds|, Turns(ran), depth, ops, m, stopped, cx.View());
      ops := ops + stopped;
      TimeIsConserved(start, ops, cx.View());
      elapsed := time.value - start;
    }
    events, t := cx.recordedEvents, cx.View();
  }
}
