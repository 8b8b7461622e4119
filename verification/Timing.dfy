/** Time over whole runs: conservation, exact sleeping, quiescence, termination. */
module Timing {
  import opened Types
  import opened Time
  import opened Executor
  import opened Machine
  import opened Safety
  import opened Eager
  import opened Refinement
  import opened Shutdown
  import opened Wakeups

  // ----- conservation of time -----

  function Amount(e: Event): nat {
    if e.TimeAdvanced? then e.amount else 0
  }

  /** The sum of all TimeAdvanced amounts in a trace. */
  function Elapsed(trace: seq<Event>): nat {
    if trace == [] then 0 else Elapsed(trace[..|trace| - 1]) + Amount(trace[|trace| - 1])
  }

  ghost predicate TimeKept(start: Instant, s: State) {
    && s.clock.now == s.clock.time == start + Elapsed(s.trace)
    && forall e :: e in s.trace && e.TimeAdvanced? ==> e.amount > 0
  }

  /** The clock after one label: moved by exactly what the label emitted. */
  lemma ClockStep(g: Eager, op: Op)
    requires Tidy(g) && ENext(g, op).Some?
    ensures var emitted := Emitted(g, op);
            && |emitted| <= 1
            && ENext(g, op).value.clock.now == g.clock.now + (if emitted == [] then 0 else Amount(emitted[0]))
            && (emitted != [] && emitted[0].TimeAdvanced? ==> emitted[0].amount > 0)
  {
    match op {
      case Turn(order) =>
        if (g.finalStopped || g.queue == []) && order != [] {
          AdvanceShape(g, order);
          AdvanceExact(g.clock, order);
        }
      case AwaitSleep(k, w) => PollSleepOne(g.clock, k, w, k);
      case Return(r, drops) => ReturnClock(g, r, drops);
      case _ =>
    }
  }

  lemma ElapsedPush(trace: seq<Event>, e: Event)
    ensures Elapsed(trace + [e]) == Elapsed(trace) + Amount(e)
  {
    assert (trace + [e])[..|trace|] == trace;
  }

  lemma TimeEStep(start: Instant, g: Eager, op: Op, h: Eager)
    requires Tidy(g) && ENext(g, op) == Some(h)
    requires g.clock.now == start + Elapsed(g.trace) && forall e :: e in g.trace && e.TimeAdvanced? ==> e.amount > 0
    ensures h.clock.now == start + Elapsed(h.trace) && forall e :: e in h.trace && e.TimeAdvanced? ==> e.amount > 0
  {
    StepEmits(g, op);
    ClockStep(g, op);
    var emitted := Emitted(g, op);
    if emitted != [] {
      assert emitted == [emitted[0]];
      ElapsedPush(g.trace, emitted[0]);
    } else {
      assert h.trace == g.trace;
    }
  }

  lemma TimeStep(start: Instant, s: State, op: Op)
    requires Inv(s) && TimeKept(start, s) && Next(s, op).Some?
    ensures TimeKept(start, Next(s, op).value)
  {
    var t := Next(s, op).value;
    NextLockstep(s, op);
    AbsTidy(s);
    AbsTidy(t);
    TimeEStep(start, Abs(s), op, Abs(t));
  }

  lemma {:induction false} TimeRun(start: Instant, s: State, ops: seq<Op>, t: State)
    requires Inv(s) && TimeKept(start, s) && Run(s, ops, t)
    ensures TimeKept(start, t)
    decreases |ops|
  {
    if ops != [] {
      TimeStep(start, s, ops[0]);
      NextKeeps(s, ops[0]);
      TimeRun(start, Next(s, ops[0]).value, ops[1..], t);
    }
  }

  /** Conservation of time: in every reachable state the scheduler's `now`, the `time`
      cell and start time plus the TimeAdvanced amounts of the trace agree, so the reported
      `time_elapsed` is their sum; and no TimeAdvanced event is empty. */
  lemma TimeIsConserved(start: Instant, ops: seq<Op>, t: State)
    requires Run(Start(start), ops, t)
    ensures t.clock.now == t.clock.time
    ensures t.clock.time - start == Elapsed(t.trace)
    ensures forall i :: 0 <= i < |t.trace| && t.trace[i].TimeAdvanced? ==> t.trace[i].amount > 0
  {
    StartInv(start);
    TimeRun(start, Start(start), ops, t);
  }

  // ----- quiescence -----

  ghost predicate HasReady(s: State) {
    exists id :: id in s.ex.shared && s.ex.shared[id].state.Ready?
  }

  lemma ReadyIsQueued(s: State)
    requires Inv(s)
    ensures HasReady(s) <==> Abs(s).queue != []
  {
    if Abs(s).queue != [] {
      var id := Abs(s).queue[0];
      assert id in Abs(s).queue;
      KeepMember(s.ex.queue, ReadyIds(s.ex), id);
    }
    forall id | id in s.ex.shared && s.ex.shared[id].state.Ready? ensures id in Abs(s).queue {
      assert TaskInv(s.ex, id);
      KeepMember(s.ex.queue, ReadyIds(s.ex), id);
    }
  }

  /** A turn runs a task iff one is ready; it moves the clock iff none is and some Sleep is
      registered; otherwise it leaves the loop. In particular time never moves while a task
      is ready, also not after the simulation was stopped. */
  lemma TurnChooses(s: State, order: seq<SleepKey>)
    requires Good(s) && Next(s, Turn(order)).Some?
    ensures var t := Next(s, Turn(order)).value;
            if HasReady(s) then
              Abs(s).queue != [] && t.trace == s.trace + [TaskRun(Abs(s).queue[0])] && t.clock == s.clock
            else if s.clock.upcoming != map[] then
              t.clock.now > s.clock.now && t.trace == s.trace + [TimeAdvanced(t.clock.now - s.clock.now)]
            else
              t.trace == s.trace && t.clock == s.clock && (t.ex.queue == [] || t.ex.finalStopped)
  {
    ReadyIsQueued(s);
    NextLockstep(s, Turn(order));
    AbsTidy(s);
    if s.ex.finalStopped { ShutdownIsComplete(s); }
    ETurnChooses(Abs(s), order);
    if !HasReady(s) && s.clock.upcoming == map[] { TurnLeaves(s, order); }
  }

  lemma ETurnChooses(g: Eager, order: seq<SleepKey>)
    requires Tidy(g) && ENext(g, Turn(order)).Some?
    requires g.finalStopped ==> g.queue == []
    ensures var h := ENext(g, Turn(order)).value;
            if g.queue != [] then h.trace == g.trace + [TaskRun(g.queue[0])] && h.clock == g.clock
            else if g.clock.upcoming != map[] then
              h.clock.now > g.clock.now && h.trace == g.trace + [TimeAdvanced(h.clock.now - g.clock.now)]
            else h.trace == g.trace && h.clock == g.clock
  {
    if g.queue == [] && order != [] {
      AdvanceShape(g, order);
      AdvanceExact(g.clock, order);
    }
  }

  lemma TurnLeaves(s: State, order: seq<SleepKey>)
    requires Good(s) && Next(s, Turn(order)).Some? && !HasReady(s) && s.clock.upcoming == map[]
    ensures var t := Next(s, Turn(order)).value; t.ex.queue == [] || t.ex.finalStopped
  {
    ReadyIsQueued(s);
    assert order == [];
    if !s.ex.finalStopped { AbsPopReady(s); }
  }

  /** The loop of `run_current_context` leaves (its turn emits nothing) only when no task is
      ready, every live task is waiting, and no Sleep is registered; then the assertion at
      the start of `destroy` holds: nothing is queued, or the simulation was stopped. */
  lemma LoopExitIsQuiet(s: State, order: seq<SleepKey>)
    requires Good(s) && Next(s, Turn(order)).Some? && Next(s, Turn(order)).value.trace == s.trace
    ensures s.clock.upcoming == map[] && !HasReady(s)
    ensures forall id :: IsLive(s.ex, id) ==> s.ex.shared[id].state.Waiting?
    ensures var t := Next(s, Turn(order)).value; t.ex.queue == [] || t.ex.finalStopped
  {
    TurnChooses(s, order);
    assert forall e :: |s.trace + [e]| == |s.trace| + 1;
  }

  lemma {:induction false} SomeMinimum(c: Clock, keys: set<SleepKey>) returns (k: SleepKey)
    requires keys != {} && keys <= c.upcoming.Keys
    ensures k in keys && forall j :: j in keys ==> c.upcoming[k] <= c.upcoming[j]
    decreases |keys|
  {
    k :| k in keys;
    if keys != {k} {
      var m := SomeMinimum(c, keys - {k});
      if c.upcoming[m] < c.upcoming[k] { k := m; }
    }
  }

  lemma {:induction false} Enumerate(keys: set<SleepKey>) returns (order: seq<SleepKey>)
    ensures NoDuplicates(order) && forall k :: k in order <==> k in keys
    decreases |keys|
  {
    if keys == {} {
      order := [];
    } else {
      var k :| k in keys;
      var rest := Enumerate(keys - {k});
      order := [k] + rest;
    }
  }

  lemma WakeOrderExists(c: Clock) returns (order: seq<SleepKey>)
    ensures IsWakeOrder(c, order)
  {
    if c.upcoming == map[] {
      order := [];
    } else {
      assert c.upcoming.Keys != {};
      var k := SomeMinimum(c, c.upcoming.Keys);
      order := Enumerate(set j | j in c.upcoming && IsNext(c, j));
      assert IsNext(c, k) && k in order;
    }
  }

  /** The run loop never gets stuck: between polls, outside stops, a turn is always possible
      and does not panic. */
  lemma TurnIsPossible(s: State) returns (order: seq<SleepKey>)
    requires Inv(s) && s.ex.polling.None? && s.frames == []
    ensures Next(s, Turn(order)).Some?
  {
    order := WakeOrderExists(s.clock);
    TurnKeeps(s, order);
  }

  // ----- exact sleeping -----

  predicate ForgetFree(ops: seq<Op>, k: SleepKey) {
    forall i :: 0 <= i < |ops| ==> ops[i] != ForgetSleep(k)
  }

  lemma ForgetFreeTail(ops: seq<Op>, k: SleepKey)
    requires ops != [] && ForgetFree(ops, k)
    ensures ops[0] != ForgetSleep(k) && ForgetFree(ops[1..], k)
  {
    forall i | 0 <= i < |ops[1..]| ensures ops[1..][i] != ForgetSleep(k) { assert ops[i + 1] != ForgetSleep(k); }
  }

  /** The waker of the latest poll of Sleep `k`. */
  function LatestWaker(ops: seq<Op>, k: SleepKey, w: Id): Id {
    if ops == [] then w
    else LatestWaker(ops[1..], k, if ops[0].AwaitSleep? && ops[0].key == k then ops[0].waker else w)
  }

  lemma {:induction false} WokenByAll(g: Eager, ids: seq<Id>, id: Id)
    requires id in ids && id in g.live
    ensures id in EWakeAll(g, ids).queue
    decreases |ids|
  {
    if ids[0] == id {
      assert id in EWake(g, id).queue;
      AheadWakes(EWake(g, id), ids[1..], id);
    } else {
      WokenByAll(EWake(g, ids[0]), ids[1..], id);
    }
  }

  lemma SleepTurn(g: Eager, order: seq<SleepKey>, k: SleepKey)
    requires Tidy(g) && ENext(g, Turn(order)).Some? && k in g.clock.upcoming
    requires order != [] && (g.finalStopped || g.queue == [])
    requires AllSleeping(g.clock, order)
    requires var h, c, c' := ENext(g, Turn(order)).value, g.clock, Advance(g.clock, order);
             && h == EWakeAll(EAdvanced(g, order), Wakers(c, order)) && h.clock == c'
             && (forall j :: j in order <==> j in c.upcoming && c.deadlines[j] == c'.now)
             && (forall j :: j in order ==> c'.sleeps[j] == Done(c'.now))
             && (forall j :: j in c.sleeps && j !in order ==> j in c'.sleeps && c'.sleeps[j] == c.sleeps[j])
             && (forall j :: j in c.upcoming ==> c.deadlines[j] >= c'.now)
    ensures var h, d := ENext(g, Turn(order)).value, g.clock.deadlines[k];
            && k in h.clock.sleeps && h.clock.deadlines == g.clock.deadlines
            && (h.clock.now < d ==> k in h.clock.upcoming && h.clock.sleeps[k] == g.clock.sleeps[k])
            && (h.clock.now >= d ==>
                  && h.clock.now == d && k in order && h.clock.sleeps[k] == Done(d)
                  && (g.clock.sleeps[k].waker in g.live ==> g.clock.sleeps[k].waker in h.queue))
  {
    var c, c' := g.clock, Advance(g.clock, order);
    assert c'.deadlines == c.deadlines && k in c'.sleeps && (k !in order ==> k in c'.upcoming);
    if k in order { DueIsWoken(g, order, k); }
  }

  lemma DueIsWoken(g: Eager, order: seq<SleepKey>, k: SleepKey)
    requires order != [] && AllSleeping(g.clock, order) && k in order
    ensures k in g.clock.sleeps && g.clock.sleeps[k].Sleeping?
    ensures g.clock.sleeps[k].waker in g.live ==>
              g.clock.sleeps[k].waker in EWakeAll(EAdvanced(g, order), Wakers(g.clock, order)).queue
  {
    var i :| 0 <= i < |order| && order[i] == k;
    assert Wakers(g.clock, order)[i] == g.clock.sleeps[k].waker;
    if g.clock.sleeps[k].waker in g.live {
      WokenByAll(EAdvanced(g, order), Wakers(g.clock, order), g.clock.sleeps[k].waker);
    }
  }

  /** One label in the life of a registered Sleep: it stays registered under its latest
      waker, strictly before its deadline, or a turn takes the clock to exactly the deadline, the
      Sleep is done and the task of that waker, if it still lives, is ready. */
  ghost predicate SleepOn(g: Eager, op: Op, h: Eager, k: SleepKey)
    requires Tidy(g) && k in g.clock.upcoming
  {
    var d := g.clock.deadlines[k];
    && k in h.clock.deadlines && h.clock.deadlines[k] == d && k in h.clock.sleeps
    && (if h.clock.now < d then
          && k in h.clock.upcoming
          && h.clock.sleeps[k] == (if op.AwaitSleep? && op.key == k then Sleeping(op.waker) else g.clock.sleeps[k])
        else
          && h.clock.now == d && op.Turn? && k in op.order && h.clock.sleeps[k] == Done(d)
          && (g.clock.sleeps[k].waker in g.live ==> g.clock.sleeps[k].waker in h.queue))
  }

  lemma SleepStepTurn(g: Eager, order: seq<SleepKey>, k: SleepKey)
    requires Tidy(g) && ENext(g, Turn(order)).Some? && k in g.clock.upcoming
    ensures SleepOn(g, Turn(order), ENext(g, Turn(order)).value, k)
  {
    if (g.finalStopped || g.queue == []) && order != [] {
      AdvanceShape(g, order);
      AdvanceExact(g.clock, order);
      SleepTurn(g, order, k);
    }
  }

  lemma OtherClock(g: Eager, op: Op, k: SleepKey)
    requires Tidy(g) && ENext(g, op).Some? && k in g.clock.sleeps && op != ForgetSleep(k)
    requires !op.AwaitSleep? && !op.Return? && !op.Turn?
    ensures var c, c' := g.clock, ENext(g, op).value.clock;
            && c'.now == c.now && k in c'.sleeps && c'.sleeps[k] == c.sleeps[k]
            && k in c.deadlines && k in c'.deadlines && c'.deadlines[k] == c.deadlines[k]
            && (k in c.upcoming ==> k in c'.upcoming && c.upcoming[k] > c.now && c.upcoming[k] == c.deadlines[k])
  {}

  lemma SleepStep(g: Eager, op: Op, k: SleepKey)
    requires Tidy(g) && ENext(g, op).Some? && k in g.clock.upcoming && op != ForgetSleep(k)
    ensures SleepOn(g, op, ENext(g, op).value, k)
  {
    match op {
      case AwaitSleep(j, w) => PollSleepOne(g.clock, j, w, k);
      case Return(r, drops) => ReturnClock(g, r, drops);
      case Turn(order) => SleepStepTurn(g, order, k);
      case _ => OtherClock(g, op, k);
    }
  }

  /** What a run has done to a Sleep that was registered at its start. */
  ghost predicate SleptExactly(k: SleepKey, d: Instant, w: Id, ops: seq<Op>, t: State) {
    && k in t.clock.deadlines && t.clock.deadlines[k] == d && k in t.clock.sleeps
    && (t.clock.now < d ==> k in t.clock.upcoming && t.clock.sleeps[k] == Sleeping(LatestWaker(ops, k, w)))
    && (t.clock.now >= d ==> t.clock.sleeps[k] == Done(d))
  }

  lemma DoneTurn(g: Eager, order: seq<SleepKey>, k: SleepKey)
    requires Tidy(g) && ENext(g, Turn(order)).Some? && k in g.clock.sleeps && g.clock.sleeps[k].Done?
    ensures var c, c' := g.clock, ENext(g, Turn(order)).value.clock;
            && c'.now >= c.now
            && k in c'.sleeps && c'.sleeps[k] == c.sleeps[k]
            && k in c.deadlines && k in c'.deadlines && c'.deadlines[k] == c.deadlines[k]
  {
    if (g.finalStopped || g.queue == []) && order != [] {
      AdvanceShape(g, order);
      AdvanceExact(g.clock, order);
    }
  }

  lemma DoneEStep(g: Eager, op: Op, k: SleepKey)
    requires Tidy(g) && ENext(g, op).Some? && k in g.clock.sleeps && g.clock.sleeps[k].Done? && op != ForgetSleep(k)
    ensures var c, c' := g.clock, ENext(g, op).value.clock;
            && c'.now >= c.now
            && k in c'.sleeps && c'.sleeps[k] == c.sleeps[k]
            && k in c.deadlines && k in c'.deadlines && c'.deadlines[k] == c.deadlines[k]
  {
    match op {
      case AwaitSleep(j, w) => PollSleepOne(g.clock, j, w, k);
      case Return(r, drops) => ReturnClock(g, r, drops);
      case Turn(order) => DoneTurn(g, order, k);
      case _ => OtherClock(g, op, k);
    }
  }

  lemma DoneStays(s: State, op: Op, k: SleepKey)
    requires Inv(s) && Next(s, op).Some? && k in s.clock.sleeps && s.clock.sleeps[k].Done? && op != ForgetSleep(k)
    ensures var t := Next(s, op).value;
            && t.clock.now >= s.clock.now
            && k in t.clock.sleeps && t.clock.sleeps[k] == s.clock.sleeps[k]
            && k in s.clock.deadlines && k in t.clock.deadlines && t.clock.deadlines[k] == s.clock.deadlines[k]
  {
    NextLockstep(s, op);
    AbsTidy(s);
    DoneEStep(Abs(s), op, k);
  }

  lemma {:induction false} DoneForever(s: State, ops: seq<Op>, t: State, k: SleepKey)
    requires Inv(s) && Run(s, ops, t) && k in s.clock.sleeps && s.clock.sleeps[k].Done? && ForgetFree(ops, k)
    ensures t.clock.now >= s.clock.now && k in t.clock.sleeps && t.clock.sleeps[k] == s.clock.sleeps[k]
    ensures k in s.clock.deadlines && k in t.clock.deadlines && t.clock.deadlines[k] == s.clock.deadlines[k]
    decreases |ops|
  {
    if ops != [] {
      ForgetFreeTail(ops, k);
      DoneStays(s, ops[0], k);
      NextKeeps(s, ops[0]);
      DoneForever(Next(s, ops[0]).value, ops[1..], t, k);
    }
  }

  /** The same step of the machine. */
  lemma SleepNext(s: State, op: Op, s1: State, k: SleepKey)
    requires Inv(s) && Next(s, op) == Some(s1) && k in s.clock.upcoming && op != ForgetSleep(k)
    ensures Inv(s1) && k in s.clock.deadlines && k in s.clock.sleeps && s.clock.sleeps[k].Sleeping?
    ensures s.clock.now < s.clock.deadlines[k]
    ensures k in s1.clock.deadlines && s1.clock.deadlines[k] == s.clock.deadlines[k] && k in s1.clock.sleeps
    ensures s1.clock.now < s.clock.deadlines[k] ==>
              && k in s1.clock.upcoming
              && s1.clock.sleeps[k] == if op.AwaitSleep? && op.key == k then Sleeping(op.waker) else s.clock.sleeps[k]
    ensures s1.clock.now >= s.clock.deadlines[k] ==>
              && s1.clock.now == s.clock.deadlines[k] && op.Turn? && s1.clock.sleeps[k] == Done(s.clock.deadlines[k])
              && (IsLive(s.ex, s.clock.sleeps[k].waker) ==> s.clock.sleeps[k].waker in Abs(s1).queue)
  {
    NextLockstep(s, op);
    AbsTidy(s);
    SleepStep(Abs(s), op, k);
  }

  /** Exact sleeping over whole runs. A registered Sleep that is not dropped stays
      registered, under the waker of its latest poll, as long as the clock is before its
      deadline, and is done from then on. If the run gets that far, some prefix of it ends
      with the turn that moves the clock to exactly the deadline and makes the task of the
      latest waker ready (unless that task died). */
  lemma {:induction false} SleepsExactly(s: State, ops: seq<Op>, t: State, k: SleepKey)
    returns (before: seq<Op>, m: State, order: seq<SleepKey>)
    requires Inv(s) && Run(s, ops, t) && k in s.clock.upcoming && ForgetFree(ops, k)
    ensures k in s.clock.deadlines && k in s.clock.sleeps && s.clock.sleeps[k].Sleeping?
    ensures SleptExactly(k, s.clock.deadlines[k], s.clock.sleeps[k].waker, ops, t)
    ensures t.clock.now >= s.clock.deadlines[k] ==>
              var w := LatestWaker(before, k, s.clock.sleeps[k].waker);
              && before + [Turn(order)] <= ops && Run(s, before, m)
              && Next(m, Turn(order)).Some?
              && m.clock.now < s.clock.deadlines[k] == Next(m, Turn(order)).value.clock.now
              && (IsLive(m.ex, w) ==> w in Abs(Next(m, Turn(order)).value).queue)
    decreases |ops|
  {
    before, m, order := [], s, [];
    if ops != [] {
      var op := ops[0];
      var s1 := Next(s, op).value;
      ForgetFreeTail(ops, k);
      SleepNext(s, op, s1, k);
      if s1.clock.now < s.clock.deadlines[k] {
        before, m, order := SleepsExactly(s1, ops[1..], t, k);
        if t.clock.now >= s.clock.deadlines[k] {
          RunCons(s, op, before, m);
          assert ([op] + before)[1..] == before;
          assert [op] + (before + [Turn(order)]) == ([op] + before) + [Turn(order)];
          before := [op] + before;
        }
      } else {
        DoneForever(s1, ops[1..], t, k);
        order := op.order;
        assert [] + [Turn(order)] == [op];
      }
    }
  }

  /** After a shutdown the clock stands still only if nothing is registered: otherwise the next
      turn of the run loop advances it. */
  lemma RegisteredSleepMovesClock(s: State) returns (order: seq<SleepKey>)
    requires Good(s) && s.ex.finalStopped && s.frames == [] && s.ex.polling.None? && s.clock.upcoming != map[]
    ensures Next(s, Turn(order)).Some? && Next(s, Turn(order)).value.clock.now > s.clock.now
  {
    order := TurnIsPossible(s);
    NextGood(s, Turn(order));
    AdvanceShape(Abs(s), order);
    AdvanceExact(s.clock, order);
  }

  // ----- termination -----

  predicate Idle(e: Exec, id: Id) {
    id in e.shared && e.shared[id].state.Waiting?
  }

  /** Labels of polls that no longer spawn, wake a waiting task, or register a Sleep. Polls of
      registered and of finished Sleeps go on, and so do wakes that find nobody waiting. */
  ghost predicate Quiet(s: State, op: Op) {
    match op
    case SpawnTask(_) => false
    case WakeTask(id) => !Idle(s.ex, id)
    case AwaitSleep(k, _) => !Registers(s.clock, k)
    case Return(_, drops) => forall id :: id in WakesOf(drops) && s.ex.polling != Some(id) ==> !Idle(s.ex, id)
    case _ => true
  }

  /** A quiet run in which the loop takes a turn only if it has not left yet. */
  ghost predicate QuietLoop(s: State, ops: seq<Op>, t: State)
    decreases |ops|
  {
    if ops == [] then s == t
    else
      && Next(s, ops[0]).Some? && Quiet(s, ops[0])
      && (ops[0].Turn? ==> HasReady(s) || s.clock.upcoming != map[])
      && QuietLoop(Next(s, ops[0]).value, ops[1..], t)
  }

  /** The most turns left: two for each registered Sleep and one for each ready task. */
  function Work(g: Eager): nat {
    2 * |g.clock.upcoming| + |g.queue|
  }

  lemma {:induction false} WithoutShorter(q: seq<Id>, x: Id)
    ensures |Without(q, x)| <= |q|
  {
    if q != [] { WithoutShorter(q[1..], x); }
  }

  lemma {:induction false} WakesAddAtMost(g: Eager, ids: seq<Id>)
    ensures |EWakeAll(g, ids).queue| <= |g.queue| + |ids|
    decreases |ids|
  {
    if ids != [] { WakesAddAtMost(EWake(g, ids[0]), ids[1..]); }
  }

  lemma {:induction false} SizeOfOrder(order: seq<SleepKey>)
    requires NoDuplicates(order)
    ensures |ToSet(order)| == |order|
  {
    if order != [] {
      SizeOfOrder(order[1..]);
      TailMembers(order);
      assert ToSet(order) == ToSet(order[1..]) + {order[0]};
    }
  }

  lemma MinusSize(m: map<SleepKey, Instant>, less: set<SleepKey>)
    requires less <= m.Keys
    ensures |m - less| == |m| - |less|
  {
    assert (m - less).Keys == m.Keys - less;
    assert |m.Keys - less| == |m.Keys| - |less|;
  }

  lemma AdvanceShrinks(c: Clock, order: seq<SleepKey>)
    requires ClockInv(c) && order != [] && IsWakeOrder(c, order)
    ensures AllSleeping(c, order)
    ensures |Advance(c, order).upcoming| == |c.upcoming| - |order|
  {
    AdvanceExact(c, order);
    SizeOfOrder(order);
    assert ToSet(order) <= c.upcoming.Keys;
    MinusSize(c.upcoming, ToSet(order));
  }

  lemma QuietTurn(g: Eager, order: seq<SleepKey>)
    requires Tidy(g) && ENext(g, Turn(order)).Some?
    requires (!g.finalStopped && g.queue != []) || g.clock.upcoming != map[]
    ensures Work(ENext(g, Turn(order)).value) + 1 <= Work(g)
  {
    if g.finalStopped || g.queue == [] {
      AdvanceShape(g, order);
      AdvanceShrinks(g.clock, order);
      WakesAddAtMost(EAdvanced(g, order), Wakers(g.clock, order));
    }
  }

  predicate EIdle(g: Eager, id: Id) {
    id in g.live && id !in g.queue
  }

  /** The same labels, seen from the eager executor. */
  ghost predicate EQuiet(g: Eager, op: Op) {
    match op
    case SpawnTask(_) => false
    case WakeTask(id) => !EIdle(g, id)
    case AwaitSleep(k, _) => !Registers(g.clock, k)
    case Return(_, drops) => forall id :: id in WakesOf(drops) && g.polling != Some(id) ==> !EIdle(g, id)
    case _ => true
  }

  lemma SameIdle(s: State, id: Id)
    requires Inv(s) && EIdle(Abs(s), id)
    ensures Idle(s.ex, id)
  {
    assert TaskInv(s.ex, id);
    KeepMember(s.ex.queue, ReadyIds(s.ex), id);
  }

  lemma SameQuiet(s: State, op: Op)
    requires Inv(s) && Quiet(s, op)
    ensures EQuiet(Abs(s), op)
  {
    if op.WakeTask? && EIdle(Abs(s), op.id) { SameIdle(s, op.id); }
    if op.Return? {
      forall id | id in WakesOf(op.drops) && s.ex.polling != Some(id) ensures !EIdle(Abs(s), id) {
        if EIdle(Abs(s), id) { SameIdle(s, id); }
      }
    }
  }

  lemma {:induction false} NobodyWoken(g: Eager, ids: seq<Id>)
    requires forall id :: id in ids ==> !EIdle(g, id)
    ensures EWakeAll(g, ids) == g
    decreases |ids|
  {
    if ids != [] {
      assert ids[0] in ids && !EIdle(g, ids[0]);
      assert EWake(g, ids[0]) == g;
      NobodyWoken(g, ids[1..]);
    }
  }

  lemma {:induction false} WithoutMember(q: seq<Id>, x: Id, id: Id)
    requires id in q && x != id
    ensures id in Without(q, x)
  {
    if q[0] != id { WithoutMember(q[1..], x, id); }
  }

  lemma QuietFinish(g: Eager, v: int, drops: seq<DropEffect>)
    requires g.polling.Some? && EReturn(g, Finished(v), drops).Ok? && EQuiet(g, Return(Finished(v), drops))
    ensures Work(EReturn(g, Finished(v), drops).value) <= Work(g)
  {
    var id := g.polling.value;
    var h := Kill(g.(polling := None), id).(verdicts := g.verdicts[id := Returned(v)]);
    forall x | x in WakesOf(drops) ensures !EIdle(h, x) {
      if x != id && x in g.live { WithoutMember(g.queue, id, x); }
    }
    NobodyWoken(h, WakesOf(drops));
    WithoutShorter(g.queue, id);
  }

  lemma QuietReturn(g: Eager, r: PollResult, drops: seq<DropEffect>)
    requires Tidy(g) && ENext(g, Return(r, drops)).Some? && EQuiet(g, Return(r, drops))
    ensures Work(ENext(g, Return(r, drops)).value) <= Work(g)
  {
    if r.Finished? {
      QuietFinish(g, r.value, drops);
    } else if g.polling.value !in g.live {
      NobodyWoken(g.(polling := None, verdicts := g.verdicts[g.polling.value := Dropped]), WakesOf(drops));
    }
  }

  lemma QuietForget(g: Eager, k: SleepKey)
    ensures |DropSleep(g.clock, k).upcoming| <= |g.clock.upcoming|
  {
    assert (g.clock.upcoming - {k}).Keys == g.clock.upcoming.Keys - {k};
    assert |(g.clock.upcoming - {k})| == |(g.clock.upcoming - {k}).Keys| <= |g.clock.upcoming.Keys|;
  }

  lemma QuietAbort(g: Eager, id: Id)
    ensures Work(EAbort(g, id)) <= Work(g)
  {
    WithoutShorter(g.queue, id);
  }

  lemma QuietStep(g: Eager, op: Op)
    requires Tidy(g) && ENext(g, op).Some? && EQuiet(g, op)
    requires op.Turn? ==> (!g.finalStopped && g.queue != []) || g.clock.upcoming != map[]
    ensures Work(ENext(g, op).value) + (if op.Turn? then 1 else 0) <= Work(g)
  {
    match op {
      case AbortTask(id) => QuietAbort(g, id);
      case StopVisit(id) => QuietAbort(g, id);
      case ForgetSleep(k) => QuietForget(g, k);
      case Return(r, drops) => QuietReturn(g, r, drops);
      case Turn(order) => QuietTurn(g, order);
      case _ =>
    }
  }

  lemma QuietNext(s: State, op: Op)
    requires Good(s) && Next(s, op).Some? && Quiet(s, op)
    requires op.Turn? ==> HasReady(s) || s.clock.upcoming != map[]
    ensures Good(Next(s, op).value)
    ensures Work(Abs(Next(s, op).value)) + (if op.Turn? then 1 else 0) <= Work(Abs(s))
  {
    NextGood(s, op);
    ReadyIsQueued(s);
    if s.ex.finalStopped && op.Turn? { ShutdownIsComplete(s); }
    SameQuiet(s, op);
    QuietStep(Abs(s), op);
  }

  /** Termination: once polls no longer spawn, wake waiting tasks or register sleeps, the run
      loop takes at most two turns per registered Sleep and one per ready task before it
      leaves, however polls of sleeps, aborts, stops and drops interleave. */
  lemma {:induction false} QuietLoopEnds(s: State, ops: seq<Op>, t: State)
    requires Good(s) && QuietLoop(s, ops, t)
    ensures Turns(ops) <= 2 * |s.clock.upcoming| + |Abs(s).queue|
    decreases |ops|
  {
    if ops != [] {
      QuietNext(s, ops[0]);
      QuietLoopEnds(Next(s, ops[0]).value, ops[1..], t);
    }
  }
}
