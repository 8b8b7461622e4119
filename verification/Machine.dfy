/** The runtime as one labelled state machine: executor, clock, id counter, event
    trace and the call stack of node and simulation stops.

    User code (polls, destructors, simulator callbacks) is arbitrary: it may issue
    any enabled user operation at any time, in particular during its own poll and
    while a stop is in progress. Nondeterminism of the runtime itself (HashSet and
    priority queue order) is carried by the labels. */
module Machine {
  import opened Types
  import opened Time
  import opened Executor

  /** An active call of `stop_node` (the snapshot still to be aborted) or of
      `stop_simulation` (the next node of `count`). The last frame is innermost. */
  datatype Frame =
    | StopNodeFrame(node: NodeIx, todo: set<Id>)
    | StopAllFrame(next: NodeIx, count: nat)

  datatype State = State(
    ex: Exec,
    clock: Clock,
    nextId: nat,
    trace: seq<Event>,
    frames: seq<Frame>)

  datatype Op =
    // user code
    | WakeTask(id: Id)
    | SpawnTask(node: NodeIx)
    | AbortTask(id: Id)
    | StopNode(node: NodeIx)
    | StartNode(node: NodeIx)
    | CreateNode
    | StopSimulation
    | TakeIds(count: nat)
    | MakeSleep(key: SleepKey, deadline: Instant)
    | AwaitSleep(key: SleepKey, waker: Id)
    | ForgetSleep(key: SleepKey)
    // the loops inside stop_node and stop_simulation
    | StopVisit(id: Id)
    | StopReturn
    | StopAllNext
    | StopAllReturn
    // the run loop
    | Turn(order: seq<SleepKey>)
    | Return(result: PollResult, drops: seq<DropEffect>)

  /** The context `ContextInstallGuard::new` installs. */
  function Start(start: Instant): State {
    State(EmptyExec, StartClock(start), 0, [], [])
  }

  function Push<T>(s: seq<T>, x: T): seq<T> { s + [x] }

  function Pop<T>(s: seq<T>): seq<T>
    requires s != []
  {
    s[..|s| - 1]
  }

  function Top<T>(s: seq<T>): T
    requires s != []
  {
    s[|s| - 1]
  }

  predicate IsLive(e: Exec, id: Id) {
    id in e.shared && Live(e.shared[id].state)
  }

  /** Labels that make sense in a state; anything else cannot be expressed in the source.
      A stop visits its snapshot in any order. Visits to dead tasks change nothing
      (`AbortDead`), so the label is only given to live ones. */
  ghost predicate Enabled(s: State, op: Op) {
    match op
    case WakeTask(id) => id in s.ex.shared
    case SpawnTask(n) => n < |s.ex.nodes|
    case AbortTask(id) => id in s.ex.shared
    case StopNode(n) => n < |s.ex.nodes|
    case StartNode(n) => n < |s.ex.nodes|
    case CreateNode => true
    case StopSimulation => true
    case TakeIds(_) => true
    case MakeSleep(k, _) => k !in s.clock.deadlines
    case AwaitSleep(k, w) => k in s.clock.sleeps && w in s.ex.shared
    case ForgetSleep(k) => k in s.clock.sleeps
    case StopVisit(id) =>
      s.frames != [] && Top(s.frames).StopNodeFrame? && id in Top(s.frames).todo && IsLive(s.ex, id)
    case StopReturn =>
      s.frames != [] && Top(s.frames).StopNodeFrame? && forall id :: id in Top(s.frames).todo ==> !IsLive(s.ex, id)
    case StopAllNext =>
      s.frames != [] && Top(s.frames).StopAllFrame? && Top(s.frames).next < Top(s.frames).count <= |s.ex.nodes|
    case StopAllReturn =>
      s.frames != [] && Top(s.frames).StopAllFrame? && Top(s.frames).next == Top(s.frames).count
    case Turn(order) =>
      && s.ex.polling.None? && s.frames == []
      && IsWakeOrder(s.clock, order)
      && (forall k :: k in order && k in s.clock.sleeps && s.clock.sleeps[k].Sleeping? ==>
            s.clock.sleeps[k].waker in s.ex.shared)
    case Return(_, drops) =>
      && s.ex.polling.Some? && s.frames == []
      && s.ex.polling.value in s.ex.shared && s.ex.polling.value in s.ex.verdicts
      && (forall id :: DropWake(id) in drops ==> id in s.ex.shared)
  }

  function SetLevel(e: Exec, n: NodeIx, l: Level): Exec
    requires n < |e.nodes|
  {
    e.(nodes := e.nodes[n := e.nodes[n].(level := l)])
  }

  /** `stop_node` up to its snapshot. */
  function BeginStop(s: State, n: NodeIx, isFinal: bool): State
    requires n < |s.ex.nodes|
  {
    var node := s.ex.nodes[n];
    if node.level.Running? then
      s.(ex := SetLevel(s.ex, n, if isFinal then FinalStopped else Stopped),
         frames := Push(s.frames, StopNodeFrame(n, node.tasks)))
    else if isFinal then
      s.(ex := SetLevel(s.ex, n, FinalStopped))
    else
      s
  }

  /** One head of the outer loop of `run_current_context`: take a ready task, or
      else advance the clock, or else (no registered sleep) leave the loop. */
  ghost function TakeTurn(s: State, order: seq<SleepKey>): Outcome<State>
    requires Enabled(s, Turn(order))
  {
    match NextTask(s.ex)
    case Panic(f) => Panic(f)
    case Ok((e, Some(id))) => Ok(s.(ex := e, trace := Push(s.trace, TaskRun(id))))
    case Ok((e, None)) =>
      if order == [] then Ok(s.(ex := e))
      else if !AllSleeping(s.clock, order) then Panic(Internal(145))
      else
        assert forall i :: 0 <= i < |order| ==> order[i] in order;
        Ok(s.(
          ex := WakeAll(e, Wakers(s.clock, order)),
          clock := Advance(s.clock, order),
          trace := Push(s.trace, TimeAdvanced(StepSize(s.clock, order)))))
  }

  ghost function Step(s: State, op: Op): Outcome<State>
    requires Enabled(s, op)
  {
    match op
    case WakeTask(id) => Ok(s.(ex := Wake(s.ex, id)))
    case SpawnTask(n) =>
      if !s.ex.nodes[n].level.Running? then Panic(NodeIsStopped)
      else Ok(s.(ex := Spawn(s.ex, s.nextId + 1, n), nextId := s.nextId + 1, trace := Push(s.trace, TaskSpawned)))
    case AbortTask(id) => Ok(s.(ex := Abort(s.ex, id)))
    case StopNode(n) => Ok(BeginStop(s, n, false))
    case StartNode(n) =>
      (match s.ex.nodes[n].level
       case Running => Ok(s)
       case FinalStopped => Panic(StartDuringShutdown)
       case Stopped => Ok(s.(ex := SetLevel(s.ex, n, Running))))
    case CreateNode =>
      if s.ex.finalStopped then Panic(NodeDuringShutdown)
      else Ok(s.(ex := s.ex.(nodes := Push(s.ex.nodes, Node(Running, {}))),
                 trace := Push(s.trace, NodeSpawned(|s.ex.nodes|))))
    case StopSimulation =>
      Ok(s.(ex := s.ex.(finalStopped := true), frames := Push(s.frames, StopAllFrame(0, |s.ex.nodes|))))
    case TakeIds(n) => Ok(s.(nextId := s.nextId + n))
    case MakeSleep(k, d) => Ok(s.(clock := NewSleep(s.clock, k, d)))
    case AwaitSleep(k, w) =>
      (match PollSleep(s.clock, k, w)
       case Ok((c, _)) => Ok(s.(clock := c))
       case Panic(f) => Panic(f))
    case ForgetSleep(k) => Ok(s.(clock := DropSleep(s.clock, k)))
    case StopVisit(id) =>
      var f := Top(s.frames);
      Ok(s.(ex := Abort(s.ex, id), frames := Push(Pop(s.frames), f.(todo := f.todo - {id}))))
    case StopReturn => Ok(s.(frames := Pop(s.frames)))
    case StopAllNext =>
      var f := Top(s.frames);
      Ok(BeginStop(s.(frames := Push(Pop(s.frames), f.(next := f.next + 1))), f.next, true))
    case StopAllReturn => Ok(s.(frames := Pop(s.frames)))
    case Turn(order) => TakeTurn(s, order)
    case Return(result, drops) =>
      (match EndPoll(s.ex, result, drops)
       case Ok(e) => Ok(s.(ex := e))
       case Panic(f) => Panic(f))
  }

  /** The state after `op`, if `op` is enabled and does not panic. */
  ghost function Next(s: State, op: Op): Option<State> {
    if Enabled(s, op) && Step(s, op).Ok? then Some(Step(s, op).value) else None
  }

  /** `t` is reached from `s` by performing `ops`, all enabled and without a panic. */
  ghost predicate Run(s: State, ops: seq<Op>, t: State)
    decreases |ops|
  {
    if ops == [] then s == t
    else Next(s, ops[0]).Some? && Run(Next(s, ops[0]).value, ops[1..], t)
  }

  ghost predicate Reachable(s: State) {
    exists start: Instant, ops: seq<Op> :: Run(Start(start), ops, s)
  }

  lemma RunCons(s: State, op: Op, ops: seq<Op>, t: State)
    requires Next(s, op).Some? && Run(Next(s, op).value, ops, t)
    ensures Run(s, [op] + ops, t)
  {
    assert ([op] + ops)[1..] == ops;
  }

  lemma {:induction false} RunConcat(s: State, a: seq<Op>, m: State, b: seq<Op>, t: State)
    requires Run(s, a, m) && Run(m, b, t)
    ensures Run(s, a + b, t)
    decreases |a|
  {
    if a == [] {
      assert a + b == b;
    } else {
      assert (a + b)[1..] == a[1..] + b;
      RunConcat(Next(s, a[0]).value, a[1..], m, b, t);
    }
  }

  lemma {:induction false} RunSplit(s: State, a: seq<Op>, b: seq<Op>, t: State) returns (m: State)
    requires Run(s, a + b, t)
    ensures Run(s, a, m) && Run(m, b, t)
    decreases |a|
  {
    if a == [] {
      assert a + b == b;
      m := s;
    } else {
      assert (a + b)[1..] == a[1..] + b && (a + b)[0] == a[0];
      m := RunSplit(Next(s, a[0]).value, a[1..], b, t);
    }
  }

  // ----- the machine invariant -----

  ghost predicate FrameInv(s: State, f: Frame) {
    match f
    case StopNodeFrame(n, todo) =>
      n < |s.ex.nodes| && forall id :: id in todo ==> id in s.ex.shared && s.ex.shared[id].node == n
    case StopAllFrame(next, count) =>
      s.ex.finalStopped && next <= count == |s.ex.nodes|
  }

  ghost predicate WakersKnown(s: State) {
    forall k :: k in s.clock.sleeps && s.clock.sleeps[k].Sleeping? ==> s.clock.sleeps[k].waker in s.ex.shared
  }

  ghost predicate Inv(s: State) {
    && ExecInv(s.ex)
    && ClockInv(s.clock)
    && WakersKnown(s)
    && (forall id :: id in s.ex.shared ==> 0 < id <= s.nextId)
    && (forall i :: 0 <= i < |s.frames| ==> FrameInv(s, s.frames[i]))
    && |s.ex.nodes| > 0
  }

  lemma StartInv(start: Instant)
    ensures Inv(Start(start))
  {
    EmptyExecInv();
  }

  /** `abort_local` on a dead or forgotten task does nothing. */
  lemma AbortDead(e: Exec, id: Id)
    requires ExecInv(e) && !IsLive(e, id)
    ensures id in e.tasks ==> id in e.shared
    ensures Abort(e, id) == e && !AbortLocal(e, id).1
  {
    assert TaskInv(e, id);
  }

  lemma LevelKeeps(e: Exec, n: NodeIx, l: Level)
    requires ExecInv(e) && n < |e.nodes|
    ensures ExecInv(SetLevel(e, n, l))
  {
    forall x ensures TaskInv(SetLevel(e, n, l), x) { assert TaskInv(e, x); }
  }

  lemma NewNodeKeeps(e: Exec)
    requires ExecInv(e)
    ensures ExecInv(e.(nodes := Push(e.nodes, Node(Running, {}))))
  {
    var e' := e.(nodes := Push(e.nodes, Node(Running, {})));
    forall x ensures TaskInv(e', x) { assert TaskInv(e, x); }
  }

  lemma BeginStopKeeps(s: State, n: NodeIx, isFinal: bool)
    requires Inv(s) && n < |s.ex.nodes|
    ensures Inv(BeginStop(s, n, isFinal))
  {
    LevelKeeps(s.ex, n, Stopped);
    LevelKeeps(s.ex, n, FinalStopped);
    var t := BeginStop(s, n, isFinal);
    forall id | id in s.ex.nodes[n].tasks ensures id in s.ex.shared && s.ex.shared[id].node == n {
      assert TaskInv(s.ex, id);
    }
    forall i | 0 <= i < |t.frames| ensures FrameInv(t, t.frames[i]) {
      if i < |s.frames| { assert FrameInv(s, s.frames[i]); }
    }
  }

  lemma TurnKeeps(s: State, order: seq<SleepKey>)
    requires Inv(s) && Enabled(s, Turn(order))
    ensures TakeTurn(s, order).Ok? && Inv(TakeTurn(s, order).value)
  {
    if !s.ex.finalStopped { PopReadyKeeps(s.ex); }
    var (e, task) := NextTask(s.ex).value;
    SharedNodesStable(s.ex);
    if task.None? && order != [] {
      AdvanceExact(s.clock, order);
      assert forall i :: 0 <= i < |order| ==> order[i] in order;
      WakeAllKeeps(e, Wakers(s.clock, order));
      WakeAllStable(e, Wakers(s.clock, order));
    }
  }

  /** Popping changes no task's node and no run level. */
  lemma {:induction false} SharedNodesStable(e: Exec)
    requires ExecInv(e) && e.polling.None?
    ensures NextTask(e).Ok?
    ensures var e' := NextTask(e).value.0;
            && e'.finalStopped == e.finalStopped
            && |e'.nodes| == |e.nodes|
            && (forall n :: 0 <= n < |e.nodes| ==> e'.nodes[n].level == e.nodes[n].level)
            && (forall id :: id in e.shared ==> id in e'.shared && e'.shared[id].node == e.shared[id].node)
            && e'.verdicts == e.verdicts
    decreases |e.queue|
  {
    if !e.finalStopped && e.queue != [] {
      assert e.queue[0] in e.queue && TaskInv(e, e.queue[0]);
      if e.shared[e.queue[0]].state.Ready? {
        TakeReady(e);
      } else {
        DiscardKeeps(e);
        SharedNodesStable(Discard(e).value);
      }
    }
  }

  lemma {:induction false} WakeAllStable(e: Exec, ids: seq<Id>)
    requires forall id :: id in ids ==> id in e.shared
    ensures var e' := WakeAll(e, ids);
            && e'.finalStopped == e.finalStopped && e'.nodes == e.nodes && e'.polling == e.polling
            && e'.tasks == e.tasks && e'.verdicts == e.verdicts
            && e'.shared.Keys == e.shared.Keys
            && (forall id :: id in e.shared ==> id in e'.shared && e'.shared[id].node == e.shared[id].node)
            && (forall id :: id in e.shared && !e.shared[id].state.Waiting? ==> e'.shared[id] == e.shared[id])
    decreases |ids|
  {
    if ids != [] { WakeAllStable(Wake(e, ids[0]), ids[1..]); }
  }
}
