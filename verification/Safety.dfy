/** Safety of every interleaving: the invariant holds in every reachable state, no
    assertion of the runtime can fire, and the remaining panics happen exactly
    under conditions the caller can check beforehand. */
module Safety {
  import opened Types
  import opened Time
  import opened Executor
  import opened Machine

  /** The panic that user code provokes by `op`, if any. */
  ghost function Misuse(s: State, op: Op): Option<Fault>
    requires Inv(s) && Enabled(s, op)
  {
    match op
    case SpawnTask(n) => if s.ex.nodes[n].level.Running? then None else Some(NodeIsStopped)
    case StartNode(n) => if s.ex.nodes[n].level.FinalStopped? then Some(StartDuringShutdown) else None
    case CreateNode => if s.ex.finalStopped then Some(NodeDuringShutdown) else None
    case AwaitSleep(k, _) => if s.clock.sleeps[k].Taken? then Some(SleepPolledAgain) else None
    case Return(r, drops) => if DropsFuture(s.ex, r) && DropUsesContext in drops then Some(BorrowConflict) else None
    case _ => None
  }

  /** One step: the machine panics exactly on misuse, so never with an `Internal`
      fault, and otherwise keeps the invariant. */
  lemma StepSafe(s: State, op: Op)
    requires Inv(s) && Enabled(s, op)
    ensures Step(s, op).Panic? <==> Misuse(s, op).Some?
    ensures Step(s, op).Panic? ==> Step(s, op).fault == Misuse(s, op).value
    ensures Step(s, op).Ok? ==> Inv(Step(s, op).value)
  {
    match op
    case Turn(order) => TurnKeeps(s, order);
    case Return(r, drops) => ReturnSafe(s, r, drops);
    case StopVisit(id) => VisitSafe(s, id);
    case StopReturn => PopSafe(s, op);
    case StopAllNext => StopNextSafe(s);
    case StopAllReturn => PopSafe(s, op);
    case MakeSleep(_, _) => SleepSafe(s, op);
    case AwaitSleep(k, w) => AwaitSafe(s, k, w);
    case ForgetSleep(_) => SleepSafe(s, op);
    case StopNode(n) => BeginStopKeeps(s, n, false);
    case CreateNode => NodesSafe(s, op);
    case StopSimulation => NodesSafe(s, op);
    case SpawnTask(_) => UserSafe(s, op);
    case StartNode(_) => UserSafe(s, op);
    case _ => TaskSafe(s, op);
  }

  lemma SameFrames(s: State, t: State)
    requires forall i :: 0 <= i < |s.frames| ==> FrameInv(s, s.frames[i])
    requires t.frames == s.frames && |t.ex.nodes| == |s.ex.nodes| && (s.ex.finalStopped ==> t.ex.finalStopped)
    requires forall id :: id in s.ex.shared ==> id in t.ex.shared && t.ex.shared[id].node == s.ex.shared[id].node
    ensures forall i :: 0 <= i < |t.frames| ==> FrameInv(t, t.frames[i])
  {
    forall i | 0 <= i < |t.frames| ensures FrameInv(t, t.frames[i]) { assert FrameInv(s, s.frames[i]); }
  }

  lemma SleepSafe(s: State, op: Op)
    requires Inv(s) && Enabled(s, op) && (op.MakeSleep? || op.ForgetSleep?)
    ensures Step(s, op).Ok? && Misuse(s, op).None? && Inv(Step(s, op).value)
  {
    match op {
      case MakeSleep(k, d) => NewSleepKeeps(s.clock, k, d);
      case ForgetSleep(k) => DropSleepKeeps(s.clock, k);
    }
    SameFrames(s, Step(s, op).value);
  }

  lemma AwaitSafe(s: State, k: SleepKey, w: Id)
    requires Inv(s) && Enabled(s, AwaitSleep(k, w))
    ensures Step(s, AwaitSleep(k, w)).Panic? <==> s.clock.sleeps[k].Taken?
    ensures Step(s, AwaitSleep(k, w)).Panic? ==> Step(s, AwaitSleep(k, w)).fault == SleepPolledAgain
    ensures Step(s, AwaitSleep(k, w)).Ok? ==> Inv(Step(s, AwaitSleep(k, w)).value)
  {
    PollSleepExact(s.clock, k, w);
    if Step(s, AwaitSleep(k, w)).Ok? { SameFrames(s, Step(s, AwaitSleep(k, w)).value); }
  }

  /** Creating a node or stopping the simulation changes what frames may say. */
  lemma NodesSafe(s: State, op: Op)
    requires Inv(s) && Enabled(s, op) && (op.CreateNode? || op.StopSimulation?)
    ensures Step(s, op).Panic? <==> Misuse(s, op).Some?
    ensures Step(s, op).Panic? ==> Step(s, op).fault == Misuse(s, op).value
    ensures Step(s, op).Ok? ==> Inv(Step(s, op).value)
  {
    if Step(s, op).Ok? {
      var t := Step(s, op).value;
      if op.CreateNode? {
        NewNodeKeeps(s.ex);
      } else {
        forall x ensures TaskInv(t.ex, x) { assert TaskInv(s.ex, x); }
      }
      forall i | 0 <= i < |t.frames| ensures FrameInv(t, t.frames[i]) {
        if i < |s.frames| { assert FrameInv(s, s.frames[i]); }
      }
    }
  }

  lemma TaskSafe(s: State, op: Op)
    requires Inv(s) && Enabled(s, op) && (op.WakeTask? || op.AbortTask? || op.TakeIds?)
    ensures Step(s, op).Ok? && Misuse(s, op).None? && Inv(Step(s, op).value)
  {
    match op {
      case WakeTask(id) => WakeKeeps(s.ex, id);
      case AbortTask(id) => AbortKeeps(s.ex, id);
      case TakeIds(_) =>
    }
    SameFrames(s, Step(s, op).value);
  }

  lemma UserSafe(s: State, op: Op)
    requires Inv(s) && Enabled(s, op) && (op.SpawnTask? || op.StartNode?)
    ensures Step(s, op).Panic? <==> Misuse(s, op).Some?
    ensures Step(s, op).Panic? ==> Step(s, op).fault == Misuse(s, op).value
    ensures Step(s, op).Ok? ==> Inv(Step(s, op).value)
  {
    if Step(s, op).Ok? {
      match op {
        case SpawnTask(n) => SpawnKeeps(s.ex, s.nextId + 1, n);
        case StartNode(n) => LevelKeeps(s.ex, n, Running);
      }
      SameFrames(s, Step(s, op).value);
    }
  }

  lemma PopSafe(s: State, op: Op)
    requires Inv(s) && Enabled(s, op) && (op.StopReturn? || op.StopAllReturn?)
    ensures Step(s, op).Ok? && Inv(Step(s, op).value)
  {
    var t := Step(s, op).value;
    forall i | 0 <= i < |t.frames| ensures FrameInv(t, t.frames[i]) { assert FrameInv(s, s.frames[i]); }
  }

  lemma VisitSafe(s: State, id: Id)
    requires Inv(s) && Enabled(s, StopVisit(id))
    ensures Step(s, StopVisit(id)).Ok? && Inv(Step(s, StopVisit(id)).value)
  {
    var t := Step(s, StopVisit(id)).value;
    assert FrameInv(s, s.frames[|s.frames| - 1]);
    AbortKeeps(s.ex, id);
    forall i | 0 <= i < |t.frames| ensures FrameInv(t, t.frames[i]) { assert FrameInv(s, s.frames[i]); }
  }

  lemma StopNextSafe(s: State)
    requires Inv(s) && Enabled(s, StopAllNext)
    ensures Step(s, StopAllNext).Ok? && Inv(Step(s, StopAllNext).value)
  {
    var f := s.frames[|s.frames| - 1];
    assert FrameInv(s, f);
    var m := s.(frames := Push(Pop(s.frames), f.(next := f.next + 1)));
    forall i | 0 <= i < |m.frames| ensures FrameInv(m, m.frames[i]) { assert FrameInv(s, s.frames[i]); }
    assert Inv(m);
    BeginStopKeeps(m, f.next, true);
  }

  lemma ReturnSafe(s: State, r: PollResult, drops: seq<DropEffect>)
    requires Inv(s) && Enabled(s, Return(r, drops))
    ensures Step(s, Return(r, drops)).Panic? <==> Misuse(s, Return(r, drops)).Some?
    ensures Step(s, Return(r, drops)).Panic? ==> Step(s, Return(r, drops)).fault == BorrowConflict
    ensures Step(s, Return(r, drops)).Ok? ==> Inv(Step(s, Return(r, drops)).value)
  {
    EndPollKeeps(s.ex, r, drops);
    if Step(s, Return(r, drops)).Ok? {
      var e := EndPollState(s.ex, r).value;
      if DropsFuture(s.ex, r) { WakeAllStable(e, WakesOf(drops)); }
    }
  }

  lemma NextKeeps(s: State, op: Op)
    requires Inv(s) && Next(s, op).Some?
    ensures Inv(Next(s, op).value)
  {
    StepSafe(s, op);
  }

  lemma {:induction false} RunKeeps(s: State, ops: seq<Op>, t: State)
    requires Inv(s) && Run(s, ops, t)
    ensures Inv(t)
    decreases |ops|
  {
    if ops != [] {
      NextKeeps(s, ops[0]);
      RunKeeps(Next(s, ops[0]).value, ops[1..], t);
    }
  }

  /** Over every run, whatever user code does: the invariant holds at the end, and
      the next operation hits none of the runtime's own assertions. */
  lemma NoAssertionFires(start: Instant, ops: seq<Op>, t: State, op: Op)
    requires Run(Start(start), ops, t) && Enabled(t, op)
    ensures Inv(t)
    ensures Step(t, op).Panic? ==> !Step(t, op).fault.Internal?
    ensures Step(t, op).Panic? <==> Misuse(t, op).Some?
  {
    StartInv(start);
    RunKeeps(Start(start), ops, t);
    StepSafe(t, op);
  }

  // ----- a panic that user code can reach -----

  /** A Sleep whose deadline has passed at its first poll panics at its second. */
  lemma SleepPolledAgainIsReachable(start: Instant) returns (ops: seq<Op>, t: State)
    ensures Run(Start(start), ops, t)
    ensures Enabled(t, AwaitSleep(0, 1)) && Step(t, AwaitSleep(0, 1)) == Panic(SleepPolledAgain)
  {
    var s0 := Start(start);
    var s1 := Next(s0, SpawnTask(0)).value;
    var s2 := Next(s1, MakeSleep(0, start)).value;
    t := Next(s2, AwaitSleep(0, 1)).value;
    RunCons(s2, AwaitSleep(0, 1), [], t);
    RunCons(s1, MakeSleep(0, start), [AwaitSleep(0, 1)] + [], t);
    RunCons(s0, SpawnTask(0), [MakeSleep(0, start)] + ([AwaitSleep(0, 1)] + []), t);
    ops := [SpawnTask(0)] + ([MakeSleep(0, start)] + ([AwaitSleep(0, 1)] + []));
  }
}
