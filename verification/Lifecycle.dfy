/** Nodes and tasks over whole runs: how long a node runs or stays stopped, what a spawn does, and
    what the recorded events tell. */
module Lifecycle {
  import opened Types
  import opened Executor
  import opened Machine
  import opened Eager
  import opened Refinement
  import opened Shutdown
  import opened Wakeups

  /** How one label changes the run levels. */
  lemma LevelStep(g: Eager, op: Op, n: NodeIx)
    requires Tidy(g) && ENext(g, op).Some? && n < |g.levels|
    ensures var h := ENext(g, op).value;
            && n < |h.levels|
            && (g.levels[n].FinalStopped? ==> h.levels[n].FinalStopped? && op != StartNode(n))
            && (g.levels[n].Running? && op != StopNode(n) && !op.StopAllNext? ==> h.levels[n].Running?)
            && (!g.levels[n].Running? && op != StartNode(n) ==> !h.levels[n].Running?)
            && (!g.levels[n].FinalStopped? && !op.StopAllNext? ==> !h.levels[n].FinalStopped?)
            && (op == StartNode(n) ==> h.levels[n].Running?)
            && (op == StopNode(n) ==> !h.levels[n].Running?)
  {
    match op {
      case Turn(order) => if (g.finalStopped || g.queue == []) && order != [] { AdvanceShape(g, order); }
      case Return(r, drops) => ReturnShape(g, r, drops);
      case _ =>
    }
  }

  lemma LevelNext(s: State, op: Op, n: NodeIx)
    requires Inv(s) && Next(s, op).Some? && n < |s.ex.nodes|
    ensures var t, before := Next(s, op).value, s.ex.nodes[n].level;
            && Inv(t) && n < |t.ex.nodes|
            && var after := t.ex.nodes[n].level;
            && (before.FinalStopped? ==> after.FinalStopped? && op != StartNode(n))
            && (before.Running? && op != StopNode(n) && !op.StopAllNext? ==> after.Running?)
            && (!before.Running? && op != StartNode(n) ==> !after.Running?)
            && (!before.FinalStopped? && !op.StopAllNext? ==> !after.FinalStopped?)
            && (op == StartNode(n) ==> after.Running?)
            && (op == StopNode(n) ==> !after.Running?)
  {
    NextLockstep(s, op);
    AbsTidy(s);
    LevelStep(Abs(s), op, n);
    var t := Next(s, op).value;
    assert Abs(s).levels[n] == s.ex.nodes[n].level;
    assert Abs(t).levels[n] == t.ex.nodes[n].level;
  }

  /** A node that does not run stays so until it is started, and every spawn on it panics. */
  lemma {:induction false} StoppedStays(s: State, ops: seq<Op>, t: State, n: NodeIx)
    requires Inv(s) && Run(s, ops, t) && n < |s.ex.nodes| && !s.ex.nodes[n].level.Running? && StartNode(n) !in ops
    ensures n < |t.ex.nodes| && !t.ex.nodes[n].level.Running?
    ensures Enabled(t, SpawnTask(n)) && Step(t, SpawnTask(n)) == Panic(NodeIsStopped)
    decreases |ops|
  {
    if ops != [] {
      assert ops[0] in ops;
      LevelNext(s, ops[0], n);
      StoppedStays(Next(s, ops[0]).value, ops[1..], t, n);
    }
  }

  /** A node that runs does so until it is stopped, alone or with the simulation, and every spawn on
      it succeeds. */
  lemma {:induction false} RunningStays(s: State, ops: seq<Op>, t: State, n: NodeIx)
    requires Inv(s) && Run(s, ops, t) && n < |s.ex.nodes| && s.ex.nodes[n].level.Running?
    requires StopNode(n) !in ops && StopAllNext !in ops
    ensures n < |t.ex.nodes| && t.ex.nodes[n].level.Running? && Next(t, SpawnTask(n)).Some?
    decreases |ops|
  {
    if ops != [] {
      assert ops[0] in ops;
      LevelNext(s, ops[0], n);
      RunningStays(Next(s, ops[0]).value, ops[1..], t, n);
    }
  }

  /** A finally stopped node is never started again. */
  lemma {:induction false} FinalStays(s: State, ops: seq<Op>, t: State, n: NodeIx)
    requires Inv(s) && Run(s, ops, t) && n < |s.ex.nodes| && s.ex.nodes[n].level.FinalStopped?
    ensures n < |t.ex.nodes| && t.ex.nodes[n].level.FinalStopped? && StartNode(n) !in ops
    ensures Enabled(t, StartNode(n)) && Step(t, StartNode(n)) == Panic(StartDuringShutdown)
    ensures Enabled(t, SpawnTask(n)) && Step(t, SpawnTask(n)) == Panic(NodeIsStopped)
    decreases |ops|
  {
    if ops != [] {
      LevelNext(s, ops[0], n);
      FinalStays(Next(s, ops[0]).value, ops[1..], t, n);
      assert ops == [ops[0]] + ops[1..];
    }
  }

  /** Unless the simulation stops, a node can be started at any time, however often it was stopped,
      and runs then. */
  lemma {:induction false} CanStartAgain(s: State, ops: seq<Op>, t: State, n: NodeIx)
    requires Inv(s) && Run(s, ops, t) && n < |s.ex.nodes| && !s.ex.nodes[n].level.FinalStopped? && StopAllNext !in ops
    ensures n < |t.ex.nodes| && Next(t, StartNode(n)).Some?
    ensures var u := Next(t, StartNode(n)).value; n < |u.ex.nodes| && u.ex.nodes[n].level.Running?
    decreases |ops|
  {
    if ops == [] {
      LevelNext(s, StartNode(n), n);
    } else {
      assert ops[0] in ops;
      LevelNext(s, ops[0], n);
      CanStartAgain(Next(s, ops[0]).value, ops[1..], t, n);
    }
  }

  /** Stop and start: whatever follows a stop, until the node is started every spawn on it panics;
      whatever follows a start, until the node is stopped every spawn succeeds. */
  lemma StopAndStart(s: State, op: Op, ops: seq<Op>, t: State, n: NodeIx)
    requires Inv(s) && Next(s, op).Some? && Run(Next(s, op).value, ops, t)
    requires (op == StopNode(n) && StartNode(n) !in ops) || (op == StartNode(n) && StopNode(n) !in ops && StopAllNext !in ops)
    ensures Enabled(t, SpawnTask(n)) && (Step(t, SpawnTask(n)).Ok? <==> op.StartNode?)
  {
    LevelNext(s, op, n);
    if op.StopNode? { StoppedStays(Next(s, op).value, ops, t, n); } else { RunningStays(Next(s, op).value, ops, t, n); }
  }

  /** A new task has a fresh id, belongs to its node, is live and undecided, and is queued once and
      behind all others, which stay as they are. */
  lemma SpawnQueuesLast(s: State, n: NodeIx)
    requires Inv(s) && Next(s, SpawnTask(n)).Some?
    ensures var t, id := Next(s, SpawnTask(n)).value, s.nextId + 1;
            && id !in s.ex.shared && t.nextId == id && t.trace == s.trace + [TaskSpawned]
            && IsLive(t.ex, id) && t.ex.shared[id].node == n && id in t.ex.nodes[n].tasks
            && id in t.ex.verdicts && t.ex.verdicts[id].Undecided?
            && (forall x :: x in s.ex.shared ==> x in t.ex.shared && t.ex.shared[x] == s.ex.shared[x])
    ensures Abs(Next(s, SpawnTask(n)).value).queue == Abs(s).queue + [s.nextId + 1] && s.nextId + 1 !in Abs(s).queue
  {
    SpawnedIsQueued(s, n);
    assert TaskInv(s.ex, s.nextId + 1);
  }

  lemma SpawnedIsQueued(s: State, n: NodeIx)
    requires Inv(s) && Next(s, SpawnTask(n)).Some?
    ensures Abs(Next(s, SpawnTask(n)).value).queue == Abs(s).queue + [s.nextId + 1] && s.nextId + 1 !in Abs(s).queue
  {
    AbsSpawn(s, n);
    AbsTidy(s);
  }

  /** An abort ends the task at once: it is not live and not queued, and unless it is being polled
      its handle yields `TaskAborted`. Other tasks stay. */
  lemma AbortEnds(s: State, id: Id)
    requires Inv(s) && id in s.ex.shared
    ensures Next(s, AbortTask(id)).Some?
    ensures var t := Next(s, AbortTask(id)).value;
            && !IsLive(t.ex, id) && id !in Abs(t).queue && id in s.ex.verdicts && id in t.ex.verdicts
            && t.ex.verdicts[id] == (if IsLive(s.ex, id) && s.ex.polling != Some(id) then Dropped else s.ex.verdicts[id])
            && t.trace == s.trace
            && (forall x :: x in s.ex.shared && x != id ==> x in t.ex.shared && t.ex.shared[x] == s.ex.shared[x])
  {
    assert TaskInv(s.ex, id);
    NextLockstep(s, AbortTask(id));
    AbsTidy(Next(s, AbortTask(id)).value);
  }

  /** An id that is out of the counter and no task's. */
  predicate IsTaken(g: Eager, id: Id) {
    id <= g.nextId && id !in g.verdicts
  }

  lemma IdsStep(g: Eager, op: Op)
    requires Tidy(g) && ENext(g, op).Some?
    ensures ENext(g, op).value.nextId ==
            g.nextId + (match op case SpawnTask(_) => 1 case TakeIds(n) => n case _ => 0)
  {
    match op {
      case Turn(order) => if (g.finalStopped || g.queue == []) && order != [] { AdvanceShape(g, order); }
      case Return(r, drops) => ReturnShape(g, r, drops);
      case _ =>
    }
  }

  lemma {:induction false} TakenStays(s: State, ops: seq<Op>, t: State, id: Id)
    requires Inv(s) && Run(s, ops, t) && IsTaken(Abs(s), id)
    ensures IsTaken(Abs(t), id)
    decreases |ops|
  {
    if ops != [] {
      NextLockstep(s, ops[0]);
      AbsTidy(s);
      IdsStep(Abs(s), ops[0]);
      PopulationStep(Abs(s), ops[0]);
      TakenStays(Next(s, ops[0]).value, ops[1..], t, id);
    }
  }

  /** Ids that a program takes for itself are never given to a task, before or after. */
  lemma TakenIdsAreUnique(s: State, count: nat, ops: seq<Op>, t: State, id: Id)
    requires Inv(s) && Next(s, TakeIds(count)).Some? && Run(Next(s, TakeIds(count)).value, ops, t)
    requires s.nextId < id <= s.nextId + count
    ensures id !in t.ex.shared
  {
    var m := Next(s, TakeIds(count)).value;
    NextLockstep(s, TakeIds(count));
    AbsTidy(s);
    IdsStep(Abs(s), TakeIds(count));
    PopulationStep(Abs(s), TakeIds(count));
    TakenStays(m, ops, t, id);
    Refines(m, ops, t);
    assert TaskInv(t.ex, id);
  }

  /** A new node runs and has no tasks; its index is the next one, and the other nodes stay. */
  lemma NewNodeRuns(s: State, ops: seq<Op>, t: State)
    requires Inv(s) && Next(s, CreateNode).Some? && Run(Next(s, CreateNode).value, ops, t)
    requires StopNode(|s.ex.nodes|) !in ops && StopAllNext !in ops
    ensures var m, n := Next(s, CreateNode).value, |s.ex.nodes|;
            && m.ex.nodes == s.ex.nodes + [Node(Running, {})] && m.trace == s.trace + [NodeSpawned(n)]
            && Next(t, SpawnTask(n)).Some?
  {
    NextLockstep(s, CreateNode);
    RunningStays(Next(s, CreateNode).value, ops, t, |s.ex.nodes|);
  }

  // ----- what the recorded events tell -----

  function Spawned(trace: seq<Event>): nat {
    if trace == [] then 0 else Spawned(Pop(trace)) + if Top(trace).TaskSpawned? then 1 else 0
  }

  /** The nodes that NodeSpawned events name, in order. */
  function NodesSpawned(trace: seq<Event>): seq<NodeIx> {
    if trace == [] then []
    else NodesSpawned(Pop(trace)) + if Top(trace).NodeSpawned? then [Top(trace).node] else []
  }

  /** 1, 2, ..., n */
  function UpTo(n: nat): (s: seq<NodeIx>)
    ensures |s| == n && forall i :: 0 <= i < n ==> s[i] == i + 1
  {
    seq(n, i => i + 1)
  }

  /** There is one TaskSpawned event for each task; the NodeSpawned events name the nodes after the
      first, each once and in order; and only tasks that were spawned are run. */
  ghost predicate Tells(g: Eager) {
    && Spawned(g.trace) == |g.verdicts|
    && |g.levels| > 0 && NodesSpawned(g.trace) == UpTo(|g.levels| - 1)
    && (forall i :: 0 <= i < |g.trace| && g.trace[i].TaskRun? ==> g.trace[i].id in g.verdicts)
  }

  lemma PushTells(trace: seq<Event>, e: Event)
    ensures Spawned(trace + [e]) == Spawned(trace) + if e.TaskSpawned? then 1 else 0
    ensures NodesSpawned(trace + [e]) == NodesSpawned(trace) + if e.NodeSpawned? then [e.node] else []
  {
    assert Pop(trace + [e]) == trace;
  }

  /** Which tasks and nodes there are after a label. */
  lemma PopulationStep(g: Eager, op: Op)
    requires Tidy(g) && ENext(g, op).Some?
    ensures var h := ENext(g, op).value;
            && |h.levels| == |g.levels| + (if op.CreateNode? then 1 else 0)
            && h.verdicts.Keys == g.verdicts.Keys + (if op.SpawnTask? then {g.nextId + 1} else {})
  {
    match op {
      case Turn(order) => if (g.finalStopped || g.queue == []) && order != [] { AdvanceShape(g, order); }
      case Return(r, drops) => ReturnShape(g, r, drops);
      case _ =>
    }
  }

  /** The event of a label, if it has one, and the tasks and nodes there are afterwards. */
  ghost predicate EventTells(g: Eager, e: seq<Event>, h: Eager) {
    && |e| <= 1 && h.trace == g.trace + e
    && |h.levels| == |g.levels| + (if e != [] && e[0].NodeSpawned? then 1 else 0)
    && |h.verdicts| == |g.verdicts| + (if e != [] && e[0].TaskSpawned? then 1 else 0)
    && g.verdicts.Keys <= h.verdicts.Keys
    && (e != [] && e[0].NodeSpawned? ==> e[0].node == |g.levels|)
    && (e != [] && e[0].TaskRun? ==> e[0].id in g.verdicts)
  }

  lemma EmittedTells(g: Eager, op: Op)
    requires Tidy(g) && ENext(g, op).Some?
    ensures EventTells(g, Emitted(g, op), ENext(g, op).value)
  {
    PopulationStep(g, op);
    StepEmits(g, op);
    var h := ENext(g, op).value;
    assert |h.verdicts| == |h.verdicts.Keys| && |g.verdicts| == |g.verdicts.Keys|;
    if op.Turn? && !g.finalStopped && g.queue != [] { assert g.queue[0] in g.queue; }
  }

  lemma TellsStep(g: Eager, e: seq<Event>, h: Eager)
    requires Tells(g) && EventTells(g, e, h)
    ensures Tells(h)
  {
    if e == [] {
      assert h.trace == g.trace;
    } else {
      assert e == [e[0]];
      PushTells(g.trace, e[0]);
      assert UpTo(|g.levels|) == UpTo(|g.levels| - 1) + [|g.levels|];
    }
    forall i | 0 <= i < |h.trace| && h.trace[i].TaskRun? ensures h.trace[i].id in h.verdicts {
      if i < |g.trace| { assert h.trace[i] == g.trace[i]; }
    }
  }

  lemma {:induction false} TellsRun(s: State, ops: seq<Op>, t: State)
    requires Inv(s) && Run(s, ops, t) && Tells(Abs(s))
    ensures Tells(Abs(t))
    decreases |ops|
  {
    if ops != [] {
      NextLockstep(s, ops[0]);
      AbsTidy(s);
      EmittedTells(Abs(s), ops[0]);
      TellsStep(Abs(s), Emitted(Abs(s), ops[0]), Abs(Next(s, ops[0]).value));
      TellsRun(Next(s, ops[0]).value, ops[1..], t);
    }
  }

  /** Over every run of the simulation. */
  lemma TraceTells(start: Instant, ops: seq<Op>, t: State)
    requires Run(Start(start), ops, t)
    ensures Spawned(t.trace) == |t.ex.verdicts|
    ensures |t.ex.nodes| > 0 && NodesSpawned(t.trace) == UpTo(|t.ex.nodes| - 1)
    ensures forall i :: 0 <= i < |t.trace| && t.trace[i].TaskRun? ==> t.trace[i].id in t.ex.verdicts
  {
    StartInv(start);
    TellsRun(Start(start), ops, t);
  }
}
