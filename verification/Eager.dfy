/** The reference executor: abort and completion remove a task at once, so there are
    no dead entries, no cells and only live tasks. It runs the same labels. */
module Eager {
  import opened Types
  import opened Time
  import opened Executor
  import opened Machine

  /** `live` maps each live task to its node; a live task is waiting unless it is
      in `queue`. Only live tasks are queued or left in a stop's `todo`. */
  datatype Eager = Eager(
    queue: seq<Id>,
    live: map<Id, NodeIx>,
    levels: seq<Level>,
    finalStopped: bool,
    polling: Option<Id>,
    verdicts: map<Id, Verdict>,
    clock: Clock,
    nextId: nat,
    trace: seq<Event>,
    frames: seq<Frame>)

  function Without(q: seq<Id>, id: Id): seq<Id> {
    if q == [] then []
    else if q[0] == id then Without(q[1..], id)
    else [q[0]] + Without(q[1..], id)
  }

  function StrikeFrame(f: Frame, id: Id): Frame {
    if f.StopNodeFrame? then f.(todo := f.todo - {id}) else f
  }

  function Strike(frames: seq<Frame>, id: Id): seq<Frame> {
    seq(|frames|, i requires 0 <= i < |frames| => StrikeFrame(frames[i], id))
  }

  /** Remove a task from everywhere at once. */
  function Kill(g: Eager, id: Id): Eager {
    g.(live := g.live - {id}, queue := Without(g.queue, id), frames := Strike(g.frames, id))
  }

  function EWake(g: Eager, id: Id): Eager {
    if id in g.live && id !in g.queue then g.(queue := g.queue + [id]) else g
  }

  function EWakeAll(g: Eager, ids: seq<Id>): Eager
    decreases |ids|
  {
    if ids == [] then g else EWakeAll(EWake(g, ids[0]), ids[1..])
  }

  /** An aborted future is dropped at once unless it is being polled. */
  function EAbort(g: Eager, id: Id): Eager {
    if id !in g.live then g
    else if g.polling == Some(id) then Kill(g, id)
    else Kill(g, id).(verdicts := g.verdicts[id := Dropped])
  }

  function TasksOn(g: Eager, n: NodeIx): set<Id> {
    set id | id in g.live && g.live[id] == n
  }

  function EBeginStop(g: Eager, n: NodeIx, isFinal: bool): Eager
    requires n < |g.levels|
  {
    if g.levels[n].Running? then
      g.(levels := g.levels[n := if isFinal then FinalStopped else Stopped],
         frames := Push(g.frames, StopNodeFrame(n, TasksOn(g, n))))
    else if isFinal then g.(levels := g.levels[n := FinalStopped])
    else g
  }

  function EDrop(g: Eager, drops: seq<DropEffect>): Outcome<Eager> {
    if DropUsesContext in drops then Panic(BorrowConflict) else Ok(EWakeAll(g, WakesOf(drops)))
  }

  function EReturn(g: Eager, result: PollResult, drops: seq<DropEffect>): Outcome<Eager>
    requires g.polling.Some?
  {
    var id := g.polling.value;
    var g1 := g.(polling := None);
    match result
    case Pending =>
      if id in g.live then Ok(g1) else EDrop(g1.(verdicts := g.verdicts[id := Dropped]), drops)
    case Finished(v) =>
      EDrop(Kill(g1, id).(verdicts := g.verdicts[id := Returned(v)]), drops)
  }

  ghost function ETurn(g: Eager, order: seq<SleepKey>): Outcome<Eager> {
    if !g.finalStopped && g.queue != [] then
      Ok(g.(queue := g.queue[1..], polling := Some(g.queue[0]), trace := Push(g.trace, TaskRun(g.queue[0]))))
    else if order == [] then Ok(g)
    else if !AllSleeping(g.clock, order) then Panic(Internal(145))
    else
      Ok(EWakeAll(
        g.(clock := Advance(g.clock, order), trace := Push(g.trace, TimeAdvanced(StepSize(g.clock, order)))),
        Wakers(g.clock, order)))
  }

  ghost predicate EEnabled(g: Eager, op: Op) {
    match op
    case WakeTask(id) => id in g.verdicts
    case SpawnTask(n) => n < |g.levels|
    case AbortTask(id) => id in g.verdicts
    case StopNode(n) => n < |g.levels|
    case StartNode(n) => n < |g.levels|
    case CreateNode => true
    case StopSimulation => true
    case TakeIds(_) => true
    case MakeSleep(k, _) => k !in g.clock.deadlines
    case AwaitSleep(k, w) => k in g.clock.sleeps && w in g.verdicts
    case ForgetSleep(k) => k in g.clock.sleeps
    case StopVisit(id) => g.frames != [] && Top(g.frames).StopNodeFrame? && id in Top(g.frames).todo
    case StopReturn => g.frames != [] && Top(g.frames).StopNodeFrame? && Top(g.frames).todo == {}
    case StopAllNext => g.frames != [] && Top(g.frames).StopAllFrame? && Top(g.frames).next < Top(g.frames).count <= |g.levels|
    case StopAllReturn => g.frames != [] && Top(g.frames).StopAllFrame? && Top(g.frames).next == Top(g.frames).count
    case Turn(order) =>
      && g.polling.None? && g.frames == []
      && IsWakeOrder(g.clock, order)
      && (forall k :: k in order && k in g.clock.sleeps && g.clock.sleeps[k].Sleeping? ==>
            g.clock.sleeps[k].waker in g.verdicts)
    case Return(_, drops) =>
      && g.polling.Some? && g.frames == []
      && g.polling.value in g.verdicts
      && (forall id :: DropWake(id) in drops ==> id in g.verdicts)
  }

  ghost function EStep(g: Eager, op: Op): Outcome<Eager>
    requires EEnabled(g, op)
  {
    match op
    case WakeTask(id) => Ok(EWake(g, id))
    case SpawnTask(n) =>
      if !g.levels[n].Running? then Panic(NodeIsStopped)
      else
        var id := g.nextId + 1;
        Ok(g.(queue := g.queue + [id], live := g.live[id := n], verdicts := g.verdicts[id := Undecided],
              nextId := id, trace := Push(g.trace, TaskSpawned)))
    case AbortTask(id) => Ok(EAbort(g, id))
    case StopNode(n) => Ok(EBeginStop(g, n, false))
    case StartNode(n) =>
      (match g.levels[n]
       case Running => Ok(g)
       case FinalStopped => Panic(StartDuringShutdown)
       case Stopped => Ok(g.(levels := g.levels[n := Running])))
    case CreateNode =>
      if g.finalStopped then Panic(NodeDuringShutdown)
      else Ok(g.(levels := Push(g.levels, Running), trace := Push(g.trace, NodeSpawned(|g.levels|))))
    case StopSimulation =>
      Ok(g.(finalStopped := true, frames := Push(g.frames, StopAllFrame(0, |g.levels|))))
    case TakeIds(n) => Ok(g.(nextId := g.nextId + n))
    case MakeSleep(k, d) => Ok(g.(clock := NewSleep(g.clock, k, d)))
    case AwaitSleep(k, w) =>
      (match PollSleep(g.clock, k, w)
       case Ok((c, _)) => Ok(g.(clock := c))
       case Panic(f) => Panic(f))
    case ForgetSleep(k) => Ok(g.(clock := DropSleep(g.clock, k)))
    case StopVisit(id) => Ok(EAbort(g, id))
    case StopReturn => Ok(g.(frames := Pop(g.frames)))
    case StopAllNext =>
      var f := Top(g.frames);
      Ok(EBeginStop(g.(frames := Push(Pop(g.frames), f.(next := f.next + 1))), f.next, true))
    case StopAllReturn => Ok(g.(frames := Pop(g.frames)))
    case Turn(order) => ETurn(g, order)
    case Return(result, drops) => EReturn(g, result, drops)
  }

  ghost function ENext(g: Eager, op: Op): Option<Eager> {
    if EEnabled(g, op) && EStep(g, op).Ok? then Some(EStep(g, op).value) else None
  }

  ghost predicate ERun(g: Eager, ops: seq<Op>, h: Eager)
    decreases |ops|
  {
    if ops == [] then g == h
    else ENext(g, ops[0]).Some? && ERun(ENext(g, ops[0]).value, ops[1..], h)
  }
}
