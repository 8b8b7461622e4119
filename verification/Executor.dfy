/** The lazily deleting task executor (src/executor.rs), as values.

    Every function follows one block of the source; a failing `unwrap`, `assert!`
    or `unreachable!` there is a `Panic(Internal(line))` here. */
module Executor {
  import opened Types

  datatype TaskState = CompleteReady | Complete | AbortedReady | Aborted | Ready | Waiting

  datatype Level = Running | Stopped | FinalStopped

  datatype Node = Node(level: Level, tasks: set<Id>)

  /** `TaskShared`: lives as long as some waker or handle, so longer than the map entry. */
  datatype Shared = Shared(state: TaskState, node: NodeIx)

  /** The result channel of a task: what its handle sees. */
  datatype Verdict = Undecided | Returned(value: int) | Dropped

  datatype PollResult = Pending | Finished(value: int)

  /** One action of a destructor that runs while the run loop holds the context. */
  datatype DropEffect = DropWake(id: Id) | DropUsesContext

  /** `tasks` is the task map; its value says whether the entry's cell holds the
      future. `shared` has every task ever spawned. `polling` is the task whose
      future the run loop holds in its local variable. */
  datatype Exec = Exec(
    queue: seq<Id>,
    shared: map<Id, Shared>,
    tasks: map<Id, bool>,
    nodes: seq<Node>,
    finalStopped: bool,
    polling: Option<Id>,
    verdicts: map<Id, Verdict>)

  const EmptyExec: Exec := Exec([], map[], map[], [Node(Running, {})], false, None, map[])

  function SetState(e: Exec, id: Id, st: TaskState): Exec
    requires id in e.shared
  {
    e.(shared := e.shared[id := e.shared[id].(state := st)])
  }

  /** `wake_by_ref` */
  function Wake(e: Exec, id: Id): Exec
    requires id in e.shared
  {
    if e.shared[id].state.Waiting? then
      SetState(e, id, Ready).(queue := e.queue + [id])
    else
      e
  }

  function WakeAll(e: Exec, ids: seq<Id>): (r: Exec)
    requires forall id :: id in ids ==> id in e.shared
    ensures r.shared.Keys == e.shared.Keys
    decreases |ids|
  {
    if ids == [] then e else WakeAll(Wake(e, ids[0]), ids[1..])
  }

  /** `Executor::spawn` on a running node, with the fresh id `id`. */
  function Spawn(e: Exec, id: Id, n: NodeIx): Exec
    requires n < |e.nodes|
  {
    var entered := e.(
      shared := e.shared[id := Shared(Waiting, n)],
      tasks := e.tasks[id := true],
      nodes := e.nodes[n := e.nodes[n].(tasks := e.nodes[n].tasks + {id})],
      verdicts := e.verdicts[id := Undecided]);
    Wake(entered, id)
  }

  /** `remove_task_entry` */
  function RemoveEntry(e: Exec, id: Id): (r: Outcome<Exec>)
    ensures r.Ok? ==> r.value.queue == e.queue && r.value.shared == e.shared
  {
    if id !in e.tasks || id !in e.shared then Panic(Internal(315))
    else if e.tasks[id] then Panic(Internal(317))
    else if e.shared[id].node >= |e.nodes| then Panic(Internal(318))
    else
      var n := e.shared[id].node;
      if id !in e.nodes[n].tasks then Panic(Internal(320))
      else Ok(e.(
        tasks := e.tasks - {id},
        nodes := e.nodes[n := e.nodes[n].(tasks := e.nodes[n].tasks - {id})]))
  }

  /** The inner loop of `run_current_context`: drop dead entries off the front of
      the queue until a READY one is found and taken. */
  function PopReady(e: Exec): (r: Outcome<(Exec, Option<Id>)>)
    ensures r.Ok? ==> r.value.0.shared.Keys == e.shared.Keys
    decreases |e.queue|
  {
    if e.queue == [] then Ok((e, None))
    else
      var id := e.queue[0];
      var e1 := e.(queue := e.queue[1..]);
      if id !in e1.tasks || id !in e1.shared then Panic(Internal(339))
      else match e1.shared[id].state
        case Ready =>
          if !e1.tasks[id] then Panic(Internal(342))
          else Ok((SetState(e1, id, Waiting).(tasks := e1.tasks[id := false], polling := Some(id)), Some(id)))
        case CompleteReady =>
          (match RemoveEntry(SetState(e1, id, Complete), id)
           case Ok(e2) => PopReady(e2)
           case Panic(f) => Panic(f))
        case AbortedReady =>
          (match RemoveEntry(SetState(e1, id, Aborted), id)
           case Ok(e2) => PopReady(e2)
           case Panic(f) => Panic(f))
        case _ => Panic(Internal(361))
  }

  /** The closure at the head of the outer loop: nothing is popped after the final stop. */
  function NextTask(e: Exec): (r: Outcome<(Exec, Option<Id>)>)
    ensures r.Ok? ==> r.value.0.shared.Keys == e.shared.Keys
  {
    if e.finalStopped then Ok((e, None)) else PopReady(e)
  }

  /** `abort_local`; true when the caller receives the future and drops it. */
  function AbortLocal(e: Exec, id: Id): (Exec, bool)
    requires id in e.tasks ==> id in e.shared
  {
    if id !in e.tasks then (e, false)
    else
      var st := e.shared[id].state;
      if st.Ready? || st.Waiting? then
        var marked := SetState(e, id, AbortedReady).(
          queue := if st.Waiting? then e.queue + [id] else e.queue,
          tasks := e.tasks[id := false]);
        (if e.tasks[id] then marked.(verdicts := e.verdicts[id := Dropped]) else marked, e.tasks[id])
      else
        (e, false)
  }

  function Abort(e: Exec, id: Id): Exec
    requires id in e.tasks ==> id in e.shared
  {
    AbortLocal(e, id).0
  }

  function WakesOf(drops: seq<DropEffect>): (w: seq<Id>)
    ensures forall id :: id in w <==> DropWake(id) in drops
  {
    if drops == [] then []
    else (match drops[0] case DropWake(id) => [id] case DropUsesContext => []) + WakesOf(drops[1..])
  }

  /** The destructor that performs just these wakes. */
  function DropWakes(ids: seq<Id>): (drops: seq<DropEffect>)
    ensures DropUsesContext !in drops && WakesOf(drops) == ids
    ensures forall id :: DropWake(id) in drops ==> id in ids
  {
    if ids == [] then [] else [DropWake(ids[0])] + DropWakes(ids[1..])
  }

  /** `drop(task)` inside `with_cx`: wakers only need the queue, anything else
      finds the context already borrowed. */
  function DropUnderBorrow(e: Exec, drops: seq<DropEffect>): Outcome<Exec>
    requires forall id :: DropWake(id) in drops ==> id in e.shared
  {
    if DropUsesContext in drops then Panic(BorrowConflict)
    else Ok(WakeAll(e, WakesOf(drops)))
  }

  /** What the run loop does after `Task::run` returned. `drops` is what the
      future's destructor does, if the future is dropped here. */
  function EndPoll(e: Exec, result: PollResult, drops: seq<DropEffect>): Outcome<Exec>
    requires e.polling.Some? && e.polling.value in e.shared && e.polling.value in e.verdicts
    requires forall id :: DropWake(id) in drops ==> id in e.shared
  {
    var id := e.polling.value;
    var e1 := e.(polling := None);
    match result
    case Pending =>
      (match e.shared[id].state
       case AbortedReady => DropUnderBorrow(e1.(verdicts := e.verdicts[id := Dropped]), drops)
       case Waiting => PutBack(e1, id)
       case Ready => PutBack(e1, id)
       case _ => Panic(Internal(394)))
    case Finished(v) =>
      if !e.verdicts[id].Undecided? then Panic(Internal(116))
      else
        var e2 := e1.(verdicts := e.verdicts[id := Returned(v)]);
        (match e.shared[id].state
         case Waiting =>
           (match RemoveEntry(SetState(e2, id, Complete), id)
            case Ok(e3) => DropUnderBorrow(e3, drops)
            case Panic(f) => Panic(f))
         case Ready => DropUnderBorrow(SetState(e2, id, CompleteReady), drops)
         case AbortedReady => DropUnderBorrow(SetState(e2, id, CompleteReady), drops)
         case _ => Panic(Internal(404)))
  }

  function PutBack(e: Exec, id: Id): Outcome<Exec> {
    if id !in e.tasks then Panic(Internal(389))
    else if e.tasks[id] then Panic(Internal(390))
    else Ok(e.(tasks := e.tasks[id := true]))
  }

  // ----- the invariant the code never states -----

  predicate Queued(st: TaskState) { st.Ready? || st.AbortedReady? || st.CompleteReady? }

  predicate Live(st: TaskState) { st.Ready? || st.Waiting? }

  predicate Gone(st: TaskState) { st.Complete? || st.Aborted? }

  /** What holds of one id: it is queued iff its state says so, the map holds it
      until it is gone, the node sets agree with the map, the cell is empty iff
      the task is running or dead, and the result channel is undecided exactly
      while the future exists and holds a value exactly for completed tasks. */
  ghost predicate TaskInv(e: Exec, id: Id) {
    && (id in e.queue <==> (id in e.shared && Queued(e.shared[id].state)))
    && (id in e.tasks <==> (id in e.shared && !Gone(e.shared[id].state)))
    && (id in e.verdicts <==> id in e.shared)
    && (forall n :: 0 <= n < |e.nodes| ==>
          (id in e.nodes[n].tasks <==> (id in e.tasks && e.shared[id].node == n)))
    && (id in e.tasks ==> (e.tasks[id] <==> (Live(e.shared[id].state) && e.polling != Some(id))))
    && (id in e.shared ==>
          && e.shared[id].node < |e.nodes|
          && (e.verdicts[id].Undecided? <==> (Live(e.shared[id].state) || e.polling == Some(id)))
          && (e.verdicts[id].Returned? <==> (e.shared[id].state.Complete? || e.shared[id].state.CompleteReady?)))
  }

  /** The running task is waiting, woken or aborted, and never already complete. */
  ghost predicate PollInv(e: Exec) {
    e.polling.Some? ==>
      && e.polling.value in e.shared
      && (Live(e.shared[e.polling.value].state) || e.shared[e.polling.value].state.AbortedReady?)
  }

  /** The global invariant that the assertions of the run loop rely on. */
  ghost predicate ExecInv(e: Exec) {
    && NoDuplicates(e.queue)
    && PollInv(e)
    && forall id :: TaskInv(e, id)
  }

  lemma EmptyExecInv()
    ensures ExecInv(EmptyExec)
  {}

  lemma WakeKeeps(e: Exec, id: Id)
    requires ExecInv(e) && id in e.shared
    ensures ExecInv(Wake(e, id))
  {
    assert TaskInv(e, id);
    forall x ensures TaskInv(Wake(e, id), x) { assert TaskInv(e, x); }
  }

  lemma {:induction false} WakeAllKeeps(e: Exec, ids: seq<Id>)
    requires ExecInv(e) && forall id :: id in ids ==> id in e.shared
    ensures ExecInv(WakeAll(e, ids))
    decreases |ids|
  {
    if ids != [] {
      WakeKeeps(e, ids[0]);
      WakeAllKeeps(Wake(e, ids[0]), ids[1..]);
    }
  }

  lemma SpawnKeeps(e: Exec, id: Id, n: NodeIx)
    requires ExecInv(e) && id !in e.shared && n < |e.nodes|
    ensures ExecInv(Spawn(e, id, n))
  {
    assert TaskInv(e, id);
    forall x ensures TaskInv(Spawn(e, id, n), x) { assert TaskInv(e, x); }
  }

  lemma AbortKeeps(e: Exec, id: Id)
    requires ExecInv(e)
    ensures id in e.tasks ==> id in e.shared
    ensures ExecInv(Abort(e, id))
  {
    assert TaskInv(e, id);
    forall x ensures TaskInv(Abort(e, id), x) { assert TaskInv(e, x); }
  }

  lemma TailMembers(q: seq<Id>)
    requires q != [] && NoDuplicates(q)
    ensures NoDuplicates(q[1..])
    ensures forall x :: x in q[1..] <==> x in q && x != q[0]
  {
    forall x | x in q && x != q[0] ensures x in q[1..] {
      var i :| 0 <= i < |q| && q[i] == x;
      assert q[1..][i - 1] == x;
    }
  }

  /** The executor after the run loop has discarded the dead task at the head of the queue. */
  function Discard(e: Exec): Outcome<Exec>
    requires e.queue != [] && e.queue[0] in e.shared
  {
    var id := e.queue[0];
    var st := if e.shared[id].state.CompleteReady? then Complete else Aborted;
    RemoveEntry(SetState(e.(queue := e.queue[1..]), id, st), id)
  }

  /** Popping a dead entry removes its map entry and keeps everything else. */
  lemma DiscardKeeps(e: Exec)
    requires ExecInv(e) && e.queue != [] && e.polling.None?
    requires e.queue[0] in e.shared && !e.shared[e.queue[0]].state.Ready?
    ensures e.shared[e.queue[0]].state.CompleteReady? || e.shared[e.queue[0]].state.AbortedReady?
    ensures e.queue[0] in e.tasks
    ensures Discard(e).Ok? && ExecInv(Discard(e).value)
  {
    var id := e.queue[0];
    assert id in e.queue && TaskInv(e, id);
    TailMembers(e.queue);
    var e' := Discard(e).value;
    forall x ensures TaskInv(e', x) { assert TaskInv(e, x); }
  }

  lemma TakeReady(e: Exec)
    requires ExecInv(e) && e.queue != [] && e.polling.None?
    requires e.queue[0] in e.shared && e.shared[e.queue[0]].state.Ready?
    ensures PopReady(e).Ok? && PopReady(e).value.1 == Some(e.queue[0])
    ensures ExecInv(PopReady(e).value.0)
  {
    var id := e.queue[0];
    assert id in e.queue && TaskInv(e, id);
    TailMembers(e.queue);
    var e' := PopReady(e).value.0;
    forall x ensures TaskInv(e', x) { assert TaskInv(e, x); }
  }

  lemma {:induction false} PopReadyKeeps(e: Exec)
    requires ExecInv(e) && e.polling.None?
    ensures PopReady(e).Ok? && ExecInv(PopReady(e).value.0)
    decreases |e.queue|
  {
    if e.queue != [] {
      assert e.queue[0] in e.queue && TaskInv(e, e.queue[0]);
      if e.shared[e.queue[0]].state.Ready? {
        TakeReady(e);
      } else {
        DiscardKeeps(e);
        PopReadyKeeps(Discard(e).value);
      }
    }
  }

  /** Whether the run loop drops the future at the end of this poll. */
  ghost predicate DropsFuture(e: Exec, result: PollResult)
    requires PollInv(e) && e.polling.Some?
  {
    result.Finished? || e.shared[e.polling.value].state.AbortedReady?
  }

  /** The executor after the poll, before a dropped future's destructor has run. */
  function EndPollState(e: Exec, result: PollResult): Outcome<Exec>
    requires e.polling.Some? && e.polling.value in e.shared && e.polling.value in e.verdicts
  {
    EndPoll(e, result, [])
  }

  lemma PendingKeeps(e: Exec)
    requires ExecInv(e) && e.polling.Some? && TaskInv(e, e.polling.value)
    ensures EndPollState(e, Pending).Ok? && ExecInv(EndPollState(e, Pending).value)
  {
    var e' := EndPollState(e, Pending).value;
    forall x ensures TaskInv(e', x) { assert TaskInv(e, x); }
  }

  lemma FinishedKeeps(e: Exec, value: int)
    requires ExecInv(e) && e.polling.Some? && TaskInv(e, e.polling.value)
    ensures EndPollState(e, Finished(value)).Ok? && ExecInv(EndPollState(e, Finished(value)).value)
  {
    var e' := EndPollState(e, Finished(value)).value;
    forall x ensures TaskInv(e', x) { assert TaskInv(e, x); }
  }

  lemma EndPollStateKeeps(e: Exec, result: PollResult)
    requires ExecInv(e) && e.polling.Some?
    ensures TaskInv(e, e.polling.value)
    ensures EndPollState(e, result).Ok? && ExecInv(EndPollState(e, result).value)
  {
    assert TaskInv(e, e.polling.value);
    match result
    case Pending => PendingKeeps(e);
    case Finished(v) => FinishedKeeps(e, v);
  }

  /** None of the assertions after a poll can fire; the poll ends in a panic exactly
      when a future is dropped there whose destructor needs the context. */
  lemma EndPollKeeps(e: Exec, result: PollResult, drops: seq<DropEffect>)
    requires ExecInv(e) && e.polling.Some?
    requires forall id :: DropWake(id) in drops ==> id in e.shared
    ensures TaskInv(e, e.polling.value)
    ensures EndPoll(e, result, drops).Panic? <==> (DropsFuture(e, result) && DropUsesContext in drops)
    ensures EndPoll(e, result, drops).Panic? ==> EndPoll(e, result, drops).fault == BorrowConflict
    ensures EndPoll(e, result, drops).Ok? ==> ExecInv(EndPoll(e, result, drops).value)
    ensures EndPoll(e, result, drops).Ok? ==>
              && EndPollState(e, result).Ok?
              && EndPollState(e, result).value.shared.Keys == e.shared.Keys
              && EndPoll(e, result, drops).value ==
                 if DropsFuture(e, result) then WakeAll(EndPollState(e, result).value, WakesOf(drops))
                 else EndPollState(e, result).value
  {
    EndPollStateKeeps(e, result);
    if DropUsesContext !in drops {
      WakeAllKeeps(EndPollState(e, result).value, WakesOf(drops));
    }
  }
}
