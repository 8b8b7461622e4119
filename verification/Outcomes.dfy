/** What a task handle sees: the outcome of a task is decided once, and by its last poll. */
module Outcomes {
  import opened Types
  import opened Executor
  import opened Machine
  import opened Safety
  import opened Eager
  import opened Refinement
  import opened Shutdown
  import opened Wakeups

  /** Some poll of `id` in the run returned `v`. */
  ghost predicate PolledReady(s: State, ops: seq<Op>, id: Id, v: int)
    decreases |ops|
  {
    && ops != [] && Next(s, ops[0]).Some?
    && (|| (ops[0].Return? && ops[0].result == Finished(v) && s.ex.polling == Some(id))
        || PolledReady(Next(s, ops[0]).value, ops[1..], id, v))
  }

  /** One label and one handle: a decided outcome stays; an undecided one becomes a value
      exactly when the task's own poll returns it, else it can only become `Dropped`. */
  lemma OutcomeStep(g: Eager, op: Op, id: Id)
    requires Tidy(g) && ENext(g, op).Some?
    ensures var h := ENext(g, op).value;
            && (id in g.verdicts ==> id in h.verdicts)
            && (id in g.verdicts && !g.verdicts[id].Undecided? ==> h.verdicts[id] == g.verdicts[id])
            && (op.Return? && op.result.Finished? && g.polling == Some(id) ==>
                  id in h.verdicts && h.verdicts[id] == Returned(op.result.value))
            && (id in h.verdicts && h.verdicts[id].Returned? && !(id in g.verdicts && g.verdicts[id].Returned?) ==>
                  op.Return? && op.result == Finished(h.verdicts[id].value) && g.polling == Some(id))
            && (op.Return? && op.result.Finished? && g.polling == Some(id) ==> id in g.verdicts && g.verdicts[id].Undecided?)
  {
    match op {
      case Turn(order) =>
        if (g.finalStopped || g.queue == []) && order != [] { AdvanceShape(g, order); }
      case Return(r, drops) => ReturnShape(g, r, drops);
      case _ =>
    }
  }

  lemma OutcomeNext(s: State, op: Op, id: Id, v: int)
    requires Inv(s) && Next(s, op).Some?
    ensures Inv(Next(s, op).value)
    ensures var t := Next(s, op).value;
            var ready := op.Return? && op.result == Finished(v) && s.ex.polling == Some(id);
            (id in t.ex.verdicts && t.ex.verdicts[id] == Returned(v))
            <==> ((id in s.ex.verdicts && s.ex.verdicts[id] == Returned(v)) || ready)
  {
    NextLockstep(s, op);
    AbsTidy(s);
    OutcomeStep(Abs(s), op, id);
  }

  /** Over every run, a handle yields `Ok(v)` iff some poll of its task returned `v`,
      also if the task was woken or aborted during that poll. */
  lemma {:induction false} ValueIffReturned(s: State, ops: seq<Op>, t: State, id: Id, v: int)
    requires Inv(s) && Run(s, ops, t)
    ensures (id in t.ex.verdicts && t.ex.verdicts[id] == Returned(v))
            <==> ((id in s.ex.verdicts && s.ex.verdicts[id] == Returned(v)) || PolledReady(s, ops, id, v))
    decreases |ops|
  {
    if ops != [] {
      OutcomeNext(s, ops[0], id, v);
      ValueIffReturned(Next(s, ops[0]).value, ops[1..], t, id, v);
    }
  }

  /** The three outcomes of a handle in a reachable state: a value iff a poll returned it,
      nothing yet iff the task lives or is being polled, and otherwise `TaskAborted`. */
  lemma HandleOutcome(start: Instant, ops: seq<Op>, t: State, id: Id)
    requires Run(Start(start), ops, t) && id in t.ex.shared
    ensures id in t.ex.verdicts
    ensures forall v :: t.ex.verdicts[id] == Returned(v) <==> PolledReady(Start(start), ops, id, v)
    ensures t.ex.verdicts[id].Undecided? <==> (IsLive(t.ex, id) || t.ex.polling == Some(id))
    ensures t.ex.verdicts[id].Dropped? <==>
              (!IsLive(t.ex, id) && t.ex.polling != Some(id) && forall v :: !PolledReady(Start(start), ops, id, v))
  {
    StartInv(start);
    RunKeeps(Start(start), ops, t);
    assert TaskInv(t.ex, id);
    forall v ensures t.ex.verdicts[id] == Returned(v) <==> PolledReady(Start(start), ops, id, v) {
      ValueIffReturned(Start(start), ops, t, id, v);
    }
    assert t.ex.verdicts[id].Returned? ==> t.ex.verdicts[id] == Returned(t.ex.verdicts[id].value);
  }

  lemma {:induction false} DecidedForever(s: State, ops: seq<Op>, t: State, id: Id)
    requires Inv(s) && Run(s, ops, t) && id in s.ex.verdicts && !s.ex.verdicts[id].Undecided?
    ensures id in t.ex.verdicts && t.ex.verdicts[id] == s.ex.verdicts[id]
    decreases |ops|
  {
    if ops != [] {
      NextLockstep(s, ops[0]);
      AbsTidy(s);
      OutcomeStep(Abs(s), ops[0], id);
      DecidedForever(Next(s, ops[0]).value, ops[1..], t, id);
    }
  }

  lemma DeadTurn(g: Eager, order: seq<SleepKey>, id: Id)
    requires Tidy(g) && ENext(g, Turn(order)).Some? && id !in g.live
    ensures id !in ENext(g, Turn(order)).value.live && Runs(id, Emitted(g, Turn(order))) == 0
  {
    if (g.finalStopped || g.queue == []) && order != [] { AdvanceShape(g, order); }
    else if g.queue != [] { assert g.queue[0] in g.queue; }
  }

  lemma DeadStep(g: Eager, op: Op, id: Id)
    requires Tidy(g) && ENext(g, op).Some? && id in g.verdicts && id !in g.live
    ensures id in ENext(g, op).value.verdicts && id !in ENext(g, op).value.live
    ensures Runs(id, Emitted(g, op)) == 0
  {
    OutcomeStep(g, op, id);
    match op {
      case Turn(order) => DeadTurn(g, order, id);
      case Return(r, drops) => ReturnShape(g, r, drops);
      case _ =>
    }
  }

  /** A task that was aborted or completed is never run again and never comes back. */
  lemma {:induction false} DeadStaysDead(s: State, ops: seq<Op>, t: State, id: Id) returns (gained: seq<Event>)
    requires Inv(s) && Run(s, ops, t) && id in s.ex.shared && !IsLive(s.ex, id)
    ensures id in t.ex.shared && !IsLive(t.ex, id)
    ensures t.trace == s.trace + gained && Runs(id, gained) == 0
    decreases |ops|
  {
    gained := [];
    if ops != [] {
      var s1 := DeadNext(s, ops[0], id);
      var later := DeadStaysDead(s1, ops[1..], t, id);
      var emitted := Emitted(Abs(s), ops[0]);
      RunsConcat(id, emitted, later);
      Regroup(s.trace, emitted, later);
      gained := emitted + later;
    }
  }

  lemma DeadNext(s: State, op: Op, id: Id) returns (s1: State)
    requires Inv(s) && Next(s, op).Some? && id in s.ex.shared && !IsLive(s.ex, id)
    ensures Next(s, op) == Some(s1) && Inv(s1) && id in s1.ex.shared && !IsLive(s1.ex, id)
    ensures s1.trace == s.trace + Emitted(Abs(s), op) && Runs(id, Emitted(Abs(s), op)) == 0
  {
    s1 := Next(s, op).value;
    assert TaskInv(s.ex, id);
    NextLockstep(s, op);
    AbsTidy(s);
    StepEmits(Abs(s), op);
    DeadStep(Abs(s), op, id);
    assert TaskInv(s1.ex, id);
    assert id !in LiveTasks(s1.ex);
  }
}
