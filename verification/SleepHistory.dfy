/** The state of a Sleep in terms of its history: when it was first polled. */
module SleepHistory {
  import opened Types
  import opened Time
  import opened Machine
  import opened Safety
  import opened Eager
  import opened Refinement
  import opened Shutdown

  /** The instant of the first poll of `k` in the run, if it is polled at all. */
  ghost function FirstPoll(s: State, ops: seq<Op>, k: SleepKey): Option<Instant>
    decreases |ops|
  {
    if ops == [] then None
    else if ops[0].AwaitSleep? && ops[0].key == k then Some(s.clock.now)
    else if Next(s, ops[0]).None? then None
    else FirstPoll(Next(s, ops[0]).value, ops[1..], k)
  }

  /** What one label can make of the clock's record of `k`. */
  ghost predicate Evolves(c: Clock, op: Op, c': Clock, k: SleepKey) {
    && (k in c.deadlines ==> k in c'.deadlines && c'.deadlines[k] == c.deadlines[k])
    && (k !in c.deadlines && k in c'.sleeps ==> c'.sleeps[k].Init?)
    && (k in c.deadlines && k in c'.sleeps ==>
          && k in c.sleeps
          && (!c.sleeps[k].Init? ==> !c'.sleeps[k].Init? && (c'.sleeps[k].Taken? <==> c.sleeps[k].Taken?))
          && (c.sleeps[k].Init? ==>
                if op.AwaitSleep? && op.key == k
                then !c'.sleeps[k].Init? && (c'.sleeps[k].Taken? <==> c.now >= c.deadlines[k])
                else c'.sleeps[k].Init?))
  }

  lemma EvolvesTurn(g: Eager, order: seq<SleepKey>, k: SleepKey)
    requires Tidy(g) && ENext(g, Turn(order)).Some?
    ensures Evolves(g.clock, Turn(order), ENext(g, Turn(order)).value.clock, k)
  {
    if (g.finalStopped || g.queue == []) && order != [] {
      AdvanceShape(g, order);
      AdvanceExact(g.clock, order);
    }
  }

  lemma EvolvesOther(g: Eager, op: Op, k: SleepKey)
    requires Tidy(g) && ENext(g, op).Some? && !op.AwaitSleep? && !op.Return? && !op.Turn?
    ensures Evolves(g.clock, op, ENext(g, op).value.clock, k)
  {}

  lemma EvolvesStep(g: Eager, op: Op, k: SleepKey)
    requires Tidy(g) && ENext(g, op).Some?
    ensures Evolves(g.clock, op, ENext(g, op).value.clock, k)
  {
    match op {
      case AwaitSleep(j, w) => PollSleepOne(g.clock, j, w, k);
      case Return(r, drops) => ReturnClock(g, r, drops);
      case Turn(order) => EvolvesTurn(g, order, k);
      case _ => EvolvesOther(g, op, k);
    }
  }

  lemma EvolvesNext(s: State, op: Op, t: State, k: SleepKey)
    requires Inv(s) && Next(s, op) == Some(t)
    ensures Inv(t) && Evolves(s.clock, op, t.clock, k)
  {
    NextLockstep(s, op);
    AbsTidy(s);
    EvolvesStep(Abs(s), op, k);
  }

  /** A Sleep that was polled or dropped is never unpolled again, and never changes side. */
  lemma {:induction false} PolledRun(s: State, ops: seq<Op>, t: State, k: SleepKey)
    requires Inv(s) && Run(s, ops, t) && k in s.clock.deadlines && k in t.clock.sleeps
    requires k in s.clock.sleeps ==> !s.clock.sleeps[k].Init?
    ensures k in s.clock.sleeps && !t.clock.sleeps[k].Init? && (t.clock.sleeps[k].Taken? <==> s.clock.sleeps[k].Taken?)
    ensures k in t.clock.deadlines && t.clock.deadlines[k] == s.clock.deadlines[k]
    decreases |ops|
  {
    if ops != [] {
      var m := Next(s, ops[0]).value;
      EvolvesNext(s, ops[0], m, k);
      PolledRun(m, ops[1..], t, k);
    }
  }

  /** The state of a Sleep that still exists, by its history. */
  ghost predicate Remembers(first: Option<Instant>, c: Clock, k: SleepKey)
    requires k in c.sleeps && k in c.deadlines
  {
    && (c.sleeps[k].Init? <==> first.None?)
    && (c.sleeps[k].Taken? <==> first.Some? && first.value >= c.deadlines[k])
  }

  lemma {:induction false} RunRemembers(s: State, ops: seq<Op>, t: State, k: SleepKey)
    requires Inv(s) && Run(s, ops, t) && k in t.clock.sleeps
    requires k in s.clock.deadlines && k in s.clock.sleeps ==> s.clock.sleeps[k].Init?
    requires k in s.clock.deadlines ==> k in s.clock.sleeps
    ensures k in t.clock.deadlines && Remembers(FirstPoll(s, ops, k), t.clock, k)
    decreases |ops|
  {
    if ops == [] {
      assert ClockInv(t.clock);
    } else {
      var op, m := ops[0], Next(s, ops[0]).value;
      EvolvesNext(s, op, m, k);
      if op.AwaitSleep? && op.key == k {
        assert ClockInv(s.clock);
        PolledRun(m, ops[1..], t, k);
      } else {
        if k in m.clock.deadlines && k !in m.clock.sleeps { PolledRun(m, ops[1..], t, k); }
        RunRemembers(m, ops[1..], t, k);
      }
    }
  }

  /** When exactly a poll of a Sleep panics, over every run: its first poll was at or after its
      deadline, and this is another one. */
  lemma SleepPanicsExactly(start: Instant, ops: seq<Op>, t: State, k: SleepKey, w: Id)
    requires Run(Start(start), ops, t) && k in t.clock.sleeps
    ensures k in t.clock.deadlines
    ensures var first := FirstPoll(Start(start), ops, k);
            PollSleep(t.clock, k, w).Panic? <==> first.Some? && first.value >= t.clock.deadlines[k]
  {
    StartInv(start);
    RunRemembers(Start(start), ops, t, k);
    RunKeeps(Start(start), ops, t);
    PollSleepExact(t.clock, k, w);
  }
}
