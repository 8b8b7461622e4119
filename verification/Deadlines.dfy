/** Futures that poll a Sleep first on every poll: `Timeout` (src/agnostic_lite/timeout.rs),
    created and awaited anywhere inside a task, any number at once, and the delivery tasks of
    the network (src/net.rs). They are a protocol on top of the machine: everything else
    stays arbitrary. */
module Deadlines {
  import opened Types
  import opened Time
  import opened Executor
  import opened Machine
  import opened Eager
  import opened Refinement
  import opened Shutdown
  import opened Timing
  import opened SleepHistory
  import opened Outcomes

  /** How a guarded future stands: still pending, ended by its Sleep, or ended by the inner
      future, and when. */
  datatype Phase = Armed | Expired(at: Instant) | InnerReady(at: Instant)

  /** `owner` is the task whose future contains it. `born` is the instant of the task's spawn,
      if the task polls it at its own first poll; `firstPoll` the instant of its first poll. */
  datatype Guard = Guard(
    owner: Id,
    deadline: Instant,
    born: Option<Instant>,
    firstPoll: Option<Instant>,
    phase: Phase)

  /** `guards` is keyed by the Sleep inside. `checked` has the keys polled, and found pending,
      in the poll in progress. */
  datatype Guarded = Guarded(base: State, guards: map<SleepKey, Guard>, checked: set<SleepKey>)

  datatype GuardOp =
    | Plain(op: Op)
    | SpawnGuarded(node: NodeIx, key: SleepKey)
    | ArmTimeout(key: SleepKey)
    | PollDeadline(key: SleepKey)
    | PollInnerReady(key: SleepKey)
    | DropTimeout(key: SleepKey)

  predicate IsArmed(guards: map<SleepKey, Guard>, k: SleepKey) {
    k in guards && guards[k].phase.Armed?
  }

  /** Pending, and polled again on every poll of its owner. */
  predicate Awaited(guard: Guard) {
    guard.phase.Armed? && (guard.firstPoll.Some? || guard.born.Some?)
  }

  predicate PolledBy(polling: Option<Id>, guard: Guard) {
    polling == Some(guard.owner)
  }

  /** What the rest of the program cannot do: touch the Sleep inside a pending guarded future,
      or end a poll without having polled the awaited ones. A future that is dropped at the end of
      its poll, because it completed or its task was aborted, has none left; the drop would panic
      with a Sleep inside. */
  ghost predicate Allowed(guards: map<SleepKey, Guard>, checked: set<SleepKey>, polling: Option<Id>, live: bool, op: Op) {
    match op
    case AwaitSleep(k, _) => !IsArmed(guards, k)
    case ForgetSleep(k) => !IsArmed(guards, k)
    case Return(r, _) =>
      forall k :: IsArmed(guards, k) && PolledBy(polling, guards[k]) ==>
        r.Pending? && live && (Awaited(guards[k]) ==> k in checked)
    case _ => true
  }

  /** Whether the task that is being polled has not been aborted meanwhile. */
  predicate PolledLives(e: Exec) {
    e.polling.Some? && IsLive(e, e.polling.value)
  }

  /** The pending guards of an aborted task go away with its future, but not while it is being
      polled: then the future runs on until the poll ends. */
  function Unguard(guards: map<SleepKey, Guard>, polling: Option<Id>, op: Op): map<SleepKey, Guard> {
    if (op.AbortTask? || op.StopVisit?) && polling != Some(op.id) then
      map k | k in guards && (guards[k].owner != op.id || !guards[k].phase.Armed?) :: guards[k]
    else guards
  }

  /** A Sleep that was made but never polled, and is not inside another guarded future. */
  ghost predicate Unpolled(g: Guarded, k: SleepKey) {
    && k in g.base.clock.sleeps && k in g.base.clock.deadlines && g.base.clock.sleeps[k].Init?
    && k !in g.guards && k !in g.checked
  }

  /** A poll at `now`: the first one is remembered. */
  function Polled(guard: Guard, now: Instant): Guard {
    if guard.firstPoll.Some? then guard else guard.(firstPoll := Some(now))
  }

  function Unchecked(checked: set<SleepKey>, op: Op): set<SleepKey> {
    if op.Turn? then {} else checked
  }

  /** `PollDeadline` is `Sleep::poll` with the owner's own waker. A Timeout that is dropped takes
      its Sleep along. */
  ghost function GuardStep(g: Guarded, op: GuardOp): Option<Guarded> {
    var polling := g.base.ex.polling;
    match op
    case Plain(o) =>
      if Allowed(g.guards, g.checked, polling, PolledLives(g.base.ex), o) && Next(g.base, o).Some? then
        Some(Guarded(Next(g.base, o).value, Unguard(g.guards, polling, o), Unchecked(g.checked, o)))
      else None
    case SpawnGuarded(n, k) =>
      if Unpolled(g, k) && Next(g.base, SpawnTask(n)).Some? then
        Some(g.(base := Next(g.base, SpawnTask(n)).value,
                guards := g.guards[k := Guard(g.base.nextId + 1, g.base.clock.deadlines[k], Some(g.base.clock.now), None, Armed)]))
      else None
    case ArmTimeout(k) =>
      if polling.Some? && Unpolled(g, k) then
        Some(g.(guards := g.guards[k := Guard(polling.value, g.base.clock.deadlines[k], None, None, Armed)]))
      else None
    case PollDeadline(k) =>
      if IsArmed(g.guards, k) && PolledBy(polling, g.guards[k]) then
        var guard := Polled(g.guards[k], g.base.clock.now);
        var polled := Next(g.base, AwaitSleep(k, guard.owner));
        if polled.None? then None
        else if k in polled.value.clock.upcoming then
          Some(Guarded(polled.value, g.guards[k := guard], g.checked + {k}))
        else
          Some(g.(base := polled.value, guards := g.guards[k := guard.(phase := Expired(g.base.clock.now))]))
      else None
    case PollInnerReady(k) =>
      if IsArmed(g.guards, k) && PolledBy(polling, g.guards[k]) && k in g.checked then
        Some(g.(guards := g.guards[k := g.guards[k].(phase := InnerReady(g.base.clock.now))]))
      else None
    case DropTimeout(k) =>
      if IsArmed(g.guards, k) && PolledBy(polling, g.guards[k]) && Next(g.base, ForgetSleep(k)).Some? then
        Some(g.(base := Next(g.base, ForgetSleep(k)).value, guards := g.guards - {k}))
      else None
  }

  ghost predicate GuardRun(g: Guarded, ops: seq<GuardOp>, h: Guarded)
    decreases |ops|
  {
    if ops == [] then g == h
    else GuardStep(g, ops[0]).Some? && GuardRun(GuardStep(g, ops[0]).value, ops[1..], h)
  }

  function Max(a: Instant, b: Instant): Instant {
    if a >= b then a else b
  }

  /** The owner is ready, or is being polled and has yet to poll this Sleep. */
  ghost predicate Due(e: Eager, checked: set<SleepKey>, k: SleepKey, id: Id) {
    id in e.queue || (e.polling == Some(id) && k !in checked)
  }

  predicate PolledInLive(e: Eager) {
    e.polling.Some? && e.polling.value in e.live
  }

  /** A pending guarded future. Never polled: its Sleep is untouched, and if it is to be polled
      first thing its owner is due since its spawn, at the same instant. Polled before: its
      Sleep is registered under the owner's waker, strictly before the deadline; or the clock is
      exactly at the deadline and the owner is due. */
  ghost predicate ArmedInv(e: Eager, checked: set<SleepKey>, k: SleepKey, guard: Guard) {
    && (guard.owner in e.live || e.polling == Some(guard.owner))
    && k in e.clock.sleeps && k in e.clock.deadlines
    && e.clock.deadlines[k] == guard.deadline
    && (e.polling == Some(guard.owner) && k in checked ==> e.clock.sleeps[k].Sleeping?)
    && match guard.firstPoll
       case None =>
         && e.clock.sleeps[k].Init?
         && (guard.born.Some? ==> e.clock.now == guard.born.value && Due(e, checked, k, guard.owner))
       case Some(t) =>
         && t <= e.clock.now && t < guard.deadline
         && match e.clock.sleeps[k]
            case Sleeping(w) => w == guard.owner
            case Done(_) => guard.deadline == e.clock.now && Due(e, checked, k, guard.owner)
            case _ => false
  }

  ghost predicate GuardInv(e: Eager, checked: set<SleepKey>, k: SleepKey, guard: Guard) {
    && guard.owner in e.verdicts
    && (guard.born.Some? && guard.firstPoll.Some? ==> guard.firstPoll == guard.born)
    && match guard.phase
       case Armed => ArmedInv(e, checked, k, guard)
       case Expired(t) => guard.firstPoll.Some? && t == Max(guard.deadline, guard.firstPoll.value)
       case InnerReady(t) => guard.firstPoll.Some? && guard.firstPoll.value <= t < guard.deadline
  }

  ghost predicate GuardsInv(e: Eager, guards: map<SleepKey, Guard>, checked: set<SleepKey>) {
    forall k {:trigger GuardInv(e, checked, k, guards[k])} :: k in guards ==> GuardInv(e, checked, k, guards[k])
  }

  ghost predicate GoodGuarded(g: Guarded) {
    Good(g.base) && GuardsInv(Abs(g.base), g.guards, g.checked)
  }

  // ----- one pending guard under one label -----

  lemma {:induction false} WakesKeepQueued(e: Eager, ids: seq<Id>, id: Id)
    requires id in e.queue
    ensures id in EWakeAll(e, ids).queue
    decreases |ids|
  {
    if ids != [] { WakesKeepQueued(EWake(e, ids[0]), ids[1..], id); }
  }

  /** The end of a poll keeps a ready task ready, unless it is the one that completed. */
  lemma ReturnKeepsQueued(e: Eager, r: PollResult, drops: seq<DropEffect>, id: Id)
    requires ENext(e, Return(r, drops)).Some? && id in e.queue
    requires r.Finished? ==> e.polling != Some(id)
    ensures id in ENext(e, Return(r, drops)).value.queue
  {
    var p := e.polling.value;
    if r.Finished? {
      WithoutMember(e.queue, p, id);
      WakesKeepQueued(Kill(e.(polling := None), p).(verdicts := e.verdicts[p := Returned(r.value)]), WakesOf(drops), id);
    } else {
      WakesKeepQueued(e.(polling := None, verdicts := e.verdicts[p := Dropped]), WakesOf(drops), id);
    }
  }

  lemma ArmedReturn(e: Eager, r: PollResult, drops: seq<DropEffect>, checked: set<SleepKey>, k: SleepKey, guard: Guard)
    requires ENext(e, Return(r, drops)).Some? && ArmedInv(e, checked, k, guard) && guard.phase.Armed?
    requires PolledBy(e.polling, guard) ==> r.Pending? && guard.owner in e.live && (Awaited(guard) ==> k in checked)
    ensures ArmedInv(ENext(e, Return(r, drops)).value, checked, k, guard)
  {
    ReturnShape(e, r, drops);
    if guard.owner in e.queue { ReturnKeepsQueued(e, r, drops, guard.owner); }
  }

  lemma ArmedAdvance(e: Eager, order: seq<SleepKey>, checked: set<SleepKey>, k: SleepKey, guard: Guard)
    requires Tidy(e) && ENext(e, Turn(order)).Some? && ArmedInv(e, checked, k, guard) && order != []
    requires e.queue == []
    ensures ArmedInv(ENext(e, Turn(order)).value, {}, k, guard)
  {
    AdvanceShape(e, order);
    if guard.firstPoll.Some? { ArmedRings(e, order, checked, k, guard); } else { ArmedWaits(e, order, checked, k, guard); }
  }

  lemma ArmedRings(e: Eager, order: seq<SleepKey>, checked: set<SleepKey>, k: SleepKey, guard: Guard)
    requires Tidy(e) && ENext(e, Turn(order)).Some? && ArmedInv(e, checked, k, guard) && order != []
    requires e.queue == [] && guard.firstPoll.Some?
    ensures ArmedInv(ENext(e, Turn(order)).value, {}, k, guard)
  {
    AdvanceShape(e, order);
    SleepStepTurn(e, order, k);
    DeadlinesStay(e, order);
  }

  lemma DeadlinesStay(e: Eager, order: seq<SleepKey>)
    requires Tidy(e) && ENext(e, Turn(order)).Some?
    ensures var c, c' := e.clock, ENext(e, Turn(order)).value.clock;
            c'.deadlines == c.deadlines && c'.sleeps.Keys == c.sleeps.Keys && c'.now >= c.now
    ensures forall k :: k in e.clock.sleeps && e.clock.sleeps[k].Init? ==>
              k in ENext(e, Turn(order)).value.clock.sleeps && ENext(e, Turn(order)).value.clock.sleeps[k] == e.clock.sleeps[k]
  {
    if (e.finalStopped || e.queue == []) && order != [] {
      AdvanceShape(e, order);
      AdvanceExact(e.clock, order);
    }
  }

  lemma ArmedWaits(e: Eager, order: seq<SleepKey>, checked: set<SleepKey>, k: SleepKey, guard: Guard)
    requires Tidy(e) && ENext(e, Turn(order)).Some? && ArmedInv(e, checked, k, guard) && order != []
    requires e.queue == [] && guard.firstPoll.None?
    ensures ArmedInv(ENext(e, Turn(order)).value, {}, k, guard)
  {
    AdvanceShape(e, order);
    DeadlinesStay(e, order);
  }

  lemma ArmedRun(e: Eager, order: seq<SleepKey>, checked: set<SleepKey>, k: SleepKey, guard: Guard)
    requires ENext(e, Turn(order)).Some? && ArmedInv(e, checked, k, guard)
    requires e.queue != [] && !e.finalStopped
    ensures ArmedInv(ENext(e, Turn(order)).value, {}, k, guard)
  {
    var id := guard.owner;
    if id in e.queue && id != e.queue[0] {
      var i :| 0 <= i < |e.queue| && e.queue[i] == id;
      assert e.queue[1..][i - 1] == id;
    }
  }

  lemma ArmedTurn(e: Eager, order: seq<SleepKey>, checked: set<SleepKey>, k: SleepKey, guard: Guard)
    requires Tidy(e) && ENext(e, Turn(order)).Some? && ArmedInv(e, checked, k, guard)
    requires e.finalStopped ==> e.live == map[]
    ensures ArmedInv(ENext(e, Turn(order)).value, {}, k, guard)
  {
    if e.queue != [] { ArmedRun(e, order, checked, k, guard); }
    else if order != [] { ArmedAdvance(e, order, checked, k, guard); }
  }

  lemma ArmedSleep(e: Eager, op: Op, checked: set<SleepKey>, k: SleepKey, guard: Guard)
    requires Tidy(e) && ENext(e, op).Some? && (op.AwaitSleep? || op.ForgetSleep? || op.MakeSleep?)
    requires op.MakeSleep? || op.key != k
    requires ArmedInv(e, checked, k, guard)
    ensures ArmedInv(ENext(e, op).value, checked, k, guard)
  {
    if op.AwaitSleep? { PollSleepExact(e.clock, op.key, op.waker); }
  }

  lemma ArmedAbort(e: Eager, x: Id, checked: set<SleepKey>, k: SleepKey, guard: Guard)
    requires ArmedInv(e, checked, k, guard) && (x == guard.owner ==> e.polling == Some(x))
    ensures ArmedInv(EAbort(e, x), checked, k, guard)
  {
    if guard.owner in e.queue && x != guard.owner { WithoutMember(e.queue, x, guard.owner); }
  }

  lemma ArmedRest(e: Eager, op: Op, checked: set<SleepKey>, k: SleepKey, guard: Guard)
    requires Tidy(e) && ENext(e, op).Some? && ArmedInv(e, checked, k, guard)
    requires op.WakeTask? || op.SpawnTask? || op.StopNode? || op.StartNode? || op.CreateNode? || op.StopSimulation?
          || op.TakeIds? || op.StopReturn? || op.StopAllNext? || op.StopAllReturn?
    ensures ArmedInv(ENext(e, op).value, checked, k, guard)
  {}

  lemma ArmedStep(e: Eager, op: Op, guards: map<SleepKey, Guard>, checked: set<SleepKey>, k: SleepKey)
    requires Tidy(e) && ENext(e, op).Some? && Allowed(guards, checked, e.polling, PolledInLive(e), op)
    requires IsArmed(Unguard(guards, e.polling, op), k) && k in guards && ArmedInv(e, checked, k, guards[k])
    requires op.Turn? && e.finalStopped ==> e.live == map[]
    ensures ArmedInv(ENext(e, op).value, Unchecked(checked, op), k, guards[k])
  {
    var guard := guards[k];
    match op {
      case Turn(order) => ArmedTurn(e, order, checked, k, guard);
      case Return(r, drops) => ArmedReturn(e, r, drops, checked, k, guard);
      case AwaitSleep(j, _) => assert j != k; ArmedSleep(e, op, checked, k, guard);
      case ForgetSleep(j) => assert j != k; ArmedSleep(e, op, checked, k, guard);
      case MakeSleep(_, _) => ArmedSleep(e, op, checked, k, guard);
      case AbortTask(x) => ArmedAbort(e, x, checked, k, guard);
      case StopVisit(x) => ArmedAbort(e, x, checked, k, guard);
      case _ => ArmedRest(e, op, checked, k, guard);
    }
  }

  // ----- all guards under one label -----

  /** One guard under a label of the rest of the program. */
  lemma OneStep(e: Eager, op: Op, guards: map<SleepKey, Guard>, checked: set<SleepKey>, k: SleepKey)
    requires Tidy(e) && ENext(e, op).Some? && Allowed(guards, checked, e.polling, PolledInLive(e), op)
    requires k in Unguard(guards, e.polling, op) && k in guards && GuardInv(e, checked, k, guards[k])
    requires op.Turn? && e.finalStopped ==> e.live == map[]
    ensures GuardInv(ENext(e, op).value, Unchecked(checked, op), k, guards[k])
  {
    OutcomeStep(e, op, guards[k].owner);
    if guards[k].phase.Armed? { ArmedStep(e, op, guards, checked, k); }
  }

  lemma OthersStep(e: Eager, op: Op, guards: map<SleepKey, Guard>, checked: set<SleepKey>)
    requires Tidy(e) && ENext(e, op).Some? && Allowed(guards, checked, e.polling, PolledInLive(e), op)
    requires GuardsInv(e, guards, checked)
    requires op.Turn? && e.finalStopped ==> e.live == map[]
    ensures GuardsInv(ENext(e, op).value, Unguard(guards, e.polling, op), Unchecked(checked, op))
  {
    var h, left := ENext(e, op).value, Unguard(guards, e.polling, op);
    forall k | k in left ensures GuardInv(h, Unchecked(checked, op), k, left[k]) {
      assert GuardInv(e, checked, k, guards[k]);
      OneStep(e, op, guards, checked, k);
    }
  }

  lemma PlainKeeps(g: Guarded, op: Op)
    requires GoodGuarded(g) && GuardStep(g, Plain(op)).Some?
    ensures GoodGuarded(GuardStep(g, Plain(op)).value)
  {
    NextGood(g.base, op);
    AbsTidy(g.base);
    assert PolledLives(g.base.ex) == PolledInLive(Abs(g.base));
    if op.Turn? && g.base.ex.finalStopped {
      ShutdownIsComplete(g.base);
      assert LiveTasks(g.base.ex) == map[];
    }
    OthersStep(Abs(g.base), op, g.guards, g.checked);
  }

  /** Adding or changing one guard needs a look at that guard only. */
  lemma WithGuard(e: Eager, others: map<SleepKey, Guard>, checked: set<SleepKey>, k: SleepKey, guards: map<SleepKey, Guard>)
    requires GuardsInv(e, others, checked) && k in guards && others == guards - {k}
    requires GuardInv(e, checked, k, guards[k])
    ensures GuardsInv(e, guards, checked)
  {
    forall j | j in guards ensures GuardInv(e, checked, j, guards[j]) {
      if j != k { assert GuardInv(e, checked, j, others[j]); }
    }
  }

  lemma WithoutGuard(e: Eager, guards: map<SleepKey, Guard>, checked: set<SleepKey>, k: SleepKey)
    requires GuardsInv(e, guards, checked)
    ensures GuardsInv(e, guards - {k}, checked)
  {
    forall j | j in guards - {k} ensures GuardInv(e, checked, j, (guards - {k})[j]) {
      assert GuardInv(e, checked, j, guards[j]);
    }
  }

  /** Lifting one label of the machine to the eager executor. */
  lemma Lifted(s: State, t: State, op: Op)
    requires Good(s) && Next(s, op) == Some(t)
    ensures Good(t) && Tidy(Abs(s)) && ENext(Abs(s), op) == Some(Abs(t))
    ensures Abs(s).clock == s.clock && Abs(s).nextId == s.nextId && Abs(s).polling == s.ex.polling
    ensures Abs(t).clock == t.clock
  {
    NextGood(s, op);
  }

  lemma SpawnGuardedKeeps(g: Guarded, n: NodeIx, k: SleepKey, h: Guarded)
    requires GoodGuarded(g) && Unpolled(g, k) && Next(g.base, SpawnTask(n)) == Some(h.base)
    requires h.guards == g.guards[k := Guard(g.base.nextId + 1, g.base.clock.deadlines[k], Some(g.base.clock.now), None, Armed)]
    requires h.checked == g.checked
    ensures GoodGuarded(h)
  {
    Lifted(g.base, h.base, SpawnTask(n));
    SpawnGuards(Abs(g.base), Abs(h.base), n, k, g.guards, g.checked, h.guards);
  }

  lemma SpawnGuards(e: Eager, h: Eager, n: NodeIx, k: SleepKey, guards: map<SleepKey, Guard>, checked: set<SleepKey>,
                    more: map<SleepKey, Guard>)
    requires Tidy(e) && GuardsInv(e, guards, checked) && ENext(e, SpawnTask(n)) == Some(h)
    requires k in e.clock.sleeps && k in e.clock.deadlines && e.clock.sleeps[k].Init? && k !in guards
    requires more == guards[k := Guard(e.nextId + 1, e.clock.deadlines[k], Some(e.clock.now), None, Armed)]
    ensures GuardsInv(h, more, checked)
  {
    OthersStep(e, SpawnTask(n), guards, checked);
    assert more - {k} == guards;
    assert e.nextId + 1 in h.queue;
    assert e.polling != Some(e.nextId + 1);
    WithGuard(h, guards, checked, k, more);
  }

  lemma ArmTimeoutKeeps(g: Guarded, k: SleepKey, h: Guarded)
    requires GoodGuarded(g) && GuardStep(g, ArmTimeout(k)) == Some(h)
    ensures GoodGuarded(h)
  {
    AbsTidy(g.base);
    assert h.guards - {k} == g.guards;
    WithGuard(Abs(g.base), g.guards, g.checked, k, h.guards);
  }

  /** That a key was polled in this poll matters to its own guard only. */
  lemma CheckedMore(e: Eager, guards: map<SleepKey, Guard>, checked: set<SleepKey>, k: SleepKey)
    requires GuardsInv(e, guards, checked) && k !in guards
    ensures GuardsInv(e, guards, checked + {k})
  {
    forall j | j in guards ensures GuardInv(e, checked + {k}, j, guards[j]) {
      assert GuardInv(e, checked, j, guards[j]);
    }
  }

  /** The guard itself after its poll. */
  lemma PolledGuard(e: Eager, h: Eager, checked: set<SleepKey>, k: SleepKey, guard: Guard)
    requires Tidy(e) && GuardInv(e, checked, k, guard) && guard.phase.Armed? && e.polling == Some(guard.owner)
    requires ENext(e, AwaitSleep(k, guard.owner)) == Some(h)
    ensures var after := Polled(guard, e.clock.now);
            if k in h.clock.upcoming then GuardInv(h, checked + {k}, k, after)
            else GuardInv(h, checked, k, after.(phase := Expired(e.clock.now)))
  {
    PollSleepExact(e.clock, k, guard.owner);
  }

  lemma PolledGuards(e: Eager, h: Eager, guards: map<SleepKey, Guard>, checked: set<SleepKey>, k: SleepKey)
    requires Tidy(e) && GuardsInv(e, guards, checked) && IsArmed(guards, k) && PolledBy(e.polling, guards[k])
    requires ENext(e, AwaitSleep(k, guards[k].owner)) == Some(h)
    ensures var after := Polled(guards[k], e.clock.now);
            if k in h.clock.upcoming then GuardsInv(h, guards[k := after], checked + {k})
            else GuardsInv(h, guards[k := after.(phase := Expired(e.clock.now))], checked)
  {
    var after, others := Polled(guards[k], e.clock.now), guards - {k};
    assert GuardInv(e, checked, k, guards[k]);
    WithoutGuard(e, guards, checked, k);
    OthersStep(e, AwaitSleep(k, guards[k].owner), others, checked);
    PolledGuard(e, h, checked, k, guards[k]);
    if k in h.clock.upcoming {
      CheckedMore(h, others, checked, k);
      assert guards[k := after] - {k} == others;
      WithGuard(h, others, checked + {k}, k, guards[k := after]);
    } else {
      var ended := guards[k := after.(phase := Expired(e.clock.now))];
      assert ended - {k} == others;
      WithGuard(h, others, checked, k, ended);
    }
  }

  lemma PollDeadlineKeeps(g: Guarded, k: SleepKey, h: Guarded)
    requires GoodGuarded(g) && GuardStep(g, PollDeadline(k)) == Some(h)
    ensures GoodGuarded(h)
  {
    Lifted(g.base, h.base, AwaitSleep(k, g.guards[k].owner));
    PolledGuards(Abs(g.base), Abs(h.base), g.guards, g.checked, k);
  }

  lemma ArmedSleepPolls(e: Eager, checked: set<SleepKey>, k: SleepKey, guard: Guard)
    requires Tidy(e) && GuardInv(e, checked, k, guard) && guard.phase.Armed?
    ensures guard.owner in e.verdicts && k in e.clock.sleeps && PollSleep(e.clock, k, guard.owner).Ok?
    ensures k in PollSleep(e.clock, k, guard.owner).value.0.upcoming <==> e.clock.now < guard.deadline
  {
    PollSleepOne(e.clock, k, guard.owner, k);
  }

  /** The Sleep of a pending Timeout can be polled, and stays registered exactly before the deadline. */
  lemma PollSucceeds(g: Guarded, k: SleepKey)
    requires GoodGuarded(g) && IsArmed(g.guards, k)
    ensures Next(g.base, AwaitSleep(k, g.guards[k].owner)).Some?
    ensures k in Next(g.base, AwaitSleep(k, g.guards[k].owner)).value.clock.upcoming <==> g.base.clock.now < g.guards[k].deadline
  {
    var guard := g.guards[k];
    AbsTidy(g.base);
    assert GuardInv(Abs(g.base), g.checked, k, guard);
    ArmedSleepPolls(Abs(g.base), g.checked, k, guard);
    assert TaskInv(g.base.ex, guard.owner);
  }

  /** A Timeout can be polled in every poll of its owner, and the deadline is looked at first: from
      the deadline on the result is `Elapsed`, before it the inner future decides. */
  lemma PollDecides(g: Guarded, k: SleepKey)
    requires GoodGuarded(g) && IsArmed(g.guards, k) && PolledBy(g.base.ex.polling, g.guards[k])
    ensures GuardStep(g, PollDeadline(k)).Some? && k in GuardStep(g, PollDeadline(k)).value.guards
    ensures var h, now := GuardStep(g, PollDeadline(k)).value, g.base.clock.now;
            if now >= g.guards[k].deadline then
              h.guards[k].phase == Expired(now) && GuardStep(h, PollInnerReady(k)).None?
            else
              && h.guards[k].phase.Armed? && GuardStep(h, PollInnerReady(k)).Some?
              && k in GuardStep(h, PollInnerReady(k)).value.guards
              && GuardStep(h, PollInnerReady(k)).value.guards[k].phase == InnerReady(now)
  {
    PollSucceeds(g, k);
  }

  lemma PollInnerReadyKeeps(g: Guarded, k: SleepKey, h: Guarded)
    requires GoodGuarded(g) && GuardStep(g, PollInnerReady(k)) == Some(h)
    ensures GoodGuarded(h)
  {
    var e := Abs(g.base);
    assert GuardInv(e, g.checked, k, g.guards[k]);
    AbsTidy(g.base);
    WithoutGuard(e, g.guards, g.checked, k);
    assert h.guards - {k} == g.guards - {k};
    WithGuard(e, g.guards - {k}, g.checked, k, h.guards);
  }

  lemma DropTimeoutKeeps(g: Guarded, k: SleepKey, h: Guarded)
    requires GoodGuarded(g) && GuardStep(g, DropTimeout(k)) == Some(h)
    ensures GoodGuarded(h)
  {
    Lifted(g.base, h.base, ForgetSleep(k));
    WithoutGuard(Abs(g.base), g.guards, g.checked, k);
    OthersStep(Abs(g.base), ForgetSleep(k), g.guards - {k}, g.checked);
  }

  lemma GuardStepKeeps(g: Guarded, op: GuardOp)
    requires GoodGuarded(g) && GuardStep(g, op).Some?
    ensures GoodGuarded(GuardStep(g, op).value)
  {
    var h := GuardStep(g, op).value;
    match op
    case Plain(o) => PlainKeeps(g, o);
    case SpawnGuarded(n, k) => SpawnGuardedKeeps(g, n, k, h);
    case ArmTimeout(k) => ArmTimeoutKeeps(g, k, h);
    case PollDeadline(k) => PollDeadlineKeeps(g, k, h);
    case PollInnerReady(k) => PollInnerReadyKeeps(g, k, h);
    case DropTimeout(k) => DropTimeoutKeeps(g, k, h);
  }

  lemma {:induction false} GuardRunKeeps(g: Guarded, ops: seq<GuardOp>, h: Guarded)
    requires GoodGuarded(g) && GuardRun(g, ops, h)
    ensures GoodGuarded(h)
    decreases |ops|
  {
    if ops != [] {
      GuardStepKeeps(g, ops[0]);
      GuardRunKeeps(GuardStep(g, ops[0]).value, ops[1..], h);
    }
  }

  function GuardedStart(start: Instant): Guarded {
    Guarded(Start(start), map[], {})
  }

  lemma StartGuardedGood(start: Instant)
    ensures GoodGuarded(GuardedStart(start))
  {
    StartGood(start);
  }

  /** The instant of the first poll of the Timeout around `k` in the run, if it is polled. */
  ghost function FirstDeadlinePoll(g: Guarded, ops: seq<GuardOp>, k: SleepKey): Option<Instant>
    decreases |ops|
  {
    if ops == [] then None
    else if ops[0] == PollDeadline(k) then Some(g.base.clock.now)
    else if GuardStep(g, ops[0]).None? then None
    else FirstDeadlinePoll(GuardStep(g, ops[0]).value, ops[1..], k)
  }

  /** The Sleep was polled, so no other Timeout can be made around it. */
  ghost predicate Recorded(g: Guarded, k: SleepKey, first: Instant) {
    && k in g.base.clock.deadlines && (k in g.base.clock.sleeps ==> !g.base.clock.sleeps[k].Init?)
    && (k in g.guards ==> g.guards[k].firstPoll == Some(first))
  }

  lemma RecordedStep(g: Guarded, op: GuardOp, h: Guarded, k: SleepKey, first: Instant)
    requires GoodGuarded(g) && GuardStep(g, op) == Some(h) && Recorded(g, k, first)
    ensures Recorded(h, k, first)
  {
    match op {
      case Plain(o) => EvolvesNext(g.base, o, h.base, k);
      case SpawnGuarded(n, j) => EvolvesNext(g.base, SpawnTask(n), h.base, k);
      case PollDeadline(j) => EvolvesNext(g.base, AwaitSleep(j, g.guards[j].owner), h.base, k);
      case DropTimeout(j) => EvolvesNext(g.base, ForgetSleep(j), h.base, k);
      case _ =>
    }
  }

  lemma {:induction false} RecordedRun(g: Guarded, ops: seq<GuardOp>, h: Guarded, k: SleepKey, first: Instant)
    requires GoodGuarded(g) && GuardRun(g, ops, h) && Recorded(g, k, first)
    ensures Recorded(h, k, first)
    decreases |ops|
  {
    if ops != [] {
      var m := GuardStep(g, ops[0]).value;
      GuardStepKeeps(g, ops[0]);
      RecordedStep(g, ops[0], m, k, first);
      RecordedRun(m, ops[1..], h, k, first);
    }
  }

  lemma FirstPollRecorded(g: Guarded, k: SleepKey, h: Guarded)
    requires GoodGuarded(g) && GuardStep(g, PollDeadline(k)) == Some(h) && g.guards[k].firstPoll.None?
    ensures Recorded(h, k, g.base.clock.now)
  {
    var op := AwaitSleep(k, g.guards[k].owner);
    assert ClockInv(g.base.clock);
    EvolvesNext(g.base, op, h.base, k);
    assert k in g.base.clock.sleeps && (g.base.clock.sleeps[k].Init? ==> !h.base.clock.sleeps[k].Init?);
  }

  lemma OtherKeepsUnpolled(g: Guarded, op: GuardOp, k: SleepKey, h: Guarded)
    requires GuardStep(g, op) == Some(h) && op != PollDeadline(k)
    requires k in g.guards ==> g.guards[k].firstPoll.None?
    ensures k in h.guards ==> h.guards[k].firstPoll.None?
  {}

  /** `firstPoll` is what its name says, in every run. */
  lemma {:induction false} FirstPollIsFirst(g: Guarded, ops: seq<GuardOp>, h: Guarded, k: SleepKey)
    requires GoodGuarded(g) && GuardRun(g, ops, h) && k in h.guards
    requires k in g.guards ==> g.guards[k].firstPoll.None?
    ensures h.guards[k].firstPoll == FirstDeadlinePoll(g, ops, k)
    decreases |ops|
  {
    if ops != [] {
      var m := GuardStep(g, ops[0]).value;
      GuardStepKeeps(g, ops[0]);
      if ops[0] == PollDeadline(k) {
        FirstPollRecorded(g, k, m);
        RecordedRun(m, ops[1..], h, k, g.base.clock.now);
      } else {
        OtherKeepsUnpolled(g, ops[0], k, m);
        FirstPollIsFirst(m, ops[1..], h, k);
      }
    }
  }

  /** Timeout exactness, for every run and every Timeout in it, wherever it was created and
      whenever it was first polled: the inner result is returned only by a poll strictly before
      the deadline; `Elapsed` is returned at exactly the deadline, or at the first poll if that
      is later; and once polled, a Timeout is never pending past both. */
  lemma TimeoutIsExact(start: Instant, ops: seq<GuardOp>, h: Guarded, k: SleepKey)
    requires GuardRun(GuardedStart(start), ops, h) && k in h.guards
    ensures var first := FirstDeadlinePoll(GuardedStart(start), ops, k);
            match h.guards[k].phase
            case InnerReady(t) => first.Some? && first.value <= t < h.guards[k].deadline
            case Expired(t) => first.Some? && t == Max(h.guards[k].deadline, first.value)
            case Armed =>
              && (IsLive(h.base.ex, h.guards[k].owner) || h.base.ex.polling == Some(h.guards[k].owner))
              && (first.Some? ==> h.base.clock.now <= Max(h.guards[k].deadline, first.value))
  {
    StartGuardedGood(start);
    GuardRunKeeps(GuardedStart(start), ops, h);
    NotOverdue(h, k);
    FirstPollIsFirst(GuardedStart(start), ops, h, k);
  }

  lemma NotOverdue(h: Guarded, k: SleepKey)
    requires GoodGuarded(h) && k in h.guards
    ensures GuardInv(Abs(h.base), h.checked, k, h.guards[k])
    ensures h.guards[k].phase.Armed? ==>
              && (IsLive(h.base.ex, h.guards[k].owner) || h.base.ex.polling == Some(h.guards[k].owner))
              && (h.guards[k].firstPoll.Some? ==> h.base.clock.now <= h.guards[k].deadline)
              && (h.guards[k].born.Some? ==> h.base.clock.now <= Max(h.guards[k].deadline, h.guards[k].born.value))
  {
    AbsTidy(h.base);
    assert GuardInv(Abs(h.base), h.checked, k, h.guards[k]);
  }

  /** The run loop never leaves an awaited future pending: as long as one is, the next turn
      runs a task or advances the clock. */
  lemma NoneLeftPending(h: Guarded, order: seq<SleepKey>)
    requires GoodGuarded(h) && Next(h.base, Turn(order)).Some?
    requires Next(h.base, Turn(order)).value.trace == h.base.trace
    ensures forall k :: k in h.guards ==> !Awaited(h.guards[k])
  {
    LoopExitIsQuiet(h.base, order);
    ReadyIsQueued(h.base);
    forall k | k in h.guards ensures !Awaited(h.guards[k]) {
      NotOverdue(h, k);
    }
  }
}
