/** Which future holds which Sleep, socket or abort guard: what a dropped future takes along,
    when dropping it under the run loop's borrow panics, and what is left of the clock after a
    shutdown. A layer on top of the machine; every run of it is a run of the machine. */
module Ownership {
  import opened Types
  import opened Time
  import opened Executor
  import opened Machine
  import opened Eager
  import opened Refinement
  import opened Shutdown
  import opened StopOrder

  /** `owner` maps a Sleep to the task whose future contains it, and `others` the same for
      sockets and abort guards: values other than Sleeps whose destructors use the context.
      What is in neither map is held outside all futures. */
  datatype Held = Held(base: State, owner: map<SleepKey, Id>, others: map<nat, Id>)

  datatype HeldOp =
    | Plain(op: Op)
    | Hold(key: SleepKey, id: Id)
    | Release(key: SleepKey)
    | HoldOther(item: nat, id: Id)
    | ReleaseOther(item: nat)
    | EndPoll(result: PollResult, wakes: seq<Id>)

  /** The future of a task exists until its outcome is decided. */
  predicate HasFuture(s: State, id: Id) {
    id in s.ex.verdicts && s.ex.verdicts[id].Undecided?
  }

  ghost predicate Holds(h: Held, id: Id) {
    (exists k :: k in h.owner && h.owner[k] == id) || (exists x :: x in h.others && h.others[x] == id)
  }

  function KeysOf(owner: map<SleepKey, Id>, id: Id): set<SleepKey> {
    set k | k in owner && owner[k] == id
  }

  function WithoutOwner<K>(owner: map<K, Id>, id: Id): map<K, Id> {
    map k | k in owner && owner[k] != id :: owner[k]
  }

  /** The task whose future a label drops at once: an abort of a live task, unless its future is
      with the run loop. */
  predicate DropsAtOnce(s: State, op: Op, id: Id) {
    (op == AbortTask(id) || op == StopVisit(id)) && IsLive(s.ex, id) && s.ex.polling != Some(id)
  }

  /** Only the code of a future, during its poll, touches a Sleep inside it. */
  predicate MayTouch(h: Held, k: SleepKey) {
    k in h.owner ==> h.base.ex.polling == Some(h.owner[k])
  }

  predicate Proper(h: Held, op: Op) {
    match op
    case AwaitSleep(k, _) => MayTouch(h, k)
    case ForgetSleep(k) => MayTouch(h, k)
    case Return(_, _) => false
    case _ => true
  }

  /** What the destructor of the polled future does: its wakes, and a use of the context exactly
      if it still holds something that needs it. */
  ghost function Drops(h: Held, wakes: seq<Id>): (drops: seq<DropEffect>)
    requires h.base.ex.polling.Some?
    ensures DropUsesContext in drops <==> Holds(h, h.base.ex.polling.value)
  {
    if Holds(h, h.base.ex.polling.value) then DropWakes(wakes) + [DropUsesContext] else DropWakes(wakes)
  }

  /** A dropped future takes along all it holds. */
  function Bury(h: Held, id: Id): Held {
    Held(
      h.base.(clock := DropSleeps(h.base.clock, KeysOf(h.owner, id))),
      WithoutOwner(h.owner, id),
      WithoutOwner(h.others, id))
  }

  function Aborted(op: Op): Option<Id> {
    if op.AbortTask? || op.StopVisit? then Some(op.id) else None
  }

  ghost function HeldNext(h: Held, op: HeldOp): Option<Held> {
    match op
    case Plain(o) =>
      if !Proper(h, o) || Next(h.base, o).None? then None
      else
        var t := Held(Next(h.base, o).value, if o.ForgetSleep? then h.owner - {o.key} else h.owner, h.others);
        Some(if Aborted(o).Some? && DropsAtOnce(h.base, o, Aborted(o).value) then Bury(t, Aborted(o).value) else t)
    case Hold(k, id) =>
      if k in h.base.clock.sleeps && k !in h.owner && HasFuture(h.base, id) then Some(h.(owner := h.owner[k := id])) else None
    case Release(k) => if k in h.owner && MayTouch(h, k) then Some(h.(owner := h.owner - {k})) else None
    case HoldOther(x, id) => if x !in h.others && HasFuture(h.base, id) then Some(h.(others := h.others[x := id])) else None
    case ReleaseOther(x) => Some(h.(others := h.others - {x}))
    case EndPoll(result, wakes) =>
      if h.base.ex.polling.None? then None
      else
        var next := Next(h.base, Return(result, Drops(h, wakes)));
        if next.None? then None else Some(h.(base := next.value))
  }

  ghost predicate HeldRun(h: Held, ops: seq<HeldOp>, t: Held)
    decreases |ops|
  {
    if ops == [] then h == t
    else HeldNext(h, ops[0]).Some? && HeldRun(HeldNext(h, ops[0]).value, ops[1..], t)
  }

  function HeldStart(start: Instant): Held {
    Held(Start(start), map[], map[])
  }

  /** Whatever a future holds exists, and so does the future. */
  ghost predicate HeldInv(h: Held) {
    && Good(h.base)
    && (forall k :: k in h.owner ==> k in h.base.clock.sleeps && HasFuture(h.base, h.owner[k]))
    && (forall x :: x in h.others ==> HasFuture(h.base, h.others[x]))
  }

  // ----- the layer performs runs of the machine -----

  lemma BuryIsRun(h: Held, id: Id) returns (ops: seq<Op>)
    requires Good(h.base)
    ensures Run(h.base, ops, Bury(h, id).base) && Good(Bury(h, id).base)
  {
    ops := ForgetAll(h.base, KeysOf(h.owner, id), Bury(h, id).base);
    RunGood(h.base, ops, Bury(h, id).base);
  }

  lemma HeldNextIsRun(h: Held, op: HeldOp, t: Held) returns (ops: seq<Op>)
    requires Good(h.base) && HeldNext(h, op) == Some(t)
    ensures Run(h.base, ops, t.base) && Good(t.base)
  {
    ops := [];
    match op {
      case Plain(o) => ops := PlainIsRun(h, o, t);
      case EndPoll(result, wakes) =>
        ops := [Return(result, Drops(h, wakes))];
        OneIsRun(h.base, ops[0], t.base);
      case _ =>
    }
  }

  lemma OneIsRun(s: State, op: Op, t: State)
    requires Good(s) && Next(s, op) == Some(t)
    ensures Run(s, [op], t) && Good(t)
  {
    NextGood(s, op);
    RunCons(s, op, [], t);
    assert [op] + [] == [op];
  }

  lemma PlainIsRun(h: Held, o: Op, t: Held) returns (ops: seq<Op>)
    requires Good(h.base) && HeldNext(h, Plain(o)) == Some(t)
    ensures Run(h.base, ops, t.base) && Good(t.base)
  {
    var m := Held(Next(h.base, o).value, if o.ForgetSleep? then h.owner - {o.key} else h.owner, h.others);
    OneIsRun(h.base, o, m.base);
    ops := [o];
    if Aborted(o).Some? && DropsAtOnce(h.base, o, Aborted(o).value) {
      var more := BuryIsRun(m, Aborted(o).value);
      RunConcat(h.base, ops, m.base, more, t.base);
      ops := ops + more;
    }
  }

  /** So every theorem about runs of the machine is a theorem about this layer. */
  lemma {:induction false} HeldRunIsRun(h: Held, ops: seq<HeldOp>, t: Held) returns (plain: seq<Op>)
    requires Good(h.base) && HeldRun(h, ops, t)
    ensures Run(h.base, plain, t.base) && Good(t.base)
    decreases |ops|
  {
    plain := [];
    if ops != [] {
      var m := HeldNext(h, ops[0]).value;
      var first := HeldNextIsRun(h, ops[0], m);
      var rest := HeldRunIsRun(m, ops[1..], t);
      RunConcat(h.base, first, m.base, rest, t.base);
      plain := first + rest;
    }
  }

  // ----- the invariant -----

  /** A label decides the outcome of no task but the one whose future it drops. */
  lemma FutureStays(g: Eager, op: Op, id: Id)
    requires Tidy(g) && ENext(g, op).Some? && id in g.verdicts && g.verdicts[id].Undecided?
    requires op == AbortTask(id) || op == StopVisit(id) ==> id !in g.live || g.polling == Some(id)
    requires op.Return? && (op.result.Finished? || g.polling.value !in g.live) ==> g.polling != Some(id)
    ensures id in ENext(g, op).value.verdicts && ENext(g, op).value.verdicts[id].Undecided?
  {
    match op {
      case Turn(order) => if (g.finalStopped || g.queue == []) && order != [] { AdvanceShape(g, order); }
      case Return(r, drops) => ReturnShape(g, r, drops);
      case _ =>
    }
  }

  lemma TurnSleeps(g: Eager, order: seq<SleepKey>, k: SleepKey)
    requires Tidy(g) && ENext(g, Turn(order)).Some?
    ensures k in g.clock.sleeps ==> k in ENext(g, Turn(order)).value.clock.sleeps
    ensures k in ENext(g, Turn(order)).value.clock.upcoming ==> k in g.clock.upcoming
  {
    if (g.finalStopped || g.queue == []) && order != [] {
      AdvanceShape(g, order);
      AdvanceExact(g.clock, order);
    }
  }

  lemma SleepsStay(g: Eager, op: Op, k: SleepKey)
    requires Tidy(g) && ENext(g, op).Some? && k in g.clock.sleeps && op != ForgetSleep(k)
    ensures k in ENext(g, op).value.clock.sleeps
  {
    match op {
      case AwaitSleep(j, w) => PollSleepOne(g.clock, j, w, k);
      case Turn(order) => TurnSleeps(g, order, k);
      case Return(r, drops) => ReturnClock(g, r, drops);
      case _ => SleepsStayOther(g, op, k);
    }
  }

  lemma SleepsStayOther(g: Eager, op: Op, k: SleepKey)
    requires ENext(g, op).Some? && k in g.clock.sleeps && op != ForgetSleep(k)
    requires !op.AwaitSleep? && !op.Turn? && !op.Return?
    ensures k in ENext(g, op).value.clock.sleeps
  {}

  /** Whether the machine drops the polled future at the end of this poll. */
  lemma DropsMeans(s: State, r: PollResult)
    requires Good(s) && s.ex.polling.Some?
    ensures DropsFuture(s.ex, r) <==> r.Finished? || s.ex.polling.value !in Abs(s).live
  {
    AbsTidy(s);
    assert TaskInv(s.ex, s.ex.polling.value);
  }

  /** One machine label, for one task and one Sleep. */
  lemma BaseStays(s: State, op: Op, t: State, id: Id)
    requires Good(s) && Next(s, op) == Some(t) && HasFuture(s, id) && !DropsAtOnce(s, op, id)
    requires op.Return? ==> s.ex.polling.Some? && (DropsFuture(s.ex, op.result) ==> s.ex.polling != Some(id))
    ensures HasFuture(t, id)
  {
    NextGood(s, op);
    if op.Return? { DropsMeans(s, op.result); }
    FutureStays(Abs(s), op, id);
  }

  lemma BaseKeepsSleep(s: State, op: Op, t: State, k: SleepKey)
    requires Good(s) && Next(s, op) == Some(t) && k in s.clock.sleeps && op != ForgetSleep(k)
    ensures k in t.clock.sleeps
  {
    NextGood(s, op);
    SleepsStay(Abs(s), op, k);
  }

  /** What a label leaves to the futures that it does not drop. */
  lemma PlainShape(h: Held, o: Op, t: Held) returns (m: State)
    requires HeldNext(h, Plain(o)) == Some(t)
    ensures Next(h.base, o) == Some(m) && !o.Return? && t.base.ex == m.ex
    ensures forall k :: k in t.owner ==>
              && k in h.owner && t.owner[k] == h.owner[k] && o != ForgetSleep(k) && !DropsAtOnce(h.base, o, h.owner[k])
              && (k in m.clock.sleeps ==> k in t.base.clock.sleeps)
    ensures forall x :: x in t.others ==>
              x in h.others && t.others[x] == h.others[x] && !DropsAtOnce(h.base, o, h.others[x])
  {
    m := Next(h.base, o).value;
  }

  lemma PlainHeld(h: Held, o: Op, t: Held)
    requires HeldInv(h) && HeldNext(h, Plain(o)) == Some(t)
    ensures HeldInv(t)
  {
    var run := PlainIsRun(h, o, t);
    var m := PlainShape(h, o, t);
    forall k | k in t.owner ensures k in t.base.clock.sleeps && HasFuture(t.base, t.owner[k]) {
      BaseKeepsSleep(h.base, o, m, k);
      BaseStays(h.base, o, m, h.owner[k]);
    }
    forall x | x in t.others ensures HasFuture(t.base, t.others[x]) {
      BaseStays(h.base, o, m, h.others[x]);
    }
  }

  lemma EndPollShape(h: Held, result: PollResult, wakes: seq<Id>, t: Held)
    requires Good(h.base) && HeldNext(h, EndPoll(result, wakes)) == Some(t)
    ensures h.base.ex.polling.Some? && PollInv(h.base.ex) && t == h.(base := t.base)
    ensures Next(h.base, Return(result, Drops(h, wakes))) == Some(t.base)
    ensures DropsFuture(h.base.ex, result) ==> !Holds(h, h.base.ex.polling.value)
  {
    EndPollKeeps(h.base.ex, result, Drops(h, wakes));
  }

  /** If the future is dropped at the end of its poll and that does not panic, it held nothing. */
  lemma EndPollHeld(h: Held, result: PollResult, wakes: seq<Id>, t: Held)
    requires HeldInv(h) && HeldNext(h, EndPoll(result, wakes)) == Some(t)
    ensures HeldInv(t)
  {
    EndPollShape(h, result, wakes, t);
    EndPollParts(h, Return(result, Drops(h, wakes)), t);
  }

  lemma EndPollParts(h: Held, op: Op, t: Held)
    requires HeldInv(h) && op.Return? && Next(h.base, op) == Some(t.base) && t == h.(base := t.base)
    requires h.base.ex.polling.Some? && (DropsFuture(h.base.ex, op.result) ==> !Holds(h, h.base.ex.polling.value))
    ensures HeldInv(t)
  {
    NextGood(h.base, op);
    EndPollOwned(h, op, t);
    forall x | x in t.others ensures HasFuture(t.base, t.others[x]) {
      BaseStays(h.base, op, t.base, h.others[x]);
    }
  }

  lemma EndPollOwned(h: Held, op: Op, t: Held)
    requires HeldInv(h) && op.Return? && Next(h.base, op) == Some(t.base) && t == h.(base := t.base)
    requires h.base.ex.polling.Some? && (DropsFuture(h.base.ex, op.result) ==> !Holds(h, h.base.ex.polling.value))
    ensures forall k :: k in t.owner ==> k in t.base.clock.sleeps && HasFuture(t.base, t.owner[k])
  {
    forall k | k in t.owner ensures k in t.base.clock.sleeps && HasFuture(t.base, t.owner[k]) {
      BaseKeepsSleep(h.base, op, t.base, k);
      BaseStays(h.base, op, t.base, h.owner[k]);
    }
  }

  lemma HeldKeeps(h: Held, op: HeldOp, t: Held)
    requires HeldInv(h) && HeldNext(h, op) == Some(t)
    ensures HeldInv(t)
  {
    match op
    case Plain(o) => PlainHeld(h, o, t);
    case EndPoll(result, wakes) => EndPollHeld(h, result, wakes, t);
    case _ =>
  }

  lemma {:induction false} HeldRunKeeps(h: Held, ops: seq<HeldOp>, t: Held)
    requires HeldInv(h) && HeldRun(h, ops, t)
    ensures HeldInv(t)
    decreases |ops|
  {
    if ops != [] {
      HeldKeeps(h, ops[0], HeldNext(h, ops[0]).value);
      HeldRunKeeps(HeldNext(h, ops[0]).value, ops[1..], t);
    }
  }

  lemma HeldStartInv(start: Instant)
    ensures HeldInv(HeldStart(start))
  {
    StartGood(start);
  }

  lemma HeldReached(start: Instant, ops: seq<HeldOp>, h: Held)
    requires HeldRun(HeldStart(start), ops, h)
    ensures HeldInv(h)
  {
    HeldStartInv(start);
    HeldRunKeeps(HeldStart(start), ops, h);
  }

  // ----- the borrow panic -----

  lemma ReturnPanics(s: State, result: PollResult, drops: seq<DropEffect>)
    requires Good(s) && s.ex.polling.Some? && s.frames == [] && forall id :: DropWake(id) in drops ==> id in s.ex.shared
    ensures PollInv(s.ex) && Enabled(s, Return(result, drops))
    ensures Step(s, Return(result, drops)).Panic? <==> DropsFuture(s.ex, result) && DropUsesContext in drops
    ensures Step(s, Return(result, drops)).Panic? ==> Step(s, Return(result, drops)) == Panic(BorrowConflict)
  {
    assert TaskInv(s.ex, s.ex.polling.value);
    EndPollKeeps(s.ex, result, drops);
  }

  lemma PanicsIffHeld(h: Held, result: PollResult, wakes: seq<Id>)
    requires HeldInv(h)
    requires h.base.ex.polling.Some? && h.base.frames == [] && forall id :: id in wakes ==> id in h.base.ex.shared
    ensures PollInv(h.base.ex) && Enabled(h.base, Return(result, Drops(h, wakes)))
    ensures Step(h.base, Return(result, Drops(h, wakes))).Panic? <==>
              DropsFuture(h.base.ex, result) && Holds(h, h.base.ex.polling.value)
    ensures Step(h.base, Return(result, Drops(h, wakes))).Panic? ==>
              Step(h.base, Return(result, Drops(h, wakes))) == Panic(BorrowConflict)
  {
    ReturnPanics(h.base, result, Drops(h, wakes));
  }

  /** Over every run: the end of a poll panics exactly if the future is dropped there and still
      holds a Sleep, a socket or an abort guard. */
  lemma BorrowPanicsExactly(start: Instant, ops: seq<HeldOp>, h: Held, result: PollResult, wakes: seq<Id>)
    requires HeldRun(HeldStart(start), ops, h)
    requires h.base.ex.polling.Some? && h.base.frames == [] && forall id :: id in wakes ==> id in h.base.ex.shared
    ensures PollInv(h.base.ex) && Enabled(h.base, Return(result, Drops(h, wakes)))
    ensures Step(h.base, Return(result, Drops(h, wakes))).Panic? <==>
              DropsFuture(h.base.ex, result) && Holds(h, h.base.ex.polling.value)
    ensures Step(h.base, Return(result, Drops(h, wakes))).Panic? ==>
              Step(h.base, Return(result, Drops(h, wakes))) == Panic(BorrowConflict)
  {
    HeldReached(start, ops, h);
    PanicsIffHeld(h, result, wakes);
  }

  /** One task, spawned and still queued, or in its first poll. */
  function OneTask(start: Instant, polled: bool): Held {
    var shared := map[1 := Shared(if polled then Waiting else Ready, 0)];
    var ex := Exec(if polled then [] else [1], shared, map[1 := !polled], [Node(Running, {1})], false,
                   if polled then Some(1) else None, map[1 := Undecided]);
    var trace := if polled then [TaskSpawned, TaskRun(1)] else [TaskSpawned];
    Held(State(ex, StartClock(start), 1, trace, []), map[], map[])
  }

  /** The polled task made a Sleep and keeps it in its future. */
  function Keeping(start: Instant, deadline: Instant): Held {
    var h := OneTask(start, true);
    h.(base := h.base.(clock := NewSleep(h.base.clock, 0, deadline)), owner := map[0 := 1])
  }

  lemma OneTaskIsSpawned(start: Instant)
    ensures HeldNext(HeldStart(start), Plain(SpawnTask(0))) == Some(OneTask(start, false))
  {
    var e, t := Spawn(EmptyExec, 1, 0), OneTask(start, false).base.ex;
    assert {} + {1} == {1 as Id};
    assert e.nodes == t.nodes;
    assert e.shared == t.shared;
    assert e.queue == t.queue;
    assert e.tasks == t.tasks;
    assert e.verdicts == t.verdicts;
    assert e == t;
    assert Push([], TaskSpawned) == OneTask(start, false).base.trace;
  }

  lemma OneTaskIsPolled(start: Instant)
    ensures HeldNext(OneTask(start, false), Plain(Turn([]))) == Some(OneTask(start, true))
  {
    var s, t := OneTask(start, false).base, OneTask(start, true).base;
    assert IsWakeOrder(s.clock, []);
    assert SetState(s.ex.(queue := []), 1, Waiting).(tasks := s.ex.tasks[1 := false], polling := Some(1)) == t.ex;
    assert Push(s.trace, TaskRun(1)) == t.trace;
    assert s.ex.queue[1..] == [];
    assert NextTask(s.ex) == Ok((t.ex, Some(1)));
    assert Next(s, Turn([])) == Some(t);
  }

  lemma KeepingIsMade(start: Instant, deadline: Instant)
    ensures var h, t := OneTask(start, true), Keeping(start, deadline);
            && HeldNext(h, Plain(MakeSleep(0, deadline))) == Some(h.(base := t.base))
            && HeldNext(h.(base := t.base), Hold(0, 1)) == Some(t)
  {}

  lemma KeepingIsReached(start: Instant, deadline: Instant) returns (ops: seq<HeldOp>)
    ensures HeldRun(HeldStart(start), ops, Keeping(start, deadline))
  {
    var waiting, polled, t := OneTask(start, false), OneTask(start, true), Keeping(start, deadline);
    var made := polled.(base := t.base);
    KeepingIsMade(start, deadline);
    OneTaskIsSpawned(start);
    OneTaskIsPolled(start);
    ops := [Plain(SpawnTask(0)), Plain(Turn([])), Plain(MakeSleep(0, deadline)), Hold(0, 1)];
    HeldFour(HeldStart(start), ops[0], waiting, ops[1], polled, ops[2], made, ops[3], t);
  }

  /** A task that makes a Sleep, keeps it in its future and completes: the run loop panics. */
  lemma HeldSleepPanics(start: Instant, deadline: Instant) returns (ops: seq<HeldOp>, h: Held)
    ensures HeldRun(HeldStart(start), ops, h) && h.base.ex.polling == Some(1)
    ensures h.owner == map[0 := 1] && 0 in h.base.clock.sleeps
    ensures Enabled(h.base, Return(Finished(0), Drops(h, [])))
    ensures Step(h.base, Return(Finished(0), Drops(h, []))) == Panic(BorrowConflict)
  {
    ops := KeepingIsReached(start, deadline);
    h := Keeping(start, deadline);
    BorrowPanicsExactly(start, ops, h, Finished(0), []);
    assert h.owner[0] == 1;
  }

  lemma HeldFour(h0: Held, a: HeldOp, h1: Held, b: HeldOp, h2: Held, c: HeldOp, h3: Held, d: HeldOp, h4: Held)
    requires HeldNext(h0, a) == Some(h1) && HeldNext(h1, b) == Some(h2) && HeldNext(h2, c) == Some(h3) && HeldNext(h3, d) == Some(h4)
    ensures HeldRun(h0, [a, b, c, d], h4)
  {
    HeldChain([h0, h1, h2, h3, h4], [a, b, c, d]);
  }

  lemma {:induction false} HeldChain(h: seq<Held>, ops: seq<HeldOp>)
    requires |h| == |ops| + 1 && forall i :: 0 <= i < |ops| ==> HeldNext(h[i], ops[i]) == Some(h[i + 1])
    ensures HeldRun(h[0], ops, h[|ops|])
    decreases |ops|
  {
    if ops != [] { HeldChain(h[1..], ops[1..]); }
  }

  // ----- shutdown and the clock -----

  ghost predicate AllHeld(h: Held) {
    forall k :: k in h.base.clock.upcoming ==> k in h.owner
  }

  /** No Sleep is registered outside a future, and no registered one is taken out of a future. */
  predicate Orderly(h: Held, op: HeldOp) {
    match op
    case Plain(o) => o.AwaitSleep? && o.key !in h.owner ==> !Registers(h.base.clock, o.key)
    case Release(k) => k !in h.base.clock.upcoming
    case _ => true
  }

  ghost predicate OrderlyRun(h: Held, ops: seq<HeldOp>, t: Held)
    decreases |ops|
  {
    if ops == [] then h == t
    else HeldNext(h, ops[0]).Some? && Orderly(h, ops[0]) && OrderlyRun(HeldNext(h, ops[0]).value, ops[1..], t)
  }

  lemma {:induction false} OrderlyIsHeld(h: Held, ops: seq<HeldOp>, t: Held)
    requires OrderlyRun(h, ops, t)
    ensures HeldRun(h, ops, t)
    decreases |ops|
  {
    if ops != [] { OrderlyIsHeld(HeldNext(h, ops[0]).value, ops[1..], t); }
  }

  /** A label adds at most the Sleep it polls to the queue. */
  lemma NewlyRegistered(g: Eager, op: Op, k: SleepKey)
    requires Tidy(g) && ENext(g, op).Some? && k in ENext(g, op).value.clock.upcoming && k !in g.clock.upcoming
    ensures op.AwaitSleep? && op.key == k && Registers(g.clock, k)
  {
    match op {
      case AwaitSleep(j, w) => PollSleepOne(g.clock, j, w, k);
      case Turn(order) => TurnSleeps(g, order, k);
      case Return(r, drops) => ReturnClock(g, r, drops);
      case _ =>
    }
  }

  lemma NewlyRegisteredBase(s: State, op: Op, t: State, k: SleepKey)
    requires Good(s) && Next(s, op) == Some(t) && k in t.clock.upcoming && k !in s.clock.upcoming
    ensures op.AwaitSleep? && op.key == k && Registers(s.clock, k)
  {
    NextGood(s, op);
    NewlyRegistered(Abs(s), op, k);
  }

  lemma Forgotten(s: State, k: SleepKey, t: State)
    requires Next(s, ForgetSleep(k)) == Some(t)
    ensures k !in t.clock.upcoming
  {}

  lemma PlainAllHeld(h: Held, o: Op, t: Held)
    requires HeldInv(h) && AllHeld(h) && HeldNext(h, Plain(o)) == Some(t) && Orderly(h, Plain(o))
    ensures AllHeld(t)
  {
    var m := Next(h.base, o).value;
    if o.ForgetSleep? { Forgotten(h.base, o.key, m); }
    forall k | k in t.base.clock.upcoming ensures k in t.owner {
      assert k in m.clock.upcoming;
      if k !in h.base.clock.upcoming { NewlyRegisteredBase(h.base, o, m, k); }
    }
  }

  lemma AllHeldStep(h: Held, op: HeldOp, t: Held)
    requires HeldInv(h) && AllHeld(h) && HeldNext(h, op) == Some(t) && Orderly(h, op)
    ensures AllHeld(t)
  {
    match op {
      case Plain(o) => PlainAllHeld(h, o, t);
      case EndPoll(result, wakes) =>
        forall k | k in t.base.clock.upcoming ensures k in t.owner {
          if k !in h.base.clock.upcoming { NewlyRegisteredBase(h.base, Return(result, Drops(h, wakes)), t.base, k); }
        }
      case _ =>
    }
  }

  lemma {:induction false} AllHeldRun(h: Held, ops: seq<HeldOp>, t: Held)
    requires HeldInv(h) && AllHeld(h) && OrderlyRun(h, ops, t)
    ensures HeldInv(t) && AllHeld(t)
    decreases |ops|
  {
    if ops != [] {
      var m := HeldNext(h, ops[0]).value;
      HeldKeeps(h, ops[0], m);
      AllHeldStep(h, ops[0], m);
      AllHeldRun(m, ops[1..], t);
    }
  }

  lemma NothingHeldAtTheEnd(h: Held)
    requires HeldInv(h) && h.base.ex.finalStopped && h.base.frames == [] && h.base.ex.polling.None?
    ensures h.owner == map[] && h.others == map[]
  {
    ShutdownIsComplete(h.base);
    assert h.owner.Keys == {};
    assert h.others.Keys == {};
  }

  lemma StoppedForGood(stopping: Held, ops: seq<HeldOp>, t: Held)
    requires Good(stopping.base) && stopping.base.ex.finalStopped && HeldRun(stopping, ops, t)
    ensures t.base.ex.finalStopped
  {
    var plain := HeldRunIsRun(stopping, ops, t);
    NoRunAfterStop(stopping.base, plain, t.base);
  }

  lemma StopBegins(h: Held, stopping: Held)
    requires HeldNext(h, Plain(StopSimulation)) == Some(stopping)
    ensures stopping.base.ex.finalStopped && stopping.owner == h.owner && stopping.base.clock == h.base.clock
  {}

  /** From the call on. */
  lemma StopEmptiesClock(stopping: Held, ops: seq<HeldOp>, t: Held)
    requires HeldInv(stopping) && AllHeld(stopping) && stopping.base.ex.finalStopped && OrderlyRun(stopping, ops, t)
    requires t.base.frames == [] && t.base.ex.polling.None?
    ensures HeldInv(t) && t.base.ex.finalStopped
    ensures t.base.clock.upcoming == map[] && t.owner == map[] && t.others == map[]
  {
    OrderlyIsHeld(stopping, ops, t);
    StoppedForGood(stopping, ops, t);
    AllHeldRun(stopping, ops, t);
    NothingHeldAtTheEnd(t);
    assert t.base.clock.upcoming.Keys == {};
  }

  /** Shutdown empties the clock, over every run: if at the call of `stop_simulation` every
      registered Sleep is inside a task's future, and meanwhile none is registered outside or
      taken out of one, then at the end of the shutdown no Sleep is registered, because the
      futures that were dropped took theirs along; nor does any future hold anything. */
  lemma ShutdownEmptiesClock(start: Instant, before: seq<HeldOp>, h: Held, stopping: Held, ops: seq<HeldOp>, t: Held)
    requires HeldRun(HeldStart(start), before, h) && AllHeld(h)
    requires HeldNext(h, Plain(StopSimulation)) == Some(stopping) && OrderlyRun(stopping, ops, t)
    requires t.base.frames == [] && t.base.ex.polling.None?
    ensures HeldInv(t) && t.base.ex.finalStopped
    ensures t.base.clock.upcoming == map[] && t.owner == map[] && t.others == map[]
  {
    HeldReached(start, before, h);
    HeldKeeps(h, Plain(StopSimulation), stopping);
    StopBegins(h, stopping);
    StopEmptiesClock(stopping, ops, t);
  }

  /** The shutdown is over and the clock is empty; a further `stop_simulation` may be running. */
  ghost predicate Ended(h: Held) {
    HeldInv(h) && Over(Abs(h.base)) && h.base.ex.polling.None?
  }

  lemma EndedHoldsNothing(h: Held)
    requires Ended(h)
    ensures h.owner == map[] && forall id :: !HasFuture(h.base, id)
  {
    AbsTidy(h.base);
    var g := Abs(h.base);
    forall id | id in g.live ensures InTodo(g, id) { assert g.levels[g.live[id]].FinalStopped?; }
    forall id ensures !HasFuture(h.base, id) { assert !InTodo(g, id); }
    assert h.owner.Keys == {};
  }

  lemma OverStaysIdle(g: Eager, op: Op)
    requires Over(g) && g.polling.None? && ENext(g, op).Some?
    ensures ENext(g, op).value.polling.None?
  {
    match op {
      case Turn(order) => assert g.finalStopped;
      case _ =>
    }
  }

  lemma EndedBase(s: State, o: Op, m: State)
    requires Good(s) && Over(Abs(s)) && s.ex.polling.None? && Next(s, o) == Some(m)
    requires o.AwaitSleep? ==> !Registers(s.clock, o.key)
    ensures Over(Abs(m)) && m.ex.polling.None? && m.trace == s.trace && m.clock.now == s.clock.now
  {
    NextGood(s, o);
    OverStep(Abs(s), o);
    OverStaysIdle(Abs(s), o);
  }

  lemma EndedStep(h: Held, op: HeldOp, t: Held)
    requires Ended(h) && HeldNext(h, op) == Some(t) && Orderly(h, op)
    ensures Ended(t) && t.base.trace == h.base.trace && t.base.clock.now == h.base.clock.now
  {
    EndedHoldsNothing(h);
    HeldKeeps(h, op, t);
    match op {
      case Plain(o) =>
        var m := PlainShape(h, o, t);
        EndedBase(h.base, o, m);
        assert forall id :: !DropsAtOnce(h.base, o, id) by {
          AbsTidy(h.base);
          forall id ensures !DropsAtOnce(h.base, o, id) { assert TaskInv(h.base.ex, id) && !HasFuture(h.base, id); }
        }
      case _ =>
    }
  }

  lemma {:induction false} EndedRun(h: Held, ops: seq<HeldOp>, t: Held)
    requires Ended(h) && OrderlyRun(h, ops, t)
    ensures Ended(t) && t.base.trace == h.base.trace && t.base.clock.now == h.base.clock.now
    decreases |ops|
  {
    if ops != [] {
      EndedStep(h, ops[0], HeldNext(h, ops[0]).value);
      EndedRun(HeldNext(h, ops[0]).value, ops[1..], t);
    }
  }

  lemma OverNodes(u: Held)
    requires Ended(u)
    ensures u.base.clock.upcoming == map[]
    ensures forall n :: 0 <= n < |u.base.ex.nodes| ==> u.base.ex.nodes[n].level.FinalStopped?
  {
    assert forall n :: 0 <= n < |u.base.ex.nodes| ==> Abs(u.base).levels[n] == u.base.ex.nodes[n].level;
  }

  /** Shutdown is absorbing, over every run: under the same condition at the call, from the end
      of the shutdown on no event is emitted, the clock stands still, no Sleep is registered and
      every node stays finally stopped, whatever happens. */
  lemma ShutdownIsForever(start: Instant, before: seq<HeldOp>, h: Held, stopping: Held, ops: seq<HeldOp>, t: Held,
                          later: seq<HeldOp>, u: Held)
    requires HeldRun(HeldStart(start), before, h) && AllHeld(h)
    requires HeldNext(h, Plain(StopSimulation)) == Some(stopping) && OrderlyRun(stopping, ops, t)
    requires t.base.frames == [] && t.base.ex.polling.None?
    requires OrderlyRun(t, later, u)
    ensures u.base.trace == t.base.trace && u.base.clock.now == t.base.clock.now && u.base.clock.upcoming == map[]
    ensures forall n :: 0 <= n < |u.base.ex.nodes| ==> u.base.ex.nodes[n].level.FinalStopped?
  {
    ShutdownEmptiesClock(start, before, h, stopping, ops, t);
    OverNow(t.base);
    EndedRun(t, later, u);
    OverNodes(u);
  }
}
