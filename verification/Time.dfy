/** The virtual clock and the Sleep future (src/time.rs), as values. */
module Time {
  import opened Types

  /** `Sleeping` is the source's `Waiting(Waker)`; a waker is the id of the task it wakes. */
  datatype SleepState = Init(deadline: Instant) | Sleeping(waker: Id) | Done(at: Instant) | Taken

  /** `now` is the scheduler's copy of the time and `time` the cell that
      `Instant::now()` reads. `upcoming` is the priority queue. `deadlines` is
      history: the deadline each Sleep was created with. */
  datatype Clock = Clock(
    now: Instant,
    time: Instant,
    upcoming: map<SleepKey, Instant>,
    sleeps: map<SleepKey, SleepState>,
    deadlines: map<SleepKey, Instant>)

  function StartClock(start: Instant): Clock {
    Clock(start, start, map[], map[], map[])
  }

  function NewSleep(c: Clock, k: SleepKey, d: Instant): Clock {
    c.(sleeps := c.sleeps[k := Init(d)], deadlines := c.deadlines[k := d])
  }

  function DropSleep(c: Clock, k: SleepKey): Clock {
    c.(sleeps := c.sleeps - {k}, upcoming := c.upcoming - {k})
  }

  /** `Sleep::poll` with the waker of task `w`: `Some(t)` is `Poll::Ready(t)`. */
  function PollSleep(c: Clock, k: SleepKey, w: Id): Outcome<(Clock, Option<Instant>)>
    requires k in c.sleeps
  {
    match c.sleeps[k]
    case Init(d) =>
      if c.now >= d then
        Ok((c.(sleeps := c.sleeps[k := Taken]), Some(d)))
      else
        Ok((c.(sleeps := c.sleeps[k := Sleeping(w)], upcoming := c.upcoming[k := d]), None))
    case Sleeping(_) => Ok((c.(sleeps := c.sleeps[k := Sleeping(w)]), None))
    case Done(t) => Ok((c, Some(t)))
    case Taken => Panic(SleepPolledAgain)
  }

  /** A poll of `k` now would register it. */
  predicate Registers(c: Clock, k: SleepKey) {
    k in c.sleeps && c.sleeps[k].Init? && c.now < c.sleeps[k].deadline
  }

  ghost predicate IsNext(c: Clock, k: SleepKey) {
    k in c.upcoming && forall j :: j in c.upcoming ==> c.upcoming[k] <= c.upcoming[j]
  }

  /** `order` lists, in any order, exactly the registered sleeps with the earliest
      deadline: the priority queue promises nothing among equal deadlines. */
  ghost predicate IsWakeOrder(c: Clock, order: seq<SleepKey>) {
    && NoDuplicates(order)
    && (forall k :: k in order <==> IsNext(c, k))
    && (order == [] <==> c.upcoming == map[])
  }

  /** `Instant::duration_since` saturates at zero. */
  function Since(later: Instant, earlier: Instant): nat {
    if later >= earlier then later - earlier else 0
  }

  predicate AllSleeping(c: Clock, order: seq<SleepKey>) {
    forall k :: k in order ==> k in c.upcoming && k in c.sleeps && c.sleeps[k].Sleeping?
  }

  function StepSize(c: Clock, order: seq<SleepKey>): nat
    requires order != [] && order[0] in c.upcoming
  {
    Since(c.upcoming[order[0]], c.now)
  }

  function ToSet(order: seq<SleepKey>): set<SleepKey> {
    set k | k in order
  }

  /** The clock after `wait_until_next_future_ready` has popped `order`. */
  function Advance(c: Clock, order: seq<SleepKey>): Clock
    requires order != [] && AllSleeping(c, order)
  {
    var next := c.upcoming[order[0]];
    var due := ToSet(order);
    Clock(
      next,
      c.time + StepSize(c, order),
      c.upcoming - due,
      map k | k in c.sleeps :: if k in due then Done(c.upcoming[k]) else c.sleeps[k],
      c.deadlines)
  }

  /** The wakers of the popped sleeps, in pop order. */
  function Wakers(c: Clock, order: seq<SleepKey>): (w: seq<Id>)
    requires AllSleeping(c, order)
    ensures |w| == |order|
    ensures forall i :: 0 <= i < |order| ==> w[i] == c.sleeps[order[i]].waker
  {
    if order == [] then [] else [c.sleeps[order[0]].waker] + Wakers(c, order[1..])
  }

  /** What every clock operation keeps: the two copies of the time agree, and the
      queue holds exactly the sleeping Sleeps, each under its own deadline and
      strictly in the future. */
  ghost predicate ClockInv(c: Clock) {
    && c.now == c.time
    && (forall k :: k in c.upcoming <==> (k in c.sleeps && c.sleeps[k].Sleeping?))
    && (forall k :: k in c.sleeps ==> k in c.deadlines)
    && (forall k :: k in c.upcoming ==> c.upcoming[k] == c.deadlines[k] && c.deadlines[k] > c.now)
    && (forall k :: k in c.sleeps && c.sleeps[k].Init? ==> c.sleeps[k].deadline == c.deadlines[k])
    && (forall k :: k in c.sleeps && c.sleeps[k].Done? ==> c.sleeps[k].at == c.deadlines[k] <= c.now)
    && (forall k :: k in c.sleeps && c.sleeps[k].Taken? ==> c.deadlines[k] <= c.now)
  }

  lemma NewSleepKeeps(c: Clock, k: SleepKey, d: Instant)
    requires ClockInv(c) && k !in c.deadlines
    ensures ClockInv(NewSleep(c, k, d))
    ensures var c' := NewSleep(c, k, d);
            && k in c'.sleeps && k in c'.deadlines && c'.deadlines[k] == d && c'.upcoming == c.upcoming && c'.now == c.now
            && (forall j :: j in c.sleeps ==> j in c'.sleeps && c'.sleeps[j] == c.sleeps[j])
  {}

  /** A dropped Sleep is gone from the queue, and every other one is as it was. */
  lemma DropSleepKeeps(c: Clock, k: SleepKey)
    requires ClockInv(c)
    ensures var c' := DropSleep(c, k);
            && ClockInv(c') && k !in c'.upcoming && k !in c'.sleeps
            && c'.now == c.now && c'.deadlines == c.deadlines
            && (forall j :: j in c.sleeps && j != k ==> j in c'.sleeps && c'.sleeps[j] == c.sleeps[j])
            && (forall j :: j in c.upcoming && j != k ==> j in c'.upcoming && c'.upcoming[j] == c.upcoming[j])
  {}

  /** A Sleep that has not panicked polls Ready exactly from its deadline on, with
      the deadline as its value; otherwise it is registered under the waker of
      this, its latest, poll. The panic happens exactly when an earlier poll was
      the first one and already returned Ready. */
  lemma PollSleepExact(c: Clock, k: SleepKey, w: Id)
    requires ClockInv(c) && k in c.sleeps
    ensures PollSleep(c, k, w).Panic? <==> c.sleeps[k].Taken?
    ensures PollSleep(c, k, w).Panic? ==> PollSleep(c, k, w).fault == SleepPolledAgain
    ensures PollSleep(c, k, w).Ok? ==>
              var (c', r) := PollSleep(c, k, w).value;
              && ClockInv(c')
              && (r.Some? <==> c.now >= c.deadlines[k])
              && (r.Some? ==> r.value == c.deadlines[k])
              && (r.None? ==> k in c'.upcoming && c'.sleeps[k] == Sleeping(w))
              && c'.now == c.now && c'.deadlines == c.deadlines
              && c'.sleeps.Keys == c.sleeps.Keys
              && (forall j :: j in c.sleeps && j != k ==> c'.sleeps[j] == c.sleeps[j])
  {
    if PollSleep(c, k, w).Ok? { PolledClock(c, k, w); }
  }

  lemma PolledClock(c: Clock, k: SleepKey, w: Id)
    requires ClockInv(c) && k in c.sleeps && PollSleep(c, k, w).Ok?
    ensures ClockInv(PollSleep(c, k, w).value.0)
  {}

  /** What a poll of `k` does to `k`, and that it does nothing to another Sleep `j`. */
  lemma PollSleepOne(c: Clock, k: SleepKey, w: Id, j: SleepKey)
    requires ClockInv(c) && k in c.sleeps && PollSleep(c, k, w).Ok?
    ensures var c' := PollSleep(c, k, w).value.0;
            && c'.now == c.now && c'.deadlines == c.deadlines
            && (j in c'.sleeps <==> j in c.sleeps)
            && (j != k && j in c.sleeps ==> c'.sleeps[j] == c.sleeps[j] && (j in c'.upcoming <==> j in c.upcoming))
            && (c.sleeps[k].Init? ==> c'.sleeps[k] == (if Registers(c, k) then Sleeping(w) else Taken))
            && (c.sleeps[k].Sleeping? ==> c'.sleeps[k] == Sleeping(w))
            && (c.sleeps[k].Done? ==> c'.sleeps[k] == c.sleeps[k])
            && (k in c'.upcoming <==> k in c.upcoming || Registers(c, k))
  {}

  /** Advancing moves both clocks by the same positive amount to the earliest
      deadline, marks exactly the sleeps due then, and leaves the rest strictly
      in the future. */
  lemma AdvanceExact(c: Clock, order: seq<SleepKey>)
    requires ClockInv(c) && order != [] && IsWakeOrder(c, order)
    ensures AllSleeping(c, order)
    ensures StepSize(c, order) > 0
    ensures var c' := Advance(c, order);
            && ClockInv(c')
            && c'.now == c.now + StepSize(c, order)
            && (forall k :: k in order <==> k in c.upcoming && c.deadlines[k] == c'.now)
            && (forall k :: k in order ==> c'.sleeps[k] == Done(c'.now))
            && (forall k :: k in c.sleeps && k !in order ==> k in c'.sleeps && c'.sleeps[k] == c.sleeps[k])
            && (forall k :: k in c.upcoming ==> c.deadlines[k] >= c'.now)
            && c'.sleeps.Keys == c.sleeps.Keys
  {
    OrderIsDue(c, order);
    AdvanceKeeps(c, order);
  }

  lemma AdvanceKeeps(c: Clock, order: seq<SleepKey>)
    requires ClockInv(c) && order != [] && AllSleeping(c, order)
    requires forall k :: k in order <==> k in c.upcoming && c.upcoming[k] == c.upcoming[order[0]]
    requires forall k :: k in c.upcoming ==> c.upcoming[k] >= c.upcoming[order[0]]
    ensures ClockInv(Advance(c, order))
  {
    var c' := Advance(c, order);
    assert c'.now == c'.time == c.upcoming[order[0]];
    assert forall k :: k in ToSet(order) <==> k in order;
  }

  /** A wake order lists exactly the registered sleeps with the deadline of its first. */
  lemma OrderIsDue(c: Clock, order: seq<SleepKey>)
    requires order != [] && IsWakeOrder(c, order)
    ensures order[0] in order && order[0] in c.upcoming
    ensures forall k :: k in order <==> k in c.upcoming && c.upcoming[k] == c.upcoming[order[0]]
    ensures forall k :: k in c.upcoming ==> c.upcoming[k] >= c.upcoming[order[0]]
  {
    assert order[0] in order;
    assert IsNext(c, order[0]);
    forall k ensures k in order <==> k in c.upcoming && c.upcoming[k] == c.upcoming[order[0]] {
      if k in order { assert IsNext(c, k); }
      if k in c.upcoming && c.upcoming[k] == c.upcoming[order[0]] { assert IsNext(c, k); }
    }
  }
}
