/** Recording and validating event traces (src/event.rs) and the determinism checks of
    `SimBuilder::run` (src/sim_builder.rs). A panic is a returned failure. */
module Traces {
  import opened Types

  /** `Differs` carries the index that the message reports. */
  datatype Failure =
    | NoFurtherExpected(got: Event)
    | Differs(index: nat, expected: Event, got: Event)
    | TooFew(expectedCount: nat, gotCount: nat)
    | HashDiffers

  datatype Check = NoCheck | Full(iterations: nat) | Hash(iterations: nat)

  /** What `run` does: return the first iteration's output, panic in iteration `iteration`, or
      panic at once because a check needs two iterations. */
  datatype Verdict<T> = Accepted(output: T) | Rejected(iteration: nat, failure: Failure) | TooFewIterations

  /** The traces agree before index `i`, and at `i` they differ or only one of them goes on. */
  ghost predicate FirstGap(recorded: seq<Event>, trace: seq<Event>, i: nat) {
    && i <= |recorded| && i <= |trace|
    && (forall j :: 0 <= j < i ==> trace[j] == recorded[j])
    && (if i < |recorded| && i < |trace| then trace[i] != recorded[i] else |recorded| != |trace|)
  }

  /** The one way in which a trace can fail against the recorded one: the first index at which
      they differ, or else the first event that only one of them has. */
  ghost predicate Explains(recorded: seq<Event>, trace: seq<Event>, f: Failure) {
    match f
    case Differs(i, e, g) =>
      FirstGap(recorded, trace, i) && i < |recorded| && i < |trace| && e == recorded[i] && g == trace[i]
    case NoFurtherExpected(g) => FirstGap(recorded, trace, |recorded|) && |recorded| < |trace| && g == trace[|recorded|]
    case TooFew(e, g) => FirstGap(recorded, trace, |trace|) && e == |recorded| && g == |trace|
    case HashDiffers => false
  }

  /** An explanation means that the traces differ, and there is only one. */
  lemma ExplanationIsUnique(recorded: seq<Event>, trace: seq<Event>, f: Failure, g: Failure)
    requires Explains(recorded, trace, f)
    ensures recorded != trace
    ensures Explains(recorded, trace, g) ==> f == g
  {}

  class RecordingEventHandler {
    var recordedEvents: seq<Event>

    constructor ()
      ensures recordedEvents == []
    {
      recordedEvents := [];
    }

    method HandleEvent(e: Event)
      modifies this
      ensures recordedEvents == old(recordedEvents) + [e]
    {
      recordedEvents := recordedEvents + [e];
    }
  }

  class ValidatingEventHandler {
    const eventsToValidate: seq<Event>
    var nextEventIndex: nat

    constructor (previousEvents: seq<Event>)
      ensures eventsToValidate == previousEvents && nextEventIndex == 0
    {
      eventsToValidate := previousEvents;
      nextEventIndex := 0;
    }

    method HandleEvent(e: Event) returns (failure: Option<Failure>)
      requires nextEventIndex <= |eventsToValidate|
      modifies this
      ensures failure.None? <==> old(nextEventIndex) < |eventsToValidate| && e == eventsToValidate[old(nextEventIndex)]
      ensures failure.None? ==> nextEventIndex == old(nextEventIndex) + 1
      ensures failure.Some? ==>
                if old(nextEventIndex) < |eventsToValidate|
                then failure.value == Differs(old(nextEventIndex), eventsToValidate[old(nextEventIndex)], e)
                else failure.value == NoFurtherExpected(e)
    {
      if nextEventIndex >= |eventsToValidate| {
        return Some(NoFurtherExpected(e));
      }
      var expected := eventsToValidate[nextEventIndex];
      if e != expected {
        return Some(Differs(nextEventIndex, expected, e));
      }
      nextEventIndex := nextEventIndex + 1;
      failure := None;
    }

    method Finalize() returns (failure: Option<Failure>)
      ensures failure == if nextEventIndex == |eventsToValidate| then None else Some(TooFew(|eventsToValidate|, nextEventIndex))
    {
      var index, len := nextEventIndex, |eventsToValidate|;
      failure := if index != len then Some(TooFew(len, index)) else None;
    }
  }

  /** A run whose events go to the recording handler. */
  method Record(trace: seq<Event>) returns (events: seq<Event>)
    ensures events == trace
  {
    var handler := new RecordingEventHandler();
    for i := 0 to |trace|
      invariant handler.recordedEvents == trace[..i]
    {
      handler.HandleEvent(trace[i]);
    }
    events := handler.recordedEvents;
  }

  /** A run whose events go to the validating handler, up to its panic if it has one: it
      passes iff the traces are equal, and the failure says where they first differ. */
  method Validate(recorded: seq<Event>, trace: seq<Event>) returns (failure: Option<Failure>)
    ensures failure.None? <==> trace == recorded
    ensures failure.Some? ==> Explains(recorded, trace, failure.value)
  {
    var handler := new ValidatingEventHandler(recorded);
    for i := 0 to |trace|
      invariant handler.nextEventIndex == i <= |recorded| && handler.eventsToValidate == recorded
      invariant forall j :: 0 <= j < i ==> trace[j] == recorded[j]
    {
      failure := handler.HandleEvent(trace[i]);
      if failure.Some? {
        assert FirstGap(recorded, trace, i);
        return;
      }
    }
    failure := handler.Finalize();
  }

  // ----- hashed traces: the hash is an arbitrary fold over the events -----

  datatype Hasher<!S> = Hasher(initial: S, hash: (S, Event) -> S, finish: S -> nat)

  function Absorb<S>(h: Hasher<S>, state: S, trace: seq<Event>): S
    decreases |trace|
  {
    if trace == [] then state else h.hash(Absorb(h, state, trace[..|trace| - 1]), trace[|trace| - 1])
  }

  function Digest<S>(h: Hasher<S>, trace: seq<Event>): nat {
    h.finish(Absorb(h, h.initial, trace))
  }

  class HashEventHandler<S> {
    const hasher: Hasher<S>
    var state: S

    constructor (hasher: Hasher<S>)
      ensures this.hasher == hasher && state == hasher.initial
    {
      this.hasher := hasher;
      state := hasher.initial;
    }

    method HandleEvent(e: Event)
      modifies this
      ensures state == hasher.hash(old(state), e)
    {
      state := hasher.hash(state, e);
    }
  }

  /** A run with the hashing handler. */
  method RecordHash<S>(h: Hasher<S>, trace: seq<Event>) returns (digest: nat)
    ensures digest == Digest(h, trace)
  {
    var handler := new HashEventHandler(h);
    for i := 0 to |trace|
      invariant handler.hasher == h && handler.state == Absorb(h, h.initial, trace[..i])
    {
      assert trace[..i + 1][..i] == trace[..i];
      handler.HandleEvent(trace[i]);
    }
    assert trace[..|trace|] == trace;
    digest := h.finish(handler.state);
  }

  /** A run with the hash-validating handler: it never fails on the recorded trace. */
  method ValidateHash<S>(h: Hasher<S>, recorded: seq<Event>, expected: nat, trace: seq<Event>) returns (failure: Option<Failure>)
    requires expected == Digest(h, recorded)
    ensures failure.None? <==> Digest(h, trace) == Digest(h, recorded)
    ensures trace == recorded ==> failure.None?
    ensures failure.Some? ==> failure.value == HashDiffers
  {
    var actual := RecordHash(h, trace);
    failure := if actual != expected then Some(HashDiffers) else None;
  }

  /** What a hash can tell: if no two states and events are hashed alike, and no two states finished
      alike, then the digests of two traces of one length agree only if the traces are equal. */
  lemma HashDetects<S(!new)>(h: Hasher<S>, a: seq<Event>, b: seq<Event>)
    requires forall s, e, s', e' :: h.hash(s, e) == h.hash(s', e') ==> s == s' && e == e'
    requires forall s, s' :: h.finish(s) == h.finish(s') ==> s == s'
    requires |a| == |b| && Digest(h, a) == Digest(h, b)
    ensures a == b
  {
    AbsorbDetects(h, a, b);
  }

  lemma {:induction false} AbsorbDetects<S(!new)>(h: Hasher<S>, a: seq<Event>, b: seq<Event>)
    requires forall s, e, s', e' :: h.hash(s, e) == h.hash(s', e') ==> s == s' && e == e'
    requires |a| == |b| && Absorb(h, h.initial, a) == Absorb(h, h.initial, b)
    ensures a == b
    decreases |a|
  {
    if a != [] {
      var n := |a| - 1;
      AbsorbDetects(h, a[..n], b[..n]);
      assert a == a[..n] + [a[n]] && b == b[..n] + [b[n]];
    }
  }

  /** What a hash cannot tell: if two events hash alike from the start, swapping one for the
      other goes unnoticed. */
  lemma HashMayMiss<S>(h: Hasher<S>, a: Event, b: Event, rest: seq<Event>)
    requires h.hash(h.initial, a) == h.hash(h.initial, b)
    ensures Digest(h, [a] + rest) == Digest(h, [b] + rest)
  {
    AbsorbFrom(h, a, rest);
    AbsorbFrom(h, b, rest);
  }

  lemma {:induction false} AbsorbFrom<S>(h: Hasher<S>, a: Event, rest: seq<Event>)
    ensures Absorb(h, h.initial, [a] + rest) == Absorb(h, h.hash(h.initial, a), rest)
    decreases |rest|
  {
    if rest == [] {
      assert [a] + rest == [a];
      assert [a][..0] == [];
      assert Absorb(h, h.initial, [a][..0]) == h.initial;
    } else {
      assert ([a] + rest)[..|rest|] == [a] + rest[..|rest| - 1];
      AbsorbFrom(h, a, rest[..|rest| - 1]);
    }
  }

  // ----- SimBuilder::run -----

  /** `run` over iterations whose traces and outputs are arbitrary: iteration `i` emits
      `traces(i)` and returns `outputs(i)`. The full check returns iff all later traces equal the
      first and otherwise reports the first deviating iteration and where it deviates; the hash
      check returns iff all digests equal the first; and the output is the first iteration's. */
  method Run<S, T>(check: Check, h: Hasher<S>, traces: nat -> seq<Event>, outputs: nat -> T) returns (r: Verdict<T>)
    ensures r.Accepted? ==> r.output == outputs(0)
    ensures check.NoCheck? ==> r.Accepted?
    ensures r.TooFewIterations? <==> !check.NoCheck? && check.iterations <= 1
    ensures check.Full? && check.iterations > 1 ==>
              (r.Accepted? <==> forall i :: 1 <= i < check.iterations ==> traces(i) == traces(0))
    ensures check.Full? && r.Rejected? ==>
              && 1 <= r.iteration < check.iterations
              && (forall i :: 1 <= i < r.iteration ==> traces(i) == traces(0))
              && Explains(traces(0), traces(r.iteration), r.failure)
    ensures check.Hash? && check.iterations > 1 ==>
              (r.Accepted? <==> forall i :: 1 <= i < check.iterations ==> Digest(h, traces(i)) == Digest(h, traces(0)))
    ensures check.Hash? && r.Rejected? ==>
              && 1 <= r.iteration < check.iterations && traces(r.iteration) != traces(0)
              && (forall i :: 1 <= i < r.iteration ==> Digest(h, traces(i)) == Digest(h, traces(0)))
              && Digest(h, traces(r.iteration)) != Digest(h, traces(0)) && r.failure == HashDiffers
  {
    match check {
      case NoCheck => r := Accepted(outputs(0));
      case Full(iterations) =>
        if iterations <= 1 { return TooFewIterations; }
        var output := outputs(0);
        var events := Record(traces(0));
        for i := 1 to iterations
          invariant forall j :: 1 <= j < i ==> traces(j) == traces(0)
        {
          var failure := Validate(events, traces(i));
          if failure.Some? { return Rejected(i, failure.value); }
        }
        r := Accepted(output);
      case Hash(iterations) =>
        if iterations <= 1 { return TooFewIterations; }
        var output := outputs(0);
        var eventHash := RecordHash(h, traces(0));
        for i := 1 to iterations
          invariant forall j :: 1 <= j < i ==> Digest(h, traces(j)) == Digest(h, traces(0))
        {
          var failure := ValidateHash(h, traces(0), eventHash, traces(i));
          if failure.Some? { return Rejected(i, failure.value); }
        }
        r := Accepted(output);
    }
  }
}
