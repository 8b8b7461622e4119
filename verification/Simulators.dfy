/** Simulation-scoped singletons (src/simulator.rs): slots that are taken and put back around
    user code, sweeps over all of them, and one entry per node in every `PerNode`.

    The code that runs inside a borrow, a node scope or a callback is an arbitrary program, and
    the theorems are about all programs. `Internal(n)` is a panic at line n of that file. */
module Simulators {
  import opened Types
  import opened Machine

  type TypeId = nat
  type SlotIx = nat

  /** `perNode` is the vector of a `PerNode` simulator; other simulators have none. */
  datatype Simulator = Simulator(ty: TypeId, perNode: Option<seq<int>>, data: int)

  datatype Callback = CreateNodeCallback | StopNodeCallback | StartNodeCallback

  /** One callback: which slot, what for, and with which current node. */
  datatype Visit = Visit(slot: SlotIx, callback: Callback, node: NodeIx)

  /** What code can do here. `ReadNode` is `NodeId::current()`, which `spawn` and
      `with_current_node` begin with. `Borrow` is `with`, and `with_node` if it names an `entry`; it
      leaves `data` in the simulator, or in that entry. A `with` on a `PerNode` may also leave another
      `PerNode` in its place, with the entries `renewed`: a new one, or one that was kept. `Sweep` is
      what `stop_node` and `start_node` do; a callback that `callbacks` does not list does nothing,
      and `PerNode::create_node` then adds 0. */
  datatype Action =
    | ReadNode
    | Borrow(ty: TypeId, entry: Option<NodeIx>, renewed: Option<seq<int>>, data: int, body: Program)
    | Scope(node: NodeIx, body: Program)
    | Register(ty: TypeId, perNode: bool, data: int)
    | FinalStop
    | Sweep(callback: Callback, node: NodeIx, callbacks: Callbacks)
    | CreateNode(callbacks: Callbacks)

  datatype Program = Done | Then(first: Action, rest: Program)

  /** A callback runs `body` and leaves `data` in the simulator; in a `PerNode`, in the entry of the
      affected node, which is a new one if the node is being created. */
  datatype Callee = Callee(body: Program, data: int)

  datatype Callbacks = NoMore | More(first: Callee, rest: Callbacks)

  /** `types`, `stack`, `creating` and `visits` are history: the type registered for each slot, the
      slots borrowed at the moment (innermost last), how far an active `create_node` sweep has
      come, and the callbacks made. So are `renewals`, the last time that another `PerNode` was left
      in a slot, and `found`, the nodes that code found to be the current one. */
  datatype World = World(
    slots: seq<Option<Simulator>>,
    byType: map<TypeId, SlotIx>,
    nodeCount: nat,
    finalStopping: bool,
    currentNode: NodeIx,
    types: seq<TypeId>,
    stack: seq<SlotIx>,
    creating: Option<SlotIx>,
    visits: seq<Visit>,
    renewals: map<SlotIx, Renewal>,
    found: seq<NodeIx>)

  /** A `PerNode` with so many entries was left in a slot that `create_node` had reached for so
      many nodes. */
  datatype Renewal = Renewal(entries: int, nodes: int)

  const EmptyWorld: World := World([], map[], 1, false, 0, [], [], None, [], map[], [])

  /** How many nodes `create_node` has told the simulator in slot `i` of, with the first one. */
  function Told(w: World, i: SlotIx): int {
    if w.creating.Some? && w.creating.value <= i then w.nodeCount - 1 else w.nodeCount
  }

  /** How many entries the last renewal left the `PerNode` in slot `i` short of. */
  function Short(w: World, i: SlotIx): int {
    if i in w.renewals then w.renewals[i].nodes - w.renewals[i].entries else 0
  }

  // ----- what the code does -----

  function Take(w: World, i: SlotIx): World
    requires i < |w.slots|
  {
    w.(slots := w.slots[i := None], stack := Push(w.stack, i))
  }

  function PutBack(w: World, i: SlotIx, sim: Simulator): World
    requires i < |w.slots|
  {
    w.(slots := w.slots[i := Some(sim)], stack := if w.stack == [] then [] else Pop(w.stack))
  }

  predicate Renews(sim: Simulator, renewed: Option<seq<int>>) {
    renewed.Some? && renewed.value != [] && sim.perNode.Some?
  }

  predicate HasNode(sim: Simulator, node: NodeIx) {
    sim.perNode.Some? && node < |sim.perNode.value|
  }

  function SetEntry(sim: Simulator, node: NodeIx, data: int): Simulator
    requires HasNode(sim, node)
  {
    sim.(perNode := Some(sim.perNode.value[node := data]))
  }

  /** What `with` and `with_node` write. */
  function Written(sim: Simulator, entry: Option<NodeIx>, data: int): Simulator {
    if entry.Some? && HasNode(sim, entry.value) then SetEntry(sim, entry.value, data) else sim.(data := data)
  }

  /** The end of `with`. */
  function Left(w: World, i: SlotIx, sim: Simulator, renewed: Option<seq<int>>): World
    requires i < |w.slots|
  {
    if Renews(sim, renewed) then
      PutBack(w, i, sim.(perNode := renewed)).(renewals := w.renewals[i := Renewal(|renewed.value|, Told(w, i))])
    else PutBack(w, i, sim)
  }

  function Registered(w: World, sim: Simulator): World {
    w.(slots := w.slots + [Some(sim)], byType := w.byType[sim.ty := |w.slots|], types := w.types + [sim.ty])
  }

  /** The slot that `for_all_simulators` visits in round `i`. */
  function SweepSlot(len: nat, forward: bool, i: nat): SlotIx
    requires i < len
  {
    if forward then i else len - 1 - i
  }

  /** The simulator after its callback: `PerNode::create_node` adds an entry, and the other two
      callbacks of a `PerNode` are those of the current node's entry. */
  function Called(sim: Simulator, callback: Callback, node: NodeIx, data: Option<int>): Simulator {
    if sim.perNode.Some? && callback.CreateNodeCallback? then
      sim.(perNode := Some(sim.perNode.value + [if data.Some? then data.value else 0]))
    else if data.None? then sim
    else if sim.perNode.None? then sim.(data := data.value)
    else if HasNode(sim, node) then SetEntry(sim, node, data.value)
    else sim
  }

  function Do(w: World, p: Program): Outcome<World>
    decreases p, 0
  {
    match p
    case Done => Ok(w)
    case Then(a, rest) => (match Act(w, a) case Ok(w1) => Do(w1, rest) case Panic(f) => Panic(f))
  }

  function Act(w: World, a: Action): Outcome<World>
    decreases a, 0
  {
    match a
    case ReadNode => Ok(w.(found := w.found + [w.currentNode]))
    case Borrow(ty, entry, renewed, data, body) =>
      if ty !in w.byType || w.byType[ty] >= |w.slots| then Panic(Internal(115))
      else if w.slots[w.byType[ty]].None? then Panic(Internal(66))
      else
        var i := w.byType[ty];
        var sim := w.slots[i].value;
        if entry.Some? && !HasNode(sim, entry.value) then Panic(Internal(127))
        else
          (match Do(Take(w, i), body)
           case Panic(f) => Panic(f)
           case Ok(w1) =>
             if i >= |w1.slots| || w1.slots[i].Some? then Panic(Internal(71))
             else Ok(Left(w1, i, Written(sim, entry, data), if entry.Some? then None else renewed)))
    case Scope(node, body) =>
      (match Do(w.(currentNode := node), body)
       case Panic(f) => Panic(f)
       case Ok(w1) => Ok(w1.(currentNode := w.currentNode)))
    case Register(ty, perNode, data) =>
      if w.nodeCount != 1 || w.finalStopping then Panic(Internal(49))
      else if ty in w.byType then Panic(Internal(50))
      else Ok(Registered(w, Simulator(ty, if perNode then Some([0]) else None, data)))
    case FinalStop => Ok(w.(finalStopping := true))
    case Sweep(callback, node, callbacks) =>
      if callback.CreateNodeCallback? then Ok(w)
      else
        (match ForAll(w.(currentNode := node), false, callback, callbacks)
         case Panic(f) => Panic(f)
         case Ok(w1) => Ok(w1.(currentNode := w.currentNode)))
    case CreateNode(callbacks) =>
      if w.finalStopping then Panic(NodeDuringShutdown)
      else
        (match ForAll(w.(nodeCount := w.nodeCount + 1, currentNode := w.nodeCount, creating := Some(0)),
                      true, CreateNodeCallback, callbacks)
         case Panic(f) => Panic(f)
         case Ok(w1) => Ok(w1.(currentNode := w.currentNode, creating := w.creating)))
  }

  /** A simulator is taken out for its callback. */
  function BeginRound(w: World, i: SlotIx, callback: Callback): World
    requires i < |w.slots|
  {
    Take(w, i).(visits := w.visits + [Visit(i, callback, w.currentNode)])
  }

  function EndRound(w: World, i: SlotIx, callback: Callback, sim: Simulator): World
    requires i < |w.slots|
  {
    PutBack(w, i, sim).(creating := if callback.CreateNodeCallback? then Some(i + 1) else w.creating)
  }

  /** `PerNode::stop_node` and `PerNode::start_node` index by the current node. */
  predicate LacksEntry(sim: Simulator, callback: Callback, node: NodeIx) {
    !callback.CreateNodeCallback? && sim.perNode.Some? && node >= |sim.perNode.value|
  }

  /** One round of `for_all_simulators`. */
  function Round(w: World, i: SlotIx, callback: Callback, cs: Callbacks): Outcome<World>
    decreases cs, 0
  {
    if i >= |w.slots| then Panic(Internal(145))
    else if w.slots[i].None? then Panic(Internal(152))
    else
      var sim := w.slots[i].value;
      if LacksEntry(sim, callback, w.currentNode) then Panic(Internal(if callback.StopNodeCallback? then 199 else 203))
      else match cs
      case NoMore => Ok(EndRound(BeginRound(w, i, callback), i, callback, Called(sim, callback, w.currentNode, None)))
      case More(callee, _) =>
        match Do(BeginRound(w, i, callback), callee.body)
        case Panic(f) => Panic(f)
        case Ok(w1) =>
          if i >= |w1.slots| then Panic(Internal(145))
          else Ok(EndRound(w1, i, callback, Called(sim, callback, w.currentNode, Some(callee.data))))
  }

  function Rest(cs: Callbacks): Callbacks {
    if cs.More? then cs.rest else cs
  }

  function Rounds(w: World, i: nat, len: nat, forward: bool, callback: Callback, cs: Callbacks): Outcome<World>
    requires i <= len
    decreases cs, len - i + 1
  {
    if i == len then Ok(w)
    else
      match Round(w, SweepSlot(len, forward, i), callback, cs)
      case Panic(f) => Panic(f)
      case Ok(w1) => Rounds(w1, i + 1, len, forward, callback, Rest(cs))
  }

  /** `for_all_simulators`, with its final assertion. */
  function ForAll(w: World, forward: bool, callback: Callback, cs: Callbacks): Outcome<World>
    decreases cs, |w.slots| + 2
  {
    match Rounds(w, 0, |w.slots|, forward, callback, cs)
    case Panic(f) => Panic(f)
    case Ok(w1) => if |w1.slots| != |w.slots| then Panic(Internal(155)) else Ok(w1)
  }

  /** The visits of one sweep. */
  function SweepVisits(len: nat, forward: bool, callback: Callback, node: NodeIx): (visits: seq<Visit>)
    ensures |visits| == len
  {
    seq(len, i requires 0 <= i < len => Visit(SweepSlot(len, forward, i), callback, node))
  }

  /** A sweep visits every slot exactly once, in registration order or in reverse. */
  lemma SweepVisitsOnce(len: nat, forward: bool, callback: Callback, node: NodeIx, slot: SlotIx)
    requires slot < len
    ensures var v := SweepVisits(len, forward, callback, node);
            && (exists i :: 0 <= i < len && v[i].slot == slot)
            && (forall i, j :: 0 <= i < len && 0 <= j < len && v[i].slot == slot && v[j].slot == slot ==> i == j)
            && (forall i, j :: 0 <= i < j < len ==> (v[i].slot < v[j].slot <==> forward) && v[i].slot != v[j].slot)
  {
    var v := SweepVisits(len, forward, callback, node);
    assert v[if forward then slot else len - 1 - slot].slot == slot;
  }

  // ----- which slots are empty -----

  /** A `PerNode` has an entry for the first node at least. */
  predicate HasEntry(sim: Simulator) {
    sim.perNode.Some? ==> sim.perNode.value != []
  }

  /** A slot is empty iff it is borrowed, and otherwise has a simulator of its own type. */
  ghost predicate SlotInv(w: World, i: SlotIx)
    requires i < |w.slots| && |w.types| == |w.slots|
  {
    && (w.slots[i].None? <==> i in w.stack)
    && (w.slots[i].Some? ==> w.slots[i].value.ty == w.types[i] && HasEntry(w.slots[i].value))
    && w.types[i] in w.byType && w.byType[w.types[i]] == i
  }

  ghost predicate SlotsInv(w: World) {
    && |w.types| == |w.slots|
    && w.nodeCount > 0
    && NoDuplicates(w.stack)
    && (forall i :: i in w.stack ==> i < |w.slots|)
    && (forall i :: 0 <= i < |w.slots| ==> SlotInv(w, i))
    && (forall ty :: ty in w.byType ==> w.byType[ty] < |w.slots| && w.types[w.byType[ty]] == ty)
  }

  /** The type map is a bijection between the registered types and the slots: each slot has
      exactly one type. */
  lemma TypesAreBijective(w: World, i: SlotIx)
    requires SlotsInv(w) && i < |w.slots|
    ensures exists ty :: ty in w.byType && w.byType[ty] == i
    ensures forall a, b :: a in w.byType && b in w.byType && w.byType[a] == i && w.byType[b] == i ==> a == b
    ensures forall ty :: ty in w.byType ==> w.byType[ty] < |w.slots|
  {
    assert SlotInv(w, i);
    assert w.types[i] in w.byType && w.byType[w.types[i]] == i;
  }

  lemma TakeKeeps(w: World, i: SlotIx)
    requires SlotsInv(w) && i < |w.slots| && w.slots[i].Some?
    ensures SlotsInv(Take(w, i)) && i !in w.stack
  {
    var t := Take(w, i);
    assert SlotInv(w, i);
    forall j | 0 <= j < |t.slots| ensures SlotInv(t, j) { assert SlotInv(w, j); }
  }

  lemma PopMembers(s: seq<SlotIx>)
    requires s != [] && NoDuplicates(s)
    ensures NoDuplicates(Pop(s)) && forall i :: i in Pop(s) <==> i in s && i != Top(s)
  {
    assert s == Pop(s) + [Top(s)];
  }

  /** Putting back a simulator of the slot's type finds the slot empty. */
  lemma PutBackKeeps(w: World, i: SlotIx, sim: Simulator)
    requires SlotsInv(w) && w.stack != [] && Top(w.stack) == i && i < |w.slots| && sim.ty == w.types[i] && HasEntry(sim)
    ensures w.slots[i].None?
    ensures SlotsInv(PutBack(w, i, sim))
  {
    var t := PutBack(w, i, sim);
    assert i in w.stack && SlotInv(w, i);
    PopMembers(w.stack);
    forall j | 0 <= j < |t.slots| ensures SlotInv(t, j) { assert SlotInv(w, j); }
  }

  lemma RegisterKeeps(w: World, sim: Simulator)
    requires SlotsInv(w) && sim.ty !in w.byType && HasEntry(sim)
    ensures SlotsInv(Registered(w, sim))
  {
    var t := Registered(w, sim);
    forall j | 0 <= j < |t.slots| ensures SlotInv(t, j) {
      if j < |w.slots| { assert SlotInv(w, j); }
    }
  }

  /** A world with the same slots and registrations. */
  lemma SameSlots(w: World, t: World)
    requires SlotsInv(w) && t.slots == w.slots && t.types == w.types && t.byType == w.byType && t.stack == w.stack
    requires t.nodeCount > 0
    ensures SlotsInv(t)
  {
    forall i | 0 <= i < |t.slots| ensures SlotInv(t, i) { assert SlotInv(w, i); }
  }

  lemma AllPresent(w: World)
    requires SlotsInv(w)
    ensures w.stack == [] <==> forall i :: 0 <= i < |w.slots| ==> w.slots[i].Some?
  {
    if w.stack != [] { assert w.stack[0] in w.stack && SlotInv(w, w.stack[0]); }
    forall i | 0 <= i < |w.slots| && w.stack == [] ensures w.slots[i].Some? { assert SlotInv(w, i); }
  }

  /** What code leaves alone, whatever it does: the borrows in progress, which slots are empty, what
      was borrowed, the current node, and every registration; with a second node or while stopping also the number
      of simulators; and inside a borrow there are no sweeps and no new nodes. */
  ghost predicate Untouched(w: World, t: World) {
    && t.stack == w.stack && t.creating == w.creating && t.currentNode == w.currentNode
    && |t.slots| >= |w.slots| && w.types <= t.types && w.visits <= t.visits
    && (forall i :: 0 <= i < |w.slots| ==> (t.slots[i].None? <==> w.slots[i].None?))
    && (forall i :: 0 <= i < |w.slots| && w.slots[i].None? ==> Short(t, i) == Short(w, i))
    && t.nodeCount >= w.nodeCount && (w.finalStopping ==> t.finalStopping)
    && (w.nodeCount > 1 || w.finalStopping ==> |t.slots| == |w.slots|)
    && (w.stack != [] ==> t.nodeCount == w.nodeCount && t.visits == w.visits)
  }

  lemma UntouchedChain(w: World, m: World, t: World)
    requires Untouched(w, m) && Untouched(m, t)
    ensures Untouched(w, t)
  {}

  /** The panics that would be defects of the slots themselves. */
  predicate Defect(f: Fault) {
    f == Internal(71) || f == Internal(145)
  }

  /** What holds of code: it cannot break the slots, and it never panics because a slot was taken
      from under a borrow or a sweep. With a second node or while stopping, no sweep's final
      assertion fails either. */
  ghost predicate Behaves(w: World, r: Outcome<World>) {
    && (r.Panic? ==> !Defect(r.fault))
    && (r.Panic? && (w.nodeCount > 1 || w.finalStopping) ==> r.fault != Internal(155))
    && (r.Ok? ==> SlotsInv(r.value) && Untouched(w, r.value))
  }

  /** Any program, run anywhere. */
  lemma {:induction false} DoKeeps(w: World, p: Program)
    requires SlotsInv(w)
    ensures Behaves(w, Do(w, p))
    decreases p, 0
  {
    if p.Then? {
      ActKeeps(w, p.first);
      if Act(w, p.first).Ok? {
        var m := Act(w, p.first).value;
        DoKeeps(m, p.rest);
        if Do(m, p.rest).Ok? { UntouchedChain(w, m, Do(m, p.rest).value); }
      }
    }
  }

  lemma {:induction false} ActKeeps(w: World, a: Action)
    requires SlotsInv(w)
    ensures Behaves(w, Act(w, a))
    decreases a, 1
  {
    match a
    case ReadNode => SameSlots(w, Act(w, a).value);
    case Borrow(_, _, _, _, _) => BorrowKeeps(w, a);
    case Scope(_, _) => ScopeKeeps(w, a);
    case Register(ty, perNode, data) =>
      if Act(w, a).Ok? { RegisterKeeps(w, Simulator(ty, if perNode then Some([0]) else None, data)); }
    case FinalStop => SameSlots(w, w.(finalStopping := true));
    case Sweep(_, _, _) => SweepKeeps(w, a);
    case CreateNode(_) => CreateKeeps(w, a);
  }

  lemma {:induction false} ScopeKeeps(w: World, a: Action)
    requires SlotsInv(w) && a.Scope?
    ensures Behaves(w, Act(w, a))
    decreases a, 0
  {
    var inner := w.(currentNode := a.node);
    SameSlots(w, inner);
    DoKeeps(inner, a.body);
    if Do(inner, a.body).Ok? {
      var t := Do(inner, a.body).value;
      SameSlots(t, t.(currentNode := w.currentNode));
    }
  }

  lemma {:induction false} BorrowKeeps(w: World, a: Action)
    requires SlotsInv(w) && a.Borrow?
    ensures Behaves(w, Act(w, a))
    decreases a, 0
  {
    if a.ty in w.byType && w.slots[w.byType[a.ty]].Some? {
      var i := w.byType[a.ty];
      TakeKeeps(w, i);
      assert SlotInv(w, i);
      DoKeeps(Take(w, i), a.body);
      if Do(Take(w, i), a.body).Ok? {
        var m, sim := Do(Take(w, i), a.body).value, Written(w.slots[i].value, a.entry, a.data);
        BorrowEnds(w, Take(w, i), i, m, sim);
        if Renews(sim, a.renewed) { BorrowEnds(w, Take(w, i), i, m, sim.(perNode := a.renewed)); }
        if Act(w, a).Ok? { LeftSame(w, i, m, sim, if a.entry.Some? then None else a.renewed); }
      }
    }
  }

  lemma LeftSame(w: World, i: SlotIx, m: World, sim: Simulator, renewed: Option<seq<int>>)
    requires i < |w.slots| <= |m.slots| && w.slots[i].Some?
    requires var left := if Renews(sim, renewed) then sim.(perNode := renewed) else sim;
             SlotsInv(PutBack(m, i, left)) && Untouched(w, PutBack(m, i, left))
    ensures SlotsInv(Left(m, i, sim, renewed)) && Untouched(w, Left(m, i, sim, renewed))
  {
    if Renews(sim, renewed) { SameSlots(PutBack(m, i, sim.(perNode := renewed)), Left(m, i, sim, renewed)); }
  }

  /** Whatever ran while a simulator was out, its slot is still empty and gets it back. */
  lemma BorrowEnds(w: World, taken: World, i: SlotIx, m: World, sim: Simulator)
    requires SlotsInv(w) && i < |w.slots| && w.slots[i].Some? && sim.ty == w.slots[i].value.ty && HasEntry(sim)
    requires taken == Take(w, i).(visits := taken.visits)
    requires SlotsInv(m) && Untouched(taken, m)
    ensures i < |m.slots| && m.slots[i].None? && m.visits == taken.visits
    ensures SlotsInv(PutBack(m, i, sim)) && Untouched(w.(visits := taken.visits), PutBack(m, i, sim))
  {
    assert SlotInv(w, i);
    assert m.types[i] == w.types[i];
    PutBackKeeps(m, i, sim);
    assert Pop(Push(w.stack, i)) == w.stack;
    TakeKeeps(w, i);
  }

  // ----- sweeps -----

  /** One round: it needs the simulator to be there, and puts it back. */
  ghost predicate RoundBehaves(w: World, i: SlotIx, callback: Callback, r: Outcome<World>)
    requires i < |w.slots|
  {
    && (r.Panic? ==> !Defect(r.fault))
    && (r.Panic? && (w.nodeCount > 1 || w.finalStopping) ==> r.fault != Internal(155))
    && (r.Ok? ==>
          var t := r.value;
          && w.slots[i].Some? && SlotsInv(t)
          && t.stack == w.stack && t.currentNode == w.currentNode && t.nodeCount == w.nodeCount
          && t.creating == (if callback.CreateNodeCallback? then Some(i + 1) else w.creating)
          && |t.slots| >= |w.slots| && w.types <= t.types
          && (forall j :: 0 <= j < |w.slots| ==> (t.slots[j].None? <==> w.slots[j].None?))
          && (w.finalStopping ==> t.finalStopping)
          && (w.nodeCount > 1 || w.finalStopping ==> |t.slots| == |w.slots|)
          && t.visits == w.visits + [Visit(i, callback, w.currentNode)])
  }

  lemma {:induction false} RoundKeeps(w: World, i: SlotIx, callback: Callback, cs: Callbacks)
    requires SlotsInv(w) && i < |w.slots|
    ensures RoundBehaves(w, i, callback, Round(w, i, callback, cs))
    decreases cs, 0
  {
    if w.slots[i].Some? {
      var begun := BeginRound(w, i, callback);
      assert SlotInv(w, i);
      TakeKeeps(w, i);
      SameSlots(Take(w, i), begun);
      if cs.NoMore? {
        RoundEnds(w, begun, i, callback, begun, Called(w.slots[i].value, callback, w.currentNode, None));
      } else {
        DoKeeps(begun, cs.first.body);
        if Do(begun, cs.first.body).Ok? {
          RoundEnds(w, begun, i, callback, Do(begun, cs.first.body).value, Called(w.slots[i].value, callback, w.currentNode, Some(cs.first.data)));
        }
      }
    }
  }

  lemma RoundEnds(w: World, begun: World, i: SlotIx, callback: Callback, m: World, sim: Simulator)
    requires SlotsInv(w) && i < |w.slots| && w.slots[i].Some? && sim.ty == w.slots[i].value.ty && HasEntry(sim)
    requires begun == BeginRound(w, i, callback) && SlotsInv(m) && Untouched(begun, m)
    ensures i < |m.slots|
    ensures RoundBehaves(w, i, callback, Ok(EndRound(m, i, callback, sim)))
  {
    BorrowEnds(w, begun, i, m, sim);
    SameSlots(PutBack(m, i, sim), EndRound(m, i, callback, sim));
  }

  /** The rounds from `i` on: they end only if every simulator still to be visited was there. */
  ghost predicate RoundsBehave(w: World, i: nat, len: nat, forward: bool, callback: Callback, r: Outcome<World>)
    requires i <= len <= |w.slots|
  {
    && (r.Panic? ==> !Defect(r.fault))
    && (r.Panic? && (w.nodeCount > 1 || w.finalStopping) ==> r.fault != Internal(155))
    && (r.Ok? ==>
          var t := r.value;
          && (forall j :: i <= j < len ==> w.slots[SweepSlot(len, forward, j)].Some?)
          && SlotsInv(t)
          && t.stack == w.stack && t.currentNode == w.currentNode && t.nodeCount == w.nodeCount
          && (!callback.CreateNodeCallback? ==> t.creating == w.creating)
          && |t.slots| >= |w.slots| && w.types <= t.types
          && (forall j :: 0 <= j < |w.slots| ==> (t.slots[j].None? <==> w.slots[j].None?))
          && (w.finalStopping ==> t.finalStopping)
          && (w.nodeCount > 1 || w.finalStopping ==> |t.slots| == |w.slots|)
          && t.visits == w.visits + SweepVisits(len, forward, callback, w.currentNode)[i..])
  }

  lemma {:induction false} RoundsKeep(w: World, i: nat, len: nat, forward: bool, callback: Callback, cs: Callbacks)
    requires SlotsInv(w) && i <= len <= |w.slots|
    ensures RoundsBehave(w, i, len, forward, callback, Rounds(w, i, len, forward, callback, cs))
    decreases cs, len - i + 1
  {
    if i < len {
      var slot := SweepSlot(len, forward, i);
      RoundKeeps(w, slot, callback, cs);
      if Round(w, slot, callback, cs).Ok? {
        var m := Round(w, slot, callback, cs).value;
        RoundsKeep(m, i + 1, len, forward, callback, Rest(cs));
        RoundsStep(w, m, i, len, forward, callback, Rounds(m, i + 1, len, forward, callback, Rest(cs)));
      }
    } else {
      assert SweepVisits(len, forward, callback, w.currentNode)[i..] == [];
    }
  }

  lemma RoundsStep(w: World, m: World, i: nat, len: nat, forward: bool, callback: Callback, r: Outcome<World>)
    requires i < len <= |w.slots| <= |m.slots|
    requires RoundBehaves(w, SweepSlot(len, forward, i), callback, Ok(m))
    requires RoundsBehave(m, i + 1, len, forward, callback, r)
    ensures RoundsBehave(w, i, len, forward, callback, r)
  {
    var v := SweepVisits(len, forward, callback, w.currentNode);
    assert v[i..] == [v[i]] + v[i + 1..];
    if r.Ok? {
      forall j | i <= j < len ensures w.slots[SweepSlot(len, forward, j)].Some? {
        if j > i { assert m.slots[SweepSlot(len, forward, j)].Some?; }
      }
    }
  }

  lemma RoundsAreAll(len: nat, forward: bool, slot: SlotIx)
    requires slot < len
    ensures exists i :: 0 <= i < len && SweepSlot(len, forward, i) == slot
  {
    var i: nat := if forward then slot else len - 1 - slot;
    assert SweepSlot(len, forward, i) == slot;
  }

  /** A sweep that does not panic ran outside all borrows. */
  lemma SweepNeedsAll(w: World, forward: bool, callback: Callback, r: Outcome<World>)
    requires SlotsInv(w) && RoundsBehave(w, 0, |w.slots|, forward, callback, r) && r.Ok?
    ensures w.stack == []
  {
    if w.stack != [] {
      var slot := w.stack[0];
      assert slot in w.stack && SlotInv(w, slot);
      RoundsAreAll(|w.slots|, forward, slot);
    }
  }

  lemma {:induction false} SweepKeeps(w: World, a: Action)
    requires SlotsInv(w) && a.Sweep?
    ensures Behaves(w, Act(w, a))
    decreases a, 0
  {
    if !a.callback.CreateNodeCallback? {
      var inner := w.(currentNode := a.node);
      SameSlots(w, inner);
      RoundsKeep(inner, 0, |inner.slots|, false, a.callback, a.callbacks);
      var r := Rounds(inner, 0, |inner.slots|, false, a.callback, a.callbacks);
      if r.Ok? {
        SweepNeedsAll(inner, false, a.callback, r);
        AllPresent(w);
        SameSlots(r.value, r.value.(currentNode := w.currentNode));
      }
    }
  }

  lemma {:induction false} CreateKeeps(w: World, a: Action)
    requires SlotsInv(w) && a.CreateNode?
    ensures Behaves(w, Act(w, a))
    decreases a, 0
  {
    if !w.finalStopping {
      var inner := w.(nodeCount := w.nodeCount + 1, currentNode := w.nodeCount, creating := Some(0));
      SameSlots(w, inner);
      RoundsKeep(inner, 0, |inner.slots|, true, CreateNodeCallback, a.callbacks);
      var r := Rounds(inner, 0, |inner.slots|, true, CreateNodeCallback, a.callbacks);
      if r.Ok? {
        SweepNeedsAll(inner, true, CreateNodeCallback, r);
        AllPresent(w);
        SameSlots(r.value, r.value.(currentNode := w.currentNode, creating := w.creating));
      }
    }
  }

  // ----- one entry per node -----

  /** A `PerNode` has one entry for each node it was told of, except for what a renewal left it
      short of. */
  ghost predicate EntryInv(w: World, i: SlotIx)
    requires i < |w.slots|
  {
    w.slots[i].Some? && w.slots[i].value.perNode.Some? ==> |w.slots[i].value.perNode.value| == Told(w, i) - Short(w, i)
  }

  ghost predicate EntriesInv(w: World) {
    && (w.creating.Some? ==> w.nodeCount > 1)
    && (forall i :: i in w.renewals ==> i < |w.slots|)
    && forall i :: 0 <= i < |w.slots| ==> EntryInv(w, i)
  }

  /** What code finds: it never runs between the rounds of a `create_node` sweep. */
  ghost predicate CodeInv(w: World) {
    SlotsInv(w) && EntriesInv(w) && (w.creating.Some? ==> w.stack != [])
  }

  lemma SameEntries(w: World, t: World)
    requires EntriesInv(w) && t.slots == w.slots && t.nodeCount == w.nodeCount && t.creating == w.creating
    requires t.renewals == w.renewals
    ensures EntriesInv(t)
  {
    forall i | 0 <= i < |t.slots| ensures EntryInv(t, i) { assert EntryInv(w, i); }
  }

  lemma TakeEntries(w: World, i: SlotIx)
    requires EntriesInv(w) && i < |w.slots|
    ensures EntriesInv(Take(w, i))
  {
    forall j | 0 <= j < |w.slots| ensures EntryInv(Take(w, i), j) { assert EntryInv(w, j); }
  }

  lemma PutBackEntries(w: World, i: SlotIx, sim: Simulator)
    requires EntriesInv(w) && i < |w.slots| && (sim.perNode.Some? ==> |sim.perNode.value| == Told(w, i) - Short(w, i))
    ensures EntriesInv(PutBack(w, i, sim))
  {
    forall j | 0 <= j < |w.slots| ensures EntryInv(PutBack(w, i, sim), j) { assert EntryInv(w, j); }
  }

  lemma LeftEntries(w: World, i: SlotIx, sim: Simulator, renewed: Option<seq<int>>)
    requires EntriesInv(w) && i < |w.slots| && (sim.perNode.Some? ==> |sim.perNode.value| == Told(w, i) - Short(w, i))
    ensures EntriesInv(Left(w, i, sim, renewed))
  {
    PutBackEntries(w, i, sim);
    var t := Left(w, i, sim, renewed);
    forall j | 0 <= j < |t.slots| ensures EntryInv(t, j) { assert EntryInv(PutBack(w, i, sim), j); assert j != i ==> EntryInv(w, j); }
  }

  lemma {:induction false} DoEntries(w: World, p: Program)
    requires CodeInv(w) && Do(w, p).Ok?
    ensures CodeInv(Do(w, p).value)
    decreases p, 0
  {
    if p.Then? {
      ActEntries(w, p.first);
      DoEntries(Act(w, p.first).value, p.rest);
    }
  }

  lemma {:induction false} ActEntries(w: World, a: Action)
    requires CodeInv(w) && Act(w, a).Ok?
    ensures CodeInv(Act(w, a).value)
    decreases a, 1
  {
    ActKeeps(w, a);
    match a
    case ReadNode => SameEntries(w, Act(w, a).value);
    case Borrow(_, _, _, _, _) => BorrowEntries(w, a);
    case Scope(node, body) =>
      var inner := w.(currentNode := node);
      SameSlots(w, inner);
      SameEntries(w, inner);
      DoEntries(inner, body);
      SameEntries(Do(inner, body).value, Act(w, a).value);
    case Register(ty, perNode, data) =>
      forall i | 0 <= i < |Act(w, a).value.slots| ensures EntryInv(Act(w, a).value, i) {
        if i < |w.slots| { assert EntryInv(w, i); }
      }
    case FinalStop => SameEntries(w, Act(w, a).value);
    case Sweep(_, _, _) => if !a.callback.CreateNodeCallback? { SweepEntries(w, a); }
    case CreateNode(_) => var t := CreateEntries(w, a);
  }

  lemma {:induction false} BorrowEntries(w: World, a: Action)
    requires CodeInv(w) && a.Borrow? && Act(w, a).Ok?
    ensures EntriesInv(Act(w, a).value)
    decreases a, 0
  {
    var i := w.byType[a.ty];
    TakeKeeps(w, i);
    TakeEntries(w, i);
    DoEntries(Take(w, i), a.body);
    DoKeeps(Take(w, i), a.body);
    assert EntryInv(w, i);
    LeftEntries(Do(Take(w, i), a.body).value, i, Written(w.slots[i].value, a.entry, a.data), if a.entry.Some? then None else a.renewed);
  }

  /** A round gives a `PerNode` its new entry, if a node is being created. */
  lemma {:induction false} RoundEntries(w: World, i: SlotIx, callback: Callback, cs: Callbacks)
    requires SlotsInv(w) && EntriesInv(w) && i < |w.slots| && Round(w, i, callback, cs).Ok?
    requires w.creating == if callback.CreateNodeCallback? then Some(i) else None
    ensures EntriesInv(Round(w, i, callback, cs).value)
    decreases cs, 0
  {
    var begun := BeginRound(w, i, callback);
    TakeKeeps(w, i);
    SameSlots(Take(w, i), begun);
    TakeEntries(w, i);
    SameEntries(Take(w, i), begun);
    if cs.NoMore? {
      EndEntries(w, begun, i, callback, begun, None);
    } else {
      DoKeeps(begun, cs.first.body);
      DoEntries(begun, cs.first.body);
      EndEntries(w, begun, i, callback, Do(begun, cs.first.body).value, Some(cs.first.data));
    }
  }

  lemma EndEntries(w: World, begun: World, i: SlotIx, callback: Callback, m: World, data: Option<int>)
    requires EntriesInv(w) && i < |w.slots| && w.slots[i].Some?
    requires w.creating == if callback.CreateNodeCallback? then Some(i) else None
    requires begun == BeginRound(w, i, callback) && EntriesInv(m) && Untouched(begun, m)
    ensures EntriesInv(EndRound(m, i, callback, Called(w.slots[i].value, callback, w.currentNode, data)))
  {
    var sim := Called(w.slots[i].value, callback, w.currentNode, data);
    var t := EndRound(m, i, callback, sim);
    assert EntryInv(w, i);
    forall j | 0 <= j < |t.slots| ensures EntryInv(t, j) { assert EntryInv(m, j); }
  }

  lemma {:induction false} RoundsEntries(w: World, i: nat, len: nat, forward: bool, callback: Callback, cs: Callbacks)
    requires SlotsInv(w) && EntriesInv(w) && i <= len <= |w.slots| && Rounds(w, i, len, forward, callback, cs).Ok?
    requires callback.CreateNodeCallback? ==> forward
    requires w.creating == if callback.CreateNodeCallback? then Some(i) else None
    ensures EntriesInv(Rounds(w, i, len, forward, callback, cs).value)
    ensures callback.CreateNodeCallback? ==> Rounds(w, i, len, forward, callback, cs).value.creating == Some(len)
    decreases cs, len - i + 1
  {
    if i < len {
      var slot := SweepSlot(len, forward, i);
      RoundKeeps(w, slot, callback, cs);
      RoundEntries(w, slot, callback, cs);
      RoundsEntries(Round(w, slot, callback, cs).value, i + 1, len, forward, callback, Rest(cs));
    }
  }

  /** A stop or start sweep that does not panic: it ran outside all borrows, called every simulator
      once, in reverse order and with the affected node as current node, and added none. */
  lemma {:induction false} SweepIsExact(w: World, callback: Callback, node: NodeIx, cs: Callbacks) returns (t: World)
    requires SlotsInv(w) && !callback.CreateNodeCallback? && Act(w, Sweep(callback, node, cs)).Ok?
    ensures Act(w, Sweep(callback, node, cs)) == Ok(t) && SlotsInv(t)
    ensures w.stack == [] && t.stack == [] && |t.slots| == |w.slots| && t.currentNode == w.currentNode
    ensures t.visits == w.visits + SweepVisits(|w.slots|, false, callback, node)
  {
    var inner := w.(currentNode := node);
    t := Act(w, Sweep(callback, node, cs)).value;
    ActKeeps(w, Sweep(callback, node, cs));
    SameSlots(w, inner);
    RoundsKeep(inner, 0, |w.slots|, false, callback, cs);
    SweepNeedsAll(inner, false, callback, Rounds(inner, 0, |w.slots|, false, callback, cs));
  }

  lemma {:induction false} SweepEntries(w: World, a: Action)
    requires CodeInv(w) && a.Sweep? && !a.callback.CreateNodeCallback? && Act(w, a).Ok?
    ensures EntriesInv(Act(w, a).value)
    decreases a, 0
  {
    var t := SweepIsExact(w, a.callback, a.node, a.callbacks);
    var inner := w.(currentNode := a.node);
    SameSlots(w, inner);
    SameEntries(w, inner);
    RoundsEntries(inner, 0, |inner.slots|, false, a.callback, a.callbacks);
    SameEntries(Rounds(inner, 0, |inner.slots|, false, a.callback, a.callbacks).value, t);
  }

  /** The world in which the sweep of `create_node` begins. */
  function Creating(w: World): World {
    w.(nodeCount := w.nodeCount + 1, currentNode := w.nodeCount, creating := Some(0))
  }

  /** `create_node` that does not panic: it ran outside all borrows, called every simulator once, in
      registration order and with the new node as current node, and afterwards every `PerNode` has
      one entry for each node, except for what a renewal left it short of. */
  lemma {:induction false} CreateEntries(w: World, a: Action) returns (t: World)
    requires CodeInv(w) && a.CreateNode? && Act(w, a).Ok?
    ensures Act(w, a) == Ok(t) && CodeInv(t) && w.stack == [] && t.stack == [] && t.currentNode == w.currentNode
    ensures t.nodeCount == w.nodeCount + 1 && |t.slots| == |w.slots|
    ensures t.visits == w.visits + SweepVisits(|w.slots|, true, CreateNodeCallback, w.nodeCount)
    ensures forall i :: 0 <= i < |t.slots| ==>
              t.slots[i].Some? && (t.slots[i].value.perNode.Some? ==> |t.slots[i].value.perNode.value| == t.nodeCount - Short(t, i))
    decreases a, 0
  {
    var inner := Creating(w);
    t := Act(w, a).value;
    ActKeeps(w, a);
    SameSlots(w, inner);
    RoundsKeep(inner, 0, |w.slots|, true, CreateNodeCallback, a.callbacks);
    var r := Rounds(inner, 0, |w.slots|, true, CreateNodeCallback, a.callbacks);
    SweepNeedsAll(inner, true, CreateNodeCallback, r);
    forall i | 0 <= i < |inner.slots| ensures EntryInv(inner, i) { assert EntryInv(w, i); }
    RoundsEntries(inner, 0, |w.slots|, true, CreateNodeCallback, a.callbacks);
    forall i | 0 <= i < |t.slots| ensures EntryInv(t, i) { assert EntryInv(r.value, i); }
    AllPresent(t);
    forall i | 0 <= i < |t.slots|
      ensures t.slots[i].Some? && (t.slots[i].value.perNode.Some? ==> |t.slots[i].value.perNode.value| == t.nodeCount - Short(t, i))
    {
      assert EntryInv(t, i);
    }
  }

  /** When exactly an access to a node's entry is out of range: the node is not among as many nodes
      as the `PerNode` was told of, less what the last renewal left it short of. Without a renewal
      that is a node still being created, whose sweep has yet to reach the `PerNode`. */
  lemma EntryIsMissing(w: World, ty: TypeId, node: NodeIx)
    requires CodeInv(w) && ty in w.byType && node < w.nodeCount
    requires w.slots[w.byType[ty]].Some? && w.slots[w.byType[ty]].value.perNode.Some?
    ensures var i := w.byType[ty];
            && (Act(w, Entry(ty, node)) == Panic(Internal(127)) <==> node >= Told(w, i) - Short(w, i))
            && (i !in w.renewals ==>
                  (Act(w, Entry(ty, node)) == Panic(Internal(127)) <==>
                     w.creating.Some? && w.creating.value <= i && node == w.nodeCount - 1))
  {
    assert EntryInv(w, w.byType[ty]);
    TakeKeeps(w, w.byType[ty]);
  }

  /** When exactly `PerNode::stop_node` or `PerNode::start_node` indexes out of range. */
  lemma CallbackEntryIsMissing(w: World, i: SlotIx, callback: Callback, cs: Callbacks)
    requires CodeInv(w) && i < |w.slots| && w.slots[i].Some? && w.slots[i].value.perNode.Some? && !callback.CreateNodeCallback?
    ensures LacksEntry(w.slots[i].value, callback, w.currentNode) <==> w.currentNode >= Told(w, i) - Short(w, i)
    ensures LacksEntry(w.slots[i].value, callback, w.currentNode) ==>
              Round(w, i, callback, cs) == Panic(Internal(if callback.StopNodeCallback? then 199 else 203))
  {
    assert EntryInv(w, i);
  }

  /** `with_node`, leaving 0 in the entry. */
  function Entry(ty: TypeId, node: NodeIx): Action {
    Borrow(ty, Some(node), None, 0, Done)
  }

  /** `with(|p| *p = PerNode::new(..))` */
  function Renew(ty: TypeId): Action {
    Borrow(ty, None, Some([0]), 0, Done)
  }

  /** No part of a program renews a `PerNode`. */
  predicate RenewsNone(p: Program)
    decreases p, 0
  {
    p.Then? ==> ActsRenewNone(p.first) && RenewsNone(p.rest)
  }

  predicate ActsRenewNone(a: Action)
    decreases a, 1
  {
    match a
    case Borrow(_, _, renewed, _, body) => renewed.None? && RenewsNone(body)
    case Scope(_, body) => RenewsNone(body)
    case Sweep(_, _, cs) => CallsRenewNone(cs)
    case CreateNode(cs) => CallsRenewNone(cs)
    case _ => true
  }

  predicate CallsRenewNone(cs: Callbacks)
    decreases cs, 0
  {
    cs.More? ==> RenewsNone(cs.first.body) && CallsRenewNone(cs.rest)
  }

  lemma {:induction false} DoRenewsNone(w: World, p: Program)
    requires RenewsNone(p) && Do(w, p).Ok?
    ensures Do(w, p).value.renewals == w.renewals
    decreases p, 0
  {
    if p.Then? {
      ActRenewsNone(w, p.first);
      DoRenewsNone(Act(w, p.first).value, p.rest);
    }
  }

  lemma {:induction false} ActRenewsNone(w: World, a: Action)
    requires ActsRenewNone(a) && Act(w, a).Ok?
    ensures Act(w, a).value.renewals == w.renewals
    decreases a, 1
  {
    match a
    case Borrow(ty, _, _, _, body) => DoRenewsNone(Take(w, w.byType[ty]), body);
    case Scope(node, body) => DoRenewsNone(w.(currentNode := node), body);
    case Sweep(callback, node, cs) =>
      if !callback.CreateNodeCallback? { RoundsRenewNone(w.(currentNode := node), 0, |w.slots|, false, callback, cs); }
    case CreateNode(cs) => RoundsRenewNone(Creating(w), 0, |w.slots|, true, CreateNodeCallback, cs);
    case _ =>
  }

  lemma {:induction false} RoundsRenewNone(w: World, i: nat, len: nat, forward: bool, callback: Callback, cs: Callbacks)
    requires CallsRenewNone(cs) && i <= len && Rounds(w, i, len, forward, callback, cs).Ok?
    ensures Rounds(w, i, len, forward, callback, cs).value.renewals == w.renewals
    decreases cs, len - i + 1
  {
    if i < len {
      var slot := SweepSlot(len, forward, i);
      if cs.More? { DoRenewsNone(BeginRound(w, slot, callback), cs.first.body); }
      RoundsRenewNone(Round(w, slot, callback, cs).value, i + 1, len, forward, callback, Rest(cs));
    }
  }

  /** Over whole programs: whatever nests in what, unless a `PerNode` is renewed, every `PerNode`
      that is not borrowed has exactly one entry per node afterwards. */
  lemma OneEntryPerNode(p: Program, i: SlotIx)
    requires RenewsNone(p) && Do(EmptyWorld, p).Ok? && i < |Do(EmptyWorld, p).value.slots|
    ensures var t := Do(EmptyWorld, p).value;
            t.slots[i].Some? && (t.slots[i].value.perNode.Some? ==> |t.slots[i].value.perNode.value| == t.nodeCount)
  {
    DoEntries(EmptyWorld, p);
    DoRenewsNone(EmptyWorld, p);
    DoKeeps(EmptyWorld, p);
    AllPresent(Do(EmptyWorld, p).value);
    assert EntryInv(Do(EmptyWorld, p).value, i);
  }

  // ----- two programs that miss an entry -----

  /** A program in which the second node has no entry after its creation was over, because the
      `PerNode` was renewed: an access panics, stopping the node panics, and another `create_node`
      does not mend it. */
  lemma RenewedEntryIsMissing() returns (p: Program, w: World)
    ensures p == Then(Register(0, true, 0), Then(Action.CreateNode(NoMore), Then(Renew(0), Done)))
    ensures Do(EmptyWorld, p) == Ok(w) && w.nodeCount == 2 && w.creating.None?
    ensures Act(w, Entry(0, 1)) == Panic(Internal(127)) && Act(w, Sweep(StopNodeCallback, 1, NoMore)) == Panic(Internal(199))
    ensures Act(w, Action.CreateNode(NoMore)).Ok?
    ensures var t := Act(w, Action.CreateNode(NoMore)).value; t.nodeCount == 3 && Act(t, Entry(0, 2)) == Panic(Internal(127))
  {
    p := Then(Register(0, true, 0), Then(Action.CreateNode(NoMore), Then(Renew(0), Done)));
    var w1 := Act(EmptyWorld, Register(0, true, 0)).value;
    OnlyPerNode(w1);
    var w2 := Act(w1, Action.CreateNode(NoMore)).value;
    w := Act(w2, Renew(0)).value;
    OnlyPerNode(w);
    var inner := w.(currentNode := 1);
    assert Round(inner, 0, StopNodeCallback, NoMore) == Panic(Internal(199));
    assert Rounds(inner, 0, 1, false, StopNodeCallback, NoMore) == Panic(Internal(199));
    assert Do(w, Done) == Ok(w);
    assert Do(w2, Then(Renew(0), Done)) == Ok(w);
    assert Do(w1, Then(Action.CreateNode(NoMore), Then(Renew(0), Done))) == Ok(w);
    assert Do(EmptyWorld, p) == Ok(w);
  }

  /** `create_node` with a single `PerNode`, whose callback does nothing. */
  lemma OnlyPerNode(w: World)
    requires |w.slots| == 1 && w.slots[0].Some? && w.slots[0].value.perNode.Some? && !w.finalStopping
    ensures Act(w, Action.CreateNode(NoMore)).Ok?
    ensures var t, sim := Act(w, Action.CreateNode(NoMore)).value, w.slots[0].value;
            && t.slots == [Some(sim.(perNode := Some(sim.perNode.value + [0])))]
            && t.nodeCount == w.nodeCount + 1 && t.byType == w.byType && t.creating == w.creating
            && t.finalStopping == w.finalStopping && t.renewals == w.renewals
  {
    var inner := Creating(w);
    var m := Round(inner, 0, CreateNodeCallback, NoMore).value;
    assert Rounds(m, 1, 1, true, CreateNodeCallback, NoMore) == Ok(m);
    assert Rounds(inner, 0, 1, true, CreateNodeCallback, NoMore) == Ok(m);
    assert m.slots == [Some(w.slots[0].value.(perNode := Some(w.slots[0].value.perNode.value + [0])))];
  }

  /** A program in which the callback of one `PerNode` accesses the new node's entry in another
      that `create_node` has yet to reach. */
  lemma NewEntryIsMissing() returns (p: Program)
    ensures p == Then(Register(0, true, 0), Then(Register(1, true, 0), Then(Action.CreateNode(Accessing(1, 1)), Done)))
    ensures Do(EmptyWorld, p) == Panic(Internal(127))
  {
    p := Then(Register(0, true, 0), Then(Register(1, true, 0), Then(Action.CreateNode(Accessing(1, 1)), Done)));
    var w1 := Act(EmptyWorld, Register(0, true, 0)).value;
    var w2 := Act(w1, Register(1, true, 0)).value;
    var begun := BeginRound(Creating(w2), 0, CreateNodeCallback);
    assert Act(begun, Entry(1, 1)) == Panic(Internal(127));
    assert Do(begun, Then(Entry(1, 1), Done)) == Panic(Internal(127));
    assert Round(Creating(w2), 0, CreateNodeCallback, Accessing(1, 1)) == Panic(Internal(127));
    assert Rounds(Creating(w2), 0, 2, true, CreateNodeCallback, Accessing(1, 1)) == Panic(Internal(127));
    assert Act(w2, Action.CreateNode(Accessing(1, 1))) == Panic(Internal(127));
    assert Do(w2, Then(Action.CreateNode(Accessing(1, 1)), Done)) == Panic(Internal(127));
    assert Do(w1, Then(Register(1, true, 0), Then(Action.CreateNode(Accessing(1, 1)), Done))) == Panic(Internal(127));
  }

  /** A first callback that accesses an entry. */
  function Accessing(ty: TypeId, node: NodeIx): Callbacks {
    More(Callee(Then(Entry(ty, node), Done), 0), NoMore)
  }

  // ----- the final assertion of a sweep -----

  lemma {:induction false} AboveAll(keys: set<TypeId>) returns (ty: TypeId)
    ensures forall k :: k in keys ==> k < ty
    decreases |keys|
  {
    if keys == {} {
      ty := 0;
    } else {
      var k :| k in keys;
      var above := AboveAll(keys - {k});
      ty := if above > k then above else k + 1;
      forall j | j in keys ensures j < ty { assert j == k || j in keys - {k}; }
    }
  }

  /** Callbacks that do nothing let the rounds end, and add nothing. */
  lemma {:induction false} IdleRounds(w: World, i: nat, len: nat, callback: Callback)
    requires SlotsInv(w) && w.stack == [] && w.currentNode == 0 && i <= len <= |w.slots|
    ensures Rounds(w, i, len, false, callback, NoMore).Ok?
    ensures |Rounds(w, i, len, false, callback, NoMore).value.slots| == |w.slots|
    decreases len - i
  {
    if i < len {
      var slot := SweepSlot(len, false, i);
      AllPresent(w);
      assert SlotInv(w, slot);
      RoundKeeps(w, slot, callback, NoMore);
      IdleRounds(Round(w, slot, callback, NoMore).value, i + 1, len, callback);
    }
  }

  /** A callback that registers a simulator of another type. */
  function Adding(ty: TypeId): Callbacks {
    More(Callee(Then(Register(ty, false, 0), Done), 0), NoMore)
  }

  lemma AddingRound(w: World, i: SlotIx, callback: Callback, ty: TypeId)
    requires SlotsInv(w) && w.stack == [] && w.currentNode == 0 && w.nodeCount == 1 && !w.finalStopping && i < |w.slots| && ty !in w.byType
    ensures Round(w, i, callback, Adding(ty)).Ok?
    ensures |Round(w, i, callback, Adding(ty)).value.slots| == |w.slots| + 1
  {
    AllPresent(w);
    assert SlotInv(w, i);
    var begun := BeginRound(w, i, callback);
    var sim := Simulator(ty, None, 0);
    assert Act(begun, Register(ty, false, 0)) == Ok(Registered(begun, sim));
    assert Do(Registered(begun, sim), Done) == Ok(Registered(begun, sim));
    assert Do(begun, Then(Register(ty, false, 0), Done)) == Ok(Registered(begun, sim));
  }

  lemma AddingRounds(w: World, callback: Callback, ty: TypeId)
    requires SlotsInv(w) && w.stack == [] && w.currentNode == 0 && w.nodeCount == 1 && !w.finalStopping
    requires |w.slots| > 0 && ty !in w.byType
    ensures var r := Rounds(w, 0, |w.slots|, false, callback, Adding(ty)); r.Ok? && |r.value.slots| == |w.slots| + 1
  {
    var len := |w.slots|;
    var slot, cs := SweepSlot(len, false, 0), Adding(ty);
    AddingRound(w, slot, callback, ty);
    RoundKeeps(w, slot, callback, cs);
    var m := Round(w, slot, callback, cs).value;
    IdleRounds(m, 1, len, callback);
    RoundsFirst(w, m, len, callback, cs);
  }

  lemma RoundsFirst(w: World, m: World, len: nat, callback: Callback, cs: Callbacks)
    requires len > 0 && Round(w, SweepSlot(len, false, 0), callback, cs) == Ok(m)
    ensures Rounds(w, 0, len, false, callback, cs) == Rounds(m, 1, len, false, callback, Rest(cs))
  {}

  lemma SweepFails(w: World, callback: Callback, node: NodeIx, cs: Callbacks)
    requires !callback.CreateNodeCallback?
    requires var r := Rounds(w.(currentNode := node), 0, |w.slots|, false, callback, cs); r.Ok? && |r.value.slots| != |w.slots|
    ensures Act(w, Sweep(callback, node, cs)) == Panic(Internal(155))
  {}

  /** With a single node and no stop in progress, a callback that adds a simulator makes the sweep
      end with one slot more than it began with, and its final assertion panics. */
  lemma AddingCallbackFails(w: World, callback: Callback, node: NodeIx) returns (cs: Callbacks)
    requires SlotsInv(w) && w.stack == [] && |w.slots| > 0 && w.nodeCount == 1 && !w.finalStopping
    requires node < w.nodeCount && !callback.CreateNodeCallback?
    ensures Act(w, Sweep(callback, node, cs)) == Panic(Internal(155))
    ensures var r := Rounds(w.(currentNode := node), 0, |w.slots|, false, callback, cs);
            r.Ok? && |r.value.slots| == |w.slots| + 1
  {
    var ty := AboveAll(w.byType.Keys);
    cs := Adding(ty);
    SameSlots(w, w.(currentNode := node));
    AddingRounds(w.(currentNode := node), callback, ty);
    SweepFails(w, callback, node, cs);
  }

  /** The final assertion of a sweep outside all borrows, with at least one simulator: it holds
      whatever the callbacks do if and only if there is a second node or the simulation stops. */
  lemma FinalAssertionExactly(w: World, callback: Callback, node: NodeIx)
    requires SlotsInv(w) && w.stack == [] && |w.slots| > 0 && node < w.nodeCount && !callback.CreateNodeCallback?
    ensures (forall cs :: Act(w, Sweep(callback, node, cs)) != Panic(Internal(155))) <==> w.nodeCount > 1 || w.finalStopping
  {
    if w.nodeCount > 1 || w.finalStopping {
      forall cs ensures Act(w, Sweep(callback, node, cs)) != Panic(Internal(155)) {
        SweepKeeps(w, Sweep(callback, node, cs));
      }
    } else {
      var cs := AddingCallbackFails(w, callback, node);
    }
  }

  /** One failing program: add a simulator, then stop the node; its `stop_node` adds another. */
  lemma SweepAssertionFails() returns (p: Program)
    ensures p == Then(Register(0, false, 0), Then(Sweep(StopNodeCallback, 0, Adding(1)), Done))
    ensures Do(EmptyWorld, p) == Panic(Internal(155))
  {
    p := Then(Register(0, false, 0), Then(Sweep(StopNodeCallback, 0, Adding(1)), Done));
    var w := Registered(EmptyWorld, Simulator(0, None, 0));
    RegisterKeeps(EmptyWorld, Simulator(0, None, 0));
    assert Act(EmptyWorld, Register(0, false, 0)) == Ok(w);
    AddingRound(w, 0, StopNodeCallback, 1);
    var m := Round(w, 0, StopNodeCallback, Adding(1)).value;
    assert Rounds(m, 1, 1, false, StopNodeCallback, NoMore) == Ok(m);
    assert w.(currentNode := 0) == w;
    assert Rounds(w, 0, 1, false, StopNodeCallback, Adding(1)) == Ok(m);
    assert Act(w, Sweep(StopNodeCallback, 0, Adding(1))) == Panic(Internal(155));
    assert Do(w, Then(Sweep(StopNodeCallback, 0, Adding(1)), Done)) == Panic(Internal(155));
  }

  // ----- the context as the source updates it -----

  lemma DoStep(w: World, a: Action, rest: Program)
    requires Do(w, Then(a, rest)).Ok?
    ensures Act(w, a).Ok? && Do(w, Then(a, rest)) == Do(Act(w, a).value, rest)
  {}

  lemma RoundsNext(w: World, i: nat, len: nat, forward: bool, callback: Callback, cs: Callbacks)
    requires i < len && Rounds(w, i, len, forward, callback, cs).Ok?
    ensures var r := Round(w, SweepSlot(len, forward, i), callback, cs);
            && r.Ok?
            && Rounds(w, i, len, forward, callback, cs) == Rounds(r.value, i + 1, len, forward, callback, Rest(cs))
  {}

  lemma ForAllEnds(w: World, forward: bool, callback: Callback, cs: Callbacks)
    requires SlotsInv(w) && ForAll(w, forward, callback, cs).Ok?
    ensures var r := Rounds(w, 0, |w.slots|, forward, callback, cs);
            && r.Ok? && ForAll(w, forward, callback, cs) == r && |r.value.slots| == |w.slots| && SlotsInv(r.value)
            && r.value.currentNode == w.currentNode
            && r.value.visits == w.visits + SweepVisits(|w.slots|, forward, callback, w.currentNode)
  {
    RoundsKeep(w, 0, |w.slots|, forward, callback, cs);
    var v := SweepVisits(|w.slots|, forward, callback, w.currentNode);
    assert v[0..] == v;
  }

  lemma RoundKeepsSlots(w: World, i: SlotIx, callback: Callback, cs: Callbacks)
    requires SlotsInv(w) && i < |w.slots| && Round(w, i, callback, cs).Ok?
    ensures SlotsInv(Round(w, i, callback, cs).value) && |Round(w, i, callback, cs).value.slots| >= |w.slots|
  {
    RoundKeeps(w, i, callback, cs);
  }

  /** The simulators' part of the context, with the current node. The methods perform programs
      that do not panic; which ones do is what `Do` says. */
  class SimCx {
    var slots: seq<Option<Simulator>>
    var byType: map<TypeId, SlotIx>
    var nodeCount: nat
    var finalStopping: bool
    var currentNode: NodeIx
    // history
    ghost var types: seq<TypeId>
    ghost var stack: seq<SlotIx>
    ghost var creating: Option<SlotIx>
    ghost var visits: seq<Visit>
    ghost var renewals: map<SlotIx, Renewal>
    ghost var found: seq<NodeIx>

    ghost function View(): World
      reads this
    {
      World(slots, byType, nodeCount, finalStopping, currentNode, types, stack, creating, visits, renewals, found)
    }

    constructor ()
      ensures View() == EmptyWorld && CodeInv(View())
    {
      slots, byType, nodeCount, finalStopping, currentNode := [], map[], 1, false, 0;
      types, stack, creating, visits, renewals, found := [], [], None, [], map[], [];
    }

    /** Arbitrary code. */
    method Perform(p: Program)
      requires SlotsInv(View()) && Do(View(), p).Ok?
      modifies this
      ensures SlotsInv(View()) && Do(old(View()), p) == Ok(View()) && Untouched(old(View()), View())
      decreases p, 0
    {
      DoKeeps(View(), p);
      match p {
        case Done =>
        case Then(a, rest) =>
          DoStep(View(), a, rest);
          ActKeeps(View(), a);
          PerformOne(a);
          Perform(rest);
      }
    }

    method PerformOne(a: Action)
      requires SlotsInv(View()) && Act(View(), a).Ok?
      modifies this
      ensures Act(old(View()), a) == Ok(View())
      decreases a, 2
    {
      match a {
        case ReadNode => found := found + [currentNode];
        case Borrow(_, _, _, _, _) => With(a);
        case Scope(node, body) => NodeScope(a);
        case Register(ty, perNode, data) => AddSimulator(ty, perNode, data);
        case FinalStop => finalStopping := true;
        case Sweep(_, _, _) => NodeCallbacks(a);
        case CreateNode(_) => var _ := CreateNode(a);
      }
    }

    /** `add_simulator`, if its assertions hold. */
    method AddSimulator(ty: TypeId, perNode: bool, data: int)
      requires Act(View(), Register(ty, perNode, data)).Ok?
      modifies this`slots, this`byType, this`types
      ensures Act(old(View()), Register(ty, perNode, data)) == Ok(View())
    {
      var simulator := Simulator(ty, if perNode then Some([0]) else None, data);
      assert nodeCount == 1 && !finalStopping;
      assert ty !in byType;
      byType := byType[ty := |slots|];
      types := types + [ty];
      slots := slots + [Some(simulator)];
    }

    /** `with` and `with_node`: whatever runs inside, the slot is empty when the simulator is put
        back, with what was written last. */
    method With(a: Action)
      requires SlotsInv(View()) && a.Borrow? && Act(View(), a).Ok?
      modifies this
      ensures Act(old(View()), a) == Ok(View())
      ensures a.ty in old(byType) && old(byType[a.ty]) < |slots| && slots[old(byType[a.ty])].Some?
      ensures var sim := slots[old(byType[a.ty])].value;
              match a.entry
              case Some(node) => HasNode(sim, node) && sim.perNode.value[node] == a.data
              case None => sim.data == a.data
      decreases a, 1
    {
      var index := byType[a.ty];
      var simulator := slots[index].value;
      TakeKeeps(View(), index);
      slots, stack := slots[index := None], Push(stack, index);
      DoKeeps(View(), a.body);
      Perform(a.body);
      assert slots[index].None?;
      match a.entry {
        case Some(node) =>
          assert HasNode(simulator, node);
          simulator := simulator.(perNode := Some(simulator.perNode.value[node := a.data]));
        case None =>
          simulator := simulator.(data := a.data);
          if a.renewed.Some? && a.renewed.value != [] && simulator.perNode.Some? {
            simulator := simulator.(perNode := a.renewed);
            renewals := renewals[index := Renewal(|a.renewed.value|, Told(View(), index))];
          }
      }
      slots, stack := slots[index := Some(simulator)], Pop(stack);
    }

    /** `node_scope`: the current node is restored. */
    method NodeScope(a: Action)
      requires SlotsInv(View()) && a.Scope? && Act(View(), a).Ok?
      modifies this
      ensures Act(old(View()), a) == Ok(View()) && currentNode == old(currentNode)
      decreases a, 1
    {
      var callingNode := currentNode;
      SameSlots(View(), View().(currentNode := a.node));
      currentNode := a.node;
      Perform(a.body);
      currentNode := callingNode;
    }

    /** What a callback writes. */
    method AfterCallback(before: Simulator, callback: Callback, data: Option<int>) returns (simulator: Simulator)
      requires !LacksEntry(before, callback, currentNode)
      ensures simulator == Called(before, callback, currentNode, data)
    {
      simulator := before;
      if simulator.perNode.None? {
        if data.Some? { simulator := simulator.(data := data.value); }
      } else if callback.CreateNodeCallback? {
        var entry := if data.Some? then data.value else 0;
        simulator := simulator.(perNode := Some(simulator.perNode.value + [entry]));
      } else if data.Some? {
        simulator := simulator.(perNode := Some(simulator.perNode.value[currentNode := data.value]));
      }
    }

    method SwapOut(index: SlotIx, callback: Callback) returns (simulator: Simulator)
      requires SlotsInv(View()) && index < |slots| && slots[index].Some?
      modifies this`slots, this`stack, this`visits
      ensures View() == BeginRound(old(View()), index, callback) && SlotsInv(View())
      ensures Some(simulator) == old(slots[index])
    {
      TakeKeeps(View(), index);
      SameSlots(Take(View(), index), BeginRound(View(), index, callback));
      simulator := slots[index].value;
      slots, stack, visits := slots[index := None], Push(stack, index), visits + [Visit(index, callback, currentNode)];
    }

    method SwapBack(index: SlotIx, callback: Callback, simulator: Simulator)
      requires index < |slots| && stack != []
      modifies this`slots, this`stack, this`creating
      ensures View() == EndRound(old(View()), index, callback, simulator)
    {
      if callback.CreateNodeCallback? { creating := Some(index + 1); }
      slots, stack := slots[index := Some(simulator)], Pop(stack);
    }

    /** One round of `for_all_simulators`: swap out, call, swap back. */
    method VisitSlot(index: SlotIx, callback: Callback, cs: Callbacks)
      requires SlotsInv(View()) && Round(View(), index, callback, cs).Ok?
      modifies this
      ensures Round(old(View()), index, callback, cs) == Ok(View())
      decreases cs, 0
    {
      var simulator := SwapOut(index, callback);
      var data := None;
      if cs.More? {
        DoKeeps(View(), cs.first.body);
        Perform(cs.first.body);
        data := Some(cs.first.data);
      }
      simulator := AfterCallback(simulator, callback, data);
      SwapBack(index, callback, simulator);
    }

    /** `for_all_simulators`: every simulator is called once, in its order, and put back; the final
        `assert_eq!` is the last assertion. */
    method ForAllSimulators(forward: bool, callback: Callback, callbacks: Callbacks)
      requires SlotsInv(View()) && ForAll(View(), forward, callback, callbacks).Ok?
      modifies this
      ensures ForAll(old(View()), forward, callback, callbacks) == Ok(View()) && SlotsInv(View())
      ensures visits == old(visits) + SweepVisits(|slots|, forward, callback, currentNode)
      decreases callbacks, 1
    {
      ghost var w := View();
      var len := |slots|;
      ForAllEnds(w, forward, callback, callbacks);
      var cs := callbacks;
      for i := 0 to len
        invariant SlotsInv(View()) && |slots| >= len && (cs == callbacks || cs < callbacks)
        invariant Rounds(View(), i, len, forward, callback, cs).Ok?
        invariant Rounds(View(), i, len, forward, callback, cs) == Rounds(w, 0, len, forward, callback, callbacks)
      {
        RoundsNext(View(), i, len, forward, callback, cs);
        RoundKeepsSlots(View(), SweepSlot(len, forward, i), callback, cs);
        VisitSlot(if forward then i else len - 1 - i, callback, cs);
        cs := if cs.More? then cs.rest else cs;
      }
      assert |slots| == len;
    }

    /** `NodeId::create_node`: afterwards every `PerNode` has one entry per node, except for what a
        renewal left it short of. */
    method CreateNode(a: Action) returns (id: NodeIx)
      requires SlotsInv(View()) && a.CreateNode? && Act(View(), a).Ok?
      modifies this
      ensures Act(old(View()), a) == Ok(View()) && id == old(nodeCount)
      ensures old(CodeInv(View())) ==>
                forall i :: 0 <= i < |slots| && slots[i].Some? && slots[i].value.perNode.Some? ==>
                  |slots[i].value.perNode.value| == nodeCount - Short(View(), i)
      decreases a, 1
    {
      ghost var w := View();
      if CodeInv(w) { ghost var t := CreateEntries(w, a); }
      SameSlots(w, Creating(w));
      id := nodeCount;
      var callingNode := currentNode;
      nodeCount, currentNode, creating := nodeCount + 1, nodeCount, Some(0);
      ForAllSimulators(true, CreateNodeCallback, a.callbacks);
      currentNode, creating := callingNode, w.creating;
    }

    /** The callbacks of `stop_node` and `start_node`, with the affected node as current node. */
    method NodeCallbacks(a: Action)
      requires SlotsInv(View()) && a.Sweep? && Act(View(), a).Ok?
      modifies this
      ensures Act(old(View()), a) == Ok(View()) && currentNode == old(currentNode)
      decreases a, 1
    {
      if a.callback.CreateNodeCallback? {
        return;
      }
      var callingNode := currentNode;
      SameSlots(View(), View().(currentNode := a.node));
      currentNode := a.node;
      ForAllSimulators(false, a.callback, a.callbacks);
      currentNode := callingNode;
    }
  }
}
