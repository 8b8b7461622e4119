/** What code inside borrows, node scopes and callbacks amounts to (src/simulator.rs): a plain
    interpreter that updates named variables in place and is handed the current node as an
    argument. It takes nothing out and restores nothing, and every program that does not panic
    leaves the same simulators and finds the same current nodes in both. */
module InPlace {
  import opened Types
  import opened Machine
  import opened Simulators

  /** The last thing written to a simulator's data. */
  datatype Write = Write(ty: TypeId, data: int)

  /** `order` are the registered types, `entries` the vectors of those that are `PerNode`s, `writes`
      all writes to data, registration included, and `found` the nodes found to be current. */
  datatype Store = Store(
    order: seq<TypeId>,
    entries: map<TypeId, Option<seq<int>>>,
    writes: seq<Write>,
    nodes: nat,
    found: seq<NodeIx>)

  const EmptyStore: Store := Store([], map[], [], 1, [])

  function LastWrite(writes: seq<Write>, ty: TypeId): Option<int> {
    if writes == [] then None
    else if Top(writes).ty == ty then Some(Top(writes).data)
    else LastWrite(Pop(writes), ty)
  }

  function WriteData(st: Store, ty: TypeId, data: int): Store {
    st.(writes := st.writes + [Write(ty, data)])
  }

  predicate IsPerNode(st: Store, ty: TypeId) {
    ty in st.entries && st.entries[ty].Some?
  }

  function WriteEntry(st: Store, ty: TypeId, node: NodeIx, data: int): Store {
    if IsPerNode(st, ty) && node < |st.entries[ty].value| then
      st.(entries := st.entries[ty := Some(st.entries[ty].value[node := data])])
    else st
  }

  function AddEntry(st: Store, ty: TypeId, data: int): Store {
    if IsPerNode(st, ty) then st.(entries := st.entries[ty := Some(st.entries[ty].value + [data])]) else st
  }

  function Renew(st: Store, ty: TypeId, renewed: Option<seq<int>>): Store {
    if renewed.Some? && renewed.value != [] && IsPerNode(st, ty) then st.(entries := st.entries[ty := renewed]) else st
  }

  /** The write of a callback of simulator `ty` for `node`. */
  function WriteCallback(st: Store, ty: TypeId, callback: Callback, node: NodeIx, data: Option<int>): Store {
    if IsPerNode(st, ty) then
      if callback.CreateNodeCallback? then AddEntry(st, ty, if data.Some? then data.value else 0)
      else if data.Some? then WriteEntry(st, ty, node, data.value)
      else st
    else if data.Some? then WriteData(st, ty, data.value)
    else st
  }

  function Reverse<T>(s: seq<T>): (r: seq<T>)
    ensures |r| == |s|
  {
    if s == [] then [] else Reverse(s[1..]) + [s[0]]
  }

  /** The program `p` as run by code whose node is `node`. */
  function Eval(st: Store, p: Program, node: NodeIx): Store
    decreases p, 0
  {
    match p
    case Done => st
    case Then(a, rest) => Eval(EvalAction(st, a, node), rest, node)
  }

  function EvalAction(st: Store, a: Action, node: NodeIx): Store
    decreases a, 0
  {
    match a
    case ReadNode => st.(found := st.found + [node])
    case Scope(inner, body) => Eval(st, body, inner)
    case Borrow(ty, entry, renewed, data, body) =>
      var t := Eval(st, body, node);
      (match entry
       case Some(n) => WriteEntry(t, ty, n, data)
       case None => Renew(WriteData(t, ty, data), ty, renewed))
    case Register(ty, perNode, data) =>
      WriteData(st.(order := st.order + [ty], entries := st.entries[ty := if perNode then Some([0]) else None]), ty, data)
    case FinalStop => st
    case Sweep(callback, n, cs) =>
      if callback.CreateNodeCallback? then st else EvalCallbacks(st, Reverse(st.order), callback, cs, n)
    case CreateNode(cs) =>
      EvalCallbacks(st.(nodes := st.nodes + 1), st.order, CreateNodeCallback, cs, st.nodes)
  }

  /** The callbacks of the simulators `tys`, one after the other, for the affected node. */
  function EvalCallbacks(st: Store, tys: seq<TypeId>, callback: Callback, cs: Callbacks, node: NodeIx): Store
    decreases cs, |tys|
  {
    if tys == [] then st
    else
      match cs
      case NoMore => EvalCallbacks(WriteCallback(st, tys[0], callback, node, None), tys[1..], callback, NoMore, node)
      case More(callee, rest) =>
        EvalCallbacks(WriteCallback(Eval(st, callee.body, node), tys[0], callback, node, Some(callee.data)),
                      tys[1..], callback, rest, node)
  }

  // ----- agreement -----

  /** A simulator that is not borrowed has the data last written and the entries of the store. */
  ghost predicate Same(w: World, st: Store, i: SlotIx)
    requires i < |w.slots| && |w.types| == |w.slots|
  {
    && w.types[i] in st.entries
    && (w.slots[i].Some? ==>
          && st.entries[w.types[i]] == w.slots[i].value.perNode
          && LastWrite(st.writes, w.types[i]) == Some(w.slots[i].value.data))
  }

  ghost predicate Agrees(w: World, st: Store) {
    && |w.types| == |w.slots|
    && st.order == w.types && st.nodes == w.nodeCount && st.found == w.found
    && forall i :: 0 <= i < |w.slots| ==> Same(w, st, i)
  }

  /** Nothing is written to a simulator that is borrowed. */
  ghost predicate Kept(w: World, st: Store, t: Store) {
    forall i :: 0 <= i < |w.slots| && i < |w.types| && w.slots[i].None? && w.types[i] in st.entries ==>
      && w.types[i] in t.entries
      && t.entries[w.types[i]] == st.entries[w.types[i]]
      && LastWrite(t.writes, w.types[i]) == LastWrite(st.writes, w.types[i])
  }

  lemma {:induction false} EvalAgrees(w: World, p: Program, st: Store)
    requires SlotsInv(w) && Agrees(w, st) && Do(w, p).Ok?
    ensures Agrees(Do(w, p).value, Eval(st, p, w.currentNode)) && Kept(w, st, Eval(st, p, w.currentNode))
    decreases p, 0
  {
    if p.Then? {
      var m, s := Act(w, p.first).value, EvalAction(st, p.first, w.currentNode);
      ActKeeps(w, p.first);
      DoKeeps(m, p.rest);
      ActionAgrees(w, p.first, st);
      EvalAgrees(m, p.rest, s);
      KeptChain(w, m, st, s, Eval(s, p.rest, w.currentNode));
    }
  }

  lemma KeptChain(w: World, m: World, st: Store, s: Store, t: Store)
    requires SlotsInv(w) && SlotsInv(m) && Untouched(w, m) && Kept(w, st, s) && Kept(m, s, t)
    ensures Kept(w, st, t)
  {
    forall i | 0 <= i < |w.slots| && w.slots[i].None? && w.types[i] in st.entries
      ensures w.types[i] in t.entries && t.entries[w.types[i]] == st.entries[w.types[i]]
      ensures LastWrite(t.writes, w.types[i]) == LastWrite(st.writes, w.types[i])
    {
      assert m.slots[i].None? && m.types[i] == w.types[i];
    }
  }

  lemma {:induction false} ActionAgrees(w: World, a: Action, st: Store)
    requires SlotsInv(w) && Agrees(w, st) && Act(w, a).Ok?
    ensures Agrees(Act(w, a).value, EvalAction(st, a, w.currentNode)) && Kept(w, st, EvalAction(st, a, w.currentNode))
    decreases a, 1
  {
    match a
    case ReadNode => SameAgrees(w, Act(w, a).value, st, EvalAction(st, a, w.currentNode));
    case Borrow(_, _, _, _, _) => BorrowAgrees(w, a, st);
    case Scope(node, body) =>
      var inner := w.(currentNode := node);
      SameSlots(w, inner);
      SameAgrees(w, inner, st, st);
      EvalAgrees(inner, body, st);
      SameAgrees(Do(inner, body).value, Act(w, a).value, Eval(st, body, node), Eval(st, body, node));
    case Register(_, _, _) => RegisterAgrees(w, a, st);
    case FinalStop => SameAgrees(w, Act(w, a).value, st, st);
    case Sweep(_, _, _) => if !a.callback.CreateNodeCallback? { SweepAgrees(w, a, st); }
    case CreateNode(_) => CreateAgrees(w, a, st);
  }

  lemma SameAgrees(w: World, t: World, st: Store, s: Store)
    requires Agrees(w, st) && t.slots == w.slots && t.types == w.types && s.order == st.order
    requires s.entries == st.entries && s.writes == st.writes && s.nodes == t.nodeCount && s.found == t.found
    ensures Agrees(t, s) && Kept(w, st, s)
  {
    forall i | 0 <= i < |t.slots| ensures Same(t, s, i) { assert Same(w, st, i); }
  }

  /** A write to the simulator of one type. */
  ghost predicate Wrote(st: Store, t: Store, ty: TypeId, sim: Simulator) {
    && t == st.(entries := t.entries, writes := t.writes)
    && t.entries.Keys == st.entries.Keys + {ty}
    && t.entries[ty] == sim.perNode && LastWrite(t.writes, ty) == Some(sim.data)
    && forall x :: x != ty ==>
         && (x in st.entries ==> t.entries[x] == st.entries[x])
         && LastWrite(t.writes, x) == LastWrite(st.writes, x)
  }

  /** What `with` leaves in the slot is what the store gets. */
  lemma BorrowWrote(st: Store, a: Action, sim: Simulator, node: NodeIx)
    requires a.Borrow? && a.ty in st.entries && st.entries[a.ty] == sim.perNode
    requires LastWrite(st.writes, a.ty) == Some(sim.data) && (a.entry.Some? ==> HasNode(sim, a.entry.value))
    ensures var left := Written(sim, a.entry, a.data);
            var t := if a.entry.Some? then WriteEntry(st, a.ty, a.entry.value, a.data)
                     else Renew(WriteData(st, a.ty, a.data), a.ty, a.renewed);
            Wrote(st, t, a.ty, if a.entry.None? && Renews(left, a.renewed) then left.(perNode := a.renewed) else left)
  {
    LastIsWritten(st, a.ty, a.data);
  }

  lemma LastIsWritten(st: Store, ty: TypeId, data: int)
    ensures LastWrite(WriteData(st, ty, data).writes, ty) == Some(data)
    ensures forall x :: x != ty ==> LastWrite(WriteData(st, ty, data).writes, x) == LastWrite(st.writes, x)
  {
    var writes := WriteData(st, ty, data).writes;
    assert Pop(writes) == st.writes && Top(writes) == Write(ty, data);
  }

  /** And so with a callback. */
  lemma CallbackWrote(st: Store, ty: TypeId, sim: Simulator, callback: Callback, node: NodeIx, data: Option<int>)
    requires ty in st.entries && st.entries[ty] == sim.perNode && LastWrite(st.writes, ty) == Some(sim.data)
    requires !LacksEntry(sim, callback, node)
    ensures Wrote(st, WriteCallback(st, ty, callback, node, data), ty, Called(sim, callback, node, data))
  {
    if data.Some? { LastIsWritten(st, ty, data.value); }
  }

  /** A simulator comes back with what the store has just been given. */
  lemma PutBackAgrees(m: World, i: SlotIx, sim: Simulator, t: World, s: Store, u: Store)
    requires SlotsInv(m) && i < |m.slots| && Agrees(m, s) && Wrote(s, u, m.types[i], sim)
    requires t.slots == m.slots[i := Some(sim)] && t.types == m.types && t.nodeCount == m.nodeCount && t.found == m.found
    ensures Agrees(t, u)
  {
    forall j | 0 <= j < |t.slots| ensures Same(t, u, j) {
      assert Same(m, s, j) && SlotInv(m, i) && SlotInv(m, j);
    }
  }

  lemma TakeAgrees(w: World, i: SlotIx, taken: World, st: Store)
    requires i < |w.slots| && Agrees(w, st) && taken == Take(w, i).(visits := taken.visits)
    ensures Agrees(taken, st)
  {
    forall j | 0 <= j < |w.slots| ensures Same(taken, st, j) { assert Same(w, st, j); }
  }

  /** While a simulator is out nothing else is written to it, nor to those already out. */
  lemma TakenIsKept(w: World, i: SlotIx, taken: World, st: Store, s: Store, u: Store, sim: Simulator)
    requires SlotsInv(w) && i < |w.slots| && w.slots[i].Some? && taken == Take(w, i).(visits := taken.visits)
    requires Kept(taken, st, s) && Wrote(s, u, w.types[i], sim)
    ensures Kept(w, st, u)
  {
    forall j | 0 <= j < |w.slots| && w.slots[j].None? && w.types[j] in st.entries
      ensures w.types[j] in u.entries && u.entries[w.types[j]] == st.entries[w.types[j]]
      ensures LastWrite(u.writes, w.types[j]) == LastWrite(st.writes, w.types[j])
    {
      assert SlotInv(w, i) && SlotInv(w, j) && taken.slots[j].None?;
    }
  }

  lemma {:induction false} BorrowAgrees(w: World, a: Action, st: Store)
    requires SlotsInv(w) && Agrees(w, st) && a.Borrow? && Act(w, a).Ok?
    ensures Agrees(Act(w, a).value, EvalAction(st, a, w.currentNode)) && Kept(w, st, EvalAction(st, a, w.currentNode))
    decreases a, 0
  {
    var i := w.byType[a.ty];
    var taken, sim := Take(w, i), w.slots[i].value;
    assert SlotInv(w, i) && Same(w, st, i);
    TakeKeeps(w, i);
    TakeAgrees(w, i, taken, st);
    DoKeeps(taken, a.body);
    EvalAgrees(taken, a.body, st);
    var m, s := Do(taken, a.body).value, Eval(st, a.body, w.currentNode);
    assert m.types[i] == w.types[i] && taken.slots[i].None?;
    BorrowWrote(s, a, sim, w.currentNode);
    var left := Written(sim, a.entry, a.data);
    var last := if a.entry.None? && Renews(left, a.renewed) then left.(perNode := a.renewed) else left;
    PutBackAgrees(m, i, last, Act(w, a).value, s, EvalAction(st, a, w.currentNode));
    TakenIsKept(w, i, taken, st, s, EvalAction(st, a, w.currentNode), last);
  }

  lemma RegisterAgrees(w: World, a: Action, st: Store)
    requires SlotsInv(w) && Agrees(w, st) && a.Register? && Act(w, a).Ok?
    ensures Agrees(Act(w, a).value, EvalAction(st, a, w.currentNode)) && Kept(w, st, EvalAction(st, a, w.currentNode))
  {
    var t, s := Act(w, a).value, EvalAction(st, a, w.currentNode);
    LastIsWritten(st.(order := s.order, entries := s.entries), a.ty, a.data);
    forall i | 0 <= i < |t.slots| ensures Same(t, s, i) {
      if i < |w.slots| { assert Same(w, st, i) && SlotInv(w, i); }
    }
    forall i | 0 <= i < |w.slots| ensures w.types[i] != a.ty { assert SlotInv(w, i); }
  }

  // ----- sweeps -----

  lemma {:induction false} ReversedAt(s: seq<TypeId>, i: nat)
    requires i < |s|
    ensures Reverse(s)[i] == s[|s| - 1 - i]
  {
    if i < |s| - 1 { ReversedAt(s[1..], i); }
  }

  /** The types a sweep visits, in its order. */
  function SweepTypes(order: seq<TypeId>, forward: bool): (tys: seq<TypeId>)
    ensures |tys| == |order|
  {
    if forward then order else Reverse(order)
  }

  lemma SweepTypeAt(order: seq<TypeId>, forward: bool, i: nat)
    requires i < |order|
    ensures SweepTypes(order, forward)[i] == order[SweepSlot(|order|, forward, i)]
  {
    if !forward { ReversedAt(order, i); }
  }

  lemma {:induction false} RoundAgrees(w: World, i: SlotIx, callback: Callback, cs: Callbacks, st: Store)
    requires SlotsInv(w) && Agrees(w, st) && i < |w.slots| && Round(w, i, callback, cs).Ok?
    ensures w.slots[i].Some?
    ensures var s := if cs.More? then Eval(st, cs.first.body, w.currentNode) else st;
            var u := WriteCallback(s, w.types[i], callback, w.currentNode, if cs.More? then Some(cs.first.data) else None);
            Agrees(Round(w, i, callback, cs).value, u) && Kept(w, st, u)
    decreases cs, 0
  {
    var begun, sim := BeginRound(w, i, callback), w.slots[i].value;
    assert SlotInv(w, i) && Same(w, st, i);
    TakeKeeps(w, i);
    SameSlots(Take(w, i), begun);
    TakeAgrees(w, i, begun, st);
    var m, s, data := begun, st, None;
    if cs.More? {
      DoKeeps(begun, cs.first.body);
      EvalAgrees(begun, cs.first.body, st);
      m, s, data := Do(begun, cs.first.body).value, Eval(st, cs.first.body, w.currentNode), Some(cs.first.data);
    }
    assert m.types[i] == w.types[i] && begun.slots[i].None?;
    CallbackWrote(s, w.types[i], sim, callback, w.currentNode, data);
    var u, last := WriteCallback(s, w.types[i], callback, w.currentNode, data), Called(sim, callback, w.currentNode, data);
    PutBackAgrees(m, i, last, Round(w, i, callback, cs).value, s, u);
    TakenIsKept(w, i, begun, st, s, u, last);
  }

  lemma {:induction false} RoundsAgree(w: World, i: nat, len: nat, forward: bool, callback: Callback, cs: Callbacks,
                                       st: Store, order: seq<TypeId>)
    requires SlotsInv(w) && Agrees(w, st) && i <= len <= |w.slots| && Rounds(w, i, len, forward, callback, cs).Ok?
    requires |order| == len && order <= w.types
    ensures var u := EvalCallbacks(st, SweepTypes(order, forward)[i..], callback, cs, w.currentNode);
            Agrees(Rounds(w, i, len, forward, callback, cs).value, u)
    decreases cs, len - i + 1
  {
    if i < len {
      var slot, tys := SweepSlot(len, forward, i), SweepTypes(order, forward);
      SweepTypeAt(order, forward, i);
      assert tys[i..][0] == w.types[slot] && tys[i..][1..] == tys[i + 1..];
      RoundKeeps(w, slot, callback, cs);
      RoundAgrees(w, slot, callback, cs, st);
      var m := Round(w, slot, callback, cs).value;
      var s := if cs.More? then Eval(st, cs.first.body, w.currentNode) else st;
      var u := WriteCallback(s, tys[i], callback, w.currentNode, if cs.More? then Some(cs.first.data) else None);
      RoundsAgree(m, i + 1, len, forward, callback, Rest(cs), u, order);
    }
  }

  lemma {:induction false} SweepAgrees(w: World, a: Action, st: Store)
    requires SlotsInv(w) && Agrees(w, st) && a.Sweep? && !a.callback.CreateNodeCallback? && Act(w, a).Ok?
    ensures Agrees(Act(w, a).value, EvalAction(st, a, w.currentNode)) && Kept(w, st, EvalAction(st, a, w.currentNode))
    decreases a, 0
  {
    var t := SweepIsExact(w, a.callback, a.node, a.callbacks);
    var inner := w.(currentNode := a.node);
    SameSlots(w, inner);
    SameAgrees(w, inner, st, st);
    RoundsAgree(inner, 0, |w.slots|, false, a.callback, a.callbacks, st, w.types);
    assert Reverse(w.types)[0..] == Reverse(w.types);
    var u := EvalAction(st, a, w.currentNode);
    SameAgrees(Rounds(inner, 0, |w.slots|, false, a.callback, a.callbacks).value, t, u, u);
    AllPresent(w);
  }

  lemma {:induction false} CreateAgrees(w: World, a: Action, st: Store)
    requires SlotsInv(w) && Agrees(w, st) && a.CreateNode? && Act(w, a).Ok?
    ensures Agrees(Act(w, a).value, EvalAction(st, a, w.currentNode)) && Kept(w, st, EvalAction(st, a, w.currentNode))
    decreases a, 0
  {
    var inner, created := Creating(w), st.(nodes := st.nodes + 1);
    SameSlots(w, inner);
    SameAgrees(w, inner, st, created);
    RoundsKeep(inner, 0, |w.slots|, true, CreateNodeCallback, a.callbacks);
    var r := Rounds(inner, 0, |w.slots|, true, CreateNodeCallback, a.callbacks);
    SweepNeedsAll(inner, true, CreateNodeCallback, r);
    AllPresent(w);
    RoundsAgree(inner, 0, |w.slots|, true, CreateNodeCallback, a.callbacks, created, w.types);
    assert w.types[0..] == w.types;
    var u := EvalAction(st, a, w.currentNode);
    SameAgrees(r.value, Act(w, a).value, u, u);
  }

  // ----- the theorems -----

  /** Over all programs that do not panic: every simulator ends up with the data last written to it,
      by its registration, a `with` or a callback, and with the entries of in-place updates; and
      every look at the current node finds the node of the innermost enclosing scope or callback. */
  lemma UpdatesAreInPlace(p: Program)
    requires Do(EmptyWorld, p).Ok?
    ensures var t, st := Do(EmptyWorld, p).value, Eval(EmptyStore, p, 0);
            && |t.types| == |t.slots| && t.types == st.order && t.nodeCount == st.nodes && t.found == st.found
            && forall i :: 0 <= i < |t.slots| ==>
                 && t.slots[i].Some? && t.types[i] in st.entries
                 && t.slots[i].value == Simulator(t.types[i], st.entries[t.types[i]], t.slots[i].value.data)
                 && LastWrite(st.writes, t.types[i]) == Some(t.slots[i].value.data)
  {
    var t, st := Do(EmptyWorld, p).value, Eval(EmptyStore, p, 0);
    EvalAgrees(EmptyWorld, p, EmptyStore);
    DoKeeps(EmptyWorld, p);
    AllPresent(t);
    forall i | 0 <= i < |t.slots|
      ensures t.slots[i].Some? && t.types[i] in st.entries && LastWrite(st.writes, t.types[i]) == Some(t.slots[i].value.data)
      ensures t.slots[i].value == Simulator(t.types[i], st.entries[t.types[i]], t.slots[i].value.data)
    {
      assert Same(t, st, i) && SlotInv(t, i);
    }
  }

  // ----- single actions, in plain words -----

  /** `with` leaves in the simulator what it was given last, and `with_node` does in the one entry;
      the rest of the simulator stays. */
  lemma WithWrites(w: World, a: Action)
    requires SlotsInv(w) && a.Borrow? && Act(w, a).Ok?
    ensures a.ty in w.byType && w.slots[w.byType[a.ty]].Some? && w.byType[a.ty] < |Act(w, a).value.slots|
    ensures var i, t := w.byType[a.ty], Act(w, a).value;
            && t.slots[i].Some?
            && var before, after := w.slots[i].value, t.slots[i].value;
            && after.ty == before.ty
            && (a.entry.None? ==> after.data == a.data)
            && (a.entry.None? && a.renewed.None? ==> after.perNode == before.perNode)
            && (a.entry.Some? ==>
                  && after.data == before.data && before.perNode.Some? && after.perNode.Some?
                  && |after.perNode.value| == |before.perNode.value| && a.entry.value < |after.perNode.value|
                  && forall n :: 0 <= n < |after.perNode.value| ==>
                       after.perNode.value[n] == if n == a.entry.value then a.data else before.perNode.value[n])
  {
    TakeKeeps(w, w.byType[a.ty]);
    DoKeeps(Take(w, w.byType[a.ty]), a.body);
  }

  /** The callbacks of a `PerNode`: a new node's entry comes last, so that every node keeps its own,
      and a callback of another kind touches the entry of the current node only. */
  lemma CallbackWrites(sim: Simulator, callback: Callback, node: NodeIx, data: int)
    requires sim.perNode.Some? && !LacksEntry(sim, callback, node)
    ensures var before, after := sim.perNode.value, Called(sim, callback, node, Some(data));
            && after.perNode.Some? && after.ty == sim.ty && after.data == sim.data
            && (callback.CreateNodeCallback? ==>
                  && |after.perNode.value| == |before| + 1 && after.perNode.value[|before|] == data
                  && forall n :: 0 <= n < |before| ==> after.perNode.value[n] == before[n])
            && (!callback.CreateNodeCallback? ==>
                  && |after.perNode.value| == |before| && node < |before|
                  && forall n :: 0 <= n < |before| ==> after.perNode.value[n] == if n == node then data else before[n])
  {}

  /** A `with` begins exactly if a simulator of the type was added and is not borrowed. */
  lemma WithBegins(w: World, ty: TypeId, data: int)
    requires SlotsInv(w)
    ensures Act(w, Borrow(ty, None, None, data, Done)).Ok? <==> ty in w.byType && w.byType[ty] !in w.stack
  {
    if ty in w.byType { assert SlotInv(w, w.byType[ty]); }
  }

  /** Inside a borrow of a simulator, whatever ran since, another one panics. */
  lemma BorrowedTwicePanics(w: World, a: Action, q: Program)
    requires SlotsInv(w) && a.Borrow? && a.ty in w.byType && w.slots[w.byType[a.ty]].Some?
    requires Do(Take(w, w.byType[a.ty]), q).Ok?
    ensures Act(Do(Take(w, w.byType[a.ty]), q).value, a) == Panic(Internal(66))
  {
    var i := w.byType[a.ty];
    var taken := Take(w, i);
    TakeKeeps(w, i);
    DoKeeps(taken, q);
    var m := Do(taken, q).value;
    assert SlotInv(m, i) && m.types[i] == w.types[i] == a.ty && taken.slots[i].None?;
  }

  /** From the final stop on, and from the second node on, whatever runs, no simulator can be added;
      from the final stop on no node can be created. */
  lemma LateRegistrationPanics(w: World, p: Program, ty: TypeId, perNode: bool, data: int, cs: Callbacks)
    requires SlotsInv(w) && (w.finalStopping || w.nodeCount > 1) && Do(w, p).Ok?
    ensures Act(Do(w, p).value, Register(ty, perNode, data)) == Panic(Internal(49))
    ensures w.finalStopping ==> Act(Do(w, p).value, Action.CreateNode(cs)) == Panic(NodeDuringShutdown)
  {
    DoKeeps(w, p);
  }

  /** The final stop is one, whatever runs afterwards. */
  lemma FinalStopIsFinal(w: World, p: Program, cs: Callbacks)
    requires SlotsInv(w) && Do(w, Then(FinalStop, p)).Ok?
    ensures Act(Do(w, Then(FinalStop, p)).value, Action.CreateNode(cs)) == Panic(NodeDuringShutdown)
    ensures forall ty, perNode, data ::
              Act(Do(w, Then(FinalStop, p)).value, Register(ty, perNode, data)) == Panic(Internal(49))
  {
    var m := Act(w, FinalStop).value;
    ActKeeps(w, FinalStop);
    DoKeeps(m, p);
  }

  /** No part of a program borrows or registers `ty`, or makes callbacks. */
  predicate LeavesAlone(p: Program, ty: TypeId)
    decreases p, 0
  {
    p.Then? ==> ActLeavesAlone(p.first, ty) && LeavesAlone(p.rest, ty)
  }

  predicate ActLeavesAlone(a: Action, ty: TypeId)
    decreases a, 1
  {
    match a
    case Borrow(t, _, _, _, body) => t != ty && LeavesAlone(body, ty)
    case Scope(_, body) => LeavesAlone(body, ty)
    case Register(t, _, _) => t != ty
    case Sweep(_, _, _) => false
    case CreateNode(_) => false
    case _ => true
  }

  /** Such a program leaves the simulator of that type as it is. */
  lemma {:induction false} OthersStay(w: World, p: Program, i: SlotIx)
    requires SlotsInv(w) && i < |w.slots| && w.slots[i].Some? && LeavesAlone(p, w.types[i]) && Do(w, p).Ok?
    ensures i < |Do(w, p).value.slots| && Do(w, p).value.slots[i] == w.slots[i]
    decreases p, 0
  {
    if p.Then? {
      ActKeeps(w, p.first);
      ActOthersStay(w, p.first, i);
      OthersStay(Act(w, p.first).value, p.rest, i);
    }
  }

  lemma {:induction false} ActOthersStay(w: World, a: Action, i: SlotIx)
    requires SlotsInv(w) && i < |w.slots| && w.slots[i].Some? && ActLeavesAlone(a, w.types[i]) && Act(w, a).Ok?
    ensures i < |Act(w, a).value.slots| && Act(w, a).value.slots[i] == w.slots[i]
    decreases a, 1
  {
    match a
    case Borrow(ty, _, _, _, body) =>
      var j := w.byType[ty];
      TakeKeeps(w, j);
      DoKeeps(Take(w, j), body);
      OthersStay(Take(w, j), body, i);
    case Scope(node, body) =>
      SameSlots(w, w.(currentNode := node));
      OthersStay(w.(currentNode := node), body, i);
    case _ =>
  }
}
