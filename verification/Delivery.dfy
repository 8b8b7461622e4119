/** The network under `perfect_connectivity` (src/net.rs) on top of the runtime: every sent
    packet is carried by a delivery task that sleeps until send time plus latency. */
module Delivery {
  import opened Types
  import opened Time
  import opened Executor
  import opened Machine
  import opened Refinement
  import opened Shutdown
  import opened Timing
  import opened Deadlines
  import opened Network

  /** `carried` maps each delivery task to its packet, and `sleepOf` to its Sleep. `callbacks`
      has the nodes that are being started or created, and whose callback of the network is
      still to come. `arrivals` is history: when a packet reached the inbox step. */
  datatype NetState = NetState(
    sim: Guarded,
    latency: nat,
    mail: Mail,
    carried: map<Id, PacketIx>,
    sleepOf: map<Id, SleepKey>,
    callbacks: seq<NodeIx>,
    arrivals: map<PacketIx, Instant>)

  datatype NetOp =
    | Local(op: GuardOp)
    | Send(src: Addr, key: Key, current: NodeIx, sleep: SleepKey)
    | PollDelivery
    | OpenSocket(key: Key)
    | CloseSocket(socket: InboxIx)
    | ReceivePacket(socket: InboxIx)
    | FreeInbox(inbox: InboxIx)
    | ReplaceNet(net: NetIx, latency: nat)
    | NetStartsNode(node: NodeIx)

  /** A delivery task is being polled. */
  predicate Delivering(n: NetState) {
    n.sim.base.ex.polling.Some? && n.sim.base.ex.polling.value in n.carried
  }

  /** A delivery task is detached, its poll does nothing but sleep and deliver, and a poll does
      not end while a node is being started in it. */
  predicate LocalAllowed(n: NetState, op: GuardOp) {
    && (Delivering(n) ==> op == Plain(Return(Pending, [])))
    && (op.Plain? && op.op.AbortTask? ==> op.op.id !in n.carried)
    && (op.Plain? && (op.op.Turn? || op.op.Return?) ==> n.callbacks == [])
  }

  /** Starting a stopped node and creating a node call back the simulators. */
  function Callbacks(n: NetState, op: GuardOp): seq<NodeIx> {
    var nodes := n.sim.base.ex.nodes;
    if op.Plain? && op.op.StartNode? && op.op.node < |nodes| && nodes[op.op.node].level.Stopped? then
      Push(n.callbacks, op.op.node)
    else if op.Plain? && op.op.CreateNode? then Push(n.callbacks, |nodes|)
    else n.callbacks
  }

  /** The packets lost with the delivery task that `op` aborts, if it does. */
  function LocalMail(n: NetState, op: GuardOp): Mail {
    if op.Plain? && op.op.StopVisit? && op.op.id in n.carried && n.carried[op.op.id] < |n.mail.places| then
      Lose(n.mail, n.carried[op.op.id], DeliveryAborted)
    else n.mail
  }

  function Uncarried(carried: map<Id, PacketIx>, op: GuardOp): map<Id, PacketIx> {
    if op.Plain? && op.op.StopVisit? then carried - {op.op.id} else carried
  }

  ghost function SpawnDelivery(g: Guarded, k: SleepKey, arrival: Instant): Option<Guarded> {
    var made := GuardStep(g, Plain(MakeSleep(k, arrival)));
    if made.None? then None else GuardStep(made.value, SpawnGuarded(0, k))
  }

  /** `Net::send`: the source must be on the current node, and the delivery task is spawned
      on the first node with a Sleep for the arrival. */
  ghost function SendStep(n: NetState, src: Addr, key: Key, current: NodeIx, k: SleepKey): Option<NetState> {
    var packet := Packet(src, key, n.sim.base.clock.now, n.latency);
    var spawned := SpawnDelivery(n.sim, k, Due(packet));
    if src.node != current || Delivering(n) || spawned.None? then None
    else
      Some(n.(
        sim := spawned.value,
        mail := Post(n.mail, packet),
        carried := n.carried[n.sim.base.nextId + 1 := |n.mail.packets|],
        sleepOf := n.sleepOf[n.sim.base.nextId + 1 := k]))
  }

  /** A poll of a delivery task, up to its return. */
  ghost function PollStep(n: NetState): Option<NetState> {
    if !Delivering(n) || n.sim.base.ex.polling.value !in n.sleepOf then None
    else
      var id := n.sim.base.ex.polling.value;
      var k, p := n.sleepOf[id], n.carried[id];
      var polled := GuardStep(n.sim, PollDeadline(k));
      if polled.None? then None
      else if IsArmed(polled.value.guards, k) then Some(n.(sim := polled.value))
      else if !MailInv(n.mail) || p >= |n.mail.packets| then None
      else
        Some(n.(
          sim := polled.value,
          mail := TrySend(n.mail, p),
          carried := n.carried - {id},
          arrivals := n.arrivals[p := n.sim.base.clock.now]))
  }

  /** The operations on sockets; none happens during the poll of a delivery task. */
  function MailStep(m: Mail, op: NetOp): Option<Mail> {
    match op
    case OpenSocket(key) => Some(Open(m, key).0)
    case CloseSocket(c) =>
      if c !in m.open || c >= |m.channels| then None
      else (match Close(m, c) case Ok(m') => Some(m') case Panic(_) => None)
    case ReceivePacket(c) =>
      if c >= |m.channels| then None
      else (match Receive(m, c) case Ok((m', _)) => Some(m') case Panic(_) => None)
    case FreeInbox(c) => if c < |m.channels| && c !in m.open then Some(Free(m, c)) else None
    case ReplaceNet(x, _) => Some(Replace(m, x))
    case NetStartsNode(node) => Some(Drain(m, node))
    case _ => None
  }

  ghost function NetStep(n: NetState, op: NetOp): Option<NetState> {
    match op
    case Local(o) =>
      if !LocalAllowed(n, o) || GuardStep(n.sim, o).None? then None
      else
        Some(n.(
          sim := GuardStep(n.sim, o).value,
          mail := LocalMail(n, o),
          carried := Uncarried(n.carried, o),
          callbacks := Callbacks(n, o)))
    case Send(src, key, current, k) => SendStep(n, src, key, current, k)
    case PollDelivery => PollStep(n)
    case NetStartsNode(node) =>
      if Delivering(n) || n.callbacks == [] || Top(n.callbacks) != node then None
      else Some(n.(mail := Drain(n.mail, node), callbacks := Pop(n.callbacks)))
    case ReplaceNet(x, latency) =>
      if Delivering(n) then None else Some(n.(mail := Replace(n.mail, x), latency := latency))
    case _ =>
      if Delivering(n) || MailStep(n.mail, op).None? then None
      else Some(n.(mail := MailStep(n.mail, op).value))
  }

  ghost predicate NetRun(n: NetState, ops: seq<NetOp>, t: NetState)
    decreases |ops|
  {
    if ops == [] then n == t
    else NetStep(n, ops[0]).Some? && NetRun(NetStep(n, ops[0]).value, ops[1..], t)
  }

  function NetStart(start: Instant, latency: nat): NetState {
    NetState(GuardedStart(start), latency, NoMail, map[], map[], [], map[])
  }

  // ----- the invariant -----

  /** When a packet is due at the inbox. */
  function Due(p: Packet): Instant {
    p.sentAt + p.latency
  }

  /** The delivery tasks and the packets in the air are in one-to-one correspondence, and
      each task waits for its packet's send time plus latency. */
  ghost predicate CarryInv(guards: map<Id, Guard>, m: Mail, carried: map<Id, PacketIx>)
    requires |m.places| == |m.packets|
  {
    && (forall id :: id in carried ==>
          && id in guards && guards[id].phase.Armed?
          && carried[id] < |m.packets| && m.places[carried[id]].InFlight?
          && guards[id].deadline == Due(m.packets[carried[id]])
          && guards[id].born == Some(m.packets[carried[id]].sentAt)
          && guards[id].owner == id)
    && (forall a, b :: a in carried && b in carried && a != b ==> carried[a] != carried[b])
    && (forall p :: 0 <= p < |m.places| && m.places[p].InFlight? ==> exists id :: id in carried && carried[id] == p)
  }

  /** A packet reaches the inbox step at exactly send time plus latency, unless it is still in
      the air or its delivery was aborted. */
  ghost predicate ArrivalInv(m: Mail, arrivals: map<PacketIx, Instant>, now: Instant)
    requires |m.places| == |m.packets|
  {
    && (forall p :: p in arrivals ==> p < |m.packets|)
    && (forall p :: 0 <= p < |m.packets| ==>
          && m.packets[p].sentAt <= now
          && (p in arrivals <==> !m.places[p].InFlight? && m.places[p] != Lost(DeliveryAborted))
          && (p in arrivals ==> arrivals[p] == Due(m.packets[p]) <= now))
  }

  /** Each inbox got its packets in the order in which they were due. */
  ghost predicate SendOrder(m: Mail)
    requires MailInv(m)
  {
    forall c, i, j :: 0 <= c < |m.channels| && 0 <= i < j < |Log(m.channels[c])| ==> InSendOrder(m, c, i, j)
  }

  ghost predicate InSendOrder(m: Mail, c: InboxIx, i: nat, j: nat)
    requires MailInv(m) && c < |m.channels| && i < j < |Log(m.channels[c])|
  {
    LogIndex(m, c, i); LogIndex(m, c, j);
    Due(m.packets[Log(m.channels[c])[i]]) <= Due(m.packets[Log(m.channels[c])[j]])
  }

  lemma LogIndex(m: Mail, c: InboxIx, i: nat)
    requires MailInv(m) && c < |m.channels| && i < |Log(m.channels[c])|
    ensures Log(m.channels[c])[i] < |m.packets|
    ensures m.places[Log(m.channels[c])[i]] in {Buffered(c), Received(c)}
  {
    assert InboxInv(m, c);
    LogMembers(m.channels[c]);
    assert Log(m.channels[c])[i] in Log(m.channels[c]);
  }

  /** All of it, as a statement about the parts that the network reads. */
  ghost predicate PostInv(guards: map<Id, Guard>, m: Mail, carried: map<Id, PacketIx>,
                          arrivals: map<PacketIx, Instant>, now: Instant) {
    && MailInv(m)
    && CarryInv(guards, m, carried)
    && ArrivalInv(m, arrivals, now)
    && SendOrder(m)
  }

  /** The guarded futures of the delivery tasks. */
  function Couriers(guards: map<SleepKey, Guard>, carried: map<Id, PacketIx>, sleepOf: map<Id, SleepKey>): map<Id, Guard> {
    map id | id in carried && id in sleepOf && sleepOf[id] in guards :: guards[sleepOf[id]]
  }

  ghost predicate NetInv(n: NetState) {
    && GoodGuarded(n.sim)
    && PostInv(Couriers(n.sim.guards, n.carried, n.sleepOf), n.mail, n.carried, n.arrivals, n.sim.base.clock.now)
  }

  // ----- what a label does to the clock and to the other guards -----

  lemma ClockGrows(s: State, op: Op)
    requires Good(s) && Next(s, op).Some?
    ensures Next(s, op).value.clock.now >= s.clock.now
  {
    NextGood(s, op);
    ClockStep(Abs(s), op);
  }

  lemma GuardClockGrows(g: Guarded, op: GuardOp)
    requires GoodGuarded(g) && GuardStep(g, op).Some?
    ensures GuardStep(g, op).value.base.clock.now >= g.base.clock.now
  {
    match op
    case Plain(o) => ClockGrows(g.base, o);
    case SpawnGuarded(n, _) => ClockGrows(g.base, SpawnTask(n));
    case ArmTimeout(_) =>
    case PollDeadline(k) => ClockGrows(g.base, AwaitSleep(k, g.guards[k].owner));
    case PollInnerReady(_) =>
    case DropTimeout(k) => ClockGrows(g.base, ForgetSleep(k));
  }

  lemma OwnersOld(g: Guarded, k: SleepKey)
    requires GoodGuarded(g) && k in g.guards
    ensures g.guards[k].owner <= g.base.nextId
  {
    AbsTidy(g.base);
    assert GuardInv(Abs(g.base), g.checked, k, g.guards[k]);
  }

  /** A label leaves alone the guards whose owner it neither aborts nor polls. */
  lemma GuardStays(g: Guarded, op: GuardOp, k: SleepKey)
    requires GuardStep(g, op).Some? && k in g.guards
    requires op.Plain? || !PolledBy(g.base.ex.polling, g.guards[k])
    requires op.Plain? && (op.op.AbortTask? || op.op.StopVisit?) ==> op.op.id != g.guards[k].owner
    ensures k in GuardStep(g, op).value.guards && GuardStep(g, op).value.guards[k] == g.guards[k]
  {}

  // ----- each kind of label keeps the invariant -----

  lemma SameLogs(m: Mail, m': Mail)
    requires MailInv(m) && MailInv(m') && SendOrder(m) && |m'.channels| == |m.channels|
    requires |m.packets| <= |m'.packets| && forall p :: 0 <= p < |m.packets| ==> m'.packets[p] == m.packets[p]
    requires forall c :: 0 <= c < |m.channels| ==> Log(m'.channels[c]) <= Log(m.channels[c])
    ensures SendOrder(m')
  {
    forall c, i, j | 0 <= c < |m'.channels| && 0 <= i < j < |Log(m'.channels[c])| ensures InSendOrder(m', c, i, j) {
      LogIndex(m, c, i);
      LogIndex(m, c, j);
      assert InSendOrder(m, c, i, j);
    }
  }

  lemma LostCarry(guards: map<Id, Guard>, guards': map<Id, Guard>, m: Mail, carried: map<Id, PacketIx>, id: Id)
    requires |m.places| == |m.packets| && CarryInv(guards, m, carried) && id in carried
    requires forall x :: x in carried && x != id && x in guards ==> x in guards' && guards'[x] == guards[x]
    ensures CarryInv(guards', Lose(m, carried[id], DeliveryAborted), carried - {id})
  {
    ArrivedCarry(guards, guards', m, Lose(m, carried[id], DeliveryAborted), carried, id, carried[id]);
  }

  lemma LostPost(guards: map<Id, Guard>, guards': map<Id, Guard>, m: Mail, carried: map<Id, PacketIx>,
                 arrivals: map<PacketIx, Instant>, now: Instant, now': Instant, id: Id)
    requires PostInv(guards, m, carried, arrivals, now) && now <= now' && id in carried
    requires forall x :: x in carried && x != id && x in guards ==> x in guards' && guards'[x] == guards[x]
    ensures PostInv(guards', Lose(m, carried[id], DeliveryAborted), carried - {id}, arrivals, now')
  {
    LoseKeeps(m, carried[id], DeliveryAborted);
    LostCarry(guards, guards', m, carried, id);
    SameLogs(m, Lose(m, carried[id], DeliveryAborted));
  }

  lemma LocalPost(guards: map<Id, Guard>, guards': map<Id, Guard>, n: NetState, op: GuardOp, now: Instant, now': Instant)
    requires PostInv(guards, n.mail, n.carried, n.arrivals, now) && now <= now'
    requires forall id :: id in Uncarried(n.carried, op) && id in guards ==> id in guards' && guards'[id] == guards[id]
    ensures PostInv(guards', LocalMail(n, op), Uncarried(n.carried, op), n.arrivals, now')
  {
    if op.Plain? && op.op.StopVisit? && op.op.id in n.carried {
      LostPost(guards, guards', n.mail, n.carried, n.arrivals, now, now', op.op.id);
    } else {
      assert LocalMail(n, op) == n.mail && Uncarried(n.carried, op) == n.carried;
      KeptPost(guards, guards', n.mail, n.carried, n.arrivals, now, now');
    }
  }

  /** Time passes, and no delivery is aborted. */
  lemma KeptPost(guards: map<Id, Guard>, guards': map<Id, Guard>, m: Mail, carried: map<Id, PacketIx>,
                 arrivals: map<PacketIx, Instant>, now: Instant, now': Instant)
    requires PostInv(guards, m, carried, arrivals, now) && now <= now'
    requires forall id :: id in carried && id in guards ==> id in guards' && guards'[id] == guards[id]
    ensures PostInv(guards', m, carried, arrivals, now')
  {}

  lemma LocalGuards(g: Guarded, op: GuardOp, h: Guarded, carried: map<Id, PacketIx>, sleepOf: map<Id, SleepKey>)
    requires GuardStep(g, op) == Some(h)
    requires op.Plain? || (g.base.ex.polling.Some? ==> g.base.ex.polling.value !in carried)
    requires op.Plain? && op.op.AbortTask? ==> op.op.id !in carried
    requires forall id :: id in carried && id in sleepOf && sleepOf[id] in g.guards ==> g.guards[sleepOf[id]].owner == id
    ensures var couriers, couriers' := Couriers(g.guards, carried, sleepOf), Couriers(h.guards, Uncarried(carried, op), sleepOf);
            forall id :: id in Uncarried(carried, op) && id in couriers ==> id in couriers' && couriers'[id] == couriers[id]
  {
    forall id | id in Uncarried(carried, op) && id in sleepOf && sleepOf[id] in g.guards
      ensures sleepOf[id] in h.guards && h.guards[sleepOf[id]] == g.guards[sleepOf[id]]
    {
      GuardStays(g, op, sleepOf[id]);
    }
  }

  lemma LocalShape(n: NetState, op: GuardOp, t: NetState)
    requires NetStep(n, Local(op)) == Some(t)
    ensures GuardStep(n.sim, op) == Some(t.sim) && t.mail == LocalMail(n, op) && t.carried == Uncarried(n.carried, op)
    ensures t.latency == n.latency && t.arrivals == n.arrivals && t.sleepOf == n.sleepOf && t.callbacks == Callbacks(n, op)
    ensures op.Plain? || (n.sim.base.ex.polling.Some? ==> n.sim.base.ex.polling.value !in n.carried)
    ensures op.Plain? && op.op.AbortTask? ==> op.op.id !in n.carried
  {}

  lemma LocalKeeps(n: NetState, op: GuardOp, t: NetState)
    requires NetInv(n) && NetStep(n, Local(op)) == Some(t)
    ensures NetInv(t)
  {
    LocalShape(n, op, t);
    GuardStepKeeps(n.sim, op);
    GuardClockGrows(n.sim, op);
    var couriers := Couriers(n.sim.guards, n.carried, n.sleepOf);
    forall id | id in couriers ensures n.sim.guards[n.sleepOf[id]].owner == id { assert couriers[id].owner == id; }
    LocalGuards(n.sim, op, t.sim, n.carried, n.sleepOf);
    LocalPost(couriers, Couriers(t.sim.guards, t.carried, t.sleepOf), n, op, n.sim.base.clock.now, t.sim.base.clock.now);
  }

  lemma MadeShape(g: Guarded, k: SleepKey, d: Instant, h: Guarded)
    requires GuardStep(g, Plain(MakeSleep(k, d))) == Some(h)
    ensures h.guards == g.guards && h.base.nextId == g.base.nextId && h.base.clock.now == g.base.clock.now
    ensures k in h.base.clock.deadlines && h.base.clock.deadlines[k] == d
  {}

  lemma SpawnedShape(g: Guarded, k: SleepKey, h: Guarded)
    requires GuardStep(g, SpawnGuarded(0, k)) == Some(h) && k in g.base.clock.deadlines
    ensures h.guards == g.guards[k := Guard(g.base.nextId + 1, g.base.clock.deadlines[k], Some(g.base.clock.now), None, Armed)]
    ensures h.base.clock.now == g.base.clock.now && k !in g.guards
  {}

  /** Sending is two labels of the runtime. */
  lemma SendOps(g: Guarded, k: SleepKey, d: Instant, h: Guarded)
    returns (op: GuardOp, made: Guarded, op': GuardOp)
    requires SpawnDelivery(g, k, d) == Some(h)
    ensures op == Plain(MakeSleep(k, d)) && op' == SpawnGuarded(0, k)
    ensures GuardStep(g, op) == Some(made) && GuardStep(made, op') == Some(h)
  {
    op, op' := Plain(MakeSleep(k, d)), SpawnGuarded(0, k);
    made := GuardStep(g, op).value;
  }

  lemma SentGuards(g: Guarded, k: SleepKey, d: Instant, h: Guarded)
    requires SpawnDelivery(g, k, d) == Some(h)
    ensures h.guards == g.guards[k := Guard(g.base.nextId + 1, d, Some(g.base.clock.now), None, Armed)]
    ensures h.base.clock.now == g.base.clock.now && k !in g.guards
  {
    var op, made, op' := SendOps(g, k, d, h);
    MadeShape(g, k, d, made);
    SpawnedShape(made, k, h);
  }

  /** What a send does to the runtime, and to the network. */
  ghost predicate SentTask(n: NetState, packet: Packet, k: SleepKey, t: NetState) {
    packet.sentAt == n.sim.base.clock.now && SpawnDelivery(n.sim, k, Due(packet)) == Some(t.sim)
  }

  ghost predicate SentPacket(n: NetState, packet: Packet, k: SleepKey, t: NetState) {
    && t.mail == Post(n.mail, packet) && t.carried == n.carried[n.sim.base.nextId + 1 := |n.mail.packets|]
    && t.sleepOf == n.sleepOf[n.sim.base.nextId + 1 := k] && t.latency == n.latency && t.arrivals == n.arrivals
  }

  /** Sending adds one packet, stamped with the instant of the send, and its delivery task. */
  lemma SendShape(n: NetState, src: Addr, key: Key, current: NodeIx, k: SleepKey, t: NetState)
    requires SendStep(n, src, key, current, k) == Some(t)
    ensures t.mail == Post(n.mail, Packet(src, key, n.sim.base.clock.now, n.latency))
    ensures t.carried == n.carried[n.sim.base.nextId + 1 := |n.mail.packets|]
    ensures t.sleepOf == n.sleepOf[n.sim.base.nextId + 1 := k]
    ensures t.latency == n.latency && t.arrivals == n.arrivals && t.callbacks == n.callbacks
    ensures src.node == current && !Delivering(n)
  {}

  lemma SendsTask(n: NetState, src: Addr, key: Key, current: NodeIx, k: SleepKey, t: NetState)
    requires SendStep(n, src, key, current, k) == Some(t)
    ensures SentTask(n, Packet(src, key, n.sim.base.clock.now, n.latency), k, t)
  {}

  lemma SendsPacket(n: NetState, src: Addr, key: Key, current: NodeIx, k: SleepKey, t: NetState)
    requires SendStep(n, src, key, current, k) == Some(t)
    ensures SentPacket(n, Packet(src, key, n.sim.base.clock.now, n.latency), k, t)
  {}

  lemma TwoStepsKeep(g: Guarded, op: GuardOp, m: Guarded, op': GuardOp, h: Guarded)
    requires GoodGuarded(g) && GuardStep(g, op) == Some(m) && GuardStep(m, op') == Some(h)
    ensures GoodGuarded(h)
  {
    GuardStepKeeps(g, op);
    GuardStepKeeps(m, op');
  }

  lemma CarriedOld(g: Guarded, carried: map<Id, PacketIx>, sleepOf: map<Id, SleepKey>, id: Id)
    requires GoodGuarded(g) && id in sleepOf && sleepOf[id] in g.guards && g.guards[sleepOf[id]].owner == id
    ensures id <= g.base.nextId
  {
    OwnersOld(g, sleepOf[id]);
  }

  lemma OldIds(n: NetState)
    requires NetInv(n)
    ensures n.sim.base.nextId + 1 !in n.carried
  {
    var couriers := Couriers(n.sim.guards, n.carried, n.sleepOf);
    forall id | id in n.carried ensures id <= n.sim.base.nextId {
      assert couriers[id].owner == id;
      CarriedOld(n.sim, n.carried, n.sleepOf, id);
    }
  }

  lemma SendCouriers(guards: map<SleepKey, Guard>, carried: map<Id, PacketIx>, sleepOf: map<Id, SleepKey>,
                     id: Id, k: SleepKey, p: PacketIx, guard: Guard)
    requires k !in guards && id !in carried
    requires forall x :: x in carried ==> x in sleepOf && sleepOf[x] in guards
    ensures Couriers(guards[k := guard], carried[id := p], sleepOf[id := k]) == Couriers(guards, carried, sleepOf)[id := guard]
  {}

  lemma CarriedCouriers(guards: map<SleepKey, Guard>, sleepOf: map<Id, SleepKey>, m: Mail, carried: map<Id, PacketIx>)
    requires |m.places| == |m.packets| && CarryInv(Couriers(guards, carried, sleepOf), m, carried)
    ensures forall x :: x in carried ==> x in sleepOf && sleepOf[x] in guards
    ensures forall x :: x in carried ==> carried[x] < |m.places| && m.places[carried[x]].InFlight?
  {
    forall x | x in carried ensures x in sleepOf && sleepOf[x] in guards { assert x in Couriers(guards, carried, sleepOf); }
  }

  /** The network's part of a send, given what it did to the parts. */
  lemma SendParts(n: NetState, t: NetState, packet: Packet, id: Id, k: SleepKey)
    requires PostInv(Couriers(n.sim.guards, n.carried, n.sleepOf), n.mail, n.carried, n.arrivals, packet.sentAt)
    requires id !in n.carried && k !in n.sim.guards
    requires t.sim.guards == n.sim.guards[k := Guard(id, Due(packet), Some(packet.sentAt), None, Armed)]
    requires t.mail == Post(n.mail, packet) && t.carried == n.carried[id := |n.mail.packets|]
    requires t.sleepOf == n.sleepOf[id := k] && t.latency == n.latency && t.arrivals == n.arrivals
    ensures PostInv(Couriers(t.sim.guards, t.carried, t.sleepOf), t.mail, t.carried, t.arrivals, packet.sentAt)
  {
    var couriers := Couriers(n.sim.guards, n.carried, n.sleepOf);
    CarriedCouriers(n.sim.guards, n.sleepOf, n.mail, n.carried);
    SendCouriers(n.sim.guards, n.carried, n.sleepOf, id, k, |n.mail.packets|,
                 Guard(id, Due(packet), Some(packet.sentAt), None, Armed));
    PostedPost(couriers, n.mail, n.carried, n.arrivals, id, packet);
  }

  lemma SendKeeps(n: NetState, src: Addr, key: Key, current: NodeIx, k: SleepKey, t: NetState)
    requires NetInv(n) && SendStep(n, src, key, current, k) == Some(t)
    ensures NetInv(t)
  {
    var packet := Packet(src, key, n.sim.base.clock.now, n.latency);
    OldIds(n);
    SendsTask(n, src, key, current, k, t);
    SendsPacket(n, src, key, current, k, t);
    SentIsGood(n, packet, k, t);
    SentIsGuarded(n, packet, k, t);
    SentKeeps(n, packet, k, t);
  }

  lemma SentIsGood(n: NetState, packet: Packet, k: SleepKey, t: NetState)
    requires GoodGuarded(n.sim) && SentTask(n, packet, k, t)
    ensures GoodGuarded(t.sim)
  {
    SpawnGood(n.sim, k, Due(packet), t.sim);
  }

  lemma SentIsGuarded(n: NetState, packet: Packet, k: SleepKey, t: NetState)
    requires SentTask(n, packet, k, t)
    ensures SentGuard(n, packet, k, t)
  {
    SentGuards(n.sim, k, Due(packet), t.sim);
  }

  ghost predicate SentGuard(n: NetState, packet: Packet, k: SleepKey, t: NetState) {
    && t.sim.guards == n.sim.guards[k := Guard(n.sim.base.nextId + 1, Due(packet), Some(packet.sentAt), None, Armed)]
    && t.sim.base.clock.now == packet.sentAt == n.sim.base.clock.now && k !in n.sim.guards
  }

  lemma SentKeeps(n: NetState, packet: Packet, k: SleepKey, t: NetState)
    requires NetInv(n) && n.sim.base.nextId + 1 !in n.carried && GoodGuarded(t.sim)
    requires SentGuard(n, packet, k, t) && SentPacket(n, packet, k, t)
    ensures NetInv(t)
  {
    SendParts(n, t, packet, n.sim.base.nextId + 1, k);
  }

  lemma SpawnGood(g: Guarded, k: SleepKey, d: Instant, h: Guarded)
    requires GoodGuarded(g) && SpawnDelivery(g, k, d) == Some(h)
    ensures GoodGuarded(h)
  {
    var op, made, op' := SendOps(g, k, d, h);
    TwoStepsKeep(g, op, made, op', h);
  }

  lemma PostedPost(guards: map<Id, Guard>, m: Mail, carried: map<Id, PacketIx>,
                   arrivals: map<PacketIx, Instant>, id: Id, packet: Packet)
    requires PostInv(guards, m, carried, arrivals, packet.sentAt) && id !in carried
    ensures PostInv(guards[id := Guard(id, Due(packet), Some(packet.sentAt), None, Armed)],
                    Post(m, packet), carried[id := |m.packets|], arrivals, packet.sentAt)
  {
    PostedCarry(guards, m, carried, id, packet);
    PostKeeps(m, packet);
    SameLogs(m, Post(m, packet));
  }

  lemma PostedCarry(guards: map<Id, Guard>, m: Mail, carried: map<Id, PacketIx>, id: Id, packet: Packet)
    requires |m.places| == |m.packets| && CarryInv(guards, m, carried) && id !in carried
    ensures CarryInv(guards[id := Guard(id, Due(packet), Some(packet.sentAt), None, Armed)],
                     Post(m, packet), carried[id := |m.packets|])
  {
    var m', carried' := Post(m, packet), carried[id := |m.packets|];
    forall p | 0 <= p < |m'.places| && m'.places[p].InFlight? ensures exists x :: x in carried' && carried'[x] == p {
      if p == |m.packets| {
        assert carried'[id] == p;
      } else {
        var x :| x in carried && carried[x] == p;
        assert carried'[x] == p;
      }
    }
  }

  /** What the poll of a deadline tells: pending, or ready now. */
  lemma DeadlineShape(g: Guarded, k: SleepKey, h: Guarded)
    requires GuardStep(g, PollDeadline(k)) == Some(h)
    ensures k in g.guards && g.guards[k].phase.Armed? && h.base.clock.now == g.base.clock.now
    ensures var after := Polled(g.guards[k], g.base.clock.now);
            h.guards == g.guards[k := if IsArmed(h.guards, k) then after else after.(phase := Expired(g.base.clock.now))]
  {}

  lemma ExpiredNow(h: Guarded, k: SleepKey, now: Instant)
    requires GoodGuarded(h) && k in h.guards && h.guards[k].phase == Expired(now) && h.guards[k].born.Some?
    ensures now == Max(h.guards[k].deadline, h.guards[k].born.value)
  {
    assert GuardInv(Abs(h.base), h.checked, k, h.guards[k]);
  }

  /** Only `firstPoll` changes while a delivery is pending. */
  lemma RepolledCarry(guards: map<Id, Guard>, guards': map<Id, Guard>, m: Mail, carried: map<Id, PacketIx>)
    requires |m.places| == |m.packets| && CarryInv(guards, m, carried)
    requires forall id :: id in carried && id in guards ==>
               id in guards' && guards'[id] == guards[id].(firstPoll := guards'[id].firstPoll)
    ensures CarryInv(guards', m, carried)
  {}

  lemma PollShape(n: NetState, t: NetState)
    requires PollStep(n) == Some(t)
    ensures n.sim.base.ex.polling.Some? && n.sim.base.ex.polling.value in n.carried && n.sim.base.ex.polling.value in n.sleepOf
    ensures var id := n.sim.base.ex.polling.value;
            var k := n.sleepOf[id];
            && GuardStep(n.sim, PollDeadline(k)) == Some(t.sim)
            && t.latency == n.latency && t.sleepOf == n.sleepOf && t.callbacks == n.callbacks
            && (if IsArmed(t.sim.guards, k) then t.mail == n.mail && t.carried == n.carried && t.arrivals == n.arrivals
                else
                  && MailInv(n.mail) && n.carried[id] < |n.mail.packets|
                  && t.mail == TrySend(n.mail, n.carried[id]) && t.carried == n.carried - {id}
                  && t.arrivals == n.arrivals[n.carried[id] := n.sim.base.clock.now])
  {}

  lemma PollPost(n: NetState, t: NetState, id: Id, k: SleepKey)
    requires PostInv(Couriers(n.sim.guards, n.carried, n.sleepOf), n.mail, n.carried, n.arrivals, n.sim.base.clock.now)
    requires id in n.carried && id in n.sleepOf && n.sleepOf[id] == k && k in n.sim.guards
    requires t.sim.base.clock.now == n.sim.base.clock.now && k in t.sim.guards
    requires t.sim.guards == n.sim.guards[k := t.sim.guards[k]]
    requires t.latency == n.latency && t.sleepOf == n.sleepOf
    requires if IsArmed(t.sim.guards, k) then
               && t.sim.guards[k] == n.sim.guards[k].(firstPoll := t.sim.guards[k].firstPoll)
               && t.mail == n.mail && t.carried == n.carried && t.arrivals == n.arrivals
             else
               && n.carried[id] < |n.mail.packets|
               && t.mail == TrySend(n.mail, n.carried[id]) && t.carried == n.carried - {id}
               && t.arrivals == n.arrivals[n.carried[id] := n.sim.base.clock.now]
               && n.sim.guards[k].born.Some?
               && n.sim.base.clock.now == Max(n.sim.guards[k].deadline, n.sim.guards[k].born.value)
    ensures PostInv(Couriers(t.sim.guards, t.carried, t.sleepOf), t.mail, t.carried, t.arrivals, t.sim.base.clock.now)
  {
    var couriers, couriers' := Couriers(n.sim.guards, n.carried, n.sleepOf), Couriers(t.sim.guards, t.carried, t.sleepOf);
    assert couriers[id] == n.sim.guards[k];
    OtherCouriers(n, t, id, k);
    if IsArmed(t.sim.guards, k) {
      RepolledCarry(couriers, couriers', n.mail, n.carried);
    } else {
      ArrivedPost(couriers, couriers', n.mail, n.carried, n.arrivals, n.sim.base.clock.now, id);
    }
  }

  /** The poll of one delivery does not touch the others. */
  lemma OtherCouriers(n: NetState, t: NetState, id: Id, k: SleepKey)
    requires |n.mail.places| == |n.mail.packets| && CarryInv(Couriers(n.sim.guards, n.carried, n.sleepOf), n.mail, n.carried)
    requires id in n.carried && id in n.sleepOf && n.sleepOf[id] == k && k in n.sim.guards && k in t.sim.guards
    requires t.sim.guards == n.sim.guards[k := t.sim.guards[k]] && t.sleepOf == n.sleepOf
    ensures var couriers, couriers' := Couriers(n.sim.guards, n.carried, n.sleepOf), Couriers(t.sim.guards, t.carried, t.sleepOf);
            forall x :: x in n.carried && x != id && x in couriers && x in t.carried ==> x in couriers' && couriers'[x] == couriers[x]
  {
    var couriers, couriers' := Couriers(n.sim.guards, n.carried, n.sleepOf), Couriers(t.sim.guards, t.carried, t.sleepOf);
    assert couriers[id] == n.sim.guards[k];
    forall x | x in n.carried && x != id && x in couriers && x in t.carried
      ensures x in couriers' && couriers'[x] == couriers[x]
    {
      assert couriers[x].owner == x && couriers[id].owner == id;
    }
  }

  lemma PollKeeps(n: NetState, t: NetState)
    requires NetInv(n) && PollStep(n) == Some(t)
    ensures NetInv(t)
  {
    PollShape(n, t);
    var id := n.sim.base.ex.polling.value;
    var k := n.sleepOf[id];
    GuardStepKeeps(n.sim, PollDeadline(k));
    DeadlineShape(n.sim, k, t.sim);
    PolledKeeps(n, t, id, k);
  }

  lemma PolledKeeps(n: NetState, t: NetState, id: Id, k: SleepKey)
    requires NetInv(n) && GoodGuarded(t.sim) && id in n.carried && id in n.sleepOf && n.sleepOf[id] == k
    requires k in n.sim.guards && n.sim.guards[k].phase.Armed? && t.sim.base.clock.now == n.sim.base.clock.now
    requires var after := Polled(n.sim.guards[k], n.sim.base.clock.now);
             t.sim.guards == n.sim.guards[k := if IsArmed(t.sim.guards, k) then after else after.(phase := Expired(n.sim.base.clock.now))]
    requires t.latency == n.latency && t.sleepOf == n.sleepOf
    requires if IsArmed(t.sim.guards, k) then t.mail == n.mail && t.carried == n.carried && t.arrivals == n.arrivals
             else
               && MailInv(n.mail) && n.carried[id] < |n.mail.packets|
               && t.mail == TrySend(n.mail, n.carried[id]) && t.carried == n.carried - {id}
               && t.arrivals == n.arrivals[n.carried[id] := n.sim.base.clock.now]
    ensures NetInv(t)
  {
    assert Couriers(n.sim.guards, n.carried, n.sleepOf)[id] == n.sim.guards[k];
    if !IsArmed(t.sim.guards, k) { ExpiredNow(t.sim, k, n.sim.base.clock.now); }
    PollPost(n, t, id, k);
  }

  lemma ArrivedPost(guards: map<Id, Guard>, guards': map<Id, Guard>, m: Mail, carried: map<Id, PacketIx>,
                    arrivals: map<PacketIx, Instant>, now: Instant, id: Id)
    requires PostInv(guards, m, carried, arrivals, now) && id in carried
    requires id in guards && guards[id].born.Some? && now == Max(guards[id].deadline, guards[id].born.value)
    requires forall x :: x in carried && x != id && x in guards ==> x in guards' && guards'[x] == guards[x]
    ensures carried[id] < |m.packets|
    ensures PostInv(guards', TrySend(m, carried[id]), carried - {id}, arrivals[carried[id] := now], now)
  {
    var p := carried[id];
    var m' := TrySend(m, p);
    ArrivedShape(m, p);
    ArrivedCarry(guards, guards', m, m', carried, id, p);
    ArrivedNow(m, m', p, arrivals, now);
    ArrivedOrder(m, m', p, arrivals, now);
  }

  lemma ArrivedShape(m: Mail, p: PacketIx)
    requires MailInv(m) && p < |m.packets| && m.places[p].InFlight?
    ensures var m' := TrySend(m, p);
            && MailInv(m') && m'.packets == m.packets && |m'.channels| == |m.channels|
            && !m'.places[p].InFlight? && m'.places[p] != Lost(DeliveryAborted)
            && (forall q :: 0 <= q < |m.places| && q != p ==> m'.places[q] == m.places[q])
            && (forall c :: 0 <= c < |m.channels| ==>
                  Log(m'.channels[c]) == Log(m.channels[c]) || Log(m'.channels[c]) == Log(m.channels[c]) + [p])
  {
    TrySendExact(m, p);
  }

  lemma ArrivedNow(m: Mail, m': Mail, p: PacketIx, arrivals: map<PacketIx, Instant>, now: Instant)
    requires |m.places| == |m.packets| == |m'.places| && ArrivalInv(m, arrivals, now)
    requires m'.packets == m.packets && p < |m.packets| && Due(m.packets[p]) == now
    requires !m'.places[p].InFlight? && m'.places[p] != Lost(DeliveryAborted)
    requires forall q :: 0 <= q < |m.places| && q != p ==> m'.places[q] == m.places[q]
    ensures ArrivalInv(m', arrivals[p := now], now)
  {}

  lemma ArrivedCarry(guards: map<Id, Guard>, guards': map<Id, Guard>, m: Mail, m': Mail,
                     carried: map<Id, PacketIx>, id: Id, p: PacketIx)
    requires |m.places| == |m.packets| == |m'.places| && CarryInv(guards, m, carried)
    requires id in carried && carried[id] == p && m'.packets == m.packets && !m'.places[p].InFlight?
    requires forall q :: 0 <= q < |m.places| && q != p ==> m'.places[q] == m.places[q]
    requires forall x :: x in carried && x != id && x in guards ==> x in guards' && guards'[x] == guards[x]
    ensures CarryInv(guards', m', carried - {id})
  {
    var carried' := carried - {id};
    forall q | 0 <= q < |m'.places| && m'.places[q].InFlight? ensures exists x :: x in carried' && carried'[x] == q {
      var x :| x in carried && carried[x] == q;
      assert x in carried';
    }
  }

  /** The packet that arrives now was sent no earlier than all that arrived before. */
  lemma ArrivedOrder(m: Mail, m': Mail, p: PacketIx, arrivals: map<PacketIx, Instant>, now: Instant)
    requires MailInv(m) && MailInv(m') && SendOrder(m) && ArrivalInv(m, arrivals, now)
    requires p < |m.packets| && Due(m.packets[p]) == now
    requires m'.packets == m.packets && |m'.channels| == |m.channels|
    requires forall c :: 0 <= c < |m.channels| ==>
               Log(m'.channels[c]) == Log(m.channels[c]) || Log(m'.channels[c]) == Log(m.channels[c]) + [p]
    ensures SendOrder(m')
  {
    forall c, i, j | 0 <= c < |m'.channels| && 0 <= i < j < |Log(m'.channels[c])| ensures InSendOrder(m', c, i, j) {
      LogIndex(m, c, i);
      if j < |Log(m.channels[c])| {
        LogIndex(m, c, j);
        assert InSendOrder(m, c, i, j);
      } else {
        assert Log(m'.channels[c])[i] in arrivals;
      }
    }
  }

  /** What the sockets' operations keep, apart from what they do. */
  lemma MailStepShape(m: Mail, op: NetOp)
    requires MailInv(m) && SendOrder(m) && MailStep(m, op).Some?
    ensures var m' := MailStep(m, op).value;
            MailInv(m') && SendOrder(m') && m'.packets == m.packets && SameFlights(m, m')
  {
    var m' := MailStep(m, op).value;
    match op {
      case OpenSocket(key) => OpenKeeps(m, key); OpenOrder(m, key);
      case CloseSocket(c) => CloseExact(m, c); SameLogs(m, m');
      case ReceivePacket(c) => ReceiveExact(m, c); SameLogs(m, m'); ReceivedPlaces(m, c);
      case FreeInbox(c) => EmptiedKeeps(m, {c}, Discarded); SameLogs(m, m');
      case ReplaceNet(x, _) => ReplaceKeeps(m, x); SameLogs(m, m');
      case NetStartsNode(node) => EmptiedKeeps(m, InboxesOf(m, node), Drained); SameLogs(m, m');
    }
  }

  lemma MailPost(guards: map<Id, Guard>, m: Mail, carried: map<Id, PacketIx>,
                 arrivals: map<PacketIx, Instant>, now: Instant, op: NetOp)
    requires PostInv(guards, m, carried, arrivals, now) && MailStep(m, op).Some?
    ensures PostInv(guards, MailStep(m, op).value, carried, arrivals, now)
  {
    MailStepShape(m, op);
    SettledPlaces(guards, m, MailStep(m, op).value, carried, arrivals, now);
  }

  lemma ReceivedPlaces(m: Mail, c: InboxIx)
    requires MailInv(m) && c < |m.channels| && Receive(m, c).Ok?
    ensures SameFlights(m, Receive(m, c).value.0)
  {
    if m.channels[c].buffer != [] {
      assert InboxInv(m, c) && m.channels[c].buffer[0] in m.channels[c].buffer;
    }
  }

  /** No packet takes off, arrives, or is lost in the air. */
  ghost predicate SameFlights(m: Mail, m': Mail) {
    && |m'.places| == |m.places|
    && forall p :: 0 <= p < |m.places| ==>
         && (m'.places[p].InFlight? <==> m.places[p].InFlight?)
         && (m'.places[p] == Lost(DeliveryAborted) <==> m.places[p] == Lost(DeliveryAborted))
  }

  lemma SettledPlaces(guards: map<Id, Guard>, m: Mail, m': Mail, carried: map<Id, PacketIx>,
                      arrivals: map<PacketIx, Instant>, now: Instant)
    requires |m.places| == |m.packets| && CarryInv(guards, m, carried) && ArrivalInv(m, arrivals, now)
    requires m'.packets == m.packets && SameFlights(m, m')
    ensures CarryInv(guards, m', carried) && ArrivalInv(m', arrivals, now)
  {}

  lemma OpenOrder(m: Mail, key: Key)
    requires MailInv(m) && SendOrder(m) && MailInv(Open(m, key).0)
    ensures SendOrder(Open(m, key).0)
  {
    var m' := Open(m, key).0;
    forall c, i, j | 0 <= c < |m'.channels| && 0 <= i < j < |Log(m'.channels[c])| ensures InSendOrder(m', c, i, j) {
      LogIndex(m, c, i);
      LogIndex(m, c, j);
      assert InSendOrder(m, c, i, j);
    }
  }

  lemma MailShape(n: NetState, op: NetOp, t: NetState)
    requires NetStep(n, op) == Some(t) && !op.Local? && !op.Send? && !op.PollDelivery?
    ensures MailStep(n.mail, op) == Some(t.mail) && t == n.(mail := t.mail, callbacks := t.callbacks, latency := t.latency)
    ensures t.latency == if op.ReplaceNet? then op.latency else n.latency
    ensures t.callbacks == if op.NetStartsNode? && n.callbacks != [] then Pop(n.callbacks) else n.callbacks
  {}

  lemma NetStepKeeps(n: NetState, op: NetOp, t: NetState)
    requires NetInv(n) && NetStep(n, op) == Some(t)
    ensures NetInv(t)
  {
    match op
    case Local(o) => LocalKeeps(n, o, t);
    case Send(src, key, current, k) => SendKeeps(n, src, key, current, k, t);
    case PollDelivery => PollKeeps(n, t);
    case _ => SocketsKeep(n, op, t);
  }

  lemma SocketsKeep(n: NetState, op: NetOp, t: NetState)
    requires NetInv(n) && NetStep(n, op) == Some(t) && !op.Local? && !op.Send? && !op.PollDelivery?
    ensures NetInv(t)
  {
    MailShape(n, op, t);
    MailPost(Couriers(n.sim.guards, n.carried, n.sleepOf), n.mail, n.carried, n.arrivals, n.sim.base.clock.now, op);
  }

  lemma {:induction false} NetRunKeeps(n: NetState, ops: seq<NetOp>, t: NetState)
    requires NetInv(n) && NetRun(n, ops, t)
    ensures NetInv(t)
    decreases |ops|
  {
    if ops != [] {
      NetStepKeeps(n, ops[0], NetStep(n, ops[0]).value);
      NetRunKeeps(NetStep(n, ops[0]).value, ops[1..], t);
    }
  }

  lemma NetStartInv(start: Instant, latency: nat)
    ensures NetInv(NetStart(start, latency))
  {
    StartGuardedGood(start);
  }

  // ----- the theorems -----

  /** Every packet is in exactly one place, and the place is right: in the air iff exactly one
      delivery task carries it, buffered or received iff it is in that one inbox, which has its
      own address and type, and no inbox holds a packet twice or more than eight in its buffer. */
  ghost predicate Conserved(m: Mail, carried: map<Id, PacketIx>) {
    && |m.places| == |m.packets|
    && (forall c :: 0 <= c < |m.channels| ==>
          && NoDuplicates(Log(m.channels[c]))
          && |m.channels[c].buffer| <= 8
          && (forall p :: p in Log(m.channels[c]) ==> p < |m.packets| && m.packets[p].key == m.channels[c].key))
    && (forall p, c :: 0 <= p < |m.packets| && 0 <= c < |m.channels| ==>
          && (p in m.channels[c].buffer <==> m.places[p] == Buffered(c))
          && (p in m.channels[c].received <==> m.places[p] == Received(c)))
    && (forall p :: 0 <= p < |m.packets| && m.places[p].Buffered? ==> m.places[p].inbox < |m.channels|)
    && (forall p :: 0 <= p < |m.packets| && m.places[p].Received? ==> m.places[p].inbox < |m.channels|)
    && (forall p :: 0 <= p < |m.packets| ==> (m.places[p].InFlight? <==> exists id :: id in carried && carried[id] == p))
    && (forall a, b :: a in carried && b in carried && a != b ==> carried[a] != carried[b])
  }

  lemma InvConserves(guards: map<Id, Guard>, m: Mail, carried: map<Id, PacketIx>)
    requires MailInv(m) && CarryInv(guards, m, carried)
    ensures Conserved(m, carried)
  {
    forall c | 0 <= c < |m.channels|
      ensures NoDuplicates(Log(m.channels[c])) && |m.channels[c].buffer| <= 8
      ensures forall p :: p in Log(m.channels[c]) ==> p < |m.packets| && m.packets[p].key == m.channels[c].key
    {
      assert InboxInv(m, c);
      LogMembers(m.channels[c]);
    }
    forall p, c | 0 <= p < |m.packets| && 0 <= c < |m.channels|
      ensures p in m.channels[c].buffer <==> m.places[p] == Buffered(c)
      ensures p in m.channels[c].received <==> m.places[p] == Received(c)
    {
      assert InboxInv(m, c) && PlaceInv(m, p);
    }
    forall p | 0 <= p < |m.packets|
      ensures m.places[p].Buffered? ==> m.places[p].inbox < |m.channels|
      ensures m.places[p].Received? ==> m.places[p].inbox < |m.channels|
    {
      assert PlaceInv(m, p);
    }
  }

  lemma Reached(start: Instant, latency: nat, ops: seq<NetOp>, t: NetState)
    requires NetRun(NetStart(start, latency), ops, t)
    ensures NetInv(t)
  {
    NetStartInv(start, latency);
    NetRunKeeps(NetStart(start, latency), ops, t);
  }

  /** Packet conservation, over every run of the runtime with the network. */
  lemma PacketsAreConserved(start: Instant, latency: nat, ops: seq<NetOp>, t: NetState)
    requires NetRun(NetStart(start, latency), ops, t)
    ensures Conserved(t.mail, t.carried)
  {
    Reached(start, latency, ops, t);
    InvConserves(Couriers(t.sim.guards, t.carried, t.sleepOf), t.mail, t.carried);
  }

  /** Delivery time, over every run: a packet reached the inbox step at exactly send time plus
      latency, iff it is no longer in the air and its delivery was not aborted; and a packet
      in the air is never overdue. */
  lemma DeliveryIsPunctual(start: Instant, latency: nat, ops: seq<NetOp>, t: NetState, p: PacketIx)
    requires NetRun(NetStart(start, latency), ops, t) && p < |t.mail.packets|
    ensures p < |t.mail.places|
    ensures p in t.arrivals <==> !t.mail.places[p].InFlight? && t.mail.places[p] != Lost(DeliveryAborted)
    ensures p in t.arrivals ==> t.arrivals[p] == t.mail.packets[p].sentAt + t.mail.packets[p].latency
    ensures t.mail.places[p].InFlight? ==> t.sim.base.clock.now <= t.mail.packets[p].sentAt + t.mail.packets[p].latency
  {
    Reached(start, latency, ops, t);
    InAirIsNotOverdue(t, p);
  }

  /** The latency is that of the first `Net`, unless it is exchanged. */
  lemma {:induction false} LatencyIsFixed(n: NetState, ops: seq<NetOp>, t: NetState, p: PacketIx)
    requires NetInv(n) && NetRun(n, ops, t) && (forall i :: 0 <= i < |ops| ==> !ops[i].ReplaceNet?)
    requires |n.mail.packets| <= p < |t.mail.packets|
    ensures t.mail.packets[p].latency == n.latency
    decreases |ops|
  {
    if ops != [] {
      var m := NetStep(n, ops[0]).value;
      PacketsGrow(n, ops[0], m);
      NetStepKeeps(n, ops[0], m);
      if p < |m.mail.packets| { PacketsStay(m, ops[1..], t, p); } else { LatencyIsFixed(m, ops[1..], t, p); }
    }
  }

  lemma PacketsGrow(n: NetState, op: NetOp, t: NetState)
    requires NetInv(n) && NetStep(n, op) == Some(t)
    ensures n.mail.packets <= t.mail.packets
    ensures forall p :: |n.mail.packets| <= p < |t.mail.packets| ==> t.mail.packets[p].latency == n.latency
    ensures !op.ReplaceNet? ==> t.latency == n.latency
  {
    match op {
      case Local(o) => LocalShape(n, o, t);
      case Send(src, key, current, k) => SendShape(n, src, key, current, k, t);
      case PollDelivery => PollSockets(n, t);
      case _ =>
        MailShape(n, op, t);
        MailStepShape(n.mail, op);
    }
  }

  lemma {:induction false} PacketsStay(n: NetState, ops: seq<NetOp>, t: NetState, p: PacketIx)
    requires NetInv(n) && NetRun(n, ops, t) && p < |n.mail.packets|
    ensures p < |t.mail.packets| && t.mail.packets[p] == n.mail.packets[p]
    decreases |ops|
  {
    if ops != [] {
      var m := NetStep(n, ops[0]).value;
      PacketsGrow(n, ops[0], m);
      NetStepKeeps(n, ops[0], m);
      PacketsStay(m, ops[1..], t, p);
    }
  }

  lemma InAirIsNotOverdue(t: NetState, p: PacketIx)
    requires NetInv(t) && p < |t.mail.packets|
    ensures t.mail.places[p].InFlight? ==> t.sim.base.clock.now <= Due(t.mail.packets[p])
  {
    if t.mail.places[p].InFlight? {
      var id :| id in t.carried && t.carried[id] == p;
      assert id in Couriers(t.sim.guards, t.carried, t.sleepOf);
      NotOverdue(t.sim, t.sleepOf[id]);
    }
  }

  /** Delivery order, over every run: whatever the tie-breaking among equal deadlines, of two
      packets that one socket got, one sent strictly earlier than the other, over a latency that
      was no greater, came first. */
  lemma DeliveryKeepsOrder(start: Instant, latency: nat, ops: seq<NetOp>, t: NetState, c: InboxIx, i: nat, j: nat)
    requires NetRun(NetStart(start, latency), ops, t)
    requires c < |t.mail.channels| && i < |Log(t.mail.channels[c])| && j < |Log(t.mail.channels[c])|
    ensures Log(t.mail.channels[c])[i] < |t.mail.packets| && Log(t.mail.channels[c])[j] < |t.mail.packets|
    ensures var a, b := t.mail.packets[Log(t.mail.channels[c])[i]], t.mail.packets[Log(t.mail.channels[c])[j]];
            a.sentAt < b.sentAt && a.latency <= b.latency ==> i < j
  {
    Reached(start, latency, ops, t);
    OrderOf(t.mail, c, i, j);
  }

  lemma OrderOf(m: Mail, c: InboxIx, i: nat, j: nat)
    requires MailInv(m) && SendOrder(m)
    requires c < |m.channels| && i < |Log(m.channels[c])| && j < |Log(m.channels[c])|
    ensures Log(m.channels[c])[i] < |m.packets| && Log(m.channels[c])[j] < |m.packets|
    ensures Due(m.packets[Log(m.channels[c])[i]]) < Due(m.packets[Log(m.channels[c])[j]]) ==> i < j
  {
    LogIndex(m, c, i);
    LogIndex(m, c, j);
    if j < i { assert InSendOrder(m, c, j, i); }
  }

  /** In no reachable state can the downcast in `receive` fail. */
  lemma DowncastSucceeds(start: Instant, latency: nat, ops: seq<NetOp>, t: NetState, c: InboxIx)
    requires NetRun(NetStart(start, latency), ops, t) && c < |t.mail.channels|
    ensures Receive(t.mail, c).Ok?
  {
    Reached(start, latency, ops, t);
    ReceiveExact(t.mail, c);
  }

  lemma ArmedCanPoll(g: Guarded, k: SleepKey)
    requires GoodGuarded(g) && IsArmed(g.guards, k) && PolledBy(g.base.ex.polling, g.guards[k])
    ensures GuardStep(g, PollDeadline(k)).Some?
  {
    NotOverdue(g, k);
    AbsTidy(g.base);
    assert TaskInv(g.base.ex, g.guards[k].owner);
    PollSleepExact(g.base.clock, k, g.guards[k].owner);
  }

  /** A delivery task that is polled can always perform its poll: its Sleep does not panic. */
  lemma DeliveryCanPoll(n: NetState)
    requires NetInv(n) && Delivering(n)
    ensures NetStep(n, PollDelivery).Some?
  {
    var id := n.sim.base.ex.polling.value;
    assert id in Couriers(n.sim.guards, n.carried, n.sleepOf);
    ArmedCanPoll(n.sim, n.sleepOf[id]);
  }

  lemma CarriedAwaited(n: NetState)
    requires NetInv(n)
    ensures forall id :: id in n.carried ==> id in n.sleepOf && n.sleepOf[id] in n.sim.guards && Awaited(n.sim.guards[n.sleepOf[id]])
  {
    var couriers := Couriers(n.sim.guards, n.carried, n.sleepOf);
    forall id | id in n.carried ensures id in n.sleepOf && n.sleepOf[id] in n.sim.guards && Awaited(n.sim.guards[n.sleepOf[id]]) {
      assert Awaited(couriers[id]);
    }
  }

  /** When the run loop is left, no packet is in the air. */
  lemma NothingLeftInFlight(n: NetState, order: seq<SleepKey>)
    requires NetInv(n) && Next(n.sim.base, Turn(order)).Some?
    requires Next(n.sim.base, Turn(order)).value.trace == n.sim.base.trace
    ensures forall p :: 0 <= p < |n.mail.places| ==> !n.mail.places[p].InFlight?
  {
    CarriedAwaited(n);
    NoneLeftPending(n.sim, order);
    assert n.carried.Keys == {};
  }

  // ----- which Net a socket belongs to -----

  /** The `Net` that the simulator held when the socket of inbox `c` was opened in the run. */
  ghost function OpenedIn(n: NetState, ops: seq<NetOp>, c: InboxIx): Option<NetIx>
    decreases |ops|
  {
    if ops == [] || NetStep(n, ops[0]).None? then None
    else if |n.mail.channels| <= c < |NetStep(n, ops[0]).value.mail.channels| then Some(n.mail.net)
    else OpenedIn(NetStep(n, ops[0]).value, ops[1..], c)
  }

  /** An inbox keeps its home, and a new one gets the `Net` of that moment. */
  ghost predicate HomesGrow(m: Mail, m': Mail) {
    && |m.channels| <= |m'.channels|
    && (forall c :: 0 <= c < |m.channels| ==> m'.channels[c].home == m.channels[c].home)
    && (forall c :: |m.channels| <= c < |m'.channels| ==> m'.channels[c].home == m.net)
  }

  lemma HomesMail(m: Mail, op: NetOp)
    requires MailInv(m) && MailStep(m, op).Some?
    ensures HomesGrow(m, MailStep(m, op).value)
    ensures !op.ReplaceNet? ==> MailStep(m, op).value.net == m.net
    ensures !op.OpenSocket? ==> MailStep(m, op).value.open <= m.open && |MailStep(m, op).value.channels| == |m.channels|
    ensures op.OpenSocket? ==> MailStep(m, op).value.open <= m.open + {|m.channels|}
  {
    match op {
      case OpenSocket(key) => OpenKeeps(m, key);
      case CloseSocket(c) => CloseExact(m, c);
      case ReceivePacket(c) => ReceiveExact(m, c);
      case FreeInbox(c) => EmptiedKeeps(m, {c}, Discarded);
      case ReplaceNet(x, _) => ReplaceKeeps(m, x);
      case NetStartsNode(node) => EmptiedKeeps(m, InboxesOf(m, node), Drained);
    }
  }

  /** Every other label of the network leaves the sockets alone. */
  lemma SocketsStay(n: NetState, op: NetOp, t: NetState)
    requires NetInv(n) && NetStep(n, op) == Some(t) && (op.Local? || op.Send? || op.PollDelivery?)
    ensures HomesGrow(n.mail, t.mail) && |t.mail.channels| == |n.mail.channels|
    ensures t.mail.net == n.mail.net && t.mail.open == n.mail.open
  {
    match op {
      case Local(o) => LocalShape(n, o, t);
      case Send(src, key, current, k) => SendShape(n, src, key, current, k, t);
      case PollDelivery => PollSockets(n, t);
    }
  }

  /** A poll of a delivery opens and closes no socket. */
  lemma PollSockets(n: NetState, t: NetState)
    requires NetInv(n) && PollStep(n) == Some(t)
    ensures t.mail.packets == n.mail.packets && t.latency == n.latency
    ensures HomesGrow(n.mail, t.mail) && |t.mail.channels| == |n.mail.channels|
    ensures t.mail.net == n.mail.net && t.mail.open == n.mail.open
  {
    PollShape(n, t);
    PolledFlight(n);
    if t.mail != n.mail { TrySendExact(n.mail, n.carried[n.sim.base.ex.polling.value]); }
  }

  lemma PolledFlight(n: NetState)
    requires NetInv(n) && Delivering(n)
    ensures var p := n.carried[n.sim.base.ex.polling.value]; p < |n.mail.places| && n.mail.places[p].InFlight?
  {
    CarriedCouriers(n.sim.guards, n.sleepOf, n.mail, n.carried);
  }

  lemma HomesStep(n: NetState, op: NetOp, t: NetState)
    requires NetInv(n) && NetStep(n, op) == Some(t)
    ensures HomesGrow(n.mail, t.mail)
  {
    if op.Local? || op.Send? || op.PollDelivery? {
      SocketsStay(n, op, t);
    } else {
      MailShape(n, op, t);
      HomesMail(n.mail, op);
    }
  }

  lemma {:induction false} HomesRun(n: NetState, ops: seq<NetOp>, t: NetState, c: InboxIx)
    requires NetInv(n) && NetRun(n, ops, t) && c < |t.mail.channels|
    ensures if c < |n.mail.channels| then t.mail.channels[c].home == n.mail.channels[c].home
            else OpenedIn(n, ops, c) == Some(t.mail.channels[c].home)
    decreases |ops|
  {
    if ops != [] {
      var m := NetStep(n, ops[0]).value;
      HomesStep(n, ops[0], m);
      NetStepKeeps(n, ops[0], m);
      HomesRun(m, ops[1..], t, c);
    }
  }

  /** Over every run: dropping an open socket hits its assertion exactly if the simulator holds
      another `Net` by then than when the socket was opened. */
  lemma DropPanicsExactly(start: Instant, latency: nat, ops: seq<NetOp>, t: NetState, c: InboxIx)
    requires NetRun(NetStart(start, latency), ops, t) && c in t.mail.open
    ensures c < |t.mail.channels|
    ensures Close(t.mail, c) == Panic(Internal(362)) <==> OpenedIn(NetStart(start, latency), ops, c) != Some(t.mail.net)
  {
    Reached(start, latency, ops, t);
    CloseExact(t.mail, c);
    NetStartInv(start, latency);
    HomesRun(NetStart(start, latency), ops, t, c);
  }

  /** The `Net` is never exchanged while a socket is open. */
  ghost predicate Steady(n: NetState, ops: seq<NetOp>)
    decreases |ops|
  {
    ops != [] && NetStep(n, ops[0]).Some? ==>
      && (ops[0].ReplaceNet? ==> n.mail.open == {})
      && Steady(NetStep(n, ops[0]).value, ops[1..])
  }

  ghost predicate AllAtHome(m: Mail) {
    forall c :: c in m.open ==> c < |m.channels| && AtHome(m, c)
  }

  lemma AllAtHomeStep(n: NetState, op: NetOp, t: NetState)
    requires NetInv(n) && NetStep(n, op) == Some(t) && AllAtHome(n.mail) && (op.ReplaceNet? ==> n.mail.open == {})
    ensures AllAtHome(t.mail)
  {
    if op.Local? || op.Send? || op.PollDelivery? {
      SocketsStay(n, op, t);
    } else {
      MailShape(n, op, t);
      AllAtHomeMail(n.mail, op);
    }
  }

  lemma AllAtHomeMail(m: Mail, op: NetOp)
    requires MailInv(m) && MailStep(m, op).Some? && AllAtHome(m) && (op.ReplaceNet? ==> m.open == {})
    ensures AllAtHome(MailStep(m, op).value)
  {
    HomesMail(m, op);
  }

  lemma {:induction false} AllAtHomeRun(n: NetState, ops: seq<NetOp>, t: NetState)
    requires NetInv(n) && NetRun(n, ops, t) && AllAtHome(n.mail) && Steady(n, ops)
    ensures AllAtHome(t.mail)
    decreases |ops|
  {
    if ops != [] {
      var m := NetStep(n, ops[0]).value;
      AllAtHomeStep(n, ops[0], m);
      NetStepKeeps(n, ops[0], m);
      AllAtHomeRun(m, ops[1..], t);
    }
  }

  /** So it holds in every run in which the `Net` is not exchanged while a socket is open. */
  lemma SocketsAreListed(start: Instant, latency: nat, ops: seq<NetOp>, t: NetState, c: InboxIx)
    requires NetRun(NetStart(start, latency), ops, t) && Steady(NetStart(start, latency), ops) && c in t.mail.open
    ensures c < |t.mail.channels| && Close(t.mail, c).Ok?
  {
    NetStartInv(start, latency);
    AllAtHomeRun(NetStart(start, latency), ops, t);
    Reached(start, latency, ops, t);
    CloseExact(t.mail, c);
  }

  /** And it needs that: a run that opens a socket, exchanges the `Net`, and drops the socket. */
  lemma ReplacedNetFails(start: Instant, latency: nat, key: Key) returns (ops: seq<NetOp>, t: NetState)
    ensures ops == [OpenSocket(key), ReplaceNet(1, latency)]
    ensures NetRun(NetStart(start, latency), ops, t) && t.mail.open == {0}
    ensures 0 < |t.mail.channels| && Close(t.mail, 0) == Panic(Internal(362))
  {
    ops := [OpenSocket(key), ReplaceNet(1, latency)];
    var n := NetStart(start, latency);
    var m := NetStep(n, ops[0]).value;
    t := NetStep(m, ops[1]).value;
    assert ops[1..] == [ops[1]];
    assert NetRun(m, [ops[1]], t);
  }

  // ----- restarting a node drains its sockets -----

  /** Packet `p` was buffered in inbox `c` and has left it by a `receive` or by a drain. */
  predicate LeftInbox(m: Mail, p: PacketIx, c: InboxIx)
    requires p < |m.places|
  {
    m.places[p] == Received(c) || m.places[p] == Lost(Drained)
  }

  predicate Settling(m: Mail, p: PacketIx, c: InboxIx) {
    && p < |m.places| && c < |m.channels|
    && (c in m.open ==> m.places[p] == Buffered(c) || LeftInbox(m, p, c))
  }

  /** While the socket exists, a packet stays in its inbox until it is received or drained. */
  lemma SettlingMail(m: Mail, op: NetOp, p: PacketIx, c: InboxIx)
    requires MailInv(m) && MailStep(m, op).Some? && Settling(m, p, c) && (c in m.open ==> AtHome(m, c))
    ensures Settling(MailStep(m, op).value, p, c)
    ensures var m' := MailStep(m, op).value;
            && m'.channels[c].key == m.channels[c].key
            && (c in m'.open ==> c in m.open && (LeftInbox(m, p, c) ==> LeftInbox(m', p, c)))
            && (op == NetStartsNode(m.channels[c].key.dst.node) && c in m'.open ==> LeftInbox(m', p, c))
  {
    match op {
      case OpenSocket(key) => OpenKeeps(m, key);
      case CloseSocket(d) => CloseExact(m, d);
      case ReceivePacket(d) =>
        ReceiveExact(m, d);
        if m.channels[d].buffer != [] {
          assert InboxInv(m, d) && m.channels[d].buffer[0] in m.channels[d].buffer;
        }
      case FreeInbox(d) => EmptiedKeeps(m, {d}, Discarded);
      case ReplaceNet(x, _) => ReplaceKeeps(m, x);
      case NetStartsNode(node) =>
        EmptiedKeeps(m, InboxesOf(m, node), Drained);
        if c in m.open { HomeIsListed(m, c); }
    }
  }

  lemma SettlingLocal(n: NetState, op: GuardOp, p: PacketIx, c: InboxIx)
    requires forall x :: x in n.carried ==> n.carried[x] < |n.mail.places| && n.mail.places[n.carried[x]].InFlight?
    requires Settling(n.mail, p, c)
    ensures Settling(LocalMail(n, op), p, c)
    ensures c in n.mail.open && LeftInbox(n.mail, p, c) ==> LeftInbox(LocalMail(n, op), p, c)
  {}

  lemma SettlingPoll(n: NetState, t: NetState, p: PacketIx, c: InboxIx)
    requires NetInv(n) && PollStep(n) == Some(t) && Settling(n.mail, p, c)
    ensures Settling(t.mail, p, c) && t.mail.channels[c].key == n.mail.channels[c].key
    ensures c in t.mail.open ==> c in n.mail.open && (LeftInbox(n.mail, p, c) ==> LeftInbox(t.mail, p, c))
    ensures t.callbacks == n.callbacks
  {
    PollShape(n, t);
    PolledFlight(n);
    if t.mail != n.mail { SettlingArrival(n.mail, n.carried[n.sim.base.ex.polling.value], p, c); }
  }

  lemma SettlingArrival(m: Mail, arrived: PacketIx, p: PacketIx, c: InboxIx)
    requires MailInv(m) && arrived < |m.packets| && Settling(m, p, c)
    requires m.places[arrived].InFlight?
    ensures var m' := TrySend(m, arrived);
            && Settling(m', p, c) && m'.channels[c].key == m.channels[c].key && m'.open == m.open
            && (c in m.open && LeftInbox(m, p, c) ==> LeftInbox(m', p, c))
  {
    TrySendExact(m, arrived);
  }

  /** Either the callback for the node is still on the stack, above `base`, or the packet has
      left the inbox, or the socket is gone. */
  ghost predicate Draining(n: NetState, base: seq<NodeIx>, node: NodeIx, p: PacketIx, c: InboxIx) {
    && Settling(n.mail, p, c) && n.mail.channels[c].key.dst.node == node
    && ((|n.callbacks| > |base| && n.callbacks[|base|] == node) || (c in n.mail.open ==> LeftInbox(n.mail, p, c)))
  }

  lemma DrainingLocal(n: NetState, op: GuardOp, t: NetState, base: seq<NodeIx>, node: NodeIx, p: PacketIx, c: InboxIx)
    requires forall x :: x in n.carried ==> n.carried[x] < |n.mail.places| && n.mail.places[n.carried[x]].InFlight?
    requires NetStep(n, Local(op)) == Some(t) && Draining(n, base, node, p, c)
    ensures Draining(t, base, node, p, c)
  {
    LocalShape(n, op, t);
    SettlingLocal(n, op, p, c);
  }

  lemma DrainingMail(n: NetState, op: NetOp, t: NetState, base: seq<NodeIx>, node: NodeIx, p: PacketIx, c: InboxIx)
    requires MailInv(n.mail) && AllAtHome(n.mail) && NetStep(n, op) == Some(t) && Draining(n, base, node, p, c)
    requires !op.Local? && !op.Send? && !op.PollDelivery?
    ensures Draining(t, base, node, p, c)
  {
    MailShape(n, op, t);
    SettlingMail(n.mail, op, p, c);
  }

  lemma DrainingStep(n: NetState, op: NetOp, t: NetState, base: seq<NodeIx>, node: NodeIx, p: PacketIx, c: InboxIx)
    requires NetInv(n) && AllAtHome(n.mail) && NetStep(n, op) == Some(t) && Draining(n, base, node, p, c)
    ensures Draining(t, base, node, p, c)
  {
    match op {
      case Local(o) =>
        CarriedCouriers(n.sim.guards, n.sleepOf, n.mail, n.carried);
        DrainingLocal(n, o, t, base, node, p, c);
      case Send(src, key, current, k) => SendShape(n, src, key, current, k, t);
      case PollDelivery => SettlingPoll(n, t, p, c);
      case _ => DrainingMail(n, op, t, base, node, p, c);
    }
  }

  lemma {:induction false} DrainingRun(n: NetState, ops: seq<NetOp>, t: NetState, base: seq<NodeIx>, node: NodeIx, p: PacketIx, c: InboxIx)
    requires NetInv(n) && NetRun(n, ops, t) && Draining(n, base, node, p, c) && AllAtHome(n.mail) && Steady(n, ops)
    ensures Draining(t, base, node, p, c)
    decreases |ops|
  {
    if ops != [] {
      var m := NetStep(n, ops[0]).value;
      AllAtHomeStep(n, ops[0], m);
      DrainingStep(n, ops[0], m, base, node, p, c);
      NetStepKeeps(n, ops[0], m);
      DrainingRun(m, ops[1..], t, base, node, p, c);
    }
  }

  /** A restart drains, over every run: once a start of a stopped node has returned, no packet
      that was buffered for a socket of the node when it began is buffered there any more. It was
      received or drained, or the socket is gone. The open sockets belong to the `Net` that the
      simulator holds, and it is not exchanged while there are any. */
  lemma RestartDrains(n: NetState, node: NodeIx, started: NetState, ops: seq<NetOp>, t: NetState, p: PacketIx, c: InboxIx)
    requires NetInv(n) && node < |n.sim.base.ex.nodes| && n.sim.base.ex.nodes[node].level.Stopped?
    requires NetStep(n, Local(Plain(StartNode(node)))) == Some(started) && NetRun(started, ops, t)
    requires AllAtHome(n.mail) && Steady(started, ops) && |t.callbacks| <= |n.callbacks|
    requires p < |n.mail.places| && c < |n.mail.channels| && n.mail.places[p] == Buffered(c)
    requires n.mail.channels[c].key.dst.node == node
    ensures p < |t.mail.places|
    ensures c in t.mail.open ==> t.mail.places[p] == Received(c) || t.mail.places[p] == Lost(Drained)
  {
    LocalShape(n, Plain(StartNode(node)), started);
    NetStepKeeps(n, Local(Plain(StartNode(node))), started);
    AllAtHomeStep(n, Local(Plain(StartNode(node))), started);
    DrainingRun(started, ops, t, n.callbacks, node, p, c);
  }
}
