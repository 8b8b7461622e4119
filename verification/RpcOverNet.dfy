/** The RPC layer on the network with `perfect_connectivity` on the runtime: requests and responses
    are packets, and every run is a run of the three layers at once. */
module RpcOverNet {
  import opened Types
  import opened Machine
  import opened Deadlines
  import opened Network
  import opened Delivery
  import Rpc
  import Correlation

  /** The packet types of one service: `TowerRequest` and `TowerResponse`, private to src/tower.rs. */
  const REQUEST: PacketType := 0
  const RESPONSE: PacketType := 1

  /** `sockets`, `locals` and `remotes` are the clients' sockets, with their own address and that of
      their server. `tokens` says which request or response a packet is, and `serving` which packet
      a task of the server is working on. */
  datatype Sys = Sys(
    net: NetState,
    rpc: Rpc.State,
    sockets: seq<InboxIx>,
    locals: seq<Addr>,
    remotes: seq<Addr>,
    tokens: map<PacketIx, Rpc.Token>,
    serving: map<Id, PacketIx>)

  datatype SysOp =
    | OnNet(op: NetOp)
    | OpenClient(local: Addr, remote: Addr)
    | DropClient(client: Rpc.ClientIx)
    | Call(client: Rpc.ClientIx, payload: Rpc.Value)
    | SendRequest(client: Rpc.ClientIx, sleep: SleepKey)
    | Serve(socket: InboxIx)
    | Respond(id: Id, value: Rpc.Value, sleep: SleepKey)
    | ReceiveReply(client: Rpc.ClientIx)

  predicate IsRpc(key: Key) {
    key.ty == REQUEST || key.ty == RESPONSE
  }

  /** What the rest of the program cannot do: send and receive the packets of the RPC layer, and
      touch the clients' sockets. */
  predicate Foreign(s: Sys, op: NetOp) {
    var channels := s.net.mail.channels;
    match op
    case Send(_, key, _, _) => !IsRpc(key)
    case OpenSocket(key) => key.ty != RESPONSE
    case CloseSocket(i) => i < |channels| && channels[i].key.ty != RESPONSE
    case ReceivePacket(i) => i < |channels| && !IsRpc(channels[i].key)
    case _ => true
  }

  /** `Id::new()` for the request comes from the runtime's counter. */
  function Gap(s: Sys): nat {
    var issued := s.net.sim.base.nextId;
    if issued >= s.rpc.nextId then issued - s.rpc.nextId else 0
  }

  function WithIds(s: Sys): Rpc.State {
    s.rpc.(nextId := s.rpc.nextId + Gap(s))
  }

  /** What happens in the RPC layer, if anything. */
  function RpcOps(s: Sys, op: SysOp): seq<Rpc.Op> {
    match op
    case OnNet(_) => []
    case OpenClient(_, _) => [Rpc.NewClient(|s.rpc.clients|)]
    case DropClient(c) => [Rpc.CloseClient(c)]
    case Call(c, payload) => [Rpc.Call(c, payload)]
    case SendRequest(c, _) => [Rpc.TakeIds(Gap(s)), Rpc.SyncSend(c, true, true)]
    case Serve(i) =>
      var p := Head(s.net.mail, i);
      if p.Some? && p.value in s.tokens then [Rpc.Handle(s.tokens[p.value])] else []
    case Respond(id, value, _) =>
      if id in s.serving && s.serving[id] in s.tokens then [Rpc.Respond(Working(s, id), value)] else []
    case ReceiveReply(c) =>
      var p := if c < |s.sockets| then Head(s.net.mail, s.sockets[c]) else None;
      if p.Some? && p.value in s.tokens then [Rpc.Receive(s.tokens[p.value])] else []
  }

  /** The packet that the next `receive` takes. */
  function Head(m: Mail, i: InboxIx): Option<PacketIx> {
    if i < |m.channels| && m.channels[i].buffer != [] then Some(m.channels[i].buffer[0]) else None
  }

  function Working(s: Sys, id: Id): Rpc.Token
    requires id in s.serving && s.serving[id] in s.tokens
  {
    s.tokens[s.serving[id]].(stage := Rpc.Working)
  }

  /** What happens on the network. */
  function NetOps(s: Sys, op: SysOp): seq<NetOp> {
    match op
    case OnNet(o) => [o]
    case OpenClient(local, _) => [OpenSocket(Key(local, RESPONSE))]
    case DropClient(c) => if c < |s.sockets| then [CloseSocket(s.sockets[c])] else []
    case Call(_, _) => []
    case SendRequest(c, k) =>
      if c >= |s.locals| || c >= |s.remotes| then []
      else [Local(Plain(TakeIds(1))), Send(s.locals[c], Key(s.remotes[c], REQUEST), s.locals[c].node, k)]
    case Serve(i) => [ReceivePacket(i)]
    case Respond(id, _, k) =>
      if id !in s.serving || s.serving[id] >= |s.net.mail.packets| then []
      else
        var request := s.net.mail.packets[s.serving[id]];
        [Send(request.key.dst, Key(request.src, RESPONSE), request.key.dst.node, k)]
    case ReceiveReply(c) => if c < |s.sockets| then [ReceivePacket(s.sockets[c])] else []
  }

  /** When a label makes sense. A client's port is a new id; a server answers from the address that
      its socket has, on its own node, and to the sender of the request. */
  predicate CanDo(s: Sys, op: SysOp) {
    match op
    case OnNet(o) => Foreign(s, o)
    case OpenClient(local, _) => local !in s.locals && Open(s.net.mail, Key(local, RESPONSE)).1.Some?
    case DropClient(c) => c < |s.sockets|
    case Call(_, _) => true
    case SendRequest(c, _) => c < |s.locals| && c < |s.remotes| && Rpc.CanBegin(WithIds(s), c)
    case Serve(i) =>
      var p := Head(s.net.mail, i);
      i < |s.net.mail.channels| && s.net.mail.channels[i].key.ty == REQUEST && p.Some? && p.value in s.tokens
    case Respond(id, _, _) => id in s.serving && s.serving[id] in s.tokens && s.serving[id] < |s.net.mail.packets|
    case ReceiveReply(c) =>
      && c < |s.sockets| && c < |s.rpc.clients| && s.rpc.clients[c].isOpen
      && Head(s.net.mail, s.sockets[c]).Some? && Head(s.net.mail, s.sockets[c]).value in s.tokens
  }

  function RpcDo(s: Rpc.State, ops: seq<Rpc.Op>): Option<Rpc.State>
    decreases |ops|
  {
    if ops == [] then Some(s)
    else if Rpc.Next(s, ops[0]).None? then None
    else RpcDo(Rpc.Next(s, ops[0]).value, ops[1..])
  }

  ghost function NetDo(n: NetState, ops: seq<NetOp>): Option<NetState>
    decreases |ops|
  {
    if ops == [] then Some(n)
    else if NetStep(n, ops[0]).None? then None
    else NetDo(NetStep(n, ops[0]).value, ops[1..])
  }

  /** The bookkeeping of a label. */
  function Linked(s: Sys, op: SysOp): Sys {
    var next := |s.net.mail.packets|;
    match op
    case OpenClient(local, remote) =>
      s.(sockets := s.sockets + [|s.net.mail.channels|], locals := s.locals + [local], remotes := s.remotes + [remote])
    case SendRequest(c, _) =>
      if !Rpc.CanBegin(WithIds(s), c) then s else s.(tokens := s.tokens[next := Rpc.TokenFor(WithIds(s), c)])
    case Serve(i) =>
      var p := Head(s.net.mail, i);
      if p.None? || p.value !in s.tokens then s else s.(serving := s.serving[s.tokens[p.value].id := p.value])
    case Respond(id, value, _) =>
      if id !in s.serving || s.serving[id] !in s.tokens then s
      else s.(tokens := s.tokens[next := s.tokens[s.serving[id]].(stage := Rpc.Answering(value))], serving := s.serving - {id})
    case _ => s
  }

  ghost function SysStep(s: Sys, op: SysOp): Option<Sys> {
    var net, rpc := NetDo(s.net, NetOps(s, op)), RpcDo(s.rpc, RpcOps(s, op));
    if !CanDo(s, op) || net.None? || rpc.None? then None
    else Some(Linked(s, op).(net := net.value, rpc := rpc.value))
  }

  ghost predicate SysRun(s: Sys, ops: seq<SysOp>, t: Sys)
    decreases |ops|
  {
    if ops == [] then s == t
    else SysStep(s, ops[0]).Some? && SysRun(SysStep(s, ops[0]).value, ops[1..], t)
  }

  function SysStart(start: Instant, latency: nat): Sys {
    Sys(NetStart(start, latency), Rpc.Empty, [], [], [], map[], map[])
  }

  // ----- labels of one and two steps -----

  lemma OneNetOp(n: NetState, op: NetOp)
    ensures NetDo(n, [op]) == NetStep(n, op)
  {
    if NetStep(n, op).Some? { assert NetDo(NetStep(n, op).value, [op][1..]) == NetStep(n, op); }
  }

  lemma OneRpcOp(s: Rpc.State, op: Rpc.Op)
    ensures RpcDo(s, [op]) == Rpc.Next(s, op)
  {
    if Rpc.Next(s, op).Some? { assert RpcDo(Rpc.Next(s, op).value, [op][1..]) == Rpc.Next(s, op); }
  }

  lemma TwoNetOps(n: NetState, o: NetOp, o': NetOp)
    ensures NetDo(n, [o, o']) == if NetStep(n, o).None? then None else NetStep(NetStep(n, o).value, o')
  {
    if NetStep(n, o).Some? {
      assert [o, o'][1..] == [o'];
      OneNetOp(NetStep(n, o).value, o');
    }
  }

  lemma TwoRpcOps(s: Rpc.State, o: Rpc.Op, o': Rpc.Op)
    ensures RpcDo(s, [o, o']) == if Rpc.Next(s, o).None? then None else Rpc.Next(Rpc.Next(s, o).value, o')
  {
    if Rpc.Next(s, o).Some? {
      assert [o, o'][1..] == [o'];
      OneRpcOp(Rpc.Next(s, o).value, o');
    }
  }

  // ----- every run is a run of both layers -----

  lemma {:induction false} RpcDoIsRun(s: Rpc.State, ops: seq<Rpc.Op>)
    ensures RpcDo(s, ops).Some? ==> Rpc.Run(s, ops, RpcDo(s, ops).value)
    decreases |ops|
  {
    if ops != [] && Rpc.Next(s, ops[0]).Some? { RpcDoIsRun(Rpc.Next(s, ops[0]).value, ops[1..]); }
  }

  lemma {:induction false} RpcConcat(s: Rpc.State, a: seq<Rpc.Op>, m: Rpc.State, b: seq<Rpc.Op>, t: Rpc.State)
    requires Rpc.Run(s, a, m) && Rpc.Run(m, b, t)
    ensures Rpc.Run(s, a + b, t)
    decreases |a|
  {
    if a == [] {
      assert a + b == b;
    } else {
      assert (a + b)[1..] == a[1..] + b;
      RpcConcat(Rpc.Next(s, a[0]).value, a[1..], m, b, t);
    }
  }

  lemma NetCons(n: NetState, op: NetOp, m: NetState, ops: seq<NetOp>, t: NetState)
    requires NetStep(n, op) == Some(m) && NetRun(m, ops, t)
    ensures NetRun(n, [op] + ops, t)
  {
    assert ([op] + ops)[1..] == ops;
  }

  lemma SmallSum<T>(a: seq<T>, b: seq<T>)
    requires |a| <= 2
    ensures |a| == 0 ==> a == [] && a + b == b
    ensures |a| == 1 ==> a == [a[0]]
    ensures |a| == 2 ==> a == [a[0], a[1]] && a + b == [a[0]] + ([a[1]] + b)
  {}

  /** A label of at most two steps comes before a run. */
  lemma NetPrepend(n: NetState, a: seq<NetOp>, m: NetState, b: seq<NetOp>, t: NetState)
    requires |a| <= 2 && NetDo(n, a) == Some(m) && NetRun(m, b, t)
    ensures NetRun(n, a + b, t)
  {
    SmallSum(a, b);
    if |a| == 1 { NetPrependOne(n, a[0], m, b, t); }
    if |a| == 2 { NetPrependTwo(n, a[0], a[1], m, b, t); }
  }

  lemma NetPrependOne(n: NetState, o: NetOp, m: NetState, b: seq<NetOp>, t: NetState)
    requires NetDo(n, [o]) == Some(m) && NetRun(m, b, t)
    ensures NetRun(n, [o] + b, t)
  {
    OneNetOp(n, o);
    NetCons(n, o, m, b, t);
  }

  lemma NetPrependTwo(n: NetState, o: NetOp, o': NetOp, m: NetState, b: seq<NetOp>, t: NetState)
    requires NetDo(n, [o, o']) == Some(m) && NetRun(m, b, t)
    ensures NetRun(n, [o] + ([o'] + b), t)
  {
    TwoNetOps(n, o, o');
    NetCons(NetStep(n, o).value, o', m, b, t);
    NetCons(n, o, NetStep(n, o).value, [o'] + b, t);
  }

  ghost predicate AllTame(ops: seq<Rpc.Op>) {
    forall i :: 0 <= i < |ops| ==> Correlation.Tame(ops[i])
  }

  lemma OpsAreTame(s: Sys, op: SysOp)
    ensures AllTame(RpcOps(s, op))
  {}

  lemma StepShape(s: Sys, op: SysOp, t: Sys)
    requires SysStep(s, op) == Some(t)
    ensures NetDo(s.net, NetOps(s, op)) == Some(t.net) && RpcDo(s.rpc, RpcOps(s, op)) == Some(t.rpc)
    ensures CanDo(s, op) && t == Linked(s, op).(net := t.net, rpc := t.rpc)
  {}

  lemma StepExists(s: Sys, op: SysOp, net: NetState, rpc: Rpc.State)
    requires CanDo(s, op) && NetDo(s.net, NetOps(s, op)) == Some(net) && RpcDo(s.rpc, RpcOps(s, op)) == Some(rpc)
    ensures SysStep(s, op) == Some(Linked(s, op).(net := net, rpc := rpc))
  {}

  lemma {:induction false} RunsOfBoth(s: Sys, ops: seq<SysOp>, t: Sys) returns (netOps: seq<NetOp>, rpcOps: seq<Rpc.Op>)
    requires SysRun(s, ops, t)
    ensures NetRun(s.net, netOps, t.net) && Rpc.Run(s.rpc, rpcOps, t.rpc) && AllTame(rpcOps)
    decreases |ops|
  {
    netOps, rpcOps := [], [];
    if ops != [] {
      var m := SysStep(s, ops[0]).value;
      netOps, rpcOps := RunsOfBoth(m, ops[1..], t);
      netOps, rpcOps := JoinRuns(s, ops[0], m, netOps, rpcOps, t);
    }
  }

  lemma JoinRuns(s: Sys, op: SysOp, m: Sys, n: seq<NetOp>, r: seq<Rpc.Op>, t: Sys) returns (netOps: seq<NetOp>, rpcOps: seq<Rpc.Op>)
    requires SysStep(s, op) == Some(m) && NetRun(m.net, n, t.net) && Rpc.Run(m.rpc, r, t.rpc) && AllTame(r)
    ensures NetRun(s.net, netOps, t.net) && Rpc.Run(s.rpc, rpcOps, t.rpc) && AllTame(rpcOps)
  {
    StepShape(s, op, m);
    OpsAreTame(s, op);
    RpcDoIsRun(s.rpc, RpcOps(s, op));
    NetPrepend(s.net, NetOps(s, op), m.net, n, t.net);
    RpcConcat(s.rpc, RpcOps(s, op), m.rpc, r, t.rpc);
    netOps, rpcOps := NetOps(s, op) + n, RpcOps(s, op) + r;
  }

  /** Every run projects to a run of the network on the runtime, and to a run of the RPC layer with
      synchronous sends that hand on what they report as sent, no copies and no errors. What the
      network loses stays under way in the latter, and is never received. */
  lemma ProjectsToBoth(start: Instant, latency: nat, ops: seq<SysOp>, t: Sys) returns (netOps: seq<NetOp>, rpcOps: seq<Rpc.Op>)
    requires SysRun(SysStart(start, latency), ops, t)
    ensures NetRun(NetStart(start, latency), netOps, t.net)
    ensures Rpc.Run(Rpc.Empty, rpcOps, t.rpc) && AllTame(rpcOps)
  {
    netOps, rpcOps := RunsOfBoth(SysStart(start, latency), ops, t);
  }
  // ----- what a label of the network does to the packets -----

  /** Packets and inboxes are only added, and what was received stays received. */
  ghost predicate Moves(m: Mail, m': Mail) {
    && |m.places| == |m.packets| && |m'.places| == |m'.packets| && m.packets <= m'.packets
    && |m.channels| <= |m'.channels|
    && (forall i :: 0 <= i < |m.channels| ==> m'.channels[i].key == m.channels[i].key)
    && (forall p :: 0 <= p < |m.places| && m.places[p].Received? ==> m'.places[p].Received?)
  }

  lemma MailMoves(m: Mail, op: NetOp)
    requires MailInv(m) && MailStep(m, op).Some?
    ensures Moves(m, MailStep(m, op).value) && MailStep(m, op).value.packets == m.packets
  {
    match op {
      case OpenSocket(key) => OpenKeeps(m, key);
      case CloseSocket(i) => CloseExact(m, i);
      case ReceivePacket(i) => ReceiveExact(m, i);
      case FreeInbox(i) => EmptiedKeeps(m, {i}, Discarded);
      case ReplaceNet(x, _) => ReplaceKeeps(m, x);
      case NetStartsNode(node) => EmptiedKeeps(m, InboxesOf(m, node), Drained);
    }
  }

  lemma NetMoves(n: NetState, op: NetOp, t: NetState)
    requires NetInv(n) && NetStep(n, op) == Some(t)
    ensures Moves(n.mail, t.mail)
    ensures t.mail.packets ==
            if op.Send? then n.mail.packets + [Packet(op.src, op.key, n.sim.base.clock.now, n.latency)] else n.mail.packets
  {
    match op {
      case Local(o) => LocalMoves(n, o, t);
      case Send(src, key, current, k) => SendShape(n, src, key, current, k, t);
      case PollDelivery => PollMoves(n, t);
      case _ =>
        MailShape(n, op, t);
        MailMoves(n.mail, op);
    }
  }

  lemma PollMoves(n: NetState, t: NetState)
    requires NetInv(n) && PollStep(n) == Some(t)
    ensures Moves(n.mail, t.mail) && t.mail.packets == n.mail.packets
  {
    PollShape(n, t);
    PolledFlight(n);
    if t.mail != n.mail { TrySendExact(n.mail, n.carried[n.sim.base.ex.polling.value]); }
  }

  lemma LocalMoves(n: NetState, op: GuardOp, t: NetState)
    requires NetInv(n) && NetStep(n, Local(op)) == Some(t)
    ensures Moves(n.mail, t.mail) && t.mail.packets == n.mail.packets
  {
    LocalShape(n, op, t);
    CarriedCouriers(n.sim.guards, n.sleepOf, n.mail, n.carried);
  }

  /** What a `receive` takes: the packet at the head, which has the inbox's own address and type. */
  lemma Received(n: NetState, i: InboxIx, t: NetState)
    requires NetInv(n) && NetStep(n, ReceivePacket(i)) == Some(t)
    ensures i < |n.mail.channels|
    ensures Head(n.mail, i).Some? ==>
              var p := Head(n.mail, i).value;
              && p < |n.mail.packets| && n.mail.packets[p].key == n.mail.channels[i].key
              && n.mail.places[p] == Buffered(i) && t.mail.places == n.mail.places[p := Network.Received(i)]
    ensures Head(n.mail, i).None? ==> t.mail == n.mail
  {
    MailShape(n, ReceivePacket(i), t);
    ReceiveExact(n.mail, i);
    assert InboxInv(n.mail, i);
    if Head(n.mail, i).Some? { assert n.mail.channels[i].buffer[0] in n.mail.channels[i].buffer; }
  }

  // ----- the link between the layers -----

  /** A request is on its way to its client's server, from the client's own address; a response to
      the client's own address, from its server's. As long as the packet may be received, the RPC
      layer has it under way. */
  ghost predicate PacketInv(s: Sys, p: PacketIx)
    requires p in s.tokens
  {
    var m, x := s.net.mail, s.tokens[p];
    && p < |m.packets| == |m.places| && x.client < |s.locals| == |s.remotes|
    && (match x.stage
        case Asked => m.packets[p].key == Key(s.remotes[x.client], REQUEST) && m.packets[p].src == s.locals[x.client]
        case Answering(_) => m.packets[p].key == Key(s.locals[x.client], RESPONSE) && m.packets[p].src == s.remotes[x.client]
        case Working => false)
    && (!m.places[p].Received? ==> x in s.rpc.air)
  }

  /** Two packets that may both be received belong to different requests. */
  predicate Different(s: Sys, p: PacketIx, q: PacketIx)
    requires p in s.tokens && q in s.tokens
  {
    s.tokens[p].id != s.tokens[q].id
  }

  predicate Unreceived(s: Sys, p: PacketIx) {
    p in s.tokens && p < |s.net.mail.places| && !s.net.mail.places[p].Received?
  }

  ghost predicate ServingInv(s: Sys, id: Id)
    requires id in s.serving
  {
    && s.serving[id] in s.tokens && s.tokens[s.serving[id]].id == id && s.tokens[s.serving[id]].stage.Asked?
    && Working(s, id) in s.rpc.air
  }

  /** Each client has a socket of its own, at an address of its own. */
  ghost predicate ClientsInv(s: Sys) {
    && |s.sockets| == |s.locals| == |s.remotes| == |s.rpc.clients|
    && (forall c :: 0 <= c < |s.sockets| ==>
          s.sockets[c] < |s.net.mail.channels| && s.net.mail.channels[s.sockets[c]].key == Key(s.locals[c], RESPONSE))
    && NoDuplicates(s.locals)
  }

  ghost predicate PacketsInv(s: Sys) {
    forall p {:trigger PacketInv(s, p)} :: p in s.tokens ==> PacketInv(s, p)
  }

  ghost predicate TypesInv(s: Sys) {
    forall p :: 0 <= p < |s.net.mail.packets| && IsRpc(s.net.mail.packets[p].key) ==> p in s.tokens
  }

  ghost predicate AllDifferent(s: Sys) {
    forall p, q {:trigger Different(s, p, q)} :: Unreceived(s, p) && Unreceived(s, q) && p != q ==> Different(s, p, q)
  }

  ghost predicate ServingsInv(s: Sys) {
    forall id {:trigger ServingInv(s, id)} :: id in s.serving ==> ServingInv(s, id)
  }

  /** What is said of the packets and of the server's tasks. */
  ghost predicate TokensInv(s: Sys) {
    PacketsInv(s) && TypesInv(s) && AllDifferent(s) && ServingsInv(s)
  }

  ghost predicate LayersInv(s: Sys) {
    NetInv(s.net) && Rpc.Inv(s.rpc) && Correlation.TameInv(s.rpc)
  }

  ghost predicate LinkInv(s: Sys) {
    LayersInv(s) && ClientsInv(s) && TokensInv(s)
  }

  // ----- each layer keeps its own invariant -----

  lemma {:induction false} NetDoKeeps(n: NetState, ops: seq<NetOp>, t: NetState)
    requires NetInv(n) && NetDo(n, ops) == Some(t)
    ensures NetInv(t)
    decreases |ops|
  {
    if ops != [] {
      NetStepKeeps(n, ops[0], NetStep(n, ops[0]).value);
      NetDoKeeps(NetStep(n, ops[0]).value, ops[1..], t);
    }
  }

  lemma RpcDoKeeps(s: Rpc.State, ops: seq<Rpc.Op>, t: Rpc.State)
    requires Rpc.Inv(s) && Correlation.TameInv(s) && AllTame(ops) && RpcDo(s, ops) == Some(t)
    ensures Rpc.Inv(t) && Correlation.TameInv(t)
  {
    RpcDoIsRun(s, ops);
    Correlation.TameRun(s, ops, t);
  }

  // ----- the packets that are neither sent nor received by a label -----

  /** The packets of `s` under way in `s` still are in `t`, unless they were received. */
  ghost predicate StillUnderWay(s: Sys, t: Sys) {
    forall p {:trigger Unreceived(t, p)} :: p in s.tokens && Unreceived(t, p) ==> s.tokens[p] in t.rpc.air
  }

  ghost predicate Extends(s: Sys, t: Sys) {
    && Moves(s.net.mail, t.net.mail) && s.locals <= t.locals && s.remotes <= t.remotes && |t.locals| == |t.remotes|
    && (forall p :: p in s.tokens ==> p in t.tokens && t.tokens[p] == s.tokens[p])
  }

  lemma OldPackets(s: Sys, t: Sys, p: PacketIx)
    requires p in s.tokens && PacketInv(s, p) && Extends(s, t) && StillUnderWay(s, t)
    ensures PacketInv(t, p)
  {
    if p < |t.net.mail.places| && !t.net.mail.places[p].Received? { assert Unreceived(t, p); }
  }

  lemma StillUnreceived(s: Sys, t: Sys, p: PacketIx)
    requires p in s.tokens && PacketInv(s, p) && Extends(s, t) && Unreceived(t, p)
    ensures Unreceived(s, p) && s.tokens[p] in s.rpc.air && t.tokens[p] == s.tokens[p]
  {}

  /** A label that sends no packet of the RPC layer. */
  lemma NoneSent(s: Sys, t: Sys)
    requires TokensInv(s) && Extends(s, t) && StillUnderWay(s, t) && t.tokens == s.tokens && ServingsInv(t)
    requires forall p :: |s.net.mail.packets| <= p < |t.net.mail.packets| ==> !IsRpc(t.net.mail.packets[p].key)
    ensures TokensInv(t)
  {
    forall p | p in t.tokens ensures PacketInv(t, p) { assert PacketInv(s, p); OldPackets(s, t, p); }
    forall p, q | Unreceived(t, p) && Unreceived(t, q) && p != q ensures Different(t, p, q) {
      assert PacketInv(s, p) && PacketInv(s, q);
      StillUnreceived(s, t, p);
      StillUnreceived(s, t, q);
      assert Different(s, p, q);
    }
  }

  /** A label that sends one packet of the RPC layer, of the request or response `x`. */
  lemma OneSent(s: Sys, t: Sys, x: Rpc.Token)
    requires TokensInv(s) && Extends(s, t) && StillUnderWay(s, t) && ServingsInv(t)
    requires var p := |s.net.mail.packets|; t.tokens == s.tokens[p := x] && |t.net.mail.packets| == p + 1 && PacketInv(t, p)
    requires forall p :: p in s.tokens && Unreceived(s, p) ==> s.tokens[p].id != x.id
    ensures TokensInv(t)
  {
    forall p | p in t.tokens ensures PacketInv(t, p) {
      if p != |s.net.mail.packets| { assert PacketInv(s, p); OldPackets(s, t, p); }
    }
    forall p, q | Unreceived(t, p) && Unreceived(t, q) && p != q ensures Different(t, p, q) {
      NewIsDifferent(s, t, x, p, q);
    }
  }

  lemma NewIsDifferent(s: Sys, t: Sys, x: Rpc.Token, p: PacketIx, q: PacketIx)
    requires PacketsInv(s) && AllDifferent(s) && Extends(s, t) && t.tokens == s.tokens[|s.net.mail.packets| := x]
    requires forall r :: r in s.tokens && Unreceived(s, r) ==> s.tokens[r].id != x.id
    requires Unreceived(t, p) && Unreceived(t, q) && p != q
    ensures Different(t, p, q)
  {
    var next := |s.net.mail.packets|;
    if p != next { assert PacketInv(s, p); StillUnreceived(s, t, p); }
    if q != next { assert PacketInv(s, q); StillUnreceived(s, t, q); }
    if p != next && q != next { assert Different(s, p, q); }
  }

  // ----- each label keeps the link -----

  /** A label of one step on the network. */
  lemma NetSide(n: NetState, o: NetOp, t: NetState)
    requires NetInv(n) && NetDo(n, [o]) == Some(t)
    ensures NetStep(n, o) == Some(t) && Moves(n.mail, t.mail)
    ensures t.mail.packets ==
            if o.Send? then n.mail.packets + [Packet(o.src, o.key, n.sim.base.clock.now, n.latency)] else n.mail.packets
  {
    OneNetOp(n, o);
    NetMoves(n, o, t);
  }

  /** A label of one step in the RPC layer. */
  lemma RpcSide(s: Rpc.State, op: Rpc.Op, t: Rpc.State)
    requires RpcDo(s, [op]) == Some(t)
    ensures Rpc.Next(s, op) == Some(t)
  {
    OneRpcOp(s, op);
  }

  /** What a label of the RPC layer does to the tokens under way. */
  lemma AirOf(s: Rpc.State, op: Rpc.Op, t: Rpc.State)
    requires Rpc.Next(s, op) == Some(t) && Correlation.Tame(op) && (op.SyncSend? ==> op.delivered)
    ensures match op
            case SyncSend(c, _, _) => t.air == s.air + multiset{Rpc.TokenFor(s, c)} && |t.clients| == |s.clients|
            case Handle(x) => t.air == s.air - multiset{x} + multiset{x.(stage := Rpc.Working)} && t.clients == s.clients
            case Respond(x, v) => t.air == s.air - multiset{x} + multiset{x.(stage := Rpc.Answering(v))} && t.clients == s.clients
            case Receive(x) => t.air == s.air - multiset{x} && |t.clients| == |s.clients|
            case Lose(x) => true
            case NewClient(_) => t.air == s.air && |t.clients| == |s.clients| + 1
            case _ => t.air == s.air && |t.clients| == |s.clients|
  {}

  lemma NetLinks(s: Sys, o: NetOp, t: Sys)
    requires LinkInv(s) && SysStep(s, OnNet(o)) == Some(t)
    ensures LinkInv(t)
  {
    StepShape(s, OnNet(o), t);
    LayersKeep(s, OnNet(o), t);
    NetSide(s.net, o, t.net);
    NetTokens(s, o, t);
  }

  lemma NetTokens(s: Sys, o: NetOp, t: Sys)
    requires ClientsInv(s) && TokensInv(s) && Moves(s.net.mail, t.net.mail) && Foreign(s, o)
    requires t.net.mail.packets ==
             if o.Send? then s.net.mail.packets + [Packet(o.src, o.key, s.net.sim.base.clock.now, s.net.latency)]
             else s.net.mail.packets
    requires t == s.(net := t.net)
    ensures ClientsInv(t) && TokensInv(t)
  {
    SameAir(s, t);
    NoneSent(s, t);
  }

  /** The RPC layer lost no token. */
  lemma SameAir(s: Sys, t: Sys)
    requires TokensInv(s) && Extends(s, t) && t.rpc.air == s.rpc.air && t.tokens == s.tokens && t.serving == s.serving
    ensures StillUnderWay(s, t) && ServingsInv(t)
  {
    forall p | p in s.tokens && Unreceived(t, p) ensures s.tokens[p] in t.rpc.air { assert PacketInv(s, p); StillUnreceived(s, t, p); }
    forall id | id in t.serving ensures ServingInv(t, id) { assert ServingInv(s, id); }
  }

  lemma OpenLinks(s: Sys, local: Addr, remote: Addr, t: Sys)
    requires LinkInv(s) && SysStep(s, OpenClient(local, remote)) == Some(t)
    ensures LinkInv(t)
  {
    var o, r := OpenSocket(Key(local, RESPONSE)), Rpc.NewClient(|s.rpc.clients|);
    StepShape(s, OpenClient(local, remote), t);
    LayersKeep(s, OpenClient(local, remote), t);
    NetSide(s.net, o, t.net);
    OpenAdds(s.net, local, t.net);
    RpcSide(s.rpc, r, t.rpc);
    AirOf(s.rpc, r, t.rpc);
    OpenTokens(s, local, remote, t);
  }

  lemma OpenTokens(s: Sys, local: Addr, remote: Addr, t: Sys)
    requires ClientsInv(s) && TokensInv(s) && Moves(s.net.mail, t.net.mail) && t.net.mail.packets == s.net.mail.packets
    requires local !in s.locals && t.rpc.air == s.rpc.air && |t.rpc.clients| == |s.rpc.clients| + 1
    requires |t.net.mail.channels| == |s.net.mail.channels| + 1
    requires t.net.mail.channels[|s.net.mail.channels|].key == Key(local, RESPONSE)
    requires t == s.(net := t.net, rpc := t.rpc, sockets := s.sockets + [|s.net.mail.channels|], locals := s.locals + [local],
                     remotes := s.remotes + [remote])
    ensures ClientsInv(t) && TokensInv(t)
  {
    SameAir(s, t);
    NoneSent(s, t);
  }

  lemma OpenAdds(n: NetState, local: Addr, t: NetState)
    requires NetInv(n) && NetStep(n, OpenSocket(Key(local, RESPONSE))) == Some(t)
    requires Open(n.mail, Key(local, RESPONSE)).1.Some?
    ensures |t.mail.channels| == |n.mail.channels| + 1 && t.mail.channels[|n.mail.channels|].key == Key(local, RESPONSE)
  {
    MailShape(n, OpenSocket(Key(local, RESPONSE)), t);
    OpenKeeps(n.mail, Key(local, RESPONSE));
  }

  lemma LayersKeep(s: Sys, op: SysOp, t: Sys)
    requires LayersInv(s) && SysStep(s, op) == Some(t)
    ensures LayersInv(t)
  {
    StepShape(s, op, t);
    OpsAreTame(s, op);
    NetDoKeeps(s.net, NetOps(s, op), t.net);
    RpcDoKeeps(s.rpc, RpcOps(s, op), t.rpc);
  }

  lemma DropLinks(s: Sys, c: Rpc.ClientIx, t: Sys)
    requires LinkInv(s) && SysStep(s, DropClient(c)) == Some(t)
    ensures LinkInv(t)
  {
    StepShape(s, DropClient(c), t);
    LayersKeep(s, DropClient(c), t);
    NetSide(s.net, CloseSocket(s.sockets[c]), t.net);
    RpcSide(s.rpc, Rpc.CloseClient(c), t.rpc);
    AirOf(s.rpc, Rpc.CloseClient(c), t.rpc);
    QuietTokens(s, t);
  }

  /** Nothing is sent, received or handled. */
  lemma QuietTokens(s: Sys, t: Sys)
    requires ClientsInv(s) && TokensInv(s) && Moves(s.net.mail, t.net.mail) && t.net.mail.packets == s.net.mail.packets
    requires t.rpc.air == s.rpc.air && |t.rpc.clients| == |s.rpc.clients| && t == s.(net := t.net, rpc := t.rpc)
    ensures ClientsInv(t) && TokensInv(t)
  {
    SameAir(s, t);
    NoneSent(s, t);
  }

  lemma CallLinks(s: Sys, c: Rpc.ClientIx, payload: Rpc.Value, t: Sys)
    requires LinkInv(s) && SysStep(s, Call(c, payload)) == Some(t)
    ensures LinkInv(t)
  {
    StepShape(s, Call(c, payload), t);
    LayersKeep(s, Call(c, payload), t);
    RpcSide(s.rpc, Rpc.Call(c, payload), t.rpc);
    AirOf(s.rpc, Rpc.Call(c, payload), t.rpc);
    QuietTokens(s, t);
  }

  // ----- requests -----

  lemma MovesOn(a: Mail, b: Mail, c: Mail)
    requires Moves(a, b) && Moves(b, c)
    ensures Moves(a, c)
  {}

  /** The two labels of the network, and the packet they send. */
  lemma RequestOnNet(n: NetState, src: Addr, key: Key, k: SleepKey, t: NetState)
    requires NetInv(n) && NetDo(n, [Local(Plain(TakeIds(1))), Send(src, key, src.node, k)]) == Some(t)
    ensures Moves(n.mail, t.mail)
    ensures t.mail.packets == n.mail.packets + [Packet(src, key, n.sim.base.clock.now, n.latency)]
  {
    var o, o' := Local(Plain(TakeIds(1))), Send(src, key, src.node, k);
    TwoNetOps(n, o, o');
    var m := NetStep(n, o).value;
    NetMoves(n, o, m);
    NetStepKeeps(n, o, m);
    NetMoves(m, o', t);
    MovesOn(n.mail, m.mail, t.mail);
    TakesIds(n, m);
  }

  lemma TakesIds(n: NetState, m: NetState)
    requires NetStep(n, Local(Plain(TakeIds(1)))) == Some(m)
    ensures m.sim.base.clock == n.sim.base.clock && m.latency == n.latency
  {}

  /** The two labels of the RPC layer: the request is under way, under an id that is new. */
  lemma RequestInRpc(r: Rpc.State, gap: nat, c: Rpc.ClientIx, t: Rpc.State)
    requires Rpc.Inv(r) && RpcDo(r, [Rpc.TakeIds(gap), Rpc.SyncSend(c, true, true)]) == Some(t)
    ensures var m := r.(nextId := r.nextId + gap);
            && Rpc.CanBegin(m, c) && t.air == r.air + multiset{Rpc.TokenFor(m, c)} && |t.clients| == |r.clients|
            && forall y :: y in r.air ==> y.id != Rpc.TokenFor(m, c).id
  {
    var m := r.(nextId := r.nextId + gap);
    TwoRpcOps(r, Rpc.TakeIds(gap), Rpc.SyncSend(c, true, true));
    GapIsTaken(r, gap);
    AirOf(m, Rpc.SyncSend(c, true, true), t);
    OldTokens(r);
  }

  lemma GapIsTaken(r: Rpc.State, gap: nat)
    ensures Rpc.Next(r, Rpc.TakeIds(gap)) == Some(r.(nextId := r.nextId + gap))
  {}

  lemma OldTokens(r: Rpc.State)
    requires Rpc.Inv(r)
    ensures forall y :: y in r.air ==> y.id <= r.nextId
  {
    forall y | y in r.air ensures y.id <= r.nextId { assert Rpc.TokenInv(r, y) && Rpc.RequestInv(r, y.id); }
  }

  lemma RequestLinks(s: Sys, c: Rpc.ClientIx, k: SleepKey, t: Sys)
    requires LinkInv(s) && SysStep(s, SendRequest(c, k)) == Some(t)
    ensures LinkInv(t)
  {
    var x := RequestEffects(s, c, k, t);
    RequestTokens(s, c, x, t);
  }

  lemma RequestEffects(s: Sys, c: Rpc.ClientIx, k: SleepKey, t: Sys) returns (x: Rpc.Token)
    requires LayersInv(s) && SysStep(s, SendRequest(c, k)) == Some(t)
    ensures LayersInv(t) && Requested(s, c, x, t)
  {
    LayersKeep(s, SendRequest(c, k), t);
    RequestShape(s, c, k, t);
    x := Rpc.TokenFor(WithIds(s), c);
    RequestInAir(s, c, t);
    RequestSent(s, c, k, t);
  }

  lemma RequestInAir(s: Sys, c: Rpc.ClientIx, t: Sys)
    requires Rpc.Inv(s.rpc) && Rpc.CanBegin(WithIds(s), c)
    requires RpcDo(s.rpc, [Rpc.TakeIds(Gap(s)), Rpc.SyncSend(c, true, true)]) == Some(t.rpc)
    ensures InAir(s, c, Rpc.TokenFor(WithIds(s), c), t)
  {
    RequestInRpc(s.rpc, Gap(s), c, t.rpc);
  }

  lemma RequestSent(s: Sys, c: Rpc.ClientIx, k: SleepKey, t: Sys)
    requires NetInv(s.net) && SysStep(s, SendRequest(c, k)) == Some(t)
    ensures OnItsWay(s, c, t)
  {
    RequestShape(s, c, k, t);
    RequestOnNet(s.net, s.locals[c], Key(s.remotes[c], REQUEST), k, t.net);
  }

  ghost predicate InAir(s: Sys, c: Rpc.ClientIx, x: Rpc.Token, t: Sys) {
    && t.rpc.air == s.rpc.air + multiset{x} && x.client == c && x.stage.Asked? && |t.rpc.clients| == |s.rpc.clients|
    && (forall y :: y in s.rpc.air ==> y.id != x.id)
  }

  ghost predicate OnItsWay(s: Sys, c: Rpc.ClientIx, t: Sys) {
    && c < |s.locals| && c < |s.remotes| && Moves(s.net.mail, t.net.mail)
    && t.net.mail.packets == s.net.mail.packets + [Packet(s.locals[c], Key(s.remotes[c], REQUEST), s.net.sim.base.clock.now, s.net.latency)]
  }

  /** The request `x` of client `c` was sent. */
  ghost predicate Requested(s: Sys, c: Rpc.ClientIx, x: Rpc.Token, t: Sys) {
    && InAir(s, c, x, t) && OnItsWay(s, c, t)
    && t == s.(net := t.net, rpc := t.rpc, tokens := s.tokens[|s.net.mail.packets| := x])
  }

  lemma RequestShape(s: Sys, c: Rpc.ClientIx, k: SleepKey, t: Sys)
    requires SysStep(s, SendRequest(c, k)) == Some(t)
    ensures c < |s.locals| && c < |s.remotes| && Rpc.CanBegin(WithIds(s), c)
    ensures NetDo(s.net, [Local(Plain(TakeIds(1))), Send(s.locals[c], Key(s.remotes[c], REQUEST), s.locals[c].node, k)]) == Some(t.net)
    ensures RpcDo(s.rpc, [Rpc.TakeIds(Gap(s)), Rpc.SyncSend(c, true, true)]) == Some(t.rpc)
    ensures t == s.(net := t.net, rpc := t.rpc, tokens := s.tokens[|s.net.mail.packets| := Rpc.TokenFor(WithIds(s), c)])
  {
    StepShape(s, SendRequest(c, k), t);
  }

  lemma RequestTokens(s: Sys, c: Rpc.ClientIx, x: Rpc.Token, t: Sys)
    requires ClientsInv(s) && TokensInv(s) && Requested(s, c, x, t)
    ensures ClientsInv(t) && TokensInv(t)
  {
    TokensAreOld(s);
    forall p | p in s.tokens && Unreceived(s, p) ensures s.tokens[p].id != x.id { assert PacketInv(s, p); }
    forall p | p in s.tokens && Unreceived(t, p) ensures s.tokens[p] in t.rpc.air { assert PacketInv(s, p); StillUnreceived(s, t, p); }
    forall id | id in t.serving ensures ServingInv(t, id) { assert ServingInv(s, id); }
    OneSent(s, t, x);
  }

  lemma TokensAreOld(s: Sys)
    requires PacketsInv(s)
    ensures forall p :: p in s.tokens ==> p < |s.net.mail.packets|
  {
    forall p | p in s.tokens ensures p < |s.net.mail.packets| { assert PacketInv(s, p); }
  }

  // ----- receiving and answering -----

  /** The packet at the head of an inbox of the RPC layer: which token it is, and that it is the only
      one of its request that is under way. */
  lemma HeadToken(s: Sys, i: InboxIx)
    requires MailInv(s.net.mail) && TokensInv(s) && Correlation.TameInv(s.rpc)
    requires i < |s.net.mail.channels| && IsRpc(s.net.mail.channels[i].key) && Head(s.net.mail, i).Some?
    ensures var p := Head(s.net.mail, i).value;
            && p in s.tokens && PacketInv(s, p) && Unreceived(s, p) && s.tokens[p] in s.rpc.air
            && s.net.mail.packets[p].key == s.net.mail.channels[i].key
            && Correlation.Alone(s.rpc, s.tokens[p])
  {
    var m, p := s.net.mail, Head(s.net.mail, i).value;
    assert InboxInv(m, i) && m.channels[i].buffer[0] in m.channels[i].buffer;
    assert p in s.tokens;
    assert PacketInv(s, p) && Correlation.Alone(s.rpc, s.tokens[p]);
  }

  /** Receiving the packet `p` takes its token from the air and may put another in its place. */
  lemma ReceivedTokens(s: Sys, p: PacketIx, t: Sys)
    requires TokensInv(s) && Extends(s, t) && t.tokens == s.tokens && t.net.mail.packets == s.net.mail.packets
    requires Unreceived(s, p) && t.net.mail.places[p].Received?
    requires forall x :: x in s.rpc.air && x.id != s.tokens[p].id ==> x in t.rpc.air
    requires ServingsInv(t)
    ensures TokensInv(t)
  {
    forall q | q in s.tokens && Unreceived(t, q) ensures s.tokens[q] in t.rpc.air {
      assert PacketInv(s, q);
      StillUnreceived(s, t, q);
      assert Different(s, p, q);
    }
    NoneSent(s, t);
  }

  /** The server's tasks other than that of the request `x` go on. */
  lemma OthersServe(s: Sys, x: Rpc.Token, t: Sys, id: Id)
    requires ServingsInv(s) && Correlation.TameInv(s.rpc) && x in s.rpc.air && id in s.serving
    requires forall y :: y in s.rpc.air && y.id != x.id ==> y in t.rpc.air
    requires id in t.serving && t.serving[id] == s.serving[id]
    requires forall p :: p in s.tokens ==> p in t.tokens && t.tokens[p] == s.tokens[p]
    requires id != x.id || !x.stage.Working?
    ensures ServingInv(t, id)
  {
    assert ServingInv(s, id);
    assert Correlation.Alone(s.rpc, x);
  }

  /** A receive label, taken apart. */
  lemma ReceiveShape(s: Sys, op: SysOp, i: InboxIx, t: Sys)
    requires SysStep(s, op) == Some(t)
    requires op == Serve(i) || (op.ReceiveReply? && op.client < |s.sockets| && s.sockets[op.client] == i)
    ensures Head(s.net.mail, i).Some? && Head(s.net.mail, i).value in s.tokens
    ensures NetDo(s.net, [ReceivePacket(i)]) == Some(t.net)
    ensures var p := Head(s.net.mail, i).value;
            && RpcDo(s.rpc, [if op.Serve? then Rpc.Handle(s.tokens[p]) else Rpc.Receive(s.tokens[p])]) == Some(t.rpc)
            && t == s.(net := t.net, rpc := t.rpc, serving := if op.Serve? then s.serving[s.tokens[p].id := p] else s.serving)
    ensures op.Serve? ==> i < |s.net.mail.channels| && s.net.mail.channels[i].key.ty == REQUEST
  {
    StepShape(s, op, t);
  }

  /** What a receive takes out of the network. */
  lemma ReceiveSide(s: Sys, i: InboxIx, p: PacketIx, t: Sys)
    requires LinkInv(s) && i < |s.net.mail.channels| && IsRpc(s.net.mail.channels[i].key) && Head(s.net.mail, i) == Some(p)
    requires NetDo(s.net, [ReceivePacket(i)]) == Some(t.net)
    ensures Moves(s.net.mail, t.net.mail) && t.net.mail.packets == s.net.mail.packets
    ensures p in s.tokens && Unreceived(s, p) && t.net.mail.places[p].Received? && s.tokens[p] in s.rpc.air
  {
    HeadToken(s, i);
    NetSide(s.net, ReceivePacket(i), t.net);
    Received(s.net, i, t.net);
  }

  lemma ServeLinks(s: Sys, i: InboxIx, t: Sys)
    requires LinkInv(s) && SysStep(s, Serve(i)) == Some(t)
    ensures LinkInv(t)
  {
    ReceiveShape(s, Serve(i), i, t);
    LayersKeep(s, Serve(i), t);
    ServeLinked(s, i, Head(s.net.mail, i).value, t);
  }

  lemma ServeLinked(s: Sys, i: InboxIx, p: PacketIx, t: Sys)
    requires LinkInv(s) && LayersInv(t)
    requires Head(s.net.mail, i) == Some(p) && p in s.tokens && NetDo(s.net, [ReceivePacket(i)]) == Some(t.net)
    requires RpcDo(s.rpc, [Rpc.Handle(s.tokens[p])]) == Some(t.rpc)
    requires t == s.(net := t.net, rpc := t.rpc, serving := s.serving[s.tokens[p].id := p])
    requires i < |s.net.mail.channels| && s.net.mail.channels[i].key.ty == REQUEST
    ensures LinkInv(t)
  {
    ReceiveSide(s, i, p, t);
    RpcSide(s.rpc, Rpc.Handle(s.tokens[p]), t.rpc);
    AirOf(s.rpc, Rpc.Handle(s.tokens[p]), t.rpc);
    ServeTokens(s, p, t);
  }

  lemma ServeTokens(s: Sys, p: PacketIx, t: Sys)
    requires ClientsInv(s) && TokensInv(s) && Correlation.TameInv(s.rpc)
    requires Moves(s.net.mail, t.net.mail) && t.net.mail.packets == s.net.mail.packets
    requires Unreceived(s, p) && t.net.mail.places[p].Received? && s.tokens[p] in s.rpc.air && s.tokens[p].stage.Asked?
    requires t.rpc.air == s.rpc.air - multiset{s.tokens[p]} + multiset{s.tokens[p].(stage := Rpc.Working)}
    requires t.rpc.clients == s.rpc.clients
    requires t == s.(net := t.net, rpc := t.rpc, serving := s.serving[s.tokens[p].id := p])
    ensures ClientsInv(t) && TokensInv(t)
  {
    var x := s.tokens[p];
    forall id | id in t.serving ensures ServingInv(t, id) {
      if id != x.id { OthersServe(s, x, t, id); }
    }
    ReceivedTokens(s, p, t);
  }

  lemma ReplyLinks(s: Sys, c: Rpc.ClientIx, t: Sys)
    requires LinkInv(s) && SysStep(s, ReceiveReply(c)) == Some(t)
    ensures LinkInv(t)
  {
    LayersKeep(s, ReceiveReply(c), t);
    ReplyShape(s, c, t);
    ReplyLinked(s, s.sockets[c], Head(s.net.mail, s.sockets[c]).value, t);
  }

  /** Packet `p` was received by the client with inbox `i`. */
  ghost predicate Replied(s: Sys, i: InboxIx, p: PacketIx, t: Sys) {
    && i < |s.net.mail.channels| && s.net.mail.channels[i].key.ty == RESPONSE
    && Head(s.net.mail, i) == Some(p) && p in s.tokens && NetDo(s.net, [ReceivePacket(i)]) == Some(t.net)
    && RpcDo(s.rpc, [Rpc.Receive(s.tokens[p])]) == Some(t.rpc) && t == s.(net := t.net, rpc := t.rpc)
  }

  lemma ReplyShape(s: Sys, c: Rpc.ClientIx, t: Sys)
    requires ClientsInv(s) && SysStep(s, ReceiveReply(c)) == Some(t)
    ensures c < |s.sockets| && Head(s.net.mail, s.sockets[c]).Some?
    ensures Replied(s, s.sockets[c], Head(s.net.mail, s.sockets[c]).value, t)
  {
    ReceiveShape(s, ReceiveReply(c), s.sockets[c], t);
  }

  lemma ReplyLinked(s: Sys, i: InboxIx, p: PacketIx, t: Sys)
    requires LinkInv(s) && LayersInv(t) && Replied(s, i, p, t)
    ensures LinkInv(t)
  {
    ReceiveSide(s, i, p, t);
    RpcSide(s.rpc, Rpc.Receive(s.tokens[p]), t.rpc);
    AirOf(s.rpc, Rpc.Receive(s.tokens[p]), t.rpc);
    ReplyTokens(s, p, t);
  }

  lemma ReplyTokens(s: Sys, p: PacketIx, t: Sys)
    requires ClientsInv(s) && TokensInv(s) && Correlation.TameInv(s.rpc)
    requires Moves(s.net.mail, t.net.mail) && t.net.mail.packets == s.net.mail.packets
    requires Unreceived(s, p) && t.net.mail.places[p].Received? && s.tokens[p] in s.rpc.air && s.tokens[p].stage.Answering?
    requires t.rpc.air == s.rpc.air - multiset{s.tokens[p]} && |t.rpc.clients| == |s.rpc.clients|
    requires t == s.(net := t.net, rpc := t.rpc)
    ensures ClientsInv(t) && TokensInv(t)
  {
    forall id | id in t.serving ensures ServingInv(t, id) { OthersServe(s, s.tokens[p], t, id); }
    ReceivedTokens(s, p, t);
  }

  lemma RespondLinks(s: Sys, id: Id, value: Rpc.Value, k: SleepKey, t: Sys)
    requires LinkInv(s) && SysStep(s, Respond(id, value, k)) == Some(t)
    ensures LinkInv(t)
  {
    StepShape(s, Respond(id, value, k), t);
    LayersKeep(s, Respond(id, value, k), t);
    NetSide(s.net, NetOps(s, Respond(id, value, k))[0], t.net);
    RpcSide(s.rpc, Rpc.Respond(Working(s, id), value), t.rpc);
    AirOf(s.rpc, Rpc.Respond(Working(s, id), value), t.rpc);
    assert ServingInv(s, id) && PacketInv(s, s.serving[id]);
    RespondTokens(s, id, value, t);
  }

  lemma RespondTokens(s: Sys, id: Id, value: Rpc.Value, t: Sys)
    requires ClientsInv(s) && TokensInv(s) && Correlation.TameInv(s.rpc) && Moves(s.net.mail, t.net.mail)
    requires id in s.serving && ServingInv(s, id) && PacketInv(s, s.serving[id])
    requires var w, x, request := Working(s, id), s.tokens[s.serving[id]].(stage := Rpc.Answering(value)), s.net.mail.packets[s.serving[id]];
             && t.net.mail.packets == s.net.mail.packets +
                  [Packet(request.key.dst, Key(request.src, RESPONSE), s.net.sim.base.clock.now, s.net.latency)]
             && t == s.(net := t.net, rpc := t.rpc, tokens := s.tokens[|s.net.mail.packets| := x], serving := s.serving - {id})
             && t.rpc.air == s.rpc.air - multiset{w} + multiset{x} && t.rpc.clients == s.rpc.clients
    ensures ClientsInv(t) && TokensInv(t)
  {
    var w, x := Working(s, id), s.tokens[s.serving[id]].(stage := Rpc.Answering(value));
    TokensAreOld(s);
    assert Correlation.Alone(s.rpc, w);
    forall p | p in s.tokens && Unreceived(s, p) ensures s.tokens[p].id != x.id && s.tokens[p] in s.rpc.air {
      assert PacketInv(s, p);
    }
    forall p | p in s.tokens && Unreceived(t, p) ensures s.tokens[p] in t.rpc.air { assert PacketInv(s, p); StillUnreceived(s, t, p); }
    forall j | j in t.serving ensures ServingInv(t, j) { OthersServe(s, w, t, j); }
    OneSent(s, t, x);
  }

  lemma StepLinks(s: Sys, op: SysOp, t: Sys)
    requires LinkInv(s) && SysStep(s, op) == Some(t)
    ensures LinkInv(t)
  {
    match op
    case OnNet(o) => NetLinks(s, o, t);
    case OpenClient(local, remote) => OpenLinks(s, local, remote, t);
    case DropClient(c) => DropLinks(s, c, t);
    case Call(c, payload) => CallLinks(s, c, payload, t);
    case SendRequest(c, k) => RequestLinks(s, c, k, t);
    case Serve(i) => ServeLinks(s, i, t);
    case Respond(id, value, k) => RespondLinks(s, id, value, k, t);
    case ReceiveReply(c) => ReplyLinks(s, c, t);
  }

  lemma {:induction false} RunLinks(s: Sys, ops: seq<SysOp>, t: Sys)
    requires LinkInv(s) && SysRun(s, ops, t)
    ensures LinkInv(t)
    decreases |ops|
  {
    if ops != [] {
      StepLinks(s, ops[0], SysStep(s, ops[0]).value);
      RunLinks(SysStep(s, ops[0]).value, ops[1..], t);
    }
  }

  lemma StartLinks(start: Instant, latency: nat)
    ensures LinkInv(SysStart(start, latency))
  {
    NetStartInv(start, latency);
    Rpc.EmptyInv();
  }

  // ----- the theorems -----

  /** Over every run of the RPC layer on the network: whatever arrives at the socket of an open client
      is a response to a request of that client, from the address that the client sends to, and
      receiving it answers the caller with what the service returned for its request. Neither of the
      receive task's assertions can fail. */
  lemma ReplyFindsResponder(start: Instant, latency: nat, ops: seq<SysOp>, t: Sys, c: Rpc.ClientIx)
    requires SysRun(SysStart(start, latency), ops, t) && !Delivering(t.net)
    requires c < |t.rpc.clients| && t.rpc.clients[c].isOpen
    requires c < |t.sockets| && Head(t.net.mail, t.sockets[c]).Some?
    ensures c < |t.remotes| && Head(t.net.mail, t.sockets[c]).value < |t.net.mail.packets|
    ensures t.net.mail.packets[Head(t.net.mail, t.sockets[c]).value].src == t.remotes[c]
    ensures SysStep(t, ReceiveReply(c)).Some?
    ensures exists id, k, v :: Answers(t, SysStep(t, ReceiveReply(c)).value, c, id, k, v)
  {
    StartLinks(start, latency);
    RunLinks(SysStart(start, latency), ops, t);
    var netOps, rpcOps := ProjectsToBoth(start, latency, ops, t);
    var x := ReplyToken(t, c);
    Correlation.ResponseFindsResponder(rpcOps, t.rpc, x);
    CanReceive(t, c, x);
    Answered(t, SysStep(t, ReceiveReply(c)).value, c, x);
  }

  /** A packet of the RPC layer under a client's own address is a response to that client. */
  lemma OwnReply(t: Sys, c: Rpc.ClientIx, p: PacketIx)
    requires NoDuplicates(t.locals) && c < |t.locals| && p in t.tokens && PacketInv(t, p)
    requires t.net.mail.packets[p].key == Key(t.locals[c], RESPONSE)
    ensures t.tokens[p].client == c && t.tokens[p].stage.Answering? && t.net.mail.packets[p].src == t.remotes[c]
  {}

  /** What is at the head of a client's inbox. */
  lemma ReplyToken(t: Sys, c: Rpc.ClientIx) returns (x: Rpc.Token)
    requires MailInv(t.net.mail) && ClientsInv(t) && TokensInv(t) && Correlation.TameInv(t.rpc)
    requires c < |t.sockets| && Head(t.net.mail, t.sockets[c]).Some?
    ensures var p := Head(t.net.mail, t.sockets[c]).value;
            && p in t.tokens && p < |t.net.mail.packets| && x == t.tokens[p] && x in t.rpc.air
            && c < |t.remotes| && t.net.mail.packets[p].src == t.remotes[c]
    ensures x.client == c && x.stage.Answering?
  {
    HeadToken(t, t.sockets[c]);
    var p := Head(t.net.mail, t.sockets[c]).value;
    x := t.tokens[p];
    OwnReply(t, c, p);
  }

  /** And whatever arrives at a socket of a server is a request that its client is waiting for, unless
      that client is gone, and can be handled. */
  lemma RequestIsServed(start: Instant, latency: nat, ops: seq<SysOp>, t: Sys, i: InboxIx)
    requires SysRun(SysStart(start, latency), ops, t) && !Delivering(t.net)
    requires i < |t.net.mail.channels| && t.net.mail.channels[i].key.ty == REQUEST && Head(t.net.mail, i).Some?
    ensures Head(t.net.mail, i).value in t.tokens
    ensures var x := t.tokens[Head(t.net.mail, i).value];
            && x.id in t.rpc.made && t.rpc.made[x.id].client == x.client && t.rpc.made[x.id].payload == x.payload
            && (t.rpc.made[x.id].phase.Awaiting? || t.rpc.made[x.id].phase.Closed?)
    ensures SysStep(t, Serve(i)).Some?
  {
    StartLinks(start, latency);
    RunLinks(SysStart(start, latency), ops, t);
    HeadToken(t, i);
    var x := t.tokens[Head(t.net.mail, i).value];
    assert Rpc.TokenInv(t.rpc, x) && x.stage.Asked?;
    CanServe(t, i, x);
  }

  lemma CanServe(s: Sys, i: InboxIx, x: Rpc.Token)
    requires MailInv(s.net.mail) && !Delivering(s.net) && i < |s.net.mail.channels| && s.net.mail.channels[i].key.ty == REQUEST
    requires Head(s.net.mail, i).Some? && Head(s.net.mail, i).value in s.tokens && s.tokens[Head(s.net.mail, i).value] == x
    requires x in s.rpc.air && x.stage.Asked?
    ensures SysStep(s, Serve(i)).Some?
  {
    ReceiveIsEnabled(s.net, i);
    OneRpcOp(s.rpc, Rpc.Handle(x));
    StepExists(s, Serve(i), NetDo(s.net, [ReceivePacket(i)]).value, Rpc.Next(s.rpc, Rpc.Handle(x)).value);
  }

  lemma ReceiveIsEnabled(n: NetState, i: InboxIx)
    requires MailInv(n.mail) && !Delivering(n) && i < |n.mail.channels|
    ensures NetDo(n, [ReceivePacket(i)]).Some?
  {
    OneNetOp(n, ReceivePacket(i));
    ReceiveExact(n.mail, i);
  }

  /** The caller `k` of request `id` of client `c` is told `v`, which the service returned for it. */
  ghost predicate Answers(s: Sys, t: Sys, c: Rpc.ClientIx, id: Id, k: Rpc.CallerIx, v: Rpc.Value) {
    && k < |s.rpc.callers| && s.rpc.callers[k].client == c && id in s.rpc.made && s.rpc.made[id].caller == k
    && Rpc.Served(id, s.rpc.callers[k].payload, v) in s.rpc.served
    && t.rpc.callers == s.rpc.callers[k := s.rpc.callers[k].(answer := Some(Rpc.Reply(v)))]
  }

  lemma CanReceive(s: Sys, c: Rpc.ClientIx, x: Rpc.Token)
    requires MailInv(s.net.mail) && !Delivering(s.net) && c < |s.rpc.clients| && s.rpc.clients[c].isOpen
    requires c < |s.sockets| && Head(s.net.mail, s.sockets[c]).Some?
    requires Head(s.net.mail, s.sockets[c]).value in s.tokens && s.tokens[Head(s.net.mail, s.sockets[c]).value] == x
    requires Rpc.Next(s.rpc, Rpc.Receive(x)).Some?
    ensures SysStep(s, ReceiveReply(c)).Some?
    ensures SysStep(s, ReceiveReply(c)).value.rpc == Rpc.Next(s.rpc, Rpc.Receive(x)).value
  {
    ReceiveIsEnabled(s.net, s.sockets[c]);
    OneRpcOp(s.rpc, Rpc.Receive(x));
    StepExists(s, ReceiveReply(c), NetDo(s.net, [ReceivePacket(s.sockets[c])]).value, Rpc.Next(s.rpc, Rpc.Receive(x)).value);
  }

  lemma Answered(s: Sys, t: Sys, c: Rpc.ClientIx, x: Rpc.Token)
    requires Rpc.Inv(s.rpc) && x in s.rpc.air && x.client == c && x.stage.Answering?
    requires x.id in s.rpc.made && s.rpc.made[x.id].caller < |s.rpc.callers|
    requires t.rpc.callers ==
             s.rpc.callers[s.rpc.made[x.id].caller := s.rpc.callers[s.rpc.made[x.id].caller].(answer := Some(Rpc.Reply(x.stage.value)))]
    ensures exists id, k, v :: Answers(s, t, c, id, k, v)
  {
    assert Rpc.TokenInv(s.rpc, x) && Rpc.RequestInv(s.rpc, x.id);
    assert Answers(s, t, c, x.id, s.rpc.made[x.id].caller, x.stage.value);
  }
}
