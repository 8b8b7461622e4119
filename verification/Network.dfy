/** Packets, sockets and inboxes (src/net.rs), first as values and then as the `Net`
    simulator updates them in place. An inbox is named by its index; the source shares
    it through `Rc` between the map and the socket. */
module Network {
  import opened Types

  type PacketIx = nat
  type InboxIx = nat
  type PacketType = nat
  type NetIx = nat

  datatype Addr = Addr(node: NodeIx, port: Id)

  datatype Key = Key(dst: Addr, ty: PacketType)

  /** `sentAt` and `latency` are history: the instant of the send, and the latency of the `Net` that
      sent it. */
  datatype Packet = Packet(src: Addr, key: Key, sentAt: Instant, latency: nat)

  datatype Fate = NoSocket | InboxFull | DeliveryAborted | Drained | Discarded

  /** Where a packet is: an inbox it is buffered in or was received from, the air, or lost. */
  datatype Place = InFlight | Buffered(inbox: InboxIx) | Received(inbox: InboxIx) | Lost(fate: Fate)

  /** `home` and `received` are history: the `Net` in which the socket was opened, and what has been
      taken out by `receive`, in order. */
  datatype Inbox = Inbox(key: Key, home: NetIx, buffer: seq<PacketIx>, received: seq<PacketIx>)

  /** `packets` has every packet ever sent, and `places` where each one is now. `open` names the
      inboxes of the sockets that exist. `net` says which `Net` the simulator holds, with the map
      `inboxes`; `shelf` has the maps of all others, since a program may exchange them. */
  datatype Mail = Mail(
    packets: seq<Packet>,
    places: seq<Place>,
    inboxes: map<Key, InboxIx>,
    channels: seq<Inbox>,
    open: set<InboxIx>,
    net: NetIx,
    shelf: map<NetIx, map<Key, InboxIx>>)

  const CAPACITY := 8

  const NoMail: Mail := Mail([], [], map[], [], {}, 0, map[])

  function Log(i: Inbox): seq<PacketIx> { i.received + i.buffer }

  ghost predicate PlaceInv(m: Mail, p: PacketIx)
    requires p < |m.places|
  {
    match m.places[p]
    case Buffered(c) => c < |m.channels| && p in m.channels[c].buffer
    case Received(c) => c < |m.channels| && p in m.channels[c].received
    case _ => true
  }

  ghost predicate InboxInv(m: Mail, c: InboxIx)
    requires c < |m.channels| && |m.places| == |m.packets|
  {
    var inbox := m.channels[c];
    && |inbox.buffer| <= CAPACITY
    && NoDuplicates(Log(inbox))
    && (forall p :: p in inbox.buffer ==> p < |m.packets| && m.places[p] == Buffered(c) && m.packets[p].key == inbox.key)
    && (forall p :: p in inbox.received ==> p < |m.packets| && m.places[p] == Received(c) && m.packets[p].key == inbox.key)
  }

  /** The maps and the existing sockets name each other: each socket is listed in the `Net` in
      which it was opened, under its address and type, and nothing else is listed. */
  ghost predicate ListInv(m: Mail) {
    && m.net !in m.shelf
    && (forall k :: k in m.inboxes ==> IsSocket(m, m.net, k, m.inboxes[k]))
    && (forall x, k :: x in m.shelf && k in m.shelf[x] ==> IsSocket(m, x, k, m.shelf[x][k]))
    && (forall c :: c in m.open ==> c < |m.channels| && (if AtHome(m, c) then Listed(m, c) else Shelved(m, c)))
  }

  predicate IsSocket(m: Mail, x: NetIx, k: Key, c: InboxIx) {
    c in m.open && c < |m.channels| && m.channels[c].key == k && m.channels[c].home == x
  }

  /** The simulator holds the `Net` in which the socket was opened. */
  predicate AtHome(m: Mail, c: InboxIx)
    requires c < |m.channels|
  {
    m.channels[c].home == m.net
  }

  predicate Shelved(m: Mail, c: InboxIx)
    requires c < |m.channels|
  {
    var inbox := m.channels[c];
    inbox.home in m.shelf && inbox.key in m.shelf[inbox.home] && m.shelf[inbox.home][inbox.key] == c
  }

  /** Conservation: the places and the containers agree, so every packet is in exactly one
      place; an inbox holds only packets for its own address and type, at most eight; and the
      listed inboxes are those of the existing sockets. */
  ghost predicate MailInv(m: Mail) {
    && |m.places| == |m.packets|
    && (forall p :: 0 <= p < |m.places| ==> PlaceInv(m, p))
    && (forall c :: 0 <= c < |m.channels| ==> InboxInv(m, c))
    && ListInv(m)
  }

  // ----- the operations -----

  function Post(m: Mail, packet: Packet): Mail {
    m.(packets := m.packets + [packet], places := m.places + [InFlight])
  }

  function Lose(m: Mail, p: PacketIx, fate: Fate): Mail
    requires p < |m.places|
  {
    m.(places := m.places[p := Lost(fate)])
  }

  /** The end of a delivery: `try_send` into the inbox of the packet's own address and type. */
  function TrySend(m: Mail, p: PacketIx): Mail
    requires MailInv(m) && p < |m.packets|
  {
    var key := m.packets[p].key;
    if key !in m.inboxes then Lose(m, p, NoSocket)
    else
      var c := m.inboxes[key];
      if |m.channels[c].buffer| >= CAPACITY then Lose(m, p, InboxFull)
      else
        m.(places := m.places[p := Buffered(c)],
           channels := m.channels[c := m.channels[c].(buffer := m.channels[c].buffer + [p])])
  }

  /** `Socket::open`; `None` is the address-in-use error. */
  function Open(m: Mail, key: Key): (Mail, Option<InboxIx>) {
    if key in m.inboxes then (m, None)
    else
      (m.(inboxes := m.inboxes[key := |m.channels|],
          channels := m.channels + [Inbox(key, m.net, [], [])],
          open := m.open + {|m.channels|}),
       Some(|m.channels|))
  }

  predicate Listed(m: Mail, c: InboxIx)
    requires c < |m.channels|
  {
    m.channels[c].key in m.inboxes && m.inboxes[m.channels[c].key] == c
  }

  /** The drop of a socket; line 362 asserts that its own inbox was still listed. */
  function Close(m: Mail, c: InboxIx): Outcome<Mail>
    requires c < |m.channels|
  {
    if !Listed(m, c) then Panic(Internal(362))
    else Ok(m.(inboxes := m.inboxes - {m.channels[c].key}, open := m.open - {c}))
  }

  /** `with(|net| mem::swap(net, other))`: the simulator holds another `Net` from then on, a new one
      if `x` is on no shelf. */
  function Replace(m: Mail, x: NetIx): Mail {
    if x == m.net then m
    else
      m.(shelf := (m.shelf - {x})[m.net := m.inboxes],
         inboxes := if x in m.shelf then m.shelf[x] else map[],
         net := x)
  }

  /** A poll of `Socket::receive`; line 341 is the downcast of the packet to the socket's type. */
  function Receive(m: Mail, c: InboxIx): Outcome<(Mail, Option<PacketIx>)>
    requires c < |m.channels|
  {
    var inbox := m.channels[c];
    if inbox.buffer == [] then Ok((m, None))
    else
      var p := inbox.buffer[0];
      if p >= |m.packets| || p >= |m.places| || m.packets[p].key.ty != inbox.key.ty then Panic(Internal(341))
      else
        Ok((m.(places := m.places[p := Received(c)],
               channels := m.channels[c := inbox.(buffer := inbox.buffer[1..], received := inbox.received + [p])]),
            Some(p)))
  }

  function Emptied(m: Mail, cs: set<InboxIx>, fate: Fate): Mail {
    m.(
      places := seq(|m.places|, p requires 0 <= p < |m.places| =>
        if m.places[p].Buffered? && m.places[p].inbox in cs then Lost(fate) else m.places[p]),
      channels := seq(|m.channels|, c requires 0 <= c < |m.channels| =>
        if c in cs then m.channels[c].(buffer := []) else m.channels[c]))
  }

  function InboxesOf(m: Mail, n: NodeIx): set<InboxIx> {
    set k | k in m.inboxes && k.dst.node == n :: m.inboxes[k]
  }

  /** `Net::start_node`: every inbox of the node is emptied. */
  function Drain(m: Mail, n: NodeIx): Mail {
    Emptied(m, InboxesOf(m, n), Drained)
  }

  /** The last reference to an inbox without a socket goes away. */
  function Free(m: Mail, c: InboxIx): Mail {
    Emptied(m, {c}, Discarded)
  }

  // ----- what they keep, and what they change -----

  lemma LogMembers(i: Inbox)
    ensures forall p :: p in Log(i) <==> p in i.received || p in i.buffer
  {}

  lemma HomeIsListed(m: Mail, c: InboxIx)
    requires ListInv(m) && c in m.open
    ensures c < |m.channels| && (AtHome(m, c) ==> Listed(m, c))
  {
    assert c < |m.channels| && if AtHome(m, c) then Listed(m, c) else Shelved(m, c);
  }

  lemma PostKeeps(m: Mail, packet: Packet)
    requires MailInv(m)
    ensures MailInv(Post(m, packet))
  {
    var m' := Post(m, packet);
    forall c | 0 <= c < |m'.channels| ensures InboxInv(m', c) { assert InboxInv(m, c); }
    forall p | 0 <= p < |m'.places| ensures PlaceInv(m', p) {
      if p < |m.places| { assert PlaceInv(m, p); }
    }
  }

  lemma LoseKeeps(m: Mail, p: PacketIx, fate: Fate)
    requires MailInv(m) && p < |m.places| && m.places[p].InFlight?
    ensures MailInv(Lose(m, p, fate))
  {
    var m' := Lose(m, p, fate);
    forall c | 0 <= c < |m'.channels| ensures InboxInv(m', c) { assert InboxInv(m, c); }
    forall q | 0 <= q < |m'.places| ensures PlaceInv(m', q) { assert PlaceInv(m, q); }
  }

  /** A packet that arrives enters the inbox of its own address and type if there is one
      with room, and is lost, for exactly the stated reason, otherwise. */
  lemma TrySendExact(m: Mail, p: PacketIx)
    requires MailInv(m) && p < |m.packets| && m.places[p].InFlight?
    ensures MailInv(TrySend(m, p))
    ensures var m', key := TrySend(m, p), m.packets[p].key;
            && m'.packets == m.packets && m'.inboxes == m.inboxes && m'.open == m.open && |m'.channels| == |m.channels|
            && m'.net == m.net && m'.shelf == m.shelf
            && (forall q :: 0 <= q < |m.places| && q != p ==> m'.places[q] == m.places[q])
            && (m'.places[p] == Lost(NoSocket) <==> key !in m.inboxes)
            && (m'.places[p] == Lost(InboxFull) <==>
                  key in m.inboxes && |m.channels[m.inboxes[key]].buffer| == 8)
            && (m'.places[p].Buffered? <==> key in m.inboxes && |m.channels[m.inboxes[key]].buffer| < 8)
            && (m'.places[p].Buffered? ==> m'.places[p].inbox == m.inboxes[key])
            && (forall c :: 0 <= c < |m.channels| ==>
                  && m'.channels[c].key == m.channels[c].key && m'.channels[c].home == m.channels[c].home
                  && Log(m'.channels[c]) == if m'.places[p] == Buffered(c) then Log(m.channels[c]) + [p] else Log(m.channels[c]))
  {
    var m', key := TrySend(m, p), m.packets[p].key;
    if key in m.inboxes {
      var c := m.inboxes[key];
      assert InboxInv(m, c);
      if |m.channels[c].buffer| < CAPACITY {
        LogMembers(m.channels[c]);
        assert Log(m'.channels[c]) == Log(m.channels[c]) + [p];
        forall d | 0 <= d < |m'.channels| ensures InboxInv(m', d) { assert InboxInv(m, d); }
        forall q | 0 <= q < |m'.places| ensures PlaceInv(m', q) { assert PlaceInv(m, q); }
      } else {
        LoseKeeps(m, p, InboxFull);
      }
    } else {
      LoseKeeps(m, p, NoSocket);
    }
  }

  /** Packets that arrive one after another, with nothing in between. */
  ghost function ArriveAll(m: Mail, ps: seq<PacketIx>): Mail
    decreases |ps|
  {
    if ps == [] || !MailInv(m) || ps[0] >= |m.packets| then m else ArriveAll(TrySend(m, ps[0]), ps[1..])
  }

  /** What is about to arrive at the inbox `c`. */
  ghost predicate Arriving(m: Mail, c: InboxIx, ps: seq<PacketIx>) {
    && c < |m.channels| && Listed(m, c) && NoDuplicates(ps)
    && forall i :: 0 <= i < |ps| ==> ComesTo(m, c, ps[i])
  }

  predicate ComesTo(m: Mail, c: InboxIx, p: PacketIx) {
    && c < |m.channels| && p < |m.packets| && p < |m.places|
    && m.places[p].InFlight? && m.packets[p].key == m.channels[c].key
  }

  lemma OneArrives(m: Mail, c: InboxIx, ps: seq<PacketIx>)
    requires MailInv(m) && ps != [] && Arriving(m, c, ps) && |m.channels[c].buffer| < 8
    ensures var m' := TrySend(m, ps[0]);
            && MailInv(m') && Arriving(m', c, ps[1..]) && m'.channels[c].buffer == m.channels[c].buffer + [ps[0]]
            && m'.channels[c].key == m.channels[c].key
  {
    var m' := TrySend(m, ps[0]);
    assert ComesTo(m, c, ps[0]);
    TrySendExact(m, ps[0]);
    forall i | 0 <= i < |ps| - 1 ensures ComesTo(m', c, ps[1..][i]) {
      assert ps[1..][i] == ps[i + 1] && ComesTo(m, c, ps[i + 1]) && ps[i + 1] != ps[0];
    }
    forall i, j | 0 <= i < j < |ps| - 1 ensures ps[1..][i] != ps[1..][j] { assert ps[i + 1] != ps[j + 1]; }
  }

  /** As long as an inbox does not hold more than eight packets, all that arrive are buffered, in the
      order of their arrival. */
  lemma {:induction false} FirstEightFit(m: Mail, c: InboxIx, ps: seq<PacketIx>)
    requires MailInv(m) && Arriving(m, c, ps) && |m.channels[c].buffer| + |ps| <= 8
    ensures var m' := ArriveAll(m, ps);
            && MailInv(m') && c < |m'.channels| && Listed(m', c) && m'.channels[c].key == m.channels[c].key
            && m'.channels[c].buffer == m.channels[c].buffer + ps
    decreases |ps|
  {
    if ps == [] {
      assert m.channels[c].buffer + ps == m.channels[c].buffer;
    } else {
      OneArrives(m, c, ps);
      FirstEightFit(TrySend(m, ps[0]), c, ps[1..]);
      assert (m.channels[c].buffer + [ps[0]]) + ps[1..] == m.channels[c].buffer + ps;
    }
  }

  /** A ninth is lost, and changes nothing else. */
  lemma NinthIsLost(m: Mail, c: InboxIx, ps: seq<PacketIx>, p: PacketIx)
    requires MailInv(m) && Arriving(m, c, ps) && m.channels[c].buffer == [] && |ps| == 8
    requires var m' := ArriveAll(m, ps); MailInv(m') && ComesTo(m', c, p)
    ensures TrySend(ArriveAll(m, ps), p) == Lose(ArriveAll(m, ps), p, InboxFull)
    ensures c < |ArriveAll(m, ps).channels| && ArriveAll(m, ps).channels[c].buffer == ps
  {
    FirstEightFit(m, c, ps);
    TrySendExact(ArriveAll(m, ps), p);
  }

  /** Opening fails exactly when the address and type are taken, and then changes nothing.
      Otherwise the socket gets a new, empty inbox under its address and type, and every other
      socket and every packet stays as it was. */
  lemma OpenKeeps(m: Mail, key: Key)
    requires MailInv(m)
    ensures MailInv(Open(m, key).0)
    ensures Open(m, key).1.None? <==> key in m.inboxes
    ensures Open(m, key).1.None? ==> Open(m, key).0 == m
    ensures Open(m, key).1.Some? ==>
              var (m', c) := (Open(m, key).0, Open(m, key).1.value);
              && c !in m.open && m'.open == m.open + {c}
              && c < |m'.channels| && Listed(m', c) && m'.channels[c].key == key && Log(m'.channels[c]) == []
              && m'.channels == m.channels + [Inbox(key, m.net, [], [])] && m'.packets == m.packets && m'.places == m.places
              && m'.net == m.net && m'.shelf == m.shelf
              && (forall k :: k != key ==> Open(m', k).1.None? == Open(m, k).1.None?)
  {
    var m' := Open(m, key).0;
    forall c | 0 <= c < |m'.channels| ensures InboxInv(m', c) {
      if c < |m.channels| { assert InboxInv(m, c); }
    }
    forall p | 0 <= p < |m'.places| ensures PlaceInv(m', p) { assert PlaceInv(m, p); }
    forall c | c in m'.open ensures c < |m'.channels| && if AtHome(m', c) then Listed(m', c) else Shelved(m', c) {
      if c in m.open { assert c < |m.channels| && if AtHome(m, c) then Listed(m, c) else Shelved(m, c); }
    }
  }

  /** Dropping an existing socket hits the assertion exactly if the simulator holds another `Net` than
      when the socket was opened. Otherwise it frees its address and type, and nothing else: no
      packet moves, and every other socket stays open. */
  lemma CloseExact(m: Mail, c: InboxIx)
    requires MailInv(m) && c in m.open
    ensures c < |m.channels| && (Close(m, c).Ok? <==> m.channels[c].home == m.net)
    ensures Close(m, c).Ok? ==>
              var m', key := Close(m, c).value, m.channels[c].key;
              && MailInv(m') && m'.open == m.open - {c}
              && Open(m', key).1.Some?
              && (forall k :: k != key ==> Open(m', k).1.None? == Open(m, k).1.None?)
              && m'.places == m.places && m'.packets == m.packets && m'.channels == m.channels
              && m'.net == m.net && m'.shelf == m.shelf
  {
    assert if AtHome(m, c) then Listed(m, c) else Shelved(m, c);
    if Listed(m, c) {
      assert IsSocket(m, m.net, m.channels[c].key, c);
      CloseKeeps(m, c);
    }
  }

  lemma CloseKeeps(m: Mail, c: InboxIx)
    requires MailInv(m) && c in m.open && c < |m.channels| && Listed(m, c) && AtHome(m, c)
    ensures MailInv(Close(m, c).value)
  {
    var m' := Close(m, c).value;
    forall d | 0 <= d < |m'.channels| ensures InboxInv(m', d) { assert InboxInv(m, d); }
    forall p | 0 <= p < |m'.places| ensures PlaceInv(m', p) { assert PlaceInv(m, p); }
    forall k | k in m'.inboxes ensures IsSocket(m', m'.net, k, m'.inboxes[k]) { assert IsSocket(m, m.net, k, m.inboxes[k]); }
    forall x, k | x in m'.shelf && k in m'.shelf[x] ensures IsSocket(m', x, k, m'.shelf[x][k]) {
      assert IsSocket(m, x, k, m.shelf[x][k]);
    }
    forall d | d in m'.open ensures d < |m'.channels| && if AtHome(m', d) then Listed(m', d) else Shelved(m', d) {
      assert d < |m.channels| && if AtHome(m, d) then Listed(m, d) else Shelved(m, d);
    }
  }

  /** Exchanging the `Net` moves no packet and closes no socket; it takes the old inboxes out of
      reach, until their `Net` is put back. */
  lemma ReplaceKeeps(m: Mail, x: NetIx)
    requires MailInv(m)
    ensures MailInv(Replace(m, x))
    ensures Replace(Replace(m, x), m.net).inboxes == m.inboxes
  {
    var m' := Replace(m, x);
    forall d | 0 <= d < |m'.channels| ensures InboxInv(m', d) { assert InboxInv(m, d); }
    forall p | 0 <= p < |m'.places| ensures PlaceInv(m', p) { assert PlaceInv(m, p); }
    forall k | k in m'.inboxes ensures IsSocket(m', m'.net, k, m'.inboxes[k]) {
      if x == m.net { assert IsSocket(m, m.net, k, m.inboxes[k]); } else { assert IsSocket(m, x, k, m.shelf[x][k]); }
    }
    forall y, k | y in m'.shelf && k in m'.shelf[y] ensures IsSocket(m', y, k, m'.shelf[y][k]) {
      if y == m.net { assert IsSocket(m, m.net, k, m.inboxes[k]); } else { assert IsSocket(m, y, k, m.shelf[y][k]); }
    }
    forall d | d in m'.open ensures d < |m'.channels| && if AtHome(m', d) then Listed(m', d) else Shelved(m', d) {
      assert d < |m.channels| && if AtHome(m, d) then Listed(m, d) else Shelved(m, d);
    }
  }

  /** The downcast in `receive` never fails; the oldest buffered packet is received, and the
      order in which the inbox got its packets stays as it was. */
  lemma ReceiveExact(m: Mail, c: InboxIx)
    requires MailInv(m) && c < |m.channels|
    ensures Receive(m, c).Ok?
    ensures var (m', r) := Receive(m, c).value;
            && MailInv(m')
            && (r.None? <==> m.channels[c].buffer == [])
            && (r.None? ==> m' == m)
            && (r.Some? ==> && r.value == m.channels[c].buffer[0] < |m.packets|
                            && m.packets[r.value].key == m.channels[c].key
                            && m'.places == m.places[r.value := Received(c)])
            && m'.packets == m.packets && m'.inboxes == m.inboxes && m'.open == m.open && |m'.channels| == |m.channels|
            && m'.net == m.net && m'.shelf == m.shelf
            && (forall d :: 0 <= d < |m.channels| ==>
                  && m'.channels[d].key == m.channels[d].key && m'.channels[d].home == m.channels[d].home
                  && Log(m'.channels[d]) == Log(m.channels[d]))
  {
    assert InboxInv(m, c);
    var inbox := m.channels[c];
    if inbox.buffer != [] {
      var p := inbox.buffer[0];
      assert p in inbox.buffer;
      var m' := Receive(m, c).value.0;
      assert Log(m'.channels[c]) == Log(inbox);
      TakenOut(inbox);
      forall d | 0 <= d < |m'.channels| ensures InboxInv(m', d) { assert InboxInv(m, d); }
      forall q | 0 <= q < |m'.places| ensures PlaceInv(m', q) { assert PlaceInv(m, q); }
    }
  }

  lemma TakenOut(i: Inbox)
    requires i.buffer != [] && NoDuplicates(Log(i))
    ensures i.buffer[0] !in i.received
    ensures forall p :: p in i.buffer[1..] <==> p in i.buffer && p != i.buffer[0]
  {
    var n := |i.received|;
    assert forall k :: 0 <= k < |i.buffer| ==> Log(i)[n + k] == i.buffer[k];
    assert forall k :: 0 <= k < n ==> Log(i)[k] == i.received[k];
    forall p | p in i.buffer && p != i.buffer[0] ensures p in i.buffer[1..] {
      var k :| 0 <= k < |i.buffer| && i.buffer[k] == p;
      assert i.buffer[1..][k - 1] == p;
    }
    forall k | 0 < k < |i.buffer| ensures i.buffer[k] != i.buffer[0] { assert Log(i)[n + k] != Log(i)[n]; }
  }

  /** Emptying loses exactly the packets buffered in the given inboxes. */
  lemma EmptiedKeeps(m: Mail, cs: set<InboxIx>, fate: Fate)
    requires MailInv(m)
    ensures MailInv(Emptied(m, cs, fate))
    ensures var m' := Emptied(m, cs, fate);
            && m'.packets == m.packets && m'.inboxes == m.inboxes && m'.open == m.open && |m'.channels| == |m.channels|
            && m'.net == m.net && m'.shelf == m.shelf
            && (forall c :: 0 <= c < |m.channels| ==> 
                  && m'.channels[c].key == m.channels[c].key && m'.channels[c].home == m.channels[c].home
                  && Log(m'.channels[c]) <= Log(m.channels[c]))
            && (forall c :: c in cs && c < |m.channels| ==> m'.channels[c].buffer == [])
            && (forall p :: 0 <= p < |m.places| ==>
                  m'.places[p] == if m.places[p].Buffered? && m.places[p].inbox in cs then Lost(fate) else m.places[p])
  {
    var m' := Emptied(m, cs, fate);
    forall c | 0 <= c < |m'.channels| ensures InboxInv(m', c) {
      assert InboxInv(m, c);
      assert Log(m'.channels[c]) <= Log(m.channels[c]);
    }
    forall p | 0 <= p < |m'.places| ensures PlaceInv(m', p) { assert PlaceInv(m, p); }
  }

  /** After `start_node` no socket of the node has a packet from before. */
  lemma DrainEmpties(m: Mail, n: NodeIx, k: Key)
    requires MailInv(m) && k in m.inboxes && k.dst.node == n
    ensures Drain(m, n).inboxes == m.inboxes && m.inboxes[k] < |Drain(m, n).channels|
    ensures Drain(m, n).channels[m.inboxes[k]].buffer == []
  {
    EmptiedKeeps(m, InboxesOf(m, n), Drained);
    assert m.inboxes[k] in InboxesOf(m, n);
  }

  /** A socket of another node, or one that the `Net` in the simulator does not list, keeps all its
      packets, and so does whatever is in the air. */
  lemma DrainSparesOthers(m: Mail, n: NodeIx, c: InboxIx)
    requires MailInv(m) && c in m.open && c < |m.channels| && (m.channels[c].key.dst.node != n || !AtHome(m, c))
    ensures c < |Drain(m, n).channels| && Drain(m, n).channels[c] == m.channels[c]
    ensures forall p :: 0 <= p < |m.places| && (m.places[p] == Buffered(c) || m.places[p].InFlight?) ==>
              p < |Drain(m, n).places| && Drain(m, n).places[p] == m.places[p]
  {
    forall k | k in m.inboxes && k.dst.node == n ensures m.inboxes[k] != c {
      assert IsSocket(m, m.net, k, m.inboxes[k]);
    }
  }

  // ----- the simulator object -----

  /** The mail after the first `i` packets of inbox `c` were taken out and dropped. */
  function Popped(m: Mail, c: InboxIx, i: nat): Mail
    requires c < |m.channels| && i <= |m.channels[c].buffer|
  {
    m.(
      places := seq(|m.places|, p requires 0 <= p < |m.places| =>
        if p in m.channels[c].buffer[..i] then Lost(Drained) else m.places[p]),
      channels := m.channels[c := m.channels[c].(buffer := m.channels[c].buffer[i..])])
  }

  lemma PoppedNone(m: Mail, c: InboxIx)
    requires c < |m.channels|
    ensures Popped(m, c, 0) == m
  {
    assert m.channels[c].buffer[0..] == m.channels[c].buffer;
    assert Popped(m, c, 0).places == m.places;
  }

  lemma PoppedNext(m: Mail, c: InboxIx, i: nat)
    requires MailInv(m) && c < |m.channels| && i < |m.channels[c].buffer|
    ensures var m1, m2, p := Popped(m, c, i), Popped(m, c, i + 1), m.channels[c].buffer[i];
            && p < |m1.places|
            && m2 == m1.(places := m1.places[p := Lost(Drained)],
                         channels := m1.channels[c := m1.channels[c].(buffer := m1.channels[c].buffer[1..])])
  {
    var m1, m2, p, buffer := Popped(m, c, i), Popped(m, c, i + 1), m.channels[c].buffer[i], m.channels[c].buffer;
    assert InboxInv(m, c) && p in buffer;
    assert buffer[..i + 1] == buffer[..i] + [p];
    assert buffer[i..][1..] == buffer[i + 1..];
    assert m2.places == m1.places[p := Lost(Drained)];
  }

  lemma PoppedAll(m: Mail, c: InboxIx)
    requires MailInv(m) && c < |m.channels|
    ensures Popped(m, c, |m.channels[c].buffer|) == Emptied(m, {c}, Drained)
  {
    var buffer := m.channels[c].buffer;
    var m1, m2 := Popped(m, c, |buffer|), Emptied(m, {c}, Drained);
    assert InboxInv(m, c);
    assert buffer[..|buffer|] == buffer;
    forall p | 0 <= p < |m.places| ensures m1.places[p] == m2.places[p] { assert PlaceInv(m, p); }
    assert buffer[|buffer|..] == [];
    assert m1.channels == m2.channels;
  }

  lemma EmptiedAgain(m: Mail, cs: set<InboxIx>, ds: set<InboxIx>, fate: Fate)
    ensures Emptied(Emptied(m, cs, fate), ds, fate) == Emptied(m, cs + ds, fate)
  {
    var m1, m2 := Emptied(Emptied(m, cs, fate), ds, fate), Emptied(m, cs + ds, fate);
    assert m1.places == m2.places;
    assert m1.channels == m2.channels;
  }

  lemma EmptiedNone(m: Mail, fate: Fate)
    ensures Emptied(m, {}, fate) == m
  {
    assert Emptied(m, {}, fate).places == m.places;
    assert Emptied(m, {}, fate).channels == m.channels;
  }

  /** The `Net` simulator with its inboxes and, for the statements, all packets ever sent. */
  class Net {
    var packets: seq<Packet>
    var places: seq<Place>
    var inboxes: map<Key, InboxIx>
    var channels: seq<Inbox>
    ghost var open: set<InboxIx>
    // which Net this is, and the inboxes of the program's other ones
    var net: NetIx
    var shelf: map<NetIx, map<Key, InboxIx>>

    ghost function View(): Mail
      reads this
    {
      Mail(packets, places, inboxes, channels, open, net, shelf)
    }

    constructor ()
      ensures View() == NoMail && MailInv(View())
    {
      packets, places, inboxes, channels, open, net, shelf := [], [], map[], [], {}, 0, map[];
    }

    /** `Socket::open` on the current node `node`. */
    method OpenSocket(node: NodeIx, port: Id, ty: PacketType) returns (socket: Option<InboxIx>)
      requires MailInv(View())
      modifies this`inboxes, this`channels, this`open
      ensures MailInv(View())
      ensures (View(), socket) == Open(old(View()), Key(Addr(node, port), ty))
      ensures socket.None? <==> Key(Addr(node, port), ty) in old(inboxes)
    {
      OpenKeeps(View(), Key(Addr(node, port), ty));
      var key := Key(Addr(node, port), ty);
      if key in inboxes {
        return None;
      }
      socket := Some(|channels|);
      open := open + {|channels|};
      inboxes := inboxes[key := |channels|];
      channels := channels + [Inbox(key, net, [], [])];
    }

    /** The drop of a socket that exists: the assertion at line 362 fails exactly if this is not the
        `Net` in which it was opened. */
    method DropSocket(c: InboxIx) returns (panics: bool)
      requires MailInv(View()) && c in open
      modifies this`inboxes, this`open
      ensures c < |channels| && (panics <==> channels[c].home != net)
      ensures panics ==> View() == old(View()) && Close(View(), c) == Panic(Internal(362))
      ensures !panics ==> MailInv(View()) && Close(old(View()), c) == Ok(View()) && open == old(open) - {c}
    {
      CloseExact(View(), c);
      panics := channels[c].key !in inboxes || inboxes[channels[c].key] != c;
      if !panics {
        inboxes := inboxes - {channels[c].key};
        open := open - {c};
      }
    }

    /** The content of the simulator is exchanged with another `Net`. */
    method ReplaceNet(x: NetIx)
      requires MailInv(View())
      modifies this`inboxes, this`net, this`shelf
      ensures MailInv(View()) && View() == Replace(old(View()), x)
    {
      ReplaceKeeps(View(), x);
      if x != net {
        var other := if x in shelf then shelf[x] else map[];
        shelf := (shelf - {x})[net := inboxes];
        inboxes, net := other, x;
      }
    }

    /** The end of a delivery task. */
    method Deliver(p: PacketIx)
      requires MailInv(View()) && p < |packets| && places[p].InFlight?
      modifies this`places, this`channels
      ensures MailInv(View()) && View() == TrySend(old(View()), p)
    {
      TrySendExact(View(), p);
      var key := packets[p].key;
      if key in inboxes {
        var c := inboxes[key];
        if |channels[c].buffer| < CAPACITY {
          places := places[p := Buffered(c)];
          channels := channels[c := channels[c].(buffer := channels[c].buffer + [p])];
        } else {
          places := places[p := Lost(InboxFull)];
        }
      } else {
        places := places[p := Lost(NoSocket)];
      }
    }

    /** One poll of the future of `Socket::receive`; the downcast is an `assert`. */
    method PollReceive(c: InboxIx) returns (r: Option<(PacketIx, Addr)>)
      requires MailInv(View()) && c < |channels|
      modifies this`places, this`channels
      ensures MailInv(View()) && Receive(old(View()), c) == Ok((View(), if r.Some? then Some(r.value.0) else None))
      ensures r.Some? ==> r.value.0 < |packets| && r.value.1 == packets[r.value.0].src
    {
      ReceiveExact(View(), c);
      if channels[c].buffer == [] {
        return None;
      }
      var p := channels[c].buffer[0];
      assert packets[p].key.ty == channels[c].key.ty;
      places := places[p := Received(c)];
      channels := channels[c := channels[c].(buffer := channels[c].buffer[1..], received := channels[c].received + [p])];
      r := Some((p, packets[p].src));
    }

    /** `while inbox.try_receive().is_ok() {}` */
    method EmptyInbox(c: InboxIx)
      requires MailInv(View()) && c < |channels|
      modifies this`places, this`channels
      ensures MailInv(View()) && View() == Emptied(old(View()), {c}, Drained)
    {
      ghost var m := View();
      ghost var i := 0;
      PoppedNone(m, c);
      while channels[c].buffer != []
        invariant c < |m.channels| && i <= |m.channels[c].buffer| && View() == Popped(m, c, i)
        decreases |m.channels[c].buffer| - i
      {
        PoppedNext(m, c, i);
        var p := channels[c].buffer[0];
        places := places[p := Lost(Drained)];
        channels := channels[c := channels[c].(buffer := channels[c].buffer[1..])];
        i := i + 1;
      }
      PoppedAll(m, c);
      EmptiedKeeps(m, {c}, Drained);
    }

    /** `start_node` and `create_node` with current node `n`, visiting the map in any order. */
    method StartNode(n: NodeIx)
      requires MailInv(View())
      modifies this`places, this`channels
      ensures MailInv(View()) && View() == Drain(old(View()), n)
      ensures forall k :: k in inboxes && k.dst.node == n ==> channels[inboxes[k]].buffer == []
    {
      ghost var m := View();
      ghost var cs: set<InboxIx> := {};
      EmptiedNone(m, Drained);
      var keys := inboxes.Keys;
      while keys != {}
        invariant MailInv(View()) && View() == Emptied(m, cs, Drained) && keys <= m.inboxes.Keys
        invariant cs == set k | k in m.inboxes && k.dst.node == n && k !in keys :: m.inboxes[k]
        decreases keys
      {
        var k :| k in keys;
        if k.dst.node == n {
          EmptyInbox(inboxes[k]);
          EmptiedAgain(m, cs, {m.inboxes[k]}, Drained);
          cs := cs + {m.inboxes[k]};
        }
        keys := keys - {k};
      }
      assert cs == InboxesOf(m, n);
      forall k | k in m.inboxes && k.dst.node == n ensures View().channels[m.inboxes[k]].buffer == [] {
        DrainEmpties(m, n, k);
      }
    }
  }
}
