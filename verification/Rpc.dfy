/** Request and response correlation of the RPC layer (src/tower.rs): clients, the tasks that
    serve their requests, and an arbitrary network between them. */
module Rpc {
  import opened Types

  type ClientIx = nat
  type CallerIx = nat
  type Remote = nat
  type Value = int

  /** `Reply` is the service's own result, be it a response or the service's error. */
  datatype Answer = Reply(value: Value) | NetworkError | ConnectionReset

  /** One `Client::call`: the receiving end of its oneshot channel. */
  datatype Caller = Caller(client: ClientIx, payload: Value, answer: Option<Answer>)

  /** `queue` is the request channel, `sending` the request whose send future is awaited. */
  datatype Client = Client(
    remote: Remote,
    queue: seq<CallerIx>,
    sending: Option<(Id, CallerIx)>,
    responders: map<Id, CallerIx>,
    isOpen: bool)

  datatype Stage = Asked | Working | Answering(value: Value)

  /** A request, the task that serves it, or its response. */
  datatype Token = Token(id: Id, client: ClientIx, remote: Remote, payload: Value, stage: Stage)

  /** History of one request. */
  datatype Phase = Sending | Awaiting | Answered(value: Value) | SendFailed | Flushed | Closed

  datatype Request = Request(client: ClientIx, caller: CallerIx, payload: Value, phase: Phase)

  /** History: the service was called with `payload` for request `id` and returned `value`. */
  datatype Served = Served(id: Id, payload: Value, value: Value)

  datatype State = State(
    clients: seq<Client>,
    callers: seq<Caller>,
    air: multiset<Token>,
    nextId: nat,
    made: map<Id, Request>,
    served: set<Served>)

  datatype Op =
    | NewClient(remote: Remote)
    | Call(client: ClientIx, payload: Value)
    | BeginSend(client: ClientIx)
    | EndSend(client: ClientIx, ok: bool)
    | SyncSend(client: ClientIx, ok: bool, delivered: bool)
    | Handle(token: Token)
    | Respond(token: Token, value: Value)
    | Lose(token: Token)
    | Copy(token: Token)
    | Receive(token: Token)
    | ReceiveError(client: ClientIx)
    | CloseClient(client: ClientIx)
    | TakeIds(count: nat)

  const Empty: State := State([], [], multiset{}, 0, map[], {})

  // ----- the blocks of the client's tasks -----

  function Tell(callers: seq<Caller>, k: CallerIx, a: Answer): seq<Caller>
    requires k < |callers|
  {
    callers[k := callers[k].(answer := Some(a))]
  }

  function TellAll(callers: seq<Caller>, ks: set<CallerIx>, a: Answer): seq<Caller> {
    seq(|callers|, k requires 0 <= k < |callers| => if k in ks then callers[k].(answer := Some(a)) else callers[k])
  }

  function Unphased(made: map<Id, Request>, ids: set<Id>, p: Phase): map<Id, Request> {
    map id | id in made :: if id in ids then made[id].(phase := p) else made[id]
  }

  /** The callers whose senders a client holds. */
  function Held(c: Client): set<CallerIx> {
    (set k | k in c.queue) + (if c.sending.Some? then {c.sending.value.1} else {}) + c.responders.Values
  }

  function HeldIds(c: Client): set<Id> {
    c.responders.Keys + (if c.sending.Some? then {c.sending.value.0} else {})
  }

  function TokenFor(s: State, c: ClientIx): Token
    requires c < |s.clients| && s.clients[c].queue != [] && s.clients[c].queue[0] < |s.callers|
  {
    Token(s.nextId + 1, c, s.clients[c].remote, s.callers[s.clients[c].queue[0]].payload, Asked)
  }

  predicate CanBegin(s: State, c: ClientIx) {
    c < |s.clients| && s.clients[c].queue != [] && s.clients[c].sending.None? && s.clients[c].queue[0] < |s.callers|
  }

  /** The send task takes the next request and hands it to the network. */
  function Begin(s: State, c: ClientIx): State
    requires CanBegin(s, c)
  {
    var client := s.clients[c];
    var k, id := client.queue[0], s.nextId + 1;
    s.(clients := s.clients[c := client.(queue := client.queue[1..], sending := Some((id, k)))],
       air := s.air + multiset{TokenFor(s, c)},
       nextId := id,
       made := s.made[id := Request(c, k, s.callers[k].payload, Sending)])
  }

  predicate CanEnd(s: State, c: ClientIx) {
    && c < |s.clients| && s.clients[c].sending.Some?
    && s.clients[c].sending.value.0 in s.made && s.clients[c].sending.value.1 < |s.callers|
  }

  /** The send future has completed. */
  function End(s: State, c: ClientIx, ok: bool): State
    requires CanEnd(s, c)
  {
    var client := s.clients[c];
    var (id, k) := client.sending.value;
    var sent := client.(sending := None);
    if ok then
      s.(clients := s.clients[c := sent.(responders := sent.responders[id := k])],
         made := s.made[id := s.made[id].(phase := Awaiting)])
    else
      s.(clients := s.clients[c := sent],
         callers := Tell(s.callers, k, NetworkError),
         made := s.made[id := s.made[id].(phase := SendFailed)])
  }

  /** The receive task gets a response; the two assertions are lines 105 and 111. */
  function Get(s: State, t: Token): Outcome<State>
    requires t.client < |s.clients| && t.stage.Answering? && t in s.air
    requires forall id :: id in s.clients[t.client].responders ==> id in s.made && s.clients[t.client].responders[id] < |s.callers|
  {
    var client := s.clients[t.client];
    if t.remote != client.remote then Panic(Internal(105))
    else if t.id !in client.responders then Panic(Internal(111))
    else
      Ok(s.(clients := s.clients[t.client := client.(responders := client.responders - {t.id})],
            callers := Tell(s.callers, client.responders[t.id], Reply(t.stage.value)),
            air := s.air - multiset{t},
            made := s.made[t.id := s.made[t.id].(phase := Answered(t.stage.value))]))
  }

  /** The receive task gets an error: every responder is taken and told. */
  function Flush(s: State, c: ClientIx): State
    requires c < |s.clients|
  {
    var client := s.clients[c];
    s.(clients := s.clients[c := client.(responders := map[])],
       callers := TellAll(s.callers, client.responders.Values, NetworkError),
       made := Unphased(s.made, client.responders.Keys, Flushed))
  }

  /** The client is dropped: its tasks are aborted, and with them all senders go away. */
  function Close(s: State, c: ClientIx): State
    requires c < |s.clients|
  {
    var client := s.clients[c];
    s.(clients := s.clients[c := Client(client.remote, [], None, map[], false)],
       callers := TellAll(s.callers, Held(client), ConnectionReset),
       made := Unphased(s.made, HeldIds(client), Closed))
  }

  // ----- the machine -----

  predicate Enabled(s: State, op: Op) {
    match op
    case NewClient(_) => true
    case Call(c, _) => c < |s.clients|
    case BeginSend(c) => CanBegin(s, c)
    case EndSend(c, _) => CanEnd(s, c)
    case SyncSend(c, _, _) => CanBegin(s, c)
    case Handle(t) => t in s.air && t.stage.Asked?
    case Respond(t, _) => t in s.air && t.stage.Working?
    case Lose(t) => t in s.air
    case Copy(t) => t in s.air && !t.stage.Working?
    case Receive(t) =>
      && t in s.air && t.stage.Answering? && t.client < |s.clients| && s.clients[t.client].isOpen
      && (forall id :: id in s.clients[t.client].responders ==>
            id in s.made && s.clients[t.client].responders[id] < |s.callers|)
    case ReceiveError(c) => c < |s.clients| && s.clients[c].isOpen
    case CloseClient(c) => c < |s.clients| && s.clients[c].isOpen
    case TakeIds(_) => true
  }

  /** A call on a dropped client fails at once. A send that completes synchronously may hand the
      request on or not, whatever it reports. */
  function Step(s: State, op: Op): Outcome<State>
    requires Enabled(s, op)
  {
    match op
    case NewClient(remote) => Ok(s.(clients := s.clients + [Client(remote, [], None, map[], true)]))
    case Call(c, payload) =>
      var client, k := s.clients[c], |s.callers|;
      if client.isOpen then
        Ok(s.(clients := s.clients[c := client.(queue := client.queue + [k])],
              callers := s.callers + [Caller(c, payload, None)]))
      else Ok(s.(callers := s.callers + [Caller(c, payload, Some(ConnectionReset))]))
    case BeginSend(c) => Ok(Begin(s, c))
    case EndSend(c, ok) => Ok(End(s, c, ok))
    case SyncSend(c, ok, delivered) =>
      var b := Begin(s, c);
      Ok(End(if delivered then b else b.(air := b.air - multiset{TokenFor(s, c)}), c, ok))
    case Handle(t) => Ok(s.(air := s.air - multiset{t} + multiset{t.(stage := Working)}))
    case Respond(t, v) =>
      Ok(s.(air := s.air - multiset{t} + multiset{t.(stage := Answering(v))},
            served := s.served + {Served(t.id, t.payload, v)}))
    case Lose(t) => Ok(s.(air := s.air - multiset{t}))
    case Copy(t) => Ok(s.(air := s.air + multiset{t}))
    case Receive(t) => Get(s, t)
    case ReceiveError(c) => Ok(Flush(s, c))
    case CloseClient(c) => Ok(Close(s, c))
    case TakeIds(n) => Ok(s.(nextId := s.nextId + n))
  }

  function Next(s: State, op: Op): Option<State> {
    if Enabled(s, op) && Step(s, op).Ok? then Some(Step(s, op).value) else None
  }

  predicate Run(s: State, ops: seq<Op>, t: State)
    decreases |ops|
  {
    if ops == [] then s == t
    else Next(s, ops[0]).Some? && Run(Next(s, ops[0]).value, ops[1..], t)
  }

  // ----- the invariant -----

  /** Each request is where its phase says, and its caller knows exactly that. */
  ghost predicate RequestInv(s: State, id: Id)
    requires id in s.made
  {
    var r := s.made[id];
    && 0 < id <= s.nextId && r.client < |s.clients| && r.caller < |s.callers|
    && s.callers[r.caller].client == r.client && s.callers[r.caller].payload == r.payload
    && match r.phase
       case Sending => s.clients[r.client].sending == Some((id, r.caller)) && s.callers[r.caller].answer.None?
       case Awaiting =>
         && id in s.clients[r.client].responders && s.clients[r.client].responders[id] == r.caller
         && s.callers[r.caller].answer.None?
       case Answered(v) => s.callers[r.caller].answer == Some(Reply(v)) && Served(id, r.payload, v) in s.served
       case SendFailed => s.callers[r.caller].answer == Some(NetworkError)
       case Flushed => s.callers[r.caller].answer == Some(NetworkError)
       case Closed => s.callers[r.caller].answer == Some(ConnectionReset) && !s.clients[r.client].isOpen
  }

  /** What a client holds are its own unanswered requests and its own callers still in the queue. */
  ghost predicate ClientInv(s: State, c: ClientIx)
    requires c < |s.clients|
  {
    var client := s.clients[c];
    && (forall id :: id in client.responders ==> id in s.made && s.made[id].client == c && s.made[id].phase.Awaiting?)
    && (client.sending.Some? ==>
          var id := client.sending.value.0;
          id in s.made && s.made[id].client == c && s.made[id].phase.Sending?)
    && NoDuplicates(client.queue)
    && (forall k :: k in client.queue ==> Queueing(s, c, k))
    && (!client.isOpen ==> client.queue == [] && client.sending.None? && client.responders == map[])
  }

  ghost predicate Queueing(s: State, c: ClientIx, k: CallerIx) {
    && k < |s.callers| && s.callers[k].client == c && s.callers[k].answer.None?
    && forall id :: id in s.made ==> s.made[id].caller != k
  }

  /** A caller without an answer is queued, being sent or awaited; a reply is the result of the
      service for the caller's own request; and the errors have their reasons. */
  ghost predicate CallerInv(s: State, k: CallerIx)
    requires k < |s.callers|
  {
    var caller := s.callers[k];
    && caller.client < |s.clients|
    && (caller.answer.None? ==> k in s.clients[caller.client].queue || exists id :: Pends(s, id, k))
    && (caller.answer.Some? && caller.answer.value.Reply? ==> exists id :: Replies(s, id, k, caller.answer.value.value))
    && (caller.answer == Some(NetworkError) ==> exists id :: Failed(s, id, k))
    && (caller.answer == Some(ConnectionReset) ==> !s.clients[caller.client].isOpen)
  }

  /** The send of the caller's own request failed, or an error took its responder. */
  predicate Failed(s: State, id: Id, k: CallerIx) {
    id in s.made && s.made[id].caller == k && (s.made[id].phase.SendFailed? || s.made[id].phase.Flushed?)
  }

  predicate Pends(s: State, id: Id, k: CallerIx) {
    id in s.made && s.made[id].caller == k && (s.made[id].phase.Sending? || s.made[id].phase.Awaiting?)
  }

  predicate Replies(s: State, id: Id, k: CallerIx, v: Value) {
    id in s.made && s.made[id].caller == k && s.made[id].phase == Answered(v)
  }

  ghost predicate TokenInv(s: State, t: Token) {
    && t.id in s.made && t.client == s.made[t.id].client && t.payload == s.made[t.id].payload
    && t.client < |s.clients| && t.remote == s.clients[t.client].remote
    && (t.stage.Answering? ==> Served(t.id, t.payload, t.stage.value) in s.served)
  }

  /** No two requests have the same caller. */
  predicate Apart(s: State, a: Id, b: Id)
    requires a in s.made && b in s.made
  {
    s.made[a].caller != s.made[b].caller
  }

  ghost predicate Inv(s: State) {
    && (forall id {:trigger RequestInv(s, id)} :: id in s.made ==> RequestInv(s, id))
    && (forall a, b {:trigger Apart(s, a, b)} :: a in s.made && b in s.made && a != b ==> Apart(s, a, b))
    && (forall c :: 0 <= c < |s.clients| ==> ClientInv(s, c))
    && (forall k :: 0 <= k < |s.callers| ==> CallerInv(s, k))
    && (forall t {:trigger TokenInv(s, t)} :: t in s.air ==> TokenInv(s, t))
    && (forall x :: x in s.served ==> x.id in s.made && x.payload == s.made[x.id].payload)
  }

  lemma EmptyInv()
    ensures Inv(Empty)
  {}

  // ----- what a label leaves alone -----

  lemma RequestStays(s: State, t: State, id: Id)
    requires id in s.made && RequestInv(s, id) && id in t.made && t.made[id] == s.made[id]
    requires |t.clients| >= |s.clients| && |t.callers| >= |s.callers| && t.nextId >= s.nextId && s.served <= t.served
    requires t.callers[s.made[id].caller] == s.callers[s.made[id].caller]
    requires s.made[id].phase.Closed? && s.made[id].client < |t.clients| ==> !t.clients[s.made[id].client].isOpen
    requires s.made[id].phase.Sending? ==> t.clients[s.made[id].client].sending == s.clients[s.made[id].client].sending
    requires s.made[id].phase.Awaiting? ==>
               var before, after := s.clients[s.made[id].client].responders, t.clients[s.made[id].client].responders;
               id in after && after[id] == before[id]
    ensures RequestInv(t, id)
  {}

  lemma QueueStays(s: State, t: State, c: ClientIx, k: CallerIx)
    requires Queueing(s, c, k) && k < |t.callers| && t.callers[k] == s.callers[k]
    requires forall id :: id in t.made ==> (id in s.made && t.made[id].caller == s.made[id].caller) || t.made[id].caller != k
    ensures Queueing(t, c, k)
  {}

  /** A client that neither changes itself nor has a request that changes. */
  lemma ClientStays(s: State, t: State, d: ClientIx)
    requires d < |s.clients| && d < |t.clients| && ClientInv(s, d) && t.clients[d] == s.clients[d]
    requires forall id :: id in s.made && s.made[id].client == d ==> id in t.made && t.made[id] == s.made[id]
    requires forall k :: k in s.clients[d].queue ==> Queueing(t, d, k)
    ensures ClientInv(t, d)
  {}

  /** A caller whose requests and answer do not change, and that stays queued if it was. */
  lemma CallerStays(s: State, t: State, k: CallerIx)
    requires k < |s.callers| && k < |t.callers| && CallerInv(s, k) && t.callers[k] == s.callers[k]
    requires |t.clients| >= |s.clients|
    requires t.clients[s.callers[k].client].isOpen ==> s.clients[s.callers[k].client].isOpen
    requires k in s.clients[s.callers[k].client].queue ==> k in t.clients[s.callers[k].client].queue
    requires forall id :: id in s.made && s.made[id].caller == k ==> id in t.made && t.made[id] == s.made[id]
    ensures CallerInv(t, k)
  {
    var caller := s.callers[k];
    if caller.answer.None? && k !in s.clients[caller.client].queue {
      var id :| Pends(s, id, k);
      assert Pends(t, id, k);
    }
    if caller.answer.Some? && caller.answer.value.Reply? {
      var id :| Replies(s, id, k, caller.answer.value.value);
      assert Replies(t, id, k, caller.answer.value.value);
    }
    if caller.answer == Some(NetworkError) {
      var id :| Failed(s, id, k);
      assert Failed(t, id, k);
    }
  }

  lemma ApartStays(s: State, t: State)
    requires forall a, b {:trigger Apart(s, a, b)} :: a in s.made && b in s.made && a != b ==> Apart(s, a, b)
    requires forall id :: id in t.made ==> id in s.made && t.made[id].caller == s.made[id].caller
    ensures forall a, b {:trigger Apart(t, a, b)} :: a in t.made && b in t.made && a != b ==> Apart(t, a, b)
  {
    forall a, b | a in t.made && b in t.made && a != b ensures Apart(t, a, b) { assert Apart(s, a, b); }
  }

  lemma AppendFresh(q: seq<CallerIx>, k: CallerIx)
    requires NoDuplicates(q) && k !in q
    ensures NoDuplicates(q + [k])
  {}

  // ----- every label keeps the invariant -----

  lemma CallKeeps(s: State, c: ClientIx, payload: Value, t: State)
    requires Inv(s) && Next(s, Call(c, payload)) == Some(t)
    ensures Inv(t)
  {
    var added := |s.callers|;
    forall id | id in t.made ensures RequestInv(t, id) { assert RequestInv(s, id); }
    forall d, k | 0 <= d < |s.clients| && k in s.clients[d].queue ensures Queueing(t, d, k) {
      assert ClientInv(s, d);
      QueueStays(s, t, d, k);
    }
    forall d | 0 <= d < |t.clients| ensures ClientInv(t, d) {
      assert ClientInv(s, d);
      if d != c || !s.clients[c].isOpen {
        ClientStays(s, t, d);
      } else {
        AppendFresh(s.clients[c].queue, added);
        forall id | id in t.made ensures t.made[id].caller != added { assert RequestInv(s, id); }
        assert Queueing(t, c, added);
      }
    }
    forall k | 0 <= k < |t.callers| ensures CallerInv(t, k) {
      if k < |s.callers| { CallerStays(s, t, k); }
    }
    ApartStays(s, t);
    forall x | x in t.air ensures TokenInv(t, x) { assert TokenInv(s, x); }
  }

  lemma BeginKeeps(s: State, c: ClientIx)
    requires Inv(s) && CanBegin(s, c)
    ensures Inv(Begin(s, c)) && s.nextId + 1 !in s.made
  {
    var t, k, id := Begin(s, c), s.clients[c].queue[0], s.nextId + 1;
    forall x | x in s.made ensures x != id { assert RequestInv(s, x); }
    assert ClientInv(s, c) && Queueing(s, c, k);
    forall x | x in t.made ensures RequestInv(t, x) { if x != id { assert RequestInv(s, x); } }
    forall d | 0 <= d < |t.clients| ensures ClientInv(t, d) {
      assert ClientInv(s, d);
      forall j | j in t.clients[d].queue ensures Queueing(t, d, j) {
        assert Queueing(s, d, j);
        if d == c { HeadOnce(s.clients[c].queue, j); }
      }
    }
    forall j | 0 <= j < |t.callers| ensures CallerInv(t, j) {
      if j == k { assert Pends(t, id, k); } else { assert CallerInv(s, j); QueueKeeps(s.clients[c].queue, j); CallerStays(s, t, j); }
    }
    forall a, b | a in t.made && b in t.made && a != b ensures Apart(t, a, b) {
      if a != id && b != id { assert Apart(s, a, b); }
    }
    forall x | x in t.air ensures TokenInv(t, x) {
      if x != TokenFor(s, c) { assert x in s.air && TokenInv(s, x); }
    }
  }

  lemma HeadOnce(q: seq<CallerIx>, j: CallerIx)
    requires q != [] && NoDuplicates(q) && j in q[1..]
    ensures j != q[0]
  {
    var i :| 0 <= i < |q| - 1 && q[1..][i] == j;
    assert q[i + 1] == j;
  }

  lemma QueueKeeps(q: seq<CallerIx>, j: CallerIx)
    requires q != [] && j != q[0]
    ensures j in q ==> j in q[1..]
  {
    if j in q {
      var i :| 0 <= i < |q| && q[i] == j;
      assert q[1..][i - 1] == j;
    }
  }

  /** `t` differs from `s` in client `c`, in the phases of `c`'s requests in `ids`, and in the
      answers of the callers `ks`; only callers of those requests, or queued at `c`, are told. */
  ghost predicate Settles(s: State, t: State, c: ClientIx, ids: set<Id>, ks: set<CallerIx>) {
    && c < |s.clients| == |t.clients| && |t.callers| == |s.callers| && t.nextId == s.nextId && t.served == s.served
    && t.made.Keys == s.made.Keys && t.air <= s.air && t.clients[c].remote == s.clients[c].remote
    && (t.clients[c].isOpen ==> s.clients[c].isOpen)
    && (forall d :: 0 <= d < |s.clients| && d != c ==> t.clients[d] == s.clients[d])
    && (forall id :: id in s.made && id !in ids ==> t.made[id] == s.made[id] && s.made[id].caller !in ks)
    && (forall id :: id in s.made && id in ids ==>
          s.made[id].client == c && t.made[id] == s.made[id].(phase := t.made[id].phase))
    && (forall k :: 0 <= k < |s.callers| && k !in ks ==> t.callers[k] == s.callers[k])
    && (forall k :: k in s.clients[c].queue && k !in ks ==> k in t.clients[c].queue)
    && (forall d, k :: 0 <= d < |s.clients| && d != c && k in s.clients[d].queue ==> k !in ks)
    && (forall id :: id in s.made && id !in ids ==>
          && (s.clients[c].sending.Some? && s.clients[c].sending.value.0 == id ==> t.clients[c].sending == s.clients[c].sending)
          && (id in s.clients[c].responders ==>
                id in t.clients[c].responders && t.clients[c].responders[id] == s.clients[c].responders[id]))
  }

  lemma SettledRequest(s: State, t: State, c: ClientIx, ids: set<Id>, ks: set<CallerIx>, id: Id)
    requires Settles(s, t, c, ids, ks) && id in s.made && id !in ids && RequestInv(s, id)
    ensures id in t.made && RequestInv(t, id)
  {
    RequestStays(s, t, id);
  }

  lemma SettledClient(s: State, t: State, c: ClientIx, ids: set<Id>, ks: set<CallerIx>, d: ClientIx)
    requires Settles(s, t, c, ids, ks) && d < |s.clients| && d != c && ClientInv(s, d)
    ensures ClientInv(t, d)
  {
    forall k | k in s.clients[d].queue ensures Queueing(t, d, k) {
      assert Queueing(s, d, k) && k !in ks;
      QueueStays(s, t, d, k);
    }
    ClientStays(s, t, d);
  }

  lemma SettledCaller(s: State, t: State, c: ClientIx, ids: set<Id>, ks: set<CallerIx>, k: CallerIx)
    requires Settles(s, t, c, ids, ks) && k < |s.callers| && CallerInv(s, k) && k !in ks
    requires forall id :: id in ids && id in s.made ==> s.made[id].caller != k
    ensures CallerInv(t, k)
  {
    CallerStays(s, t, k);
  }

  /** After settling, only the settled requests, their callers and the client need a look. */
  lemma SettledKeeps(s: State, t: State, c: ClientIx, ids: set<Id>, ks: set<CallerIx>)
    requires Inv(s) && Settles(s, t, c, ids, ks)
    requires forall id :: id in ids && id in t.made ==> RequestInv(t, id)
    requires ClientInv(t, c)
    requires forall k :: k in ks && k < |t.callers| ==> CallerInv(t, k)
    requires forall id :: id in ids && id in s.made ==> s.made[id].caller < |t.callers| && CallerInv(t, s.made[id].caller)
    ensures Inv(t)
  {
    forall id | id in t.made ensures RequestInv(t, id) {
      if id !in ids { assert RequestInv(s, id); SettledRequest(s, t, c, ids, ks, id); }
    }
    forall d | 0 <= d < |t.clients| ensures ClientInv(t, d) {
      if d != c { assert ClientInv(s, d); SettledClient(s, t, c, ids, ks, d); }
    }
    forall k | 0 <= k < |t.callers| ensures CallerInv(t, k) {
      if k !in ks && forall id :: id in ids && id in s.made ==> s.made[id].caller != k {
        assert CallerInv(s, k);
        SettledCaller(s, t, c, ids, ks, k);
      }
    }
    ApartStays(s, t);
    forall x | x in t.air ensures TokenInv(t, x) { assert x in s.air && TokenInv(s, x); }
  }

  lemma NoOtherQueue(s: State, c: ClientIx, k: CallerIx)
    requires Inv(s) && c < |s.clients| && k in s.clients[c].queue
    ensures k < |s.callers| && s.callers[k].client == c && forall id :: id in s.made ==> s.made[id].caller != k
  {
    assert ClientInv(s, c) && Queueing(s, c, k);
  }

  /** What is known of the request being sent. */
  lemma SendingRequest(s: State, c: ClientIx)
    requires Inv(s) && CanEnd(s, c)
    ensures var (id, k) := s.clients[c].sending.value;
            && RequestInv(s, id) && s.made[id].phase.Sending? && s.made[id].client == c && s.made[id].caller == k
            && (forall d, j :: 0 <= d < |s.clients| && j in s.clients[d].queue ==> j != k)
            && (forall x :: x in s.made && x != id ==> s.made[x].caller != k)
  {
    var (id, k) := s.clients[c].sending.value;
    assert ClientInv(s, c) && RequestInv(s, id);
    forall d, j | 0 <= d < |s.clients| && j in s.clients[d].queue ensures j != k { NoOtherQueue(s, d, j); }
    forall x | x in s.made && x != id ensures s.made[x].caller != k { assert Apart(s, x, id); }
  }

  lemma SentKeeps(s: State, c: ClientIx)
    requires Inv(s) && CanEnd(s, c)
    ensures Inv(End(s, c, true))
  {
    var t := End(s, c, true);
    var (id, k) := s.clients[c].sending.value;
    SendingRequest(s, c);
    assert ClientInv(s, c) && CallerInv(s, k);
    assert Settles(s, t, c, {id}, {});
    assert Pends(t, id, k);
    forall j | j in t.clients[c].queue ensures Queueing(t, c, j) { assert Queueing(s, c, j); QueueStays(s, t, c, j); }
    SettledKeeps(s, t, c, {id}, {});
  }

  lemma RejectedKeeps(s: State, c: ClientIx)
    requires Inv(s) && CanEnd(s, c)
    ensures Inv(End(s, c, false))
  {
    var t := End(s, c, false);
    var (id, k) := s.clients[c].sending.value;
    SendingRequest(s, c);
    assert ClientInv(s, c) && CallerInv(s, k);
    assert Settles(s, t, c, {id}, {k});
    assert Failed(t, id, k);
    forall j | j in t.clients[c].queue ensures Queueing(t, c, j) { assert Queueing(s, c, j); QueueStays(s, t, c, j); }
    SettledKeeps(s, t, c, {id}, {k});
  }

  lemma EndKeeps(s: State, c: ClientIx, ok: bool)
    requires Inv(s) && CanEnd(s, c)
    ensures Inv(End(s, c, ok))
  {
    if ok { SentKeeps(s, c); } else { RejectedKeeps(s, c); }
  }

  /** The network and the server: no client and no caller changes. */
  lemma AirKeeps(s: State, t: State)
    requires Inv(s) && t.clients == s.clients && t.callers == s.callers && t.made == s.made && t.nextId >= s.nextId
    requires s.served <= t.served
    requires forall x :: x in t.air && x !in s.air ==> TokenInv(t, x)
    requires forall x :: x in t.served && x !in s.served ==> x.id in s.made && x.payload == s.made[x.id].payload
    ensures Inv(t)
  {
    forall id | id in t.made ensures RequestInv(t, id) { assert RequestInv(s, id); }
    forall d | 0 <= d < |t.clients| ensures ClientInv(t, d) {
      assert ClientInv(s, d);
      forall j | j in t.clients[d].queue ensures Queueing(t, d, j) { assert Queueing(s, d, j); }
    }
    forall j | 0 <= j < |t.callers| ensures CallerInv(t, j) { CallerStays(s, t, j); }
    ApartStays(s, t);
    forall x | x in t.air ensures TokenInv(t, x) { if x in s.air { assert TokenInv(s, x); } }
  }

  lemma GetSettles(s: State, x: Token, t: State)
    requires Inv(s) && Next(s, Receive(x)) == Some(t)
    ensures var c, id := x.client, x.id;
            && id in s.clients[c].responders && id in s.made && id in t.made
            && RequestInv(s, id) && ClientInv(s, c)
            && s.clients[c].responders[id] == s.made[id].caller
            && Settles(s, t, c, {id}, {s.made[id].caller})
            && (forall j :: j in s.clients[c].queue ==> j != s.made[id].caller)
  {
    var c, id := x.client, x.id;
    assert ClientInv(s, c) && RequestInv(s, id);
    var k := s.made[id].caller;
    forall d, j | 0 <= d < |s.clients| && j in s.clients[d].queue ensures j != k { NoOtherQueue(s, d, j); }
    forall y | y in s.made && y != id ensures s.made[y].caller != k { assert Apart(s, y, id); }
  }

  lemma GetClient(s: State, x: Token, t: State)
    requires Inv(s) && Next(s, Receive(x)) == Some(t)
    ensures ClientInv(t, x.client)
  {
    var c := x.client;
    GetSettles(s, x, t);
    forall j | j in t.clients[c].queue ensures Queueing(t, c, j) { assert Queueing(s, c, j); QueueStays(s, t, c, j); }
  }

  lemma GetReplies(s: State, x: Token, t: State)
    requires Inv(s) && Next(s, Receive(x)) == Some(t) && x.id in s.made
    ensures x.stage.Answering? && Replies(t, x.id, s.made[x.id].caller, x.stage.value)
    ensures x.id in t.made && RequestInv(t, x.id) && CallerInv(t, s.made[x.id].caller)
  {
    GetSettles(s, x, t);
    assert TokenInv(s, x) && CallerInv(s, s.made[x.id].caller);
    assert Replies(t, x.id, s.made[x.id].caller, x.stage.value);
  }

  lemma GetKeeps(s: State, x: Token, t: State)
    requires Inv(s) && Next(s, Receive(x)) == Some(t)
    ensures Inv(t)
  {
    var c, id := x.client, x.id;
    GetSettles(s, x, t);
    GetClient(s, x, t);
    GetReplies(s, x, t);
    SettledKeeps(s, t, c, {id}, {s.made[id].caller});
  }

  lemma FlushSettles(s: State, c: ClientIx)
    requires Inv(s) && c < |s.clients|
    ensures Settles(s, Flush(s, c), c, s.clients[c].responders.Keys, s.clients[c].responders.Values)
    ensures forall id :: id in s.clients[c].responders ==> id in s.made && s.made[id].caller in s.clients[c].responders.Values
  {
    var ids, ks := s.clients[c].responders.Keys, s.clients[c].responders.Values;
    assert ClientInv(s, c);
    forall d, j | 0 <= d < |s.clients| && j in s.clients[d].queue ensures j !in ks {
      NoOtherQueue(s, d, j);
      QueuedNotHeld(s, c, j);
    }
    forall id | id in s.made && id !in ids ensures s.made[id].caller !in ks { NotHeld(s, c, id); }
    forall id | id in ids ensures id in s.made && s.made[id].caller in ks {
      assert RequestInv(s, id);
      assert s.clients[c].responders[id] in ks;
    }
  }

  lemma FlushClient(s: State, c: ClientIx)
    requires Inv(s) && c < |s.clients|
    ensures ClientInv(Flush(s, c), c)
  {
    var t := Flush(s, c);
    assert ClientInv(s, c);
    forall j | j in t.clients[c].queue ensures Queueing(t, c, j) {
      NoOtherQueue(s, c, j);
      QueuedNotHeld(s, c, j);
      assert Queueing(s, c, j);
      QueueStays(s, t, c, j);
    }
    forall id | id in s.made && s.made[id].phase.Sending? ensures id !in s.clients[c].responders {}
  }

  lemma FlushKeeps(s: State, c: ClientIx)
    requires Inv(s) && c < |s.clients|
    ensures Inv(Flush(s, c))
  {
    var t, ids, ks := Flush(s, c), s.clients[c].responders.Keys, s.clients[c].responders.Values;
    FlushSettles(s, c);
    FlushClient(s, c);
    forall k | k in ks ensures exists id :: Failed(t, id, k) {
      var id :| id in s.clients[c].responders && s.clients[c].responders[id] == k;
      assert ClientInv(s, c) && RequestInv(s, id);
      assert Failed(t, id, k);
    }
    TakenKeeps(s, t, c, ids, ks, NetworkError);
    SettledKeeps(s, t, c, ids, ks);
  }

  /** The callers and requests of senders that are told an error or dropped. */
  lemma TakenKeeps(s: State, t: State, c: ClientIx, ids: set<Id>, ks: set<CallerIx>, a: Answer)
    requires Inv(s) && Settles(s, t, c, ids, ks) && !a.Reply?
    requires t.callers == TellAll(s.callers, ks, a)
    requires forall id :: id in ids && id in s.made ==> s.made[id].caller in ks
    requires a == NetworkError ==> forall id :: id in ids && id in t.made ==> t.made[id].phase == Flushed
    requires a == NetworkError ==> forall k :: k in ks ==> exists id :: Failed(t, id, k)
    requires a == ConnectionReset ==> forall k :: k in ks && k < |s.callers| ==> s.callers[k].client == c
    requires a == ConnectionReset ==> !t.clients[c].isOpen && forall id :: id in ids && id in t.made ==> t.made[id].phase == Closed
    ensures forall id :: id in ids && id in t.made ==> RequestInv(t, id)
    ensures forall k :: k in ks && k < |t.callers| ==> CallerInv(t, k)
    ensures forall id :: id in ids && id in s.made ==> s.made[id].caller < |t.callers| && CallerInv(t, s.made[id].caller)
  {
    forall k | k in ks && k < |t.callers| ensures CallerInv(t, k) { assert CallerInv(s, k); }
    forall id | id in ids && id in t.made
      ensures RequestInv(t, id) && s.made[id].caller < |t.callers| && CallerInv(t, s.made[id].caller)
    {
      assert RequestInv(s, id);
    }
  }

  /** A request that a client does not await has another caller than those it awaits. */
  lemma NotHeld(s: State, c: ClientIx, id: Id)
    requires Inv(s) && c < |s.clients| && id in s.made && id !in s.clients[c].responders
    ensures s.made[id].caller !in s.clients[c].responders.Values
  {
    assert ClientInv(s, c);
    forall x | x in s.clients[c].responders ensures s.clients[c].responders[x] != s.made[id].caller {
      assert RequestInv(s, x) && Apart(s, x, id);
    }
  }

  lemma QueuedNotHeld(s: State, c: ClientIx, k: CallerIx)
    requires Inv(s) && c < |s.clients| && forall id :: id in s.made ==> s.made[id].caller != k
    ensures k !in s.clients[c].responders.Values
  {
    assert ClientInv(s, c);
    forall x | x in s.clients[c].responders ensures s.clients[c].responders[x] != k {
      assert RequestInv(s, x);
    }
  }

  lemma CloseKeeps(s: State, c: ClientIx)
    requires Inv(s) && c < |s.clients|
    ensures Inv(Close(s, c))
  {
    var t, ids, ks := Close(s, c), HeldIds(s.clients[c]), Held(s.clients[c]);
    assert ClientInv(s, c);
    forall d, j | 0 <= d < |s.clients| && j in s.clients[d].queue && d != c ensures j !in ks {
      NoOtherQueue(s, d, j);
      HeldCaller(s, c, j);
    }
    forall id | id in s.made
      ensures (id in ids <==> s.made[id].caller in ks) && (id in ids ==> s.made[id].client == c)
    {
      HeldExactly(s, c, id);
    }
    assert Settles(s, t, c, ids, ks);
    forall k | k in ks && k < |s.callers| ensures s.callers[k].client == c { HeldIsOwn(s, c, k); }
    TakenKeeps(s, t, c, ids, ks, ConnectionReset);
    SettledKeeps(s, t, c, ids, ks);
  }

  /** A client holds the sender of a request's caller iff the request is its own and unanswered. */
  lemma HeldExactly(s: State, c: ClientIx, id: Id)
    requires Inv(s) && c < |s.clients| && id in s.made
    ensures id in HeldIds(s.clients[c]) <==> s.made[id].client == c && (s.made[id].phase.Sending? || s.made[id].phase.Awaiting?)
    ensures id in HeldIds(s.clients[c]) <==> s.made[id].caller in Held(s.clients[c])
  {
    var client := s.clients[c];
    assert ClientInv(s, c) && RequestInv(s, id);
    if id in client.responders { assert client.responders[id] in client.responders.Values; }
    forall k | k in client.queue ensures k != s.made[id].caller { NoOtherQueue(s, c, k); }
    if client.sending.Some? { assert RequestInv(s, client.sending.value.0); }
    if id !in client.responders { NotHeld(s, c, id); }
  }

  lemma HeldIsOwn(s: State, c: ClientIx, k: CallerIx)
    requires Inv(s) && c < |s.clients| && k < |s.callers| && k in Held(s.clients[c])
    ensures s.callers[k].client == c
  {
    var client := s.clients[c];
    assert ClientInv(s, c);
    if k in client.queue { assert Queueing(s, c, k); }
    if client.sending.Some? { assert RequestInv(s, client.sending.value.0); }
    if k in client.responders.Values {
      var id :| id in client.responders && client.responders[id] == k;
      assert RequestInv(s, id);
    }
  }

  /** A queued caller is held by its own client only. */
  lemma HeldCaller(s: State, c: ClientIx, k: CallerIx)
    requires Inv(s) && c < |s.clients| && k < |s.callers|
    requires forall id :: id in s.made ==> s.made[id].caller != k
    ensures k in Held(s.clients[c]) <==> k in s.clients[c].queue
    ensures k in Held(s.clients[c]) ==> s.callers[k].client == c
  {
    var client := s.clients[c];
    assert ClientInv(s, c);
    QueuedNotHeld(s, c, k);
    if client.sending.Some? { assert RequestInv(s, client.sending.value.0); }
    if k in client.queue { assert Queueing(s, c, k); }
  }

  lemma NewClientKeeps(s: State, remote: Remote, t: State)
    requires Inv(s) && Next(s, NewClient(remote)) == Some(t)
    ensures Inv(t)
  {
    forall id | id in t.made ensures RequestInv(t, id) { assert RequestInv(s, id); }
    forall d | 0 <= d < |t.clients| ensures ClientInv(t, d) {
      if d < |s.clients| {
        assert ClientInv(s, d);
        forall k | k in s.clients[d].queue ensures Queueing(t, d, k) { assert Queueing(s, d, k); QueueStays(s, t, d, k); }
        ClientStays(s, t, d);
      }
    }
    forall k | 0 <= k < |t.callers| ensures CallerInv(t, k) { assert CallerInv(s, k); CallerStays(s, t, k); }
    ApartStays(s, t);
    forall x | x in t.air ensures TokenInv(t, x) { assert TokenInv(s, x); }
  }

  lemma SyncKeeps(s: State, c: ClientIx, ok: bool, delivered: bool, t: State)
    requires Inv(s) && Next(s, SyncSend(c, ok, delivered)) == Some(t)
    ensures Inv(t)
  {
    BeginKeeps(s, c);
    var b := Begin(s, c);
    var m := if delivered then b else b.(air := b.air - multiset{TokenFor(s, c)});
    AirKeeps(b, m);
    EndKeeps(m, c, ok);
  }

  lemma NetworkKeeps(s: State, op: Op, t: State)
    requires Inv(s) && Next(s, op) == Some(t)
    requires op.Handle? || op.Respond? || op.Lose? || op.Copy? || op.TakeIds?
    ensures Inv(t)
  {
    if op.Handle? || op.Respond? { assert TokenInv(s, op.token); }
    AirKeeps(s, t);
  }

  lemma StepKeeps(s: State, op: Op, t: State)
    requires Inv(s) && Next(s, op) == Some(t)
    ensures Inv(t)
  {
    match op
    case NewClient(remote) => NewClientKeeps(s, remote, t);
    case Call(c, payload) => CallKeeps(s, c, payload, t);
    case BeginSend(c) => BeginKeeps(s, c);
    case EndSend(c, ok) => EndKeeps(s, c, ok);
    case SyncSend(c, ok, delivered) => SyncKeeps(s, c, ok, delivered, t);
    case Receive(x) => GetKeeps(s, x, t);
    case ReceiveError(c) => FlushKeeps(s, c);
    case CloseClient(c) => CloseKeeps(s, c);
    case _ => NetworkKeeps(s, op, t);
  }

  lemma {:induction false} RunKeeps(s: State, ops: seq<Op>, t: State)
    requires Inv(s) && Run(s, ops, t)
    ensures Inv(t)
    decreases |ops|
  {
    if ops != [] {
      StepKeeps(s, ops[0], Next(s, ops[0]).value);
      RunKeeps(Next(s, ops[0]).value, ops[1..], t);
    }
  }

  lemma Reached(ops: seq<Op>, s: State)
    requires Run(Empty, ops, s)
    ensures Inv(s)
  {
    EmptyInv();
    RunKeeps(Empty, ops, s);
  }
}
