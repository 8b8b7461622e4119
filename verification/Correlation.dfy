/** What the RPC layer (src/tower.rs) promises, over every run, and the exact conditions. */
module Correlation {
  import opened Types
  import opened Rpc

  // ----- theorems for every network -----

  /** A synchronous send is a send that completes before anything else happens; if the network
      does not hand the request on, it loses it at once. */
  lemma SyncSendIsSends(s: State, c: ClientIx, ok: bool, delivered: bool)
    requires CanBegin(s, c)
    ensures var ops := if delivered then [BeginSend(c), EndSend(c, ok)]
                       else [BeginSend(c), Lose(TokenFor(s, c)), EndSend(c, ok)];
            Run(s, ops, Step(s, SyncSend(c, ok, delivered)).value)
  {
    var t := Step(s, SyncSend(c, ok, delivered)).value;
    if delivered {
      assert Run(Begin(s, c), [EndSend(c, ok)], t);
      assert [BeginSend(c), EndSend(c, ok)][1..] == [EndSend(c, ok)];
    } else {
      var x := TokenFor(s, c);
      var m := Begin(s, c).(air := Begin(s, c).air - multiset{x});
      assert Run(m, [EndSend(c, ok)], t);
      assert [Lose(x), EndSend(c, ok)][1..] == [EndSend(c, ok)];
      assert Run(Begin(s, c), [Lose(x), EndSend(c, ok)], t);
      assert [BeginSend(c), Lose(x), EndSend(c, ok)][1..] == [Lose(x), EndSend(c, ok)];
    }
  }

  /** In every run the responder map of a client has exactly its requests that are sent and
      unanswered, each with its own caller. */
  lemma RespondersAreUnanswered(ops: seq<Op>, s: State, c: ClientIx)
    requires Run(Empty, ops, s) && c < |s.clients|
    ensures forall id :: id in s.clients[c].responders <==> id in s.made && s.made[id].client == c && s.made[id].phase.Awaiting?
    ensures forall id :: id in s.clients[c].responders && id in s.made ==> s.clients[c].responders[id] == s.made[id].caller
  {
    Reached(ops, s);
    assert ClientInv(s, c);
    forall id | id in s.made ensures s.made[id].client == c && s.made[id].phase.Awaiting? ==> id in s.clients[c].responders {
      assert RequestInv(s, id);
    }
    forall id | id in s.clients[c].responders && id in s.made ensures s.clients[c].responders[id] == s.made[id].caller {
      assert RequestInv(s, id);
    }
  }

  /** When exactly the receive task panics, for every network: the request is still being
      sent, its send was reported as failed, an error took its responder, or it was answered
      before. */
  ghost predicate Orphaned(s: State, id: Id) {
    id in s.made && (s.made[id].phase.Sending? || s.made[id].phase.SendFailed? || s.made[id].phase.Flushed? || s.made[id].phase.Answered?)
  }

  lemma ReceivePanicsExactly(ops: seq<Op>, s: State, x: Token)
    requires Run(Empty, ops, s)
    requires x in s.air && x.stage.Answering? && x.client < |s.clients| && s.clients[x.client].isOpen
    ensures Enabled(s, Receive(x))
    ensures Step(s, Receive(x)).Panic? <==> Orphaned(s, x.id)
    ensures Step(s, Receive(x)).Panic? ==> Step(s, Receive(x)).fault == Internal(111)
  {
    Reached(ops, s);
    assert TokenInv(s, x) && RequestInv(s, x.id) && ClientInv(s, x.client);
    forall id | id in s.clients[x.client].responders
      ensures id in s.made && s.clients[x.client].responders[id] < |s.callers|
    {
      assert RequestInv(s, id);
    }
  }

  /** A reply is the service's result for the caller's own request. */
  lemma ReplyIsOwn(ops: seq<Op>, s: State, k: CallerIx)
    requires Run(Empty, ops, s) && k < |s.callers|
    requires s.callers[k].answer.Some? && s.callers[k].answer.value.Reply?
    ensures exists id :: id in s.made && s.made[id].caller == k
                         && Served(id, s.callers[k].payload, s.callers[k].answer.value.value) in s.served
  {
    Reached(ops, s);
    assert CallerInv(s, k);
    var id :| Replies(s, id, k, s.callers[k].answer.value.value);
    assert RequestInv(s, id);
  }

  lemma HeadUnanswered(s: State, c: ClientIx)
    requires Inv(s) && CanBegin(s, c)
    ensures s.callers[s.clients[c].queue[0]].answer.None?
  {
    assert ClientInv(s, c) && Queueing(s, c, s.clients[c].queue[0]);
  }

  lemma ResponderUnanswered(s: State, c: ClientIx, id: Id)
    requires Inv(s) && c < |s.clients| && id in s.clients[c].responders && s.clients[c].responders[id] < |s.callers|
    ensures s.callers[s.clients[c].responders[id]].answer.None?
  {
    assert ClientInv(s, c) && RequestInv(s, id);
  }

  lemma AnsweredAtReceive(s: State, x: Token, t: State, k: CallerIx)
    requires Inv(s) && Next(s, Receive(x)) == Some(t) && k < |s.callers| && s.callers[k].answer.Some?
    ensures k < |t.callers| && t.callers[k] == s.callers[k]
  {
    ResponderUnanswered(s, x.client, x.id);
  }

  lemma AnsweredAtEnd(s: State, c: ClientIx, ok: bool, k: CallerIx)
    requires CanEnd(s, c) && k < |s.callers| && s.callers[s.clients[c].sending.value.1].answer.None? && s.callers[k].answer.Some?
    ensures k < |End(s, c, ok).callers| && End(s, c, ok).callers[k] == s.callers[k]
  {}

  lemma AnsweredAtSend(s: State, op: Op, t: State, k: CallerIx)
    requires Inv(s) && Next(s, op) == Some(t) && k < |s.callers| && s.callers[k].answer.Some?
    requires op.EndSend? || op.SyncSend?
    ensures k < |t.callers| && t.callers[k] == s.callers[k]
  {
    if op.EndSend? {
      SendingRequest(s, op.client);
      AnsweredAtEnd(s, op.client, op.ok, k);
    } else {
      HeadUnanswered(s, op.client);
      var b := Begin(s, op.client);
      AnsweredAtEnd(if op.delivered then b else b.(air := b.air - multiset{TokenFor(s, op.client)}), op.client, op.ok, k);
    }
  }

  /** Each caller is answered at most once: no label changes an answer once it is given. */
  lemma AnsweredOnce(s: State, op: Op, t: State, k: CallerIx)
    requires Inv(s) && Next(s, op) == Some(t) && k < |s.callers| && s.callers[k].answer.Some?
    ensures k < |t.callers| && t.callers[k] == s.callers[k]
  {
    match op {
      case EndSend(_, _) => AnsweredAtSend(s, op, t, k);
      case SyncSend(_, _, _) => AnsweredAtSend(s, op, t, k);
      case Receive(x) => AnsweredAtReceive(s, x, t, k);
      case ReceiveError(c) => HeldUnanswered(s, c, k);
      case CloseClient(c) => HeldUnanswered(s, c, k);
      case _ =>
    }
  }

  lemma HeldUnanswered(s: State, c: ClientIx, k: CallerIx)
    requires Inv(s) && c < |s.clients| && k < |s.callers| && s.callers[k].answer.Some?
    ensures k !in Held(s.clients[c]) && k !in s.clients[c].responders.Values
  {
    var client := s.clients[c];
    assert ClientInv(s, c);
    forall j | j in client.queue ensures j != k { assert Queueing(s, c, j); }
    forall x | x in client.responders ensures client.responders[x] != k { assert RequestInv(s, x); }
    if client.sending.Some? { assert RequestInv(s, client.sending.value.0); }
  }

  lemma {:induction false} AnsweredForever(s: State, ops: seq<Op>, t: State, k: CallerIx)
    requires Inv(s) && Run(s, ops, t) && k < |s.callers| && s.callers[k].answer.Some?
    ensures k < |t.callers| && t.callers[k] == s.callers[k]
    decreases |ops|
  {
    if ops != [] {
      var m := Next(s, ops[0]).value;
      AnsweredOnce(s, ops[0], m, k);
      StepKeeps(s, ops[0], m);
      AnsweredForever(m, ops[1..], t, k);
    }
  }

  // ----- why a caller is told what it is told, and in what order -----

  /** Over every run: a caller is told `ConnectionReset` only if its client is gone, and `NetworkError`
      only if the send of its own request failed or an error took its responder. */
  lemma AnswersHaveReasons(ops: seq<Op>, s: State, k: CallerIx)
    requires Run(Empty, ops, s) && k < |s.callers| && s.callers[k].client < |s.clients|
    ensures s.callers[k].answer == Some(ConnectionReset) ==> !s.clients[s.callers[k].client].isOpen
    ensures s.callers[k].answer == Some(NetworkError) ==> exists id :: Failed(s, id, k)
  {
    Reached(ops, s);
    assert CallerInv(s, k);
  }

  /** Over every run: nobody waits for a client that is gone. */
  lemma ClosedHasNoWaiters(ops: seq<Op>, s: State, k: CallerIx)
    requires Run(Empty, ops, s) && k < |s.callers|
    ensures s.callers[k].client < |s.clients|
    ensures !s.clients[s.callers[k].client].isOpen ==> s.callers[k].answer.Some?
  {
    Reached(ops, s);
    assert CallerInv(s, k) && ClientInv(s, s.callers[k].client);
    if s.callers[k].answer.None? && k !in s.clients[s.callers[k].client].queue {
      var id :| Pends(s, id, k);
      assert RequestInv(s, id);
    }
  }

  /** An error fails everything that its client awaits, and nothing else. */
  lemma ErrorFailsAll(s: State, c: ClientIx, t: State, id: Id)
    requires Inv(s) && Next(s, ReceiveError(c)) == Some(t) && id in s.made
    ensures s.made[id].caller < |s.callers| == |t.callers|
    ensures t.callers[s.made[id].caller] ==
            if s.made[id].client == c && s.made[id].phase.Awaiting?
            then s.callers[s.made[id].caller].(answer := Some(NetworkError))
            else s.callers[s.made[id].caller]
  {
    FlushSettles(s, c);
    assert RequestInv(s, id) && ClientInv(s, c);
    if s.made[id].client == c && s.made[id].phase.Awaiting? {
      assert s.clients[c].responders[id] in s.clients[c].responders.Values;
    } else {
      NotHeld(s, c, id);
    }
  }

  /** Over every run: the send task of a client is never stuck with a request it cannot take. */
  lemma SendTaskIsFree(ops: seq<Op>, s: State, c: ClientIx)
    requires Run(Empty, ops, s) && c < |s.clients| && s.clients[c].sending.None? && s.clients[c].queue != []
    ensures Next(s, BeginSend(c)).Some?
    ensures Next(s, BeginSend(c)).value.clients[c].sending == Some((s.nextId + 1, s.clients[c].queue[0]))
  {
    Reached(ops, s);
    assert ClientInv(s, c) && Queueing(s, c, s.clients[c].queue[0]);
  }

  /** `a` was made before `b`, for the same client, and was called before it. */
  predicate InOrder(s: State, a: Id, b: Id)
    requires a in s.made && b in s.made
  {
    a < b && s.made[a].client == s.made[b].client ==> s.made[a].caller < s.made[b].caller
  }

  predicate IsSorted(q: seq<CallerIx>) {
    forall i, j :: 0 <= i < j < |q| ==> q[i] < q[j]
  }

  /** The requests of a client were called before those that are queued. */
  ghost predicate CalledBefore(s: State, id: Id)
    requires id in s.made
  {
    s.made[id].client < |s.clients| && forall k :: k in s.clients[s.made[id].client].queue ==> s.made[id].caller < k
  }

  /** The request channel is first in, first out. */
  ghost predicate OrderInv(s: State) {
    && (forall c :: 0 <= c < |s.clients| ==> IsSorted(s.clients[c].queue))
    && (forall id {:trigger CalledBefore(s, id)} :: id in s.made ==> CalledBefore(s, id))
    && (forall a, b {:trigger InOrder(s, a, b)} :: a in s.made && b in s.made ==> InOrder(s, a, b))
  }

  lemma OrderAtCall(s: State, c: ClientIx, payload: Value, t: State)
    requires Inv(s) && OrderInv(s) && Next(s, Call(c, payload)) == Some(t)
    ensures OrderInv(t)
  {
    assert ClientInv(s, c);
    forall k | k in s.clients[c].queue ensures k < |s.callers| { assert Queueing(s, c, k); }
    forall d | 0 <= d < |t.clients| ensures IsSorted(t.clients[d].queue) {
      assert IsSorted(s.clients[d].queue);
      assert forall k :: 0 <= k < |s.clients[c].queue| ==> s.clients[c].queue[k] in s.clients[c].queue;
    }
    forall id | id in t.made ensures CalledBefore(t, id) { assert CalledBefore(s, id) && RequestInv(s, id); }
    forall a, b | a in t.made && b in t.made ensures InOrder(t, a, b) { assert InOrder(s, a, b); }
  }

  lemma OrderAtBegin(s: State, c: ClientIx)
    requires Inv(s) && OrderInv(s) && CanBegin(s, c)
    ensures OrderInv(Begin(s, c))
  {
    var t, q := Begin(s, c), s.clients[c].queue;
    assert q[0] in q && ClientInv(s, c);
    forall k | k in q[1..] ensures k in q && q[0] < k {
      var i :| 0 <= i < |q| - 1 && q[1..][i] == k;
      assert q[i + 1] == k;
    }
    forall id | id in s.made ensures id <= s.nextId && CalledBefore(s, id) { assert RequestInv(s, id); }
    forall id | id in t.made ensures CalledBefore(t, id) {}
    forall a, b | a in t.made && b in t.made ensures InOrder(t, a, b) {
      if a in s.made && b in s.made { assert InOrder(s, a, b); }
    }
  }

  /** What makes no request and adds none to a queue. */
  ghost predicate MakesNone(s: State, t: State) {
    && |s.clients| <= |t.clients|
    && (forall id :: id in t.made ==> id in s.made && t.made[id].client == s.made[id].client && t.made[id].caller == s.made[id].caller)
    && (forall c :: 0 <= c < |s.clients| ==> t.clients[c].queue == s.clients[c].queue || t.clients[c].queue == [])
    && (forall c :: |s.clients| <= c < |t.clients| ==> t.clients[c].queue == [])
  }

  lemma OrderStays(s: State, t: State)
    requires OrderInv(s) && MakesNone(s, t)
    ensures OrderInv(t)
  {
    forall id | id in t.made ensures CalledBefore(t, id) { assert CalledBefore(s, id); }
    forall a, b | a in t.made && b in t.made ensures InOrder(t, a, b) { assert InOrder(s, a, b); }
  }

  lemma OthersMakeNone(s: State, op: Op, t: State)
    requires Next(s, op) == Some(t) && !op.Call? && !op.BeginSend? && !op.SyncSend?
    ensures MakesNone(s, t)
  {}

  lemma SyncMakesNone(s: State, op: Op, t: State)
    requires Next(s, op) == Some(t) && op.SyncSend?
    ensures CanBegin(s, op.client) && MakesNone(Begin(s, op.client), t)
  {}

  lemma OrderStep(s: State, op: Op, t: State)
    requires Inv(s) && OrderInv(s) && Next(s, op) == Some(t)
    ensures OrderInv(t)
  {
    if op.Call? {
      OrderAtCall(s, op.client, op.payload, t);
    } else if op.BeginSend? {
      OrderAtBegin(s, op.client);
    } else if op.SyncSend? {
      SyncMakesNone(s, op, t);
      OrderAtBegin(s, op.client);
      OrderStays(Begin(s, op.client), t);
    } else {
      OthersMakeNone(s, op, t);
      OrderStays(s, t);
    }
  }

  lemma {:induction false} OrderRun(s: State, ops: seq<Op>, t: State)
    requires Inv(s) && OrderInv(s) && Run(s, ops, t)
    ensures OrderInv(t)
    decreases |ops|
  {
    if ops != [] {
      var m := Next(s, ops[0]).value;
      OrderStep(s, ops[0], m);
      StepKeeps(s, ops[0], m);
      OrderRun(m, ops[1..], t);
    }
  }

  /** Over every run: the requests of one client get their ids, and go out, in the order of the calls. */
  lemma RequestsInCallOrder(ops: seq<Op>, s: State, a: Id, b: Id)
    requires Run(Empty, ops, s) && a in s.made && b in s.made && s.made[a].client == s.made[b].client
    ensures a < b <==> s.made[a].caller < s.made[b].caller
  {
    EmptyInv();
    OrderRun(Empty, ops, s);
    assert InOrder(s, a, b) && InOrder(s, b, a);
    if a != b { Reached(ops, s); assert Apart(s, a, b); }
  }

  // ----- theorems for a synchronous, error-free network without copies -----

  /** The send function completes synchronously, hands a request on only if it reports success,
      and the network neither copies packets nor delivers errors. */
  predicate Tame(op: Op) {
    && !op.BeginSend? && !op.EndSend? && !op.Copy? && !op.ReceiveError?
    && (op.SyncSend? && op.delivered ==> op.ok)
  }

  /** Nothing is lost, neither at the send nor later. */
  predicate Lossless(op: Op) {
    !op.Lose? && (op.SyncSend? && op.ok ==> op.delivered)
  }

  /** The only token of its request, which waits for it, unless its client is gone. */
  ghost predicate Alone(s: State, x: Token) {
    && s.air[x] == 1
    && (forall y :: y in s.air && y.id == x.id ==> y == x)
    && x.id in s.made && (s.made[x.id].phase.Awaiting? || s.made[x.id].phase.Closed?)
  }

  /** One token per request, and none for a request that was answered or failed. */
  ghost predicate TameInv(s: State) {
    && (forall c :: 0 <= c < |s.clients| ==> s.clients[c].sending.None?)
    && (forall x {:trigger Alone(s, x)} :: x in s.air ==> Alone(s, x))
  }

  /** What a synchronous send does to the tokens and to the other requests. */
  lemma SyncShape(s: State, c: ClientIx, ok: bool, delivered: bool, t: State)
    requires Next(s, SyncSend(c, ok, delivered)) == Some(t) && CanBegin(s, c) && s.nextId + 1 !in s.made
    ensures t.air == if delivered then s.air + multiset{TokenFor(s, c)} else s.air
    ensures t.made == s.made[s.nextId + 1 := t.made[s.nextId + 1]]
    ensures ok ==> t.made[s.nextId + 1].phase.Awaiting?
  {
    SyncMade(s, c, ok, delivered, t);
  }

  lemma SyncMade(s: State, c: ClientIx, ok: bool, delivered: bool, t: State)
    requires Next(s, SyncSend(c, ok, delivered)) == Some(t) && CanBegin(s, c) && s.nextId + 1 !in s.made
    ensures s.nextId + 1 in t.made && t.made == s.made[s.nextId + 1 := t.made[s.nextId + 1]]
    ensures ok ==> t.made[s.nextId + 1].phase.Awaiting?
  {}

  lemma SyncClients(s: State, c: ClientIx, ok: bool, delivered: bool, t: State)
    requires Next(s, SyncSend(c, ok, delivered)) == Some(t) && CanBegin(s, c)
    ensures |t.clients| == |s.clients| && t.clients[c].sending.None?
    ensures forall d :: 0 <= d < |s.clients| && d != c ==> t.clients[d] == s.clients[d]
  {}

  lemma TameSync(s: State, c: ClientIx, ok: bool, delivered: bool, t: State)
    requires Inv(s) && TameInv(s) && Next(s, SyncSend(c, ok, delivered)) == Some(t) && (delivered ==> ok)
    ensures TameInv(t)
  {
    BeginKeeps(s, c);
    SyncShape(s, c, ok, delivered, t);
    SyncClients(s, c, ok, delivered, t);
    TameAdded(s, t, c, TokenFor(s, c));
  }

  lemma TameAdded(s: State, t: State, c: ClientIx, x: Token)
    requires TameInv(s) && x.id !in s.made && (t.air == s.air + multiset{x} ==> x.id in t.made && t.made[x.id].phase.Awaiting?)
    requires t.air == s.air + multiset{x} || t.air == s.air
    requires |t.clients| == |s.clients| && c < |t.clients| && t.clients[c].sending.None?
    requires forall d :: 0 <= d < |s.clients| && d != c ==> t.clients[d] == s.clients[d]
    requires forall id :: id in s.made ==> id in t.made && t.made[id] == s.made[id]
    ensures TameInv(t)
  {
    forall y | y in s.air ensures y.id != x.id { assert Alone(s, y); }
    forall y | y in t.air ensures Alone(t, y) {
      if y != x { assert y in s.air && Alone(s, y); }
    }
  }

  /** A token moves on, within the same request. */
  lemma TameMoved(s: State, t: State, x: Token, x': Token)
    requires TameInv(s) && x in s.air && x'.id == x.id && t.clients == s.clients && t.made == s.made
    requires t.air == s.air - multiset{x} + multiset{x'}
    ensures TameInv(t)
  {
    assert Alone(s, x);
    forall y | y in t.air ensures Alone(t, y) {
      if y != x' { assert y in s.air && Alone(s, y); } else { assert x' in s.air ==> x' == x; }
    }
  }

  lemma TameRemoved(s: State, t: State, x: Token)
    requires TameInv(s) && x in s.air && t.air == s.air - multiset{x}
    requires forall c :: 0 <= c < |t.clients| ==> t.clients[c].sending.None?
    requires forall id :: id in s.made && id != x.id ==> id in t.made && t.made[id] == s.made[id]
    ensures TameInv(t)
  {
    assert Alone(s, x);
    forall y | y in t.air ensures Alone(t, y) { assert y in s.air && Alone(s, y); }
  }

  lemma TameSame(s: State, t: State)
    requires TameInv(s) && t.air == s.air
    requires forall c :: 0 <= c < |t.clients| ==> t.clients[c].sending.None?
    requires forall id :: id in s.made ==> id in t.made && (t.made[id] == s.made[id] || t.made[id].phase.Closed?)
    ensures TameInv(t)
  {
    forall y | y in t.air ensures Alone(t, y) { assert Alone(s, y); }
  }

  lemma TameClients(s: State, op: Op, t: State)
    requires TameInv(s) && Next(s, op) == Some(t)
    requires op.NewClient? || op.Call? || op.CloseClient? || op.TakeIds?
    ensures TameInv(t)
  {
    TameSame(s, t);
  }

  lemma TameTokens(s: State, op: Op, t: State)
    requires TameInv(s) && Next(s, op) == Some(t)
    requires op.Handle? || op.Respond? || op.Lose?
    ensures TameInv(t)
  {
    match op
    case Handle(x) => TameMoved(s, t, x, x.(stage := Working));
    case Respond(x, v) => TameMoved(s, t, x, x.(stage := Answering(v)));
    case Lose(x) => TameRemoved(s, t, x);
  }

  lemma TameReceive(s: State, x: Token, t: State)
    requires TameInv(s) && Next(s, Receive(x)) == Some(t)
    ensures TameInv(t)
  {
    TameRemoved(s, t, x);
  }

  lemma TameStep(s: State, op: Op, t: State)
    requires Inv(s) && TameInv(s) && Tame(op) && Next(s, op) == Some(t)
    ensures TameInv(t)
  {
    match op
    case SyncSend(c, ok, delivered) => TameSync(s, c, ok, delivered, t);
    case Receive(x) => TameReceive(s, x, t);
    case NewClient(_) => TameClients(s, op, t);
    case Call(_, _) => TameClients(s, op, t);
    case CloseClient(_) => TameClients(s, op, t);
    case TakeIds(_) => TameClients(s, op, t);
    case _ => TameTokens(s, op, t);
  }

  lemma {:induction false} TameRun(s: State, ops: seq<Op>, t: State)
    requires Inv(s) && TameInv(s) && Run(s, ops, t) && forall i :: 0 <= i < |ops| ==> Tame(ops[i])
    ensures Inv(t) && TameInv(t)
    decreases |ops|
  {
    if ops != [] {
      var m := Next(s, ops[0]).value;
      TameStep(s, ops[0], m);
      StepKeeps(s, ops[0], m);
      TameRun(m, ops[1..], t);
    }
  }

  /** RPC correlation: if sends complete synchronously and hand on nothing that they report as
      failed, nothing is copied and no errors are delivered, every response that reaches an open
      client finds its responder. */
  lemma ResponseFindsResponder(ops: seq<Op>, s: State, x: Token)
    requires Run(Empty, ops, s) && forall i :: 0 <= i < |ops| ==> Tame(ops[i])
    requires x in s.air && x.stage.Answering? && x.client < |s.clients| && s.clients[x.client].isOpen
    ensures Enabled(s, Receive(x)) && Step(s, Receive(x)).Ok?
    ensures x.id in s.made && s.made[x.id].caller < |s.callers|
    ensures Step(s, Receive(x)).value.callers ==
            s.callers[s.made[x.id].caller := s.callers[s.made[x.id].caller].(answer := Some(Reply(x.stage.value)))]
  {
    TameRun(Empty, ops, s);
    ReceivePanicsExactly(ops, s, x);
    assert Alone(s, x) && TokenInv(s, x) && RequestInv(s, x.id);
  }

  /** ... and if nothing is lost either, every awaited request is still on its way: as
      request, as a task of the server, or as response. */
  lemma AwaitedIsUnderWay(ops: seq<Op>, s: State, id: Id)
    requires Run(Empty, ops, s) && forall i :: 0 <= i < |ops| ==> Tame(ops[i]) && Lossless(ops[i])
    requires id in s.made && s.made[id].phase.Awaiting?
    ensures exists x :: x in s.air && x.id == id && s.air[x] == 1
  {
    TameRun(Empty, ops, s);
    NothingLost(Empty, ops, s);
    UnderWayAlone(s, id);
  }

  lemma UnderWayAlone(s: State, id: Id)
    requires TameInv(s) && AllUnderWay(s) && id in s.made && s.made[id].phase.Awaiting?
    ensures exists x :: x in s.air && x.id == id && s.air[x] == 1
  {
    var x :| x in s.air && x.id == id;
    assert Alone(s, x);
  }

  ghost predicate AllUnderWay(s: State) {
    forall id :: id in s.made && s.made[id].phase.Awaiting? ==> exists x :: x in s.air && x.id == id
  }

  lemma UnderWayMoved(s: State, t: State, x: Token, x': Token)
    requires AllUnderWay(s) && x'.id == x.id && t.made == s.made && t.air == s.air - multiset{x} + multiset{x'}
    ensures AllUnderWay(t)
  {
    forall id | id in t.made && t.made[id].phase.Awaiting? ensures exists y :: y in t.air && y.id == id {
      var y :| y in s.air && y.id == id;
      if y == x { assert x' in t.air; } else { assert y in t.air; }
    }
  }

  lemma UnderWayRest(s: State, t: State)
    requires AllUnderWay(s)
    requires forall id :: id in t.made && t.made[id].phase.Awaiting? ==>
               (id in s.made && s.made[id].phase.Awaiting? && forall y :: y in s.air && y.id == id ==> y in t.air)
               || exists y :: y in t.air && y.id == id
    ensures AllUnderWay(t)
  {}

  lemma UnderWaySame(s: State, op: Op, t: State)
    requires AllUnderWay(s) && Next(s, op) == Some(t)
    requires op.NewClient? || op.Call? || op.CloseClient? || op.TakeIds?
    ensures AllUnderWay(t)
  {
    UnderWayRest(s, t);
  }

  lemma UnderWayStep(s: State, op: Op, t: State)
    requires Inv(s) && TameInv(s) && AllUnderWay(s) && Tame(op) && Lossless(op) && Next(s, op) == Some(t)
    ensures AllUnderWay(t)
  {
    match op {
      case SyncSend(c, ok, delivered) => UnderWaySync(s, c, ok, delivered, t);
      case Handle(x) => UnderWayMoved(s, t, x, x.(stage := Working));
      case Respond(x, v) => UnderWayMoved(s, t, x, x.(stage := Answering(v)));
      case Receive(x) => UnderWayRest(s, t);
      case _ => UnderWaySame(s, op, t);
    }
  }

  lemma UnderWaySync(s: State, c: ClientIx, ok: bool, delivered: bool, t: State)
    requires Inv(s) && AllUnderWay(s) && Next(s, SyncSend(c, ok, delivered)) == Some(t) && (ok ==> delivered)
    ensures AllUnderWay(t)
  {
    var x := TokenFor(s, c);
    BeginKeeps(s, c);
    assert t.air == if delivered then s.air + multiset{x} else s.air;
    if delivered { assert x in t.air; }
    UnderWayRest(s, t);
  }

  lemma {:induction false} NothingLost(s: State, ops: seq<Op>, t: State)
    requires Inv(s) && TameInv(s) && AllUnderWay(s) && Run(s, ops, t)
    requires forall i :: 0 <= i < |ops| ==> Tame(ops[i]) && Lossless(ops[i])
    ensures AllUnderWay(t)
    decreases |ops|
  {
    if ops != [] {
      var m := Next(s, ops[0]).value;
      UnderWayStep(s, ops[0], m);
      TameStep(s, ops[0], m);
      StepKeeps(s, ops[0], m);
      NothingLost(m, ops[1..], t);
    }
  }

  // ----- each assumption is needed -----

  lemma RunFirst(s: State, op: Op, m: State, rest: seq<Op>, t: State)
    requires Next(s, op) == Some(m) && Run(m, rest, t)
    ensures Run(s, [op] + rest, t)
  {
    assert ([op] + rest)[1..] == rest;
  }

  lemma StepIs(s: State, op: Op, t: State)
    requires Enabled(s, op) && Step(s, op).Ok?
    requires var r := Step(s, op).value;
             && r.clients == t.clients && r.callers == t.callers && r.air == t.air
             && r.nextId == t.nextId && r.made == t.made && r.served == t.served
    ensures Next(s, op) == Some(t)
  {}

  /** One client with one caller, whose request has at most one token. */
  function Single(queue: seq<CallerIx>, sending: Option<(Id, CallerIx)>, responders: map<Id, CallerIx>,
                  answer: Option<Answer>, air: multiset<Token>, phase: Phase, served: set<Served>): State
  {
    State([Client(7, queue, sending, responders, true)], [Caller(0, 5, answer)], air, 1,
          map[1 := Request(0, 0, 5, phase)], served)
  }

  function At(stage: Stage): Token { Token(1, 0, 7, 5, stage) }

  /** The server handles a request and responds, whatever the client does meanwhile. */
  const Serve: seq<Op> := [Handle(At(Asked)), Respond(At(Working), 6)]

  lemma ServeRuns(sending: Option<(Id, CallerIx)>, responders: map<Id, CallerIx>, answer: Option<Answer>, phase: Phase,
                  rest: seq<Op>, t: State)
    requires Run(Single([], sending, responders, answer, multiset{At(Answering(6))}, phase, {Served(1, 5, 6)}), rest, t)
    ensures Run(Single([], sending, responders, answer, multiset{At(Asked)}, phase, {}), Serve + rest, t)
  {
    var s1 := Single([], sending, responders, answer, multiset{At(Asked)}, phase, {});
    var s2 := Single([], sending, responders, answer, multiset{At(Working)}, phase, {});
    var s3 := Single([], sending, responders, answer, multiset{At(Answering(6))}, phase, {Served(1, 5, 6)});
    StepIs(s1, Handle(At(Asked)), s2);
    StepIs(s2, Respond(At(Working), 6), s3);
    RunFirst(s2, Respond(At(Working), 6), s3, rest, t);
    RunFirst(s1, Handle(At(Asked)), s2, [Respond(At(Working), 6)] + rest, t);
    assert [Handle(At(Asked))] + ([Respond(At(Working), 6)] + rest) == Serve + rest;
  }

  /** One client and one call on it. */
  const OneCall: seq<Op> := [NewClient(7), Call(0, 5)]

  const Called: State := State([Client(7, [0], None, map[], true)], [Caller(0, 5, None)], multiset{}, 0, map[], {})

  lemma OneCallRuns(op: Op, m: State, rest: seq<Op>, t: State)
    requires Next(Called, op) == Some(m)
    requires Run(m, rest, t)
    ensures Run(Empty, OneCall + [op] + rest, t)
  {
    var s1 := State([Client(7, [], None, map[], true)], [], multiset{}, 0, map[], {});
    var s2 := Called;
    StepIs(Empty, NewClient(7), s1);
    assert s1.clients[0].queue + [0] == [0];
    StepIs(s1, Call(0, 5), s2);
    RunFirst(s2, op, m, rest, t);
    RunFirst(s1, Call(0, 5), s2, [op] + rest, t);
    RunFirst(Empty, NewClient(7), s1, [Call(0, 5)] + ([op] + rest), t);
    assert [NewClient(7)] + ([Call(0, 5)] + ([op] + rest)) == OneCall + [op] + rest;
  }

  predicate Panics(s: State) {
    Enabled(s, Receive(At(Answering(6)))) && Step(s, Receive(At(Answering(6)))) == Panic(Internal(111))
  }

  /** A response that overtakes the completion of its send future. */
  lemma EarlyResponsePanics() returns (s: State)
    ensures Run(Empty, OneCall + [BeginSend(0)] + Serve, s) && Panics(s)
  {
    var s1 := Single([], Some((1, 0)), map[], None, multiset{At(Asked)}, Sending, {});
    s := Single([], Some((1, 0)), map[], None, multiset{At(Answering(6))}, Sending, {Served(1, 5, 6)});
    ServeRuns(Some((1, 0)), map[], None, Sending, [], s);
    assert Serve + [] == Serve;
    assert Called.clients[0].queue[1..] == [];
    StepIs(Called, BeginSend(0), s1);
    OneCallRuns(BeginSend(0), s1, Serve, s);
  }

  /** A request that is delivered although its send future completes with an error. */
  lemma FailedSendPanics() returns (s: State)
    ensures Run(Empty, OneCall + [BeginSend(0)] + ([EndSend(0, false)] + Serve), s) && Panics(s)
  {
    var s1 := Single([], Some((1, 0)), map[], None, multiset{At(Asked)}, Sending, {});
    var s2 := Single([], None, map[], Some(NetworkError), multiset{At(Asked)}, SendFailed, {});
    s := Single([], None, map[], Some(NetworkError), multiset{At(Answering(6))}, SendFailed, {Served(1, 5, 6)});
    ServeRuns(None, map[], Some(NetworkError), SendFailed, [], s);
    assert Serve + [] == Serve;
    StepIs(s1, EndSend(0, false), s2);
    RunFirst(s1, EndSend(0, false), s2, Serve, s);
    assert Called.clients[0].queue[1..] == [];
    StepIs(Called, BeginSend(0), s1);
    OneCallRuns(BeginSend(0), s1, [EndSend(0, false)] + Serve, s);
  }

  /** The same if the send completes synchronously. */
  lemma FailedSyncSendPanics() returns (s: State)
    ensures Run(Empty, OneCall + [SyncSend(0, false, true)] + Serve, s) && Panics(s)
  {
    var s1 := Single([], None, map[], Some(NetworkError), multiset{At(Asked)}, SendFailed, {});
    s := Single([], None, map[], Some(NetworkError), multiset{At(Answering(6))}, SendFailed, {Served(1, 5, 6)});
    ServeRuns(None, map[], Some(NetworkError), SendFailed, [], s);
    assert Serve + [] == Serve;
    assert Called.clients[0].queue[1..] == [];
    StepIs(Called, SyncSend(0, false, true), s1);
    OneCallRuns(SyncSend(0, false, true), s1, Serve, s);
  }

  lemma FlushOne() returns (s1: State, s2: State)
    ensures s1 == Single([], None, map[1 := 0], None, multiset{At(Asked)}, Awaiting, {})
    ensures s2 == Single([], None, map[], Some(NetworkError), multiset{At(Asked)}, Flushed, {})
    ensures Next(s1, ReceiveError(0)) == Some(s2)
  {
    s1 := Single([], None, map[1 := 0], None, multiset{At(Asked)}, Awaiting, {});
    s2 := Single([], None, map[], Some(NetworkError), multiset{At(Asked)}, Flushed, {});
    assert s1.clients[0].responders[1] in s1.clients[0].responders.Values;
    StepIs(s1, ReceiveError(0), s2);
  }

  lemma SyncOne()
    ensures Next(Called, SyncSend(0, true, true)) == Some(Single([], None, map[1 := 0], None, multiset{At(Asked)}, Awaiting, {}))
  {
    assert Called.clients[0].queue[1..] == [];
    StepIs(Called, SyncSend(0, true, true), Single([], None, map[1 := 0], None, multiset{At(Asked)}, Awaiting, {}));
  }

  /** An error that is delivered to the client's socket while a request is awaited. */
  lemma ErrorPanics() returns (s: State)
    ensures Run(Empty, OneCall + [SyncSend(0, true, true)] + ([ReceiveError(0)] + Serve), s) && Panics(s)
  {
    s := Single([], None, map[], Some(NetworkError), multiset{At(Answering(6))}, Flushed, {Served(1, 5, 6)});
    ServeRuns(None, map[], Some(NetworkError), Flushed, [], s);
    assert Serve + [] == Serve;
    var s1, s2 := FlushOne();
    SyncOne();
    RunFirst(s1, ReceiveError(0), s2, Serve, s);
    OneCallRuns(SyncSend(0, true, true), s1, [ReceiveError(0)] + Serve, s);
  }

  const Delivered: State := Single([], None, map[1 := 0], None, multiset{At(Answering(6))}, Awaiting, {Served(1, 5, 6)})
  const Replied: State := Single([], None, map[], Some(Reply(6)), multiset{At(Answering(6))}, Answered(6), {Served(1, 5, 6)})

  lemma CopyThenReceive()
    ensures Run(Delivered, [Copy(At(Answering(6)))] + [Receive(At(Answering(6)))], Replied)
  {
    var x := At(Answering(6));
    var s := Delivered.(air := multiset{x, x});
    StepIs(s, Receive(x), Replied);
    StepIs(Delivered, Copy(x), s);
    RunFirst(s, Receive(x), Replied, [], Replied);
    assert [Receive(x)] + [] == [Receive(x)];
    RunFirst(Delivered, Copy(x), s, [Receive(x)], Replied);
  }

  /** A response that is delivered twice. */
  lemma CopyPanics() returns (ops: seq<Op>)
    ensures ops == OneCall + [SyncSend(0, true, true)] + (Serve + ([Copy(At(Answering(6)))] + [Receive(At(Answering(6)))]))
    ensures Run(Empty, ops, Replied) && Panics(Replied)
  {
    var twice := [Copy(At(Answering(6)))] + [Receive(At(Answering(6)))];
    var s1 := Single([], None, map[1 := 0], None, multiset{At(Asked)}, Awaiting, {});
    CopyThenReceive();
    ServeRuns(None, map[1 := 0], None, Awaiting, twice, Replied);
    SyncOne();
    OneCallRuns(SyncSend(0, true, true), s1, Serve + twice, Replied);
    ops := OneCall + [SyncSend(0, true, true)] + (Serve + twice);
  }

  // ----- the client's tasks as the source writes them -----

  lemma TellAllMore(callers: seq<Caller>, ks: set<CallerIx>, k: CallerIx, a: Answer)
    requires k < |callers|
    ensures k < |TellAll(callers, ks, a)| && Tell(TellAll(callers, ks, a), k, a) == TellAll(callers, ks + {k}, a)
  {}

  /** A client with its two tasks; `callers` are the oneshot channels of all calls. */
  class ClientTasks {
    const remote: Remote
    var requests: seq<CallerIx>
    var sending: Option<(Id, CallerIx)>
    var responders: map<Id, CallerIx>
    var callers: seq<Caller>
    var preNextGlobalId: nat

    constructor (remote: Remote)
      ensures this.remote == remote && requests == [] && sending.None? && responders == map[] && callers == []
    {
      this.remote := remote;
      requests, sending, responders, callers, preNextGlobalId := [], None, map[], [], 0;
    }

    /** The object is client `c` of state `s`. */
    ghost predicate Is(s: State, c: ClientIx)
      reads this
    {
      && c < |s.clients| && s.clients[c] == Client(remote, requests, sending, responders, true)
      && s.callers == callers && s.nextId == preNextGlobalId
    }

    /** The send task from the next request to its `net.send`. */
    method BeginSend(ghost s: State, ghost c: ClientIx) returns (id: Id, payload: Value)
      requires Is(s, c) && CanBegin(s, c)
      modifies this`requests, this`sending, this`preNextGlobalId
      ensures Is(Begin(s, c), c) && TokenFor(s, c) == Token(id, c, remote, payload, Asked)
    {
      var responder := requests[0];
      requests := requests[1..];
      preNextGlobalId := preNextGlobalId + 1;
      id, payload := preNextGlobalId, callers[responder].payload;
      sending := Some((id, responder));
    }

    /** The match on the result of the send future. */
    method SendCompleted(ok: bool, ghost s: State, ghost c: ClientIx)
      requires Is(s, c) && CanEnd(s, c)
      modifies this`sending, this`responders, this`callers
      ensures Is(End(s, c, ok), c)
    {
      var (id, responder) := sending.value;
      sending := None;
      if ok {
        responders := responders[id := responder];
      } else {
        callers := callers[responder := callers[responder].(answer := Some(NetworkError))];
      }
    }

    /** The receive task with a response; its two assertions hold if `Get` does not panic. */
    method ReceiveResponse(from: Remote, id: Id, result: Value, ghost s: State, ghost x: Token)
      requires Is(s, x.client) && Enabled(s, Receive(x)) && Get(s, x).Ok?
      requires x.remote == from && x.id == id && x.stage == Answering(result)
      modifies this`responders, this`callers
      ensures Is(Get(s, x).value, x.client)
    {
      assert from == remote;
      assert id in responders;
      var responder := responders[id];
      responders := responders - {id};
      callers := callers[responder := callers[responder].(answer := Some(Reply(result)))];
    }

    /** The receive task with an error: the responders are taken and told, in any order. */
    method ReceiveError(ghost s: State, ghost c: ClientIx)
      requires Is(s, c) && forall id :: id in responders ==> responders[id] < |callers|
      modifies this`responders, this`callers
      ensures Is(Flush(s, c), c)
    {
      var taken := responders;
      responders := map[];
      TellEveryone(taken);
    }

    method TellEveryone(all: map<Id, CallerIx>)
      requires forall id :: id in all ==> all[id] < |callers|
      modifies this`callers
      ensures callers == TellAll(old(callers), all.Values, NetworkError)
    {
      ghost var told: set<CallerIx> := {};
      var taken := all;
      assert callers == TellAll(callers, {}, NetworkError);
      while taken != map[]
        invariant callers == TellAll(old(callers), told, NetworkError)
        invariant told + taken.Values == all.Values
        invariant forall id :: id in taken ==> taken[id] < |callers|
        decreases |taken|
      {
        var id :| id in taken;
        TellAllMore(old(callers), told, taken[id], NetworkError);
        ValuesMinus(taken, id);
        callers := callers[taken[id] := callers[taken[id]].(answer := Some(NetworkError))];
        told := told + {taken[id]};
        taken := taken - {id};
      }
    }
  }

  lemma ValuesMinus(m: map<Id, CallerIx>, id: Id)
    requires id in m
    ensures m.Values == (m - {id}).Values + {m[id]} && |m - {id}| < |m|
  {
    var n := m - {id};
    forall k | k in m.Values ensures k in n.Values + {m[id]} {
      var j :| j in m && m[j] == k;
      if j != id { assert j in n && n[j] == k; }
    }
    assert m.Keys == n.Keys + {id};
  }
}
