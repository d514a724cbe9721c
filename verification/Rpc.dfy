/**
 The RPC layer: callers, processMsg, the pool's runConn, handleSend and handleReceive (client.go) and the server's
 OnTraffic, worker pool and handlers (serve.go), as a transition system. Messages in flight are tokens in a
 multiset, so that two copies of one message would be two; workers answer in any order, and connections drop at
 any time and take what they carry with them.
 */
module Rpc {
  import opened Prelude

  /** What a request or a response says, apart from its ID. */
  type Content = seq<byte>

  datatype Phase =
    | Offering                  // ID drawn, blocked on msgIn
    | Waiting                   // select on its own channel and ctx.Done
    | Got(response: Content)
    | GaveUp                    // returned the context's error

  datatype Call = Call(id: nat, request: Content, phase: Phase)

  datatype Place =
    | Forwarding(request: Content)                // in processMsg, blocked on sendHandle
    | Writing(conn: nat, request: Content)        // taken by handleSend, not written yet
    | OnWire(conn: nat, request: Content)         // written by handleSend
    | Queued(conn: nat, request: Content)         // read by OnTraffic, for a worker
    | Returning(conn: nat, response: Content)     // written by the handler
    | Buffered(conn: nat, response: Content)      // in the client's socket, not read yet
    | Received(conn: nat, response: Content)      // in handleReceive, blocked on receiveHandle
    | Delivering(response: Content, ch: nat)      // in processMsg, blocked on the caller's channel

  datatype Token = Token(id: nat, place: Place)

  datatype Execution = Execution(id: nat, request: Content, response: Content)

  /**
   One connection with the two goroutines that runConn waits for. Each closes the socket when it returns, but
   handleSend returns only on a failed write or on ctx.Done, so it may go on waiting for a request to send.
   */
  datatype Conn = Conn(connected: bool, sender: bool, receiver: bool)

  /** The `batch` runConn goroutines: dialling, running a connection, or returned. */
  datatype Pool = Pool(
    vacant: nat,
    conns: map<nat, Conn>,
    ended: nat,
    dialled: nat)               // connections so far; a reconnect is a new one

  /** Every call makes its own channel, so calls are known by their channel. */
  datatype State = State(
    lastId: nat,
    calls: map<nat, Call>,
    cache: map<nat, nat>,       // resCache: ID to channel
    stopped: bool,              // processMsg has returned
    soup: multiset<Token>,
    pool: Pool,
    log: seq<Execution>,        // what the handlers have done
    ctxDone: bool)

  /** What happens to one token. */
  datatype Move =
    | Take(conn: nat)           // handleSend receives it
    | Written
    | WriteFails
    | Arrive
    | Execute(response: Content)
    | Land
    | Receive
    | Route
    | Deliver
    | Lose

  /** What happens to the pool by itself. */
  datatype PoolAct =
    | Connect                   // dialled and authenticated by token
    | EndDial
    | Disconnect(conn: nat)     // the two ends no longer reach each other
    | SenderStops(conn: nat)
    | ReceiverStops(conn: nat)
    | Release(conn: nat)        // wg.Wait returns: runConn dials again, or returns

  datatype Step =
    | Begin(ch: nat, request: Content)
    | Submit(ch: nat)
    | GiveUp(ch: nat)
    | Cancel
    | Stop
    | PoolStep(act: PoolAct)
    | MoveStep(t: Token, m: Move)

  // ---- processMsg: one message at a time

  datatype Arrival = Request(id: nat, ch: nat, request: Content) | Response(id: nat, response: Content)

  datatype Effect = Send(id: nat, request: Content) | HandOver(ch: nat, response: Content) | Ignore

  function HubEffect(cache: map<nat, nat>, a: Arrival): Effect {
    match a
    case Request(id, ch, request) => Send(id, request)
    case Response(id, response) => if id in cache then HandOver(cache[id], response) else Ignore
  }

  function HubCache(cache: map<nat, nat>, a: Arrival): map<nat, nat> {
    match a
    case Request(id, ch, _) => cache[id := ch]
    case Response(id, _) => cache - {id}
  }

  /** The hub's state is the client's ID counter and the map from IDs to channels. */
  class Hub {
    var lastId: nat
    var resCache: map<nat, nat>

    constructor ()
      ensures lastId == 0 && resCache == map[]
    {
      lastId, resCache := 0, map[];
    }

    method GenMsgID() returns (id: nat)
      modifies `lastId
      ensures id == old(lastId) + 1 && lastId == id
    {
      lastId := lastId + 1;
      id := lastId;
    }

    /** One round of processMsg's select, with the message it sends on as its result. */
    method Process(a: Arrival) returns (e: Effect)
      modifies `resCache
      ensures e == HubEffect(old(resCache), a)
      ensures resCache == HubCache(old(resCache), a)
    {
      match a
      case Request(id, ch, request) =>
        resCache := resCache[id := ch];
        e := Send(id, request);
      case Response(id, response) =>
        if id in resCache {
          e := HandOver(resCache[id], response);
          resCache := map k | k in resCache && k != id :: resCache[k];
        } else {
          e := Ignore;
        }
    }
  }

  // ---- the whole system

  function Start(batch: nat): State {
    State(0, map[], map[], false, multiset{}, Pool(batch, map[], 0, 0), [], false)
  }

  predicate RouterIdle(s: State) {
    !s.stopped && forall t | t in s.soup :: !t.place.Forwarding? && !t.place.Delivering?
  }

  predicate PhaseIs(s: State, ch: nat, p: Phase) {
    ch in s.calls && s.calls[ch].phase == p
  }

  predicate Connected(pool: Pool, k: nat) {
    k in pool.conns && pool.conns[k].connected
  }

  /** The client has not closed the socket: both goroutines are still there. */
  predicate SocketOpen(pool: Pool, k: nat) {
    k in pool.conns && pool.conns[k].sender && pool.conns[k].receiver
  }

  /** handleSend of the connection is in a write. */
  predicate IsWriting(soup: multiset<Token>, k: nat) {
    exists t | t in soup :: t.place.Writing? && t.place.conn == k
  }

  /** handleReceive of the connection waits for processMsg. */
  predicate IsHolding(soup: multiset<Token>, k: nat) {
    exists t | t in soup :: t.place.Received? && t.place.conn == k
  }

  predicate CanPool(s: State, act: PoolAct) {
    match act
    case Connect => s.pool.vacant > 0
    case EndDial => s.ctxDone && s.pool.vacant > 0
    case Disconnect(k) => Connected(s.pool, k)
    case SenderStops(k) => s.ctxDone && k in s.pool.conns && s.pool.conns[k].sender && !IsWriting(s.soup, k)
    case ReceiverStops(k) => k in s.pool.conns && s.pool.conns[k].receiver && !IsHolding(s.soup, k)
    case Release(k) => k in s.pool.conns && !s.pool.conns[k].sender && !s.pool.conns[k].receiver
  }

  /** Which moves a token's place allows. */
  predicate Fits(s: State, t: Token, m: Move) {
    match m
    case Take(k) => t.place.Forwarding? && k in s.pool.conns
    case Written => t.place.Writing?
    case WriteFails => t.place.Writing? && t.place.conn in s.pool.conns
    case Arrive => t.place.OnWire?
    case Execute(_) => t.place.Queued?
    case Land => t.place.Returning?
    case Receive => t.place.Buffered?
    case Route => t.place.Received?
    case Deliver => t.place.Delivering? && t.place.ch in s.calls
    case Lose => t.place.OnWire? || t.place.Returning? || t.place.Buffered?
  }

  /** When the goroutine that makes the move can make it. */
  predicate Free(s: State, t: Token, m: Move)
    requires Fits(s, t, m)
  {
    match m
    case Take(k) => s.pool.conns[k].sender && !IsWriting(s.soup, k)
    case Written => SocketOpen(s.pool, t.place.conn)
    case WriteFails => !Connected(s.pool, t.place.conn)
    case Arrive => true
    case Execute(_) => true
    case Land => Connected(s.pool, t.place.conn)
    case Receive => SocketOpen(s.pool, t.place.conn) && !IsHolding(s.soup, t.place.conn)
    case Route => RouterIdle(s)
    case Deliver => PhaseIs(s, t.place.ch, Waiting)
    case Lose => if t.place.Buffered? then !SocketOpen(s.pool, t.place.conn) else !Connected(s.pool, t.place.conn)
  }

  predicate CanMove(s: State, t: Token, m: Move) {
    t in s.soup && Fits(s, t, m) && Free(s, t, m)
  }

  predicate Can(s: State, step: Step) {
    match step
    case Begin(ch, _) => ch !in s.calls
    case Submit(ch) => PhaseIs(s, ch, Offering) && RouterIdle(s)
    case GiveUp(ch) => s.ctxDone && PhaseIs(s, ch, Waiting)
    case Cancel => true
    case Stop => s.ctxDone && RouterIdle(s)
    case PoolStep(act) => CanPool(s, act)
    case MoveStep(t, m) => CanMove(s, t, m)
  }

  function Moved(soup: multiset<Token>, t: Token, p: Place): multiset<Token> {
    soup - multiset{t} + multiset{Token(t.id, p)}
  }

  function WithPhase(calls: map<nat, Call>, ch: nat, p: Phase): map<nat, Call>
    requires ch in calls
  {
    calls[ch := calls[ch].(phase := p)]
  }

  function Routed(s: State, t: Token): multiset<Token>
    requires t.place.Received?
  {
    match HubEffect(s.cache, Response(t.id, t.place.response))
    case HandOver(ch, response) => Moved(s.soup, t, Delivering(response, ch))
    case _ => s.soup - multiset{t}
  }

  /** A handler's response goes nowhere if the connection is gone. */
  function Executed(s: State, t: Token, response: Content): multiset<Token>
    requires t.place.Queued?
  {
    if Connected(s.pool, t.place.conn) then Moved(s.soup, t, Returning(t.place.conn, response))
    else s.soup - multiset{t}
  }

  function SubmitDo(s: State, ch: nat): State
    requires ch in s.calls
  {
    var call := s.calls[ch];
    var a := Request(call.id, ch, call.request);
    var sent := HubEffect(s.cache, a);
    s.(cache := HubCache(s.cache, a),
       soup := s.soup + multiset{Token(sent.id, Forwarding(sent.request))},
       calls := WithPhase(s.calls, ch, Waiting))
  }

  function DeliverDo(s: State, t: Token): State
    requires t.place.Delivering? && t.place.ch in s.calls
  {
    s.(soup := s.soup - multiset{t},
       cache := HubCache(s.cache, Response(t.id, t.place.response)),
       calls := WithPhase(s.calls, t.place.ch, Got(t.place.response)))
  }

  function WithoutSender(pool: Pool, k: nat): Pool
    requires k in pool.conns
  {
    pool.(conns := pool.conns[k := Conn(false, false, pool.conns[k].receiver)])
  }

  function PoolDo(s: State, act: PoolAct): Pool
    requires CanPool(s, act)
  {
    var pool := s.pool;
    match act
    case Connect =>
      var conns := pool.conns[pool.dialled := Conn(true, true, true)];
      Pool(pool.vacant - 1, conns, pool.ended, pool.dialled + 1)
    case EndDial => pool.(vacant := pool.vacant - 1, ended := pool.ended + 1)
    case Disconnect(k) => pool.(conns := pool.conns[k := pool.conns[k].(connected := false)])
    case SenderStops(k) => WithoutSender(pool, k)
    case ReceiverStops(k) => pool.(conns := pool.conns[k := Conn(false, pool.conns[k].sender, false)])
    case Release(k) =>
      if s.ctxDone then pool.(conns := pool.conns - {k}, ended := pool.ended + 1)
      else pool.(conns := pool.conns - {k}, vacant := pool.vacant + 1)
  }

  function MoveSoup(s: State, t: Token, m: Move): multiset<Token>
    requires Fits(s, t, m)
  {
    match m
    case Take(k) => Moved(s.soup, t, Writing(k, t.place.request))
    case Written => Moved(s.soup, t, OnWire(t.place.conn, t.place.request))
    case WriteFails => s.soup - multiset{t}
    case Arrive => Moved(s.soup, t, Queued(t.place.conn, t.place.request))
    case Execute(response) => Executed(s, t, response)
    case Land => Moved(s.soup, t, Buffered(t.place.conn, t.place.response))
    case Receive => Moved(s.soup, t, Received(t.place.conn, t.place.response))
    case Route => Routed(s, t)
    case Deliver => s.soup - multiset{t}
    case Lose => s.soup - multiset{t}
  }

  function MoveCalls(s: State, t: Token, m: Move): map<nat, Call>
    requires Fits(s, t, m)
  {
    if m.Deliver? then WithPhase(s.calls, t.place.ch, Got(t.place.response)) else s.calls
  }

  function MoveCache(s: State, t: Token, m: Move): map<nat, nat>
    requires Fits(s, t, m)
  {
    if m.Deliver? then HubCache(s.cache, Response(t.id, t.place.response)) else s.cache
  }

  function MovePool(s: State, t: Token, m: Move): Pool
    requires Fits(s, t, m)
  {
    if m.WriteFails? then WithoutSender(s.pool, t.place.conn) else s.pool
  }

  function MoveLog(s: State, t: Token, m: Move): seq<Execution>
    requires Fits(s, t, m)
  {
    if m.Execute? then s.log + [Execution(t.id, t.place.request, m.response)] else s.log
  }

  function MoveDo(s: State, t: Token, m: Move): State
    requires Fits(s, t, m)
  {
    State(s.lastId, MoveCalls(s, t, m), MoveCache(s, t, m), s.stopped, MoveSoup(s, t, m), MovePool(s, t, m),
          MoveLog(s, t, m), s.ctxDone)
  }

  function Do(s: State, step: Step): State
    requires Can(s, step)
  {
    match step
    case Begin(ch, request) =>
      s.(lastId := s.lastId + 1, calls := s.calls[ch := Call(s.lastId + 1, request, Offering)])
    case Submit(ch) => SubmitDo(s, ch)
    case GiveUp(ch) => s.(calls := WithPhase(s.calls, ch, Phase.GaveUp))
    case Cancel => s.(ctxDone := true)
    case Stop => s.(stopped := true)
    case PoolStep(act) => s.(pool := PoolDo(s, act))
    case MoveStep(t, m) => MoveDo(s, t, m)
  }

  /** The states a run of these steps passes through, ending in s'. */
  ghost predicate Path(s: State, steps: seq<Step>, s': State)
    decreases |steps|
  {
    if steps == [] then s == s' else Can(s, steps[0]) && Path(Do(s, steps[0]), steps[1..], s')
  }
}
