/**
 The pool's deadlock: each connection drops while handleSend writes, and its handleReceive waits for processMsg,
 which waits for a sender, which waits for runConn to dial again, which waits for handleReceive.
 */
module RpcDeadlock {
  import opened Rpc
  import opened RpcSafety
  import opened RpcPool
  import opened RpcAnswers
  import opened RpcReturns

  const UP := Conn(true, true, true)
  const JAMMED := Conn(false, false, true)

  /** Nothing is under way but what waits for processMsg. */
  ghost predicate Quiet(s: State) {
    && !s.ctxDone && !s.stopped
    && forall t | t in s.soup :: t.place.Received? && t.place.conn < s.pool.dialled
  }

  /** So many calls, all taken and none answered. */
  ghost predicate AllWait(s: State, n: nat) {
    |s.calls| == n && forall ch | ch in s.calls :: ch < s.lastId && s.calls[ch].phase.Waiting?
  }

  ghost predicate ConnsJammed(pool: Pool, soup: multiset<Token>) {
    forall k | k in pool.conns :: k < pool.dialled && pool.conns[k] == JAMMED && IsHolding(soup, k)
  }

  /** A run that has jammed m connections, with two calls for each. */
  ghost predicate Jam(batch: nat, s: State, m: nat) {
    && RunOf(batch, s) && Quiet(s) && AllWait(s, 2 * m) && ConnsJammed(s.pool, s.soup)
    && s.pool.vacant == batch - m
  }

  // ---- one more call

  /** processMsg takes the request of a new call. */
  function Took(s: State): State {
    s.(lastId := s.lastId + 1,
       calls := s.calls[s.lastId := Call(s.lastId + 1, [], Waiting)],
       cache := s.cache[s.lastId + 1 := s.lastId],
       soup := s.soup + multiset{Token(s.lastId + 1, Forwarding([]))})
  }

  lemma Takes(batch: nat, s: State)
    requires RunOf(batch, s) && Quiet(s) && s.lastId !in s.calls
    ensures RunOf(batch, Took(s))
  {
    RunOn(batch, s, Begin(s.lastId, []));
    var s1 := Do(s, Begin(s.lastId, []));
    RunOn(batch, s1, Submit(s.lastId));
    assert SubmitDo(s1, s.lastId).calls == Took(s).calls;
  }

  lemma OneMoreWaits(s: State, n: nat)
    requires AllWait(s, n)
    ensures s.lastId !in s.calls && AllWait(Took(s), n + 1)
  {
    assert Took(s).calls.Keys == s.calls.Keys + {s.lastId};
  }

  // ---- a response is left in handleReceive's hands

  /** One token moves, apart from the others. */
  function At(s: State, others: multiset<Token>, t: Token): State {
    s.(soup := others + multiset{t})
  }

  /** The others wait for processMsg, at other connections, and this one works. */
  ghost predicate Apart(s: State, others: multiset<Token>, k: nat) {
    && k in s.pool.conns && s.pool.conns[k] == UP
    && forall u | u in others :: u.place.Received? && u.place.conn != k
  }

  lemma Onward(batch: nat, s: State, others: multiset<Token>, k: nat, t: Token, m: Move, p: Place)
    requires RunOf(batch, At(s, others, t)) && Apart(s, others, k)
    requires Bound(t.place) ==> t.place.conn == k
    requires m == Take(k) || m.Written? || m.Arrive? || m.Land? || m.Receive?
    requires Fits(At(s, others, t), t, m) && t.id in s.cache && p == NextPlace(At(s, others, t), t, m)
    ensures RunOf(batch, At(s, others, Token(t.id, p)))
  {
    var s1 := At(s, others, t);
    assert CanMove(s1, t, m);
    RunOn(batch, s1, MoveStep(t, m));
    CarryIs(s1, t, m);
    assert Moved(s1.soup, t, p) == others + multiset{Token(t.id, p)};
  }

  lemma Executes(batch: nat, s: State, others: multiset<Token>, k: nat, id: nat)
    requires RunOf(batch, At(s, others, Token(id, Queued(k, [])))) && Apart(s, others, k)
    ensures RunOf(batch, At(s.(log := s.log + [Execution(id, [], [])]), others, Token(id, Returning(k, []))))
  {
    var t := Token(id, Queued(k, []));
    var s1 := At(s, others, t);
    RunOn(batch, s1, MoveStep(t, Execute([])));
    ExecuteIs(s1, t, []);
    assert Executed(s1, t, []) == others + multiset{Token(id, Returning(k, []))};
  }

  /** A request travels to the server, and its response back. */
  lemma RoundTrip(batch: nat, s: State, others: multiset<Token>, k: nat, id: nat)
    requires RunOf(batch, At(s, others, Token(id, Forwarding([])))) && Apart(s, others, k) && id in s.cache
    ensures RunOf(batch, At(s.(log := s.log + [Execution(id, [], [])]), others, Token(id, Received(k, []))))
  {
    Onward(batch, s, others, k, Token(id, Forwarding([])), Take(k), Writing(k, []));
    Onward(batch, s, others, k, Token(id, Writing(k, [])), Written, OnWire(k, []));
    Onward(batch, s, others, k, Token(id, OnWire(k, [])), Arrive, Queued(k, []));
    Executes(batch, s, others, k, id);
    var s1 := s.(log := s.log + [Execution(id, [], [])]);
    Onward(batch, s1, others, k, Token(id, Returning(k, [])), Land, Buffered(k, []));
    Onward(batch, s1, others, k, Token(id, Buffered(k, [])), Receive, Received(k, []));
  }

  // ---- and the connection drops under the next request

  function WithConn(s: State, k: nat, c: Conn): State {
    s.(pool := s.pool.(conns := s.pool.conns[k := c]))
  }

  lemma TakenBy(batch: nat, s: State, k: nat, id: nat)
    requires Quiet(s) && k in s.pool.conns && s.pool.conns[k] == UP && id in s.cache
    requires RunOf(batch, At(s, s.soup, Token(id, Forwarding([]))))
    ensures RunOf(batch, At(s, s.soup, Token(id, Writing(k, []))))
  {
    var t := Token(id, Forwarding([]));
    var s1 := At(s, s.soup, t);
    RunOn(batch, s1, MoveStep(t, Take(k)));
    CarryIs(s1, t, Take(k));
    assert Moved(s1.soup, t, Writing(k, [])) == At(s, s.soup, Token(id, Writing(k, []))).soup;
  }

  lemma WriteDrops(batch: nat, s: State, k: nat, id: nat)
    requires Quiet(s) && k in s.pool.conns && s.pool.conns[k] == UP && id in s.cache
    requires RunOf(batch, At(s, s.soup, Token(id, Forwarding([]))))
    ensures RunOf(batch, WithConn(s, k, JAMMED))
  {
    var u := Token(id, Writing(k, []));
    var s2 := At(s, s.soup, u);
    TakenBy(batch, s, k, id);
    RunOn(batch, s2, PoolStep(Disconnect(k)));
    var s3 := WithConn(s2, k, Conn(false, true, true));
    assert Do(s2, PoolStep(Disconnect(k))) == s3;
    WriteFailsThen(batch, s3, s.soup, k, u);
    assert WithConn(s3, k, JAMMED).pool == WithConn(s, k, JAMMED).pool;
  }

  lemma WriteFailsThen(batch: nat, s: State, others: multiset<Token>, k: nat, u: Token)
    requires RunOf(batch, s) && s.soup == others + multiset{u} && u.place.Writing? && u.place.conn == k
    requires k in s.pool.conns && s.pool.conns[k] == Conn(false, true, true)
    ensures RunOf(batch, WithConn(s, k, JAMMED).(soup := others))
  {
    RunOn(batch, s, MoveStep(u, WriteFails));
    assert MoveSoup(s, u, WriteFails) == others;
  }

  // ---- one more connection

  function WithNew(s: State): State
    requires s.pool.vacant > 0
  {
    s.(pool := PoolDo(s, Connect))
  }

  lemma Connects(batch: nat, s: State)
    requires RunOf(batch, s) && s.pool.vacant > 0
    ensures RunOf(batch, WithNew(s))
    ensures s.pool.dialled in WithNew(s).pool.conns && WithNew(s).pool.conns[s.pool.dialled] == UP
  {
    RunOn(batch, s, PoolStep(Connect));
  }

  /** A new connection works, until its handleReceive has a response. */
  lemma ConnectAndHold(batch: nat, s: State, n: nat) returns (s': State)
    requires RunOf(batch, s) && Quiet(s) && AllWait(s, n) && s.pool.vacant > 0
    ensures RunOf(batch, s') && Quiet(s') && AllWait(s', n + 1) && s'.pool == PoolDo(s, Connect)
    ensures exists id :: s'.soup == s.soup + multiset{Token(id, Received(s.pool.dialled, []))}
  {
    var k, s1 := s.pool.dialled, WithNew(s);
    Connects(batch, s);
    OneMoreWaits(s1, n);
    Takes(batch, s1);
    s' := HoldOn(batch, s1, k);
  }

  lemma HoldOn(batch: nat, s: State, k: nat) returns (s': State)
    requires RunOf(batch, Took(s)) && Quiet(s) && Apart(s, s.soup, k) && k < s.pool.dialled
    ensures RunOf(batch, s') && Quiet(s') && s'.calls == Took(s).calls && s'.lastId == Took(s).lastId
    ensures s'.pool == s.pool && exists id :: s'.soup == s.soup + multiset{Token(id, Received(k, []))}
  {
    var id := s.lastId + 1;
    RoundTrip(batch, Took(s), s.soup, k, id);
    s' := At(Took(s).(log := s.log + [Execution(id, [], [])]), s.soup, Token(id, Received(k, [])));
  }

  /** It drops while handleSend has the next request. */
  lemma TakeAndDrop(batch: nat, s: State, n: nat, k: nat) returns (s': State)
    requires RunOf(batch, s) && Quiet(s) && AllWait(s, n) && k in s.pool.conns && s.pool.conns[k] == UP
    requires k < s.pool.dialled
    ensures RunOf(batch, s') && Quiet(s') && AllWait(s', n + 1)
    ensures s'.pool == WithConn(s, k, JAMMED).pool && s'.soup == s.soup
  {
    OneMoreWaits(s, n);
    Takes(batch, s);
    var s1 := Took(s).(soup := s.soup);
    WriteDrops(batch, s1, k, s.lastId + 1);
    s' := WithConn(s1, k, JAMMED);
  }

  lemma JamOne(batch: nat, s: State, m: nat) returns (s': State)
    requires Jam(batch, s, m) && m < batch
    ensures Jam(batch, s', m + 1)
  {
    var k := s.pool.dialled;
    var s1 := ConnectAndHold(batch, s, 2 * m);
    s' := TakeAndDrop(batch, s1, 2 * m + 1, k);
    var id :| s1.soup == s.soup + multiset{Token(id, Received(k, []))};
    HoldsOneMore(s, s', k, Token(id, Received(k, [])));
  }

  lemma HoldsOneMore(s: State, s': State, k: nat, held: Token)
    requires ConnsJammed(s.pool, s.soup) && held.place.Received? && held.place.conn == k == s.pool.dialled
    requires s'.soup == s.soup + multiset{held} && s'.pool.conns == s.pool.conns[k := JAMMED]
    requires s'.pool.dialled == k + 1
    ensures ConnsJammed(s'.pool, s'.soup)
  {
    assert held in s'.soup;
    forall j | j in s'.pool.conns ensures IsHolding(s'.soup, j) {
      if j != k {
        var t :| t in s.soup && t.place.Received? && t.place.conn == j;
        assert t in s'.soup;
      }
    }
  }

  lemma {:induction false} JamAll(batch: nat, m: nat) returns (s: State)
    requires m <= batch
    ensures Jam(batch, s, m)
  {
    if m == 0 {
      s := Start(batch);
      assert Path(Start(batch), [], s);
    } else {
      s := JamAll(batch, m - 1);
      s := JamOne(batch, s, m - 1);
    }
  }

  /** No sender is left, none can be dialled, and none is going to be. */
  lemma NobodySends(s: State, u: Token)
    requires Quiet(s) && ConnsJammed(s.pool, s.soup) && s.pool.vacant == 0 && u.place.Forwarding?
    ensures Blocked(At(s, s.soup, u)) && ConnsJammed(s.pool, At(s, s.soup, u).soup)
  {
    var s1 := At(s, s.soup, u);
    assert u in s1.soup;
    forall k | k in s.pool.conns ensures IsHolding(s1.soup, k) {
      var t :| t in s.soup && t.place.Received? && t.place.conn == k;
      assert t in s1.soup;
    }
    forall way ensures !Usable(s1, way, false) {
    }
  }

  /**
   With any number of connections a run can come to where each handleReceive holds a response, each handleSend has
   failed, and processMsg has taken one request more. No context is done, every call waits, and none is ever
   answered.
   */
  lemma DropsCanDeadlock(batch: nat) returns (s: State)
    ensures RunOf(batch, s) && !s.ctxDone && Blocked(s) && ConnsJammed(s.pool, s.soup)
    ensures AllWait(s, 2 * batch + 1)
    ensures forall more, s', ch | Path(s, more, s') && ch in s'.calls :: !s'.calls[ch].phase.Got?
  {
    var s0 := JamAll(batch, batch);
    OneMoreWaits(s0, 2 * batch);
    Takes(batch, s0);
    s := Took(s0);
    var u := Token(s0.lastId + 1, Forwarding([]));
    var s1 := s.(soup := s0.soup);
    NobodySends(s1, u);
    NobodyAnswered(batch, s);
  }

  lemma NobodyAnswered(batch: nat, s: State)
    requires RunOf(batch, s) && Blocked(s) && forall ch | ch in s.calls :: s.calls[ch].phase.Waiting?
    ensures forall more, s', ch | Path(s, more, s') && ch in s'.calls :: !s'.calls[ch].phase.Got?
  {
    assert Reachable(s);
    forall more, s', ch | Path(s, more, s') && ch in s'.calls ensures !s'.calls[ch].phase.Got? {
      BlockedForever(s, more, s', ch);
    }
  }
}
