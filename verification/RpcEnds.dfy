/** How the client's goroutines come to an end, and what the server may do for callers that never hear of it. */
module RpcEnds {
  import opened Rpc
  import opened RpcSafety
  import opened RpcPool
  import opened RpcAnswers
  import opened RpcRuns
  import opened RpcReturns
  import opened RpcDeadlock
  import opened RpcCallers

  // ---- processMsg finishes what it has begun

  /** Once processMsg has returned, it holds no message. */
  ghost predicate HandsEmpty(s: State) {
    s.stopped ==> forall t | t in s.soup :: !t.place.Forwarding? && !t.place.Delivering?
  }

  lemma MoveKeepsHandsEmpty(s: State, t: Token, m: Move)
    requires TokensSound(s.cache, s.soup) && CanMove(s, t, m) && HandsEmpty(s)
    ensures HandsEmpty(MoveDo(s, t, m))
  {
    if s.stopped {
      if Carries(m) {
        CarryIs(s, t, m);
        MoveKeepsTokens(s.cache, s.soup, t, NextPlace(s, t, m));
      } else {
        forall u | u in MoveDo(s, t, m).soup ensures !u.place.Forwarding? && !u.place.Delivering? {
          assert u in s.soup || u.place.Returning?;
        }
      }
    }
  }

  lemma {:induction false} PathKeepsHandsEmpty(s: State, steps: seq<Step>, s': State)
    requires Reachable(s) && HandsEmpty(s) && Path(s, steps, s')
    ensures HandsEmpty(s')
    decreases |steps|
  {
    if steps != [] {
      Uniqueness(s);
      if steps[0].MoveStep? {
        MoveKeepsHandsEmpty(s, steps[0].t, steps[0].m);
      }
      ReachableStep(s, steps[0]);
      PathKeepsHandsEmpty(Do(s, steps[0]), steps[1..], s');
    }
  }

  /** Over every run: every request and response that processMsg took is passed on before it returns. */
  lemma StopsIdle(batch: nat, s: State)
    requires RunOf(batch, s) && s.stopped
    ensures s.ctxDone && forall t | t in s.soup :: !t.place.Forwarding? && !t.place.Delivering?
  {
    var steps :| Path(Start(batch), steps, s);
    assert Path(Start(batch), [], Start(batch));
    assert Reachable(Start(batch));
    PathKeepsHandsEmpty(Start(batch), steps, s);
    assert Reachable(s);
    CallFacts(s);
  }

  // ---- the pool

  /** Every runConn has returned. */
  function AllEnded(batch: nat): State -> bool {
    (s: State) => s.pool.ended == batch
  }

  /** No handleReceive waits for processMsg. */
  ghost predicate NoneHeld(s: State) {
    forall t | t in s.soup :: !t.place.Received?
  }

  /** How far the goroutines of a connection are from their end. */
  function ConnLeft(soup: multiset<Token>, k: nat, c: Conn): nat {
    1 + (if c.sender then (if IsWriting(soup, k) then 2 else 1) else 0) + (if c.receiver then 1 else 0)
    + if c.connected then 1 else 0
  }

  lemma {:induction false} ConnCanEnd(batch: nat, s: State, k: nat)
    requires RunOf(batch, s) && s.ctxDone && NoneHeld(s) && k in s.pool.conns
    ensures Leads(s, AllEnded(batch))
    decreases |s.pool.conns|, s.pool.vacant, ConnLeft(s.soup, k, s.pool.conns[k])
  {
    var c := s.pool.conns[k];
    assert Reachable(s) by { var steps :| Path(Start(batch), steps, s); }
    PoolFacts(s);
    assert !IsHolding(s.soup, k);
    if c.sender && IsWriting(s.soup, k) {
      var t :| t in s.soup && t.place.Writing? && t.place.conn == k;
      if c.connected {
        PoolThen(batch, s, k, Disconnect(k));
      } else {
        WriteThen(batch, s, k, t);
      }
    } else if c.sender {
      PoolThen(batch, s, k, SenderStops(k));
    } else if c.receiver {
      PoolThen(batch, s, k, ReceiverStops(k));
    } else {
      RunOn(batch, s, PoolStep(Release(k)));
      var s' := Do(s, PoolStep(Release(k)));
      assert s'.pool.conns.Keys == s.pool.conns.Keys - {k};
      PoolCanEnd(batch, s');
      OneMore(s, PoolStep(Release(k)), AllEnded(batch));
    }
  }

  lemma {:induction false} PoolThen(batch: nat, s: State, k: nat, act: PoolAct)
    requires RunOf(batch, s) && s.ctxDone && NoneHeld(s) && k in s.pool.conns && CanPool(s, act)
    requires act == Disconnect(k) || act == SenderStops(k) || act == ReceiverStops(k)
    ensures Leads(s, AllEnded(batch))
    decreases |s.pool.conns|, s.pool.vacant, ConnLeft(s.soup, k, s.pool.conns[k]), 0
  {
    var s' := Do(s, PoolStep(act));
    assert s'.pool.conns.Keys == s.pool.conns.Keys;
    RunOn(batch, s, PoolStep(act));
    ConnCanEnd(batch, s', k);
    OneMore(s, PoolStep(act), AllEnded(batch));
  }

  lemma {:induction false} WriteThen(batch: nat, s: State, k: nat, t: Token)
    requires RunOf(batch, s) && s.ctxDone && NoneHeld(s) && k in s.pool.conns && CanMove(s, t, WriteFails)
    requires t.place.conn == k && s.pool.conns[k].sender
    ensures Leads(s, AllEnded(batch))
    decreases |s.pool.conns|, s.pool.vacant, ConnLeft(s.soup, k, s.pool.conns[k]), 0
  {
    var step := MoveStep(t, WriteFails);
    var s' := Do(s, step);
    assert s'.pool == WithoutSender(s.pool, k) && s'.soup == s.soup - multiset{t};
    assert s'.pool.conns.Keys == s.pool.conns.Keys;
    RunOn(batch, s, step);
    ConnCanEnd(batch, s', k);
    OneMore(s, step, AllEnded(batch));
  }

  lemma {:induction false} PoolCanEnd(batch: nat, s: State)
    requires RunOf(batch, s) && s.ctxDone && NoneHeld(s)
    ensures Leads(s, AllEnded(batch))
    decreases |s.pool.conns|, s.pool.vacant + 1
  {
    if k :| k in s.pool.conns {
      ConnCanEnd(batch, s, k);
    } else if s.pool.vacant > 0 {
      RunOn(batch, s, PoolStep(EndDial));
      PoolCanEnd(batch, Do(s, PoolStep(EndDial)));
      OneMore(s, PoolStep(EndDial), AllEnded(batch));
    } else {
      RunFacts(batch, s);
      assert s.pool.conns.Keys == {};
      There(s, AllEnded(batch));
    }
  }

  lemma HeldStays(s: State, step: Step, t: Token)
    requires Reachable(s) && s.stopped && t in s.soup && t.place.Received? && Can(s, step)
    ensures Do(s, step).stopped && t in Do(s, step).soup
  {
    Uniqueness(s);
    if t !in Do(s, step).soup {
      GoneToken(s, step, t);
      assert false;
    }
  }

  lemma {:induction false} HeldForever(s: State, steps: seq<Step>, s': State, t: Token)
    requires Reachable(s) && s.stopped && t in s.soup && t.place.Received? && Path(s, steps, s')
    ensures Reachable(s') && t in s'.soup
    decreases |steps|
  {
    if steps != [] {
      HeldStays(s, steps[0], t);
      ReachableStep(s, steps[0]);
      HeldForever(Do(s, steps[0]), steps[1..], s', t);
    }
  }

  lemma HeldHasConn(batch: nat, s: State, t: Token)
    requires Reachable(s) && Counted(s.pool, batch) && t in s.soup && t.place.Received?
    ensures s.pool.ended < batch
  {
    PoolFacts(s);
    assert PlaceSound(s.pool, t.place);
    assert t.place.conn in s.pool.conns.Keys;
    assert |s.pool.conns.Keys| > 0;
  }

  lemma RunOnPath(batch: nat, s: State, steps: seq<Step>, s': State)
    requires RunOf(batch, s) && Path(s, steps, s')
    ensures RunOf(batch, s')
    decreases |steps|
  {
    if steps != [] {
      RunOn(batch, s, steps[0]);
      RunOnPath(batch, Do(s, steps[0]), steps[1..], s');
    }
  }

  /**
   Over every run: once processMsg has returned, every runConn can return too, exactly if no handleReceive holds a
   response, since nobody will take that from it.
   */
  lemma PoolEndsIff(batch: nat, s: State)
    requires RunOf(batch, s) && s.stopped
    ensures Leads(s, AllEnded(batch)) <==> NoneHeld(s)
  {
    StopsIdle(batch, s);
    RunFacts(batch, s);
    if NoneHeld(s) {
      PoolCanEnd(batch, s);
    } else if Leads(s, AllEnded(batch)) {
      var t :| t in s.soup && t.place.Received?;
      var steps, s' :| Path(s, steps, s') && AllEnded(batch)(s');
      HeldForever(s, steps, s', t);
      RunOnPath(batch, s, steps, s');
      RunFacts(batch, s');
      HeldHasConn(batch, s', t);
    }
  }

  /** And it can come to that, with any pool. */
  lemma StopCanLeak(batch: nat) returns (s: State)
    requires batch >= 1
    ensures RunOf(batch, s) && s.stopped && !Leads(s, AllEnded(batch))
  {
    var s0 := Start(batch);
    assert Path(s0, [], s0);
    s := ConnectAndHold(batch, s0, 0);
    var id :| s.soup == s0.soup + multiset{Token(id, Received(s0.pool.dialled, []))};
    assert Token(id, Received(s0.pool.dialled, [])) in s.soup;
    RunOn(batch, s, Cancel);
    s := Do(s, Cancel);
    RunOn(batch, s, Stop);
    s := Do(s, Stop);
    PoolEndsIff(batch, s);
  }

  // ---- executed and not answered

  /** A single call whose request is on the wire. */
  lemma WrittenAlone(batch: nat) returns (s: State, id: nat)
    requires batch >= 1
    ensures RunOf(batch, s) && !s.ctxDone && Connected(s.pool, 0) && s.soup == multiset{Token(id, OnWire(0, []))}
    ensures id in s.cache && s.log == []
    ensures exists ch :: PhaseIs(s, ch, Waiting) && s.calls[ch] == Call(id, [], Waiting)
  {
    var s0 := Start(batch);
    assert Path(s0, [], s0);
    Connects(batch, s0);
    var s1 := WithNew(s0);
    Takes(batch, s1);
    id := s1.lastId + 1;
    Onward(batch, Took(s1), s1.soup, 0, Token(id, Forwarding([])), Take(0), Writing(0, []));
    Onward(batch, Took(s1), s1.soup, 0, Token(id, Writing(0, [])), Written, OnWire(0, []));
    s := At(Took(s1), s1.soup, Token(id, OnWire(0, [])));
    assert PhaseIs(s, s1.lastId, Waiting);
  }

  /**
   A request that was written can be executed after its connection has dropped, once, and its caller never hears of it,
   though its context lives.
   */
  lemma ExecutedUnheard(batch: nat) returns (s: State, ch: nat)
    requires batch >= 1
    ensures RunOf(batch, s) && !s.ctxDone && PhaseIs(s, ch, Waiting) && !Leads(s, Answered(ch))
    ensures |s.log| == 1 && s.log[0].id == s.calls[ch].id && s.log[0].request == s.calls[ch].request
  {
    var s1, id := WrittenAlone(batch);
    ch :| PhaseIs(s1, ch, Waiting) && s1.calls[ch] == Call(id, [], Waiting);
    s := DropsAndExecutes(batch, s1, 0, id);
    if Leads(s, Answered(ch)) {
      var more, s' :| Path(s, more, s') && Answered(ch)(s');
      assert Lost(s, ch, id);
      LostForever(s, more, s', ch, id);
    }
  }

  lemma DropsAndExecutes(batch: nat, s: State, k: nat, id: nat) returns (s': State)
    requires RunOf(batch, s) && s.soup == multiset{Token(id, OnWire(k, []))} && Connected(s.pool, k) && id in s.cache
    ensures RunOf(batch, s') && s'.calls == s.calls && s'.ctxDone == s.ctxDone && s'.soup == multiset{}
    ensures s'.log == s.log + [Execution(id, [], [])]
  {
    RunOn(batch, s, PoolStep(Disconnect(k)));
    var s1 := Do(s, PoolStep(Disconnect(k)));
    var t, u := Token(id, OnWire(k, [])), Token(id, Queued(k, []));
    RunOn(batch, s1, MoveStep(t, Arrive));
    CarryIs(s1, t, Arrive);
    var s2 := Do(s1, MoveStep(t, Arrive));
    assert s2.soup == multiset{u};
    RunOn(batch, s2, MoveStep(u, Execute([])));
    ExecuteIs(s2, u, []);
    s' := Do(s2, MoveStep(u, Execute([])));
  }

  /**
   What the network and the server may do: a connection can drop at any time, a message on a dropped one get lost or,
   if it is a request, still arrive, and a handler answer anything.
   */
  lemma NetworkIsFree(s: State, k: nat, t: Token)
    ensures Connected(s.pool, k) ==> Can(s, PoolStep(Disconnect(k)))
    ensures t in s.soup && (t.place.OnWire? || t.place.Returning?) && !Connected(s.pool, t.place.conn) ==>
              Can(s, MoveStep(t, Lose)) && Do(s, MoveStep(t, Lose)).soup == s.soup - multiset{t}
    ensures t in s.soup && t.place.Buffered? && !SocketOpen(s.pool, t.place.conn) ==>
              Can(s, MoveStep(t, Lose)) && Do(s, MoveStep(t, Lose)).soup == s.soup - multiset{t}
    ensures t in s.soup && t.place.OnWire? ==> Can(s, MoveStep(t, Arrive))
    ensures t in s.soup && t.place.Queued? ==> forall response :: Can(s, MoveStep(t, Execute(response)))
  {
  }
}
