/**
 When a caller of the RPC layer can still be answered. Nothing is resent after a connection drops. Besides what was
 on the dropped connection this can lose a request that is still to be sent: handleSend notices the drop only
 when it tries to write, runConn redials only when both goroutines have returned, and handleReceive may wait for
 a processMsg that itself waits for a sender. This module says exactly who is still answered.
 */
module RpcAnswers {
  import opened Rpc
  import opened RpcSafety
  import opened RpcPool

  /** How a request that processMsg holds may get away: a runConn that dials, or a connection it has. */
  datatype Way = Dial | Via(conn: nat)

  /** handleSend of the connection can still come to its select, or is there. */
  predicate MaySend(s: State, k: nat) {
    k in s.pool.conns && s.pool.conns[k].sender && (s.pool.conns[k].receiver || !IsWriting(s.soup, k))
  }

  /** Both goroutines of a connection can return without sending anything more, so that runConn dials again. */
  predicate MayRedial(s: State, k: nat) {
    && k in s.pool.conns && !s.ctxDone && !IsHolding(s.soup, k)
    && (s.pool.conns[k].sender ==> IsWriting(s.soup, k))
  }

  /** The request can be taken this way; `good` asks that it is taken to a connection that works. */
  predicate Usable(s: State, way: Way, good: bool) {
    match way
    case Dial => s.pool.vacant > 0
    case Via(k) => MayRedial(s, k) || (if good then Connected(s.pool, k) else MaySend(s, k))
  }

  ghost predicate SomeWay(s: State, good: bool) {
    exists way :: Usable(s, way, good)
  }

  predicate RouterSends(soup: multiset<Token>) {
    exists u | u in soup :: u.place.Forwarding?
  }

  /** processMsg waits for a sender, and none will ever come. */
  ghost predicate Blocked(s: State) {
    RouterSends(s.soup) && !SomeWay(s, false)
  }

  /** The token can still come home. */
  ghost predicate Alive(s: State, p: Place) {
    match p
    case Forwarding(_) => SomeWay(s, true)
    case Buffered(k, _) => SocketOpen(s.pool, k)
    case Received(_, _) => !Blocked(s)
    case Delivering(_, _) => true
    case _ => Connected(s.pool, p.conn)
  }

  ghost predicate Survives(s: State, id: nat) {
    exists t :: t in s.soup && t.id == id && Alive(s, t.place)
  }

  /** Some run leads to the goal. */
  ghost predicate Leads(s: State, goal: State -> bool) {
    exists steps, s' :: Path(s, steps, s') && goal(s')
  }

  function Answered(ch: nat): State -> bool {
    (s: State) => ch in s.calls && s.calls[ch].phase.Got?
  }

  // ---- what is known of reachable states

  ghost predicate Reachable(s: State) {
    exists batch, steps :: Path(Start(batch), steps, s)
  }

  lemma {:induction false} PathSnoc(s: State, steps: seq<Step>, s': State, step: Step)
    requires Path(s, steps, s') && Can(s', step)
    ensures Path(s, steps + [step], Do(s', step))
    decreases |steps|
  {
    if steps == [] {
      assert [step][1..] == [] && [] + [step] == [step];
      assert Path(Do(s', step), [], Do(s', step));
    } else {
      PathSnoc(Do(s, steps[0]), steps[1..], s', step);
      assert (steps + [step])[1..] == steps[1..] + [step];
    }
  }

  lemma ReachableStep(s: State, step: Step)
    requires Reachable(s) && Can(s, step)
    ensures Reachable(Do(s, step))
  {
    var batch, steps :| Path(Start(batch), steps, s);
    PathSnoc(Start(batch), steps, s, step);
    assert Path(Start(batch), steps + [step], Do(s, step));
  }

  lemma Uniqueness(s: State)
    requires Reachable(s)
    ensures TokensSound(s.cache, s.soup) && HandsSound(s.soup)
  {
    var batch, steps :| Path(Start(batch), steps, s);
    PathKeepsInv(Start(batch), steps, s);
    PathKeepsOrderly(Start(batch), steps, s, batch);
  }

  lemma CallFacts(s: State)
    requires Reachable(s)
    ensures CallsSound(s.calls, s.lastId) && CacheSound(s.calls, s.cache)
    ensures ContextSound(s.calls, s.stopped, s.ctxDone)
  {
    var batch, steps :| Path(Start(batch), steps, s);
    PathKeepsInv(Start(batch), steps, s);
    PathKeepsOrderly(Start(batch), steps, s, batch);
  }

  lemma PoolFacts(s: State)
    requires Reachable(s)
    ensures ConnsSound(s.pool) && PlacesSound(s.pool, s.soup)
  {
    var batch, steps :| Path(Start(batch), steps, s);
    PathKeepsOrderly(Start(batch), steps, s, batch);
  }

  lemma PlaceFacts(s: State, t: Token)
    requires Reachable(s) && t in s.soup
    ensures PlaceSound(s.pool, t.place)
  {
    PoolFacts(s);
  }

  lemma DeliversTo(s: State, t: Token)
    requires Reachable(s) && t in s.soup && t.place.Delivering?
    ensures t.place.ch in s.calls && s.calls[t.place.ch].id == t.id && Unrouted(s.calls[t.place.ch].phase)
    ensures !s.ctxDone ==> PhaseIs(s, t.place.ch, Waiting)
  {
    var batch, steps :| Path(Start(batch), steps, s);
    PathKeepsInv(Start(batch), steps, s);
    DeliveringIsForCaller(s.calls, s.cache, s.soup, s.log, t);
    CallFacts(s);
    assert Unrouted(s.calls[s.cache[t.id]].phase);
  }

  // ---- what is hopeless stays hopeless

  /** Which steps change who is writing and who is holding. */
  lemma WritersChange(s: State, step: Step, k: nat)
    requires TokensSound(s.cache, s.soup) && Can(s, step)
    ensures IsWriting(Do(s, step).soup, k) && !IsWriting(s.soup, k) ==> step.MoveStep? && step.m == Take(k)
    ensures IsWriting(s.soup, k) && !IsWriting(Do(s, step).soup, k) ==>
              && step.MoveStep? && step.t.place.Writing? && step.t.place.conn == k
              && (step.m.Written? || step.m.WriteFails?)
  {
    if IsWriting(Do(s, step).soup, k) && !IsWriting(s.soup, k) {
      var t :| t in Do(s, step).soup && t.place.Writing? && t.place.conn == k;
      NewToken(s, step, t);
    }
    if IsWriting(s.soup, k) && !IsWriting(Do(s, step).soup, k) {
      var t :| t in s.soup && t.place.Writing? && t.place.conn == k;
      GoneToken(s, step, t);
    }
  }

  lemma HoldersChange(s: State, step: Step, k: nat)
    requires TokensSound(s.cache, s.soup) && Can(s, step)
    ensures IsHolding(Do(s, step).soup, k) && !IsHolding(s.soup, k) ==>
              step.MoveStep? && step.m.Receive? && step.t.place.conn == k
    ensures IsHolding(s.soup, k) && !IsHolding(Do(s, step).soup, k) ==> step.MoveStep? && step.m.Route?
  {
    if IsHolding(Do(s, step).soup, k) && !IsHolding(s.soup, k) {
      var t :| t in Do(s, step).soup && t.place.Received? && t.place.conn == k;
      NewToken(s, step, t);
    }
    if IsHolding(s.soup, k) && !IsHolding(Do(s, step).soup, k) {
      var t :| t in s.soup && t.place.Received? && t.place.conn == k;
      GoneToken(s, step, t);
    }
  }

  /** A token that was not there before is a request just forwarded, or the token that the step moves. */
  lemma NewToken(s: State, step: Step, u: Token)
    requires TokensSound(s.cache, s.soup) && Can(s, step) && u in Do(s, step).soup && u !in s.soup
    ensures step.Submit? || step.MoveStep?
    ensures step.Submit? ==> u == Token(s.calls[step.ch].id, Forwarding(s.calls[step.ch].request))
    ensures step.MoveStep? && Carries(step.m) ==>
              step.t.id in s.cache && u == Token(step.t.id, NextPlace(s, step.t, step.m))
    ensures step.MoveStep? && !Carries(step.m) ==>
              step.m.Execute? && Connected(s.pool, step.t.place.conn)
              && u == Token(step.t.id, Returning(step.t.place.conn, step.m.response))
  {
    if step.MoveStep? {
      if Carries(step.m) {
        CarryIs(s, step.t, step.m);
        NewInMoved(s.soup, step.t, NextPlace(s, step.t, step.m), u);
      } else {
        NewNotCarried(s, step.t, step.m, u);
      }
    }
  }

  lemma NewNotCarried(s: State, t: Token, m: Move, u: Token)
    requires CanMove(s, t, m) && !Carries(m) && u in MoveDo(s, t, m).soup && u !in s.soup
    ensures m.Execute? && Connected(s.pool, t.place.conn) && u == Token(t.id, Returning(t.place.conn, m.response))
  {
    if m.Execute? && Connected(s.pool, t.place.conn) {
      NewInMoved(s.soup, t, Returning(t.place.conn, m.response), u);
    }
  }

  lemma NewInMoved(soup: multiset<Token>, t: Token, p: Place, u: Token)
    requires u in Moved(soup, t, p) && u !in soup
    ensures u == Token(t.id, p)
  {
  }

  /** Only the token a step is about can go. */
  lemma GoneToken(s: State, step: Step, u: Token)
    requires TokensSound(s.cache, s.soup) && Can(s, step) && u in s.soup && u !in Do(s, step).soup
    ensures step.MoveStep? && step.t == u
  {
    if step.MoveStep? {
      if step.t != u {
        StaysInMove(s, step.t, step.m, u);
      }
    }
  }

  lemma StaysInMove(s: State, t: Token, m: Move, u: Token)
    requires TokensSound(s.cache, s.soup) && CanMove(s, t, m) && u in s.soup && u != t
    ensures u in MoveDo(s, t, m).soup
  {
    if Carries(m) {
      CarryIs(s, t, m);
    }
  }

  /** Goroutines and connections that are gone do not come back; a new connection has a new number. */
  lemma ConnsOnlyFall(s: State, step: Step, k: nat)
    requires Can(s, step) && ConnsSound(s.pool) && k in Do(s, step).pool.conns
    ensures k !in s.pool.conns ==> step == PoolStep(Connect) && k == s.pool.dialled
    ensures k in s.pool.conns ==>
              var c, c' := s.pool.conns[k], Do(s, step).pool.conns[k];
              && (c'.connected ==> c.connected) && (c'.sender ==> c.sender) && (c'.receiver ==> c.receiver)
              && (c.sender && !c'.sender ==>
                    || (step == PoolStep(SenderStops(k)) && s.ctxDone)
                    || (step.MoveStep? && step.m.WriteFails? && step.t.place.Writing? && step.t.place.conn == k))
  {
    if step.MoveStep? {
      MoveKeepsPool(s, step.t, step.m, |s.pool.conns| + s.pool.vacant + s.pool.ended);
    }
  }

  lemma VacancyComesFrom(s: State, step: Step)
    requires Can(s, step) && ConnsSound(s.pool) && s.pool.vacant == 0 && Do(s, step).pool.vacant > 0
    ensures step.PoolStep? && step.act.Release? && !s.ctxDone
  {
    if step.MoveStep? {
      MoveKeepsPool(s, step.t, step.m, |s.pool.conns| + s.pool.vacant + s.pool.ended);
    }
  }

  lemma ReleasedWasUsable(s: State, k: nat, good: bool)
    requires Reachable(s) && CanPool(s, Release(k)) && !s.ctxDone
    ensures Usable(s, Via(k), good)
  {
    if IsHolding(s.soup, k) {
      var t :| t in s.soup && t.place.Received? && t.place.conn == k;
      PlaceFacts(s, t);
      assert false;
    }
  }

  /** The token in processMsg's hands. */
  lemma OnlyForwarding(s: State, t: Token, u: Token)
    requires Reachable(s) && t in s.soup && u in s.soup && t.place.Forwarding?
    requires u.place.Forwarding? || u.place.Delivering?
    ensures t == u
  {
    Uniqueness(s);
  }

  lemma SendStaysHopeless(s: State, step: Step, k: nat)
    requires Reachable(s) && Can(s, step) && k in s.pool.conns && !MaySend(s, k)
    ensures !MaySend(Do(s, step), k)
  {
    if MaySend(Do(s, step), k) {
      PoolFacts(s);
      Uniqueness(s);
      ConnsOnlyFall(s, step, k);
      WritersChange(s, step, k);
      assert false;
    }
  }

  lemma RedialStaysHopeless(s: State, step: Step, t: Token, k: nat)
    requires Reachable(s) && Can(s, step) && k in s.pool.conns && !MayRedial(s, k)
    requires t in s.soup && t.place.Forwarding? && t in Do(s, step).soup
    ensures !MayRedial(Do(s, step), k)
  {
    if MayRedial(Do(s, step), k) {
      PoolFacts(s);
      Uniqueness(s);
      ConnsOnlyFall(s, step, k);
      WritersChange(s, step, k);
      HoldersChange(s, step, k);
      if step.MoveStep? && step.m.Take? {
        OnlyForwarding(s, t, step.t);
        TakenIsGone(s, t, step.m.conn);
      }
      assert false;
    }
  }

  lemma TakenIsGone(s: State, t: Token, k: nat)
    requires Reachable(s) && CanMove(s, t, Take(k))
    ensures t !in MoveDo(s, t, Take(k)).soup
  {
    Uniqueness(s);
    MoveKeepsTokens(s.cache, s.soup, t, Writing(k, t.place.request));
  }

  lemma NoWayStays(s: State, step: Step, t: Token, good: bool)
    requires Reachable(s) && Can(s, step) && !SomeWay(s, good)
    requires t in s.soup && t.place.Forwarding? && t in Do(s, step).soup
    ensures !SomeWay(Do(s, step), good)
  {
    forall way ensures !Usable(Do(s, step), way, good) {
      assert !Usable(s, Dial, good);
      match way
      case Dial =>
        if Do(s, step).pool.vacant > 0 {
          PoolFacts(s);
          VacancyComesFrom(s, step);
          ReleasedWasUsable(s, step.act.conn, good);
          assert false;
        }
      case Via(k) =>
        assert !Usable(s, Via(k), good);
        PoolFacts(s);
        if k in Do(s, step).pool.conns {
          ConnsOnlyFall(s, step, k);
          assert k in s.pool.conns;
          RedialStaysHopeless(s, step, t, k);
          if !good {
            SendStaysHopeless(s, step, k);
          }
        }
    }
  }

  /** The deadlock is final: a blocked processMsg stays blocked, with the same request. */
  lemma BlockedStays(s: State, step: Step, t: Token)
    requires Reachable(s) && Can(s, step) && Blocked(s) && t in s.soup && t.place.Forwarding?
    ensures t in Do(s, step).soup && Blocked(Do(s, step))
  {
    Uniqueness(s);
    if t !in Do(s, step).soup {
      GoneToken(s, step, t);
      assert Usable(s, Via(step.m.conn), false);
      assert false;
    }
    NoWayStays(s, step, t, false);
  }

  // ---- a lost token never comes back

  ghost predicate Lost(s: State, ch: nat, id: nat) {
    ch in s.calls && s.calls[ch].id == id && Unrouted(s.calls[ch].phase) && !Survives(s, id)
  }

  lemma ConnectionsOnlyFall(s: State, step: Step, k: nat)
    requires Reachable(s) && Can(s, step) && k < s.pool.dialled
    ensures Connected(Do(s, step).pool, k) ==> Connected(s.pool, k)
    ensures SocketOpen(Do(s, step).pool, k) ==> SocketOpen(s.pool, k)
  {
    PoolFacts(s);
    if k in Do(s, step).pool.conns {
      ConnsOnlyFall(s, step, k);
    }
  }

  lemma AliveBefore(s: State, step: Step, t: Token)
    requires Reachable(s) && Can(s, step) && t in s.soup && t in Do(s, step).soup && Alive(Do(s, step), t.place)
    ensures Alive(s, t.place)
  {
    if t.place.Forwarding? {
      if !SomeWay(s, true) {
        NoWayStays(s, step, t, true);
      }
    } else if t.place.Received? {
      if Blocked(s) {
        var u :| u in s.soup && u.place.Forwarding?;
        BlockedStays(s, step, u);
      }
    } else if !t.place.Delivering? {
      PlaceFacts(s, t);
      ConnectionsOnlyFall(s, step, t.place.conn);
    }
  }

  lemma MovedWasAlive(s: State, t: Token, m: Move)
    requires Reachable(s) && CanMove(s, t, m) && Carries(m) && t.id in s.cache
    requires Alive(MoveDo(s, t, m), NextPlace(s, t, m))
    ensures Alive(s, t.place)
  {
    CarryIs(s, t, m);
    match m
    case Take(k) => assert Usable(s, Via(k), true);
    case Land =>
    case _ =>
  }

  lemma SurvivorCameFrom(s: State, step: Step, t: Token)
    requires Reachable(s) && Can(s, step) && t in Do(s, step).soup && Alive(Do(s, step), t.place)
    requires !(step.Submit? && s.calls[step.ch].id == t.id)
    ensures Survives(s, t.id)
  {
    if t in s.soup {
      AliveBefore(s, step, t);
    } else {
      Uniqueness(s);
      NewToken(s, step, t);
      if step.MoveStep? && Carries(step.m) {
        MovedWasAlive(s, step.t, step.m);
      }
      assert Alive(s, step.t.place);
    }
  }

  lemma LostCallKept(s: State, step: Step, ch: nat, id: nat)
    requires Reachable(s) && Can(s, step) && Lost(s, ch, id)
    ensures ch in Do(s, step).calls && Do(s, step).calls[ch].id == id && Unrouted(Do(s, step).calls[ch].phase)
  {
    if step.MoveStep? {
      MoveKeepsCalls(s, step.t, step.m);
      if step.m.Deliver? {
        DeliversTo(s, step.t);
        assert Alive(s, step.t.place);
      }
    }
  }

  lemma LostStaysLost(s: State, step: Step, ch: nat, id: nat)
    requires Reachable(s) && Can(s, step) && Lost(s, ch, id)
    ensures Lost(Do(s, step), ch, id)
  {
    LostCallKept(s, step, ch, id);
    forall t | t in Do(s, step).soup && t.id == id ensures !Alive(Do(s, step), t.place) {
      if Alive(Do(s, step), t.place) {
        CallFacts(s);
        SurvivorCameFrom(s, step, t);
      }
    }
  }

  /** A caller whose token did not survive is answered in no run. */
  lemma {:induction false} LostForever(s: State, steps: seq<Step>, s': State, ch: nat, id: nat)
    requires Reachable(s) && Path(s, steps, s') && Lost(s, ch, id)
    ensures Lost(s', ch, id)
    decreases |steps|
  {
    if steps != [] {
      LostStaysLost(s, steps[0], ch, id);
      ReachableStep(s, steps[0]);
      LostForever(Do(s, steps[0]), steps[1..], s', ch, id);
    }
  }
}
