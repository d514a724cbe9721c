/** What every run keeps of the connection pool: who holds a token, and which goroutines that needs. */
module RpcPool {
  import opened Prelude
  import opened Rpc
  import opened RpcSafety

  /** Who holds a token and can hold no other: processMsg, or one of a connection's two goroutines. */
  function Holder(p: Place): Option<nat> {
    match p
    case Forwarding(_) => Some(0)
    case Delivering(_, _) => Some(0)
    case Received(conn, _) => Some(2 * conn + 1)
    case Writing(conn, _) => Some(2 * conn + 2)
    case _ => None
  }

  ghost predicate HandsSound(soup: multiset<Token>) {
    forall t, u | t in soup && u in soup && Holder(t.place).Some? && Holder(t.place) == Holder(u.place) :: t == u
  }

  predicate Bound(p: Place) {
    !p.Forwarding? && !p.Delivering?
  }

  /** A token belongs to a connection dialled before, and one in a goroutine's hands has that goroutine running. */
  predicate PlaceSound(pool: Pool, p: Place) {
    && (Bound(p) ==> p.conn < pool.dialled)
    && (p.Writing? ==> p.conn in pool.conns && pool.conns[p.conn].sender)
    && (p.Received? ==> p.conn in pool.conns && pool.conns[p.conn].receiver)
  }

  ghost predicate PlacesSound(pool: Pool, soup: multiset<Token>) {
    forall t | t in soup :: PlaceSound(pool, t.place)
  }

  ghost predicate ConnsSound(pool: Pool) {
    forall k | k in pool.conns ::
      k < pool.dialled && (pool.conns[k].connected ==> pool.conns[k].sender && pool.conns[k].receiver)
  }

  ghost predicate ContextSound(calls: map<nat, Call>, stopped: bool, ctxDone: bool) {
    (stopped ==> ctxDone) && forall ch | ch in calls && calls[ch].phase.GaveUp? :: ctxDone
  }

  /** There are always as many runConn goroutines as at the start. */
  ghost predicate Counted(pool: Pool, batch: nat) {
    |pool.conns| + pool.vacant + pool.ended == batch
  }

  ghost predicate Orderly(s: State, batch: nat) {
    && HandsSound(s.soup) && ConnsSound(s.pool) && PlacesSound(s.pool, s.soup)
    && ContextSound(s.calls, s.stopped, s.ctxDone) && Counted(s.pool, batch)
  }

  // ---- hands

  lemma MoveKeepsHands(cache: map<nat, nat>, soup: multiset<Token>, t: Token, p: Place)
    requires TokensSound(cache, soup) && HandsSound(soup) && t in soup
    requires forall u | u in soup && u != t && Holder(p).Some? :: Holder(u.place) != Holder(p)
    ensures HandsSound(Moved(soup, t, p))
  {
    MoveKeepsTokens(cache, soup, t, p);
  }

  lemma RemoveKeepsHands(cache: map<nat, nat>, soup: multiset<Token>, t: Token)
    requires TokensSound(cache, soup) && HandsSound(soup) && t in soup
    ensures HandsSound(soup - multiset{t})
  {
    RemoveKeepsTokens(cache, soup, t);
  }

  lemma AddKeepsHands(soup: multiset<Token>, t: Token)
    requires HandsSound(soup) && forall u | u in soup :: Holder(u.place) != Holder(t.place)
    ensures HandsSound(soup + multiset{t})
  {
    forall u | u in soup + multiset{t} ensures u == t || u in soup {
    }
  }

  /** A token moves only into free hands. */
  lemma NextHandIsFree(s: State, t: Token, m: Move, u: Token)
    requires CanMove(s, t, m) && Carries(m) && t.id in s.cache && u in s.soup
    requires Holder(NextPlace(s, t, m)).Some?
    ensures Holder(u.place) != Holder(NextPlace(s, t, m))
  {
  }

  lemma CarryKeepsHands(s: State, t: Token, m: Move)
    requires TokensSound(s.cache, s.soup) && HandsSound(s.soup) && CanMove(s, t, m) && Carries(m)
    ensures HandsSound(MoveDo(s, t, m).soup)
  {
    CarryIs(s, t, m);
    var p := NextPlace(s, t, m);
    forall u | u in s.soup && u != t && Holder(p).Some? ensures Holder(u.place) != Holder(p) {
      NextHandIsFree(s, t, m, u);
    }
    MoveKeepsHands(s.cache, s.soup, t, p);
  }

  lemma SubmitKeepsHands(s: State, ch: nat)
    requires HandsSound(s.soup) && Can(s, Submit(ch))
    ensures HandsSound(SubmitDo(s, ch).soup)
  {
    AddKeepsHands(s.soup, Token(s.calls[ch].id, Forwarding(s.calls[ch].request)));
  }

  lemma ExecuteKeepsHands(s: State, t: Token, response: Content)
    requires TokensSound(s.cache, s.soup) && HandsSound(s.soup) && CanMove(s, t, Execute(response))
    ensures HandsSound(Executed(s, t, response))
  {
    RemoveKeepsHands(s.cache, s.soup, t);
    MoveKeepsHands(s.cache, s.soup, t, Returning(t.place.conn, response));
  }

  lemma StepKeepsHands(s: State, step: Step)
    requires TokensSound(s.cache, s.soup) && HandsSound(s.soup) && Can(s, step)
    ensures HandsSound(Do(s, step).soup)
  {
    if step.Submit? {
      SubmitKeepsHands(s, step.ch);
    } else if step.MoveStep? {
      if Carries(step.m) {
        CarryKeepsHands(s, step.t, step.m);
      } else if step.m.Execute? {
        ExecuteKeepsHands(s, step.t, step.m.response);
      } else {
        RemoveKeepsHands(s.cache, s.soup, step.t);
      }
    }
  }

  // ---- the pool

  lemma PoolActKeepsConns(s: State, act: PoolAct, batch: nat)
    requires ConnsSound(s.pool) && Counted(s.pool, batch) && CanPool(s, act)
    ensures ConnsSound(PoolDo(s, act)) && Counted(PoolDo(s, act), batch)
  {
    match act
    case Connect => assert s.pool.dialled !in s.pool.conns;
    case _ =>
  }

  lemma PoolActKeepsPlaces(s: State, act: PoolAct)
    requires ConnsSound(s.pool) && PlacesSound(s.pool, s.soup) && CanPool(s, act)
    ensures PlacesSound(PoolDo(s, act), s.soup)
  {
    forall t | t in s.soup ensures PlaceSound(PoolDo(s, act), t.place) {
      assert PlaceSound(s.pool, t.place);
    }
  }

  lemma MoveKeepsPool(s: State, t: Token, m: Move, batch: nat)
    requires ConnsSound(s.pool) && Counted(s.pool, batch) && CanMove(s, t, m)
    ensures ConnsSound(MoveDo(s, t, m).pool) && Counted(MoveDo(s, t, m).pool, batch)
    ensures MoveDo(s, t, m).pool == if m.WriteFails? then WithoutSender(s.pool, t.place.conn) else s.pool
  {
  }

  lemma NextPlaceSound(s: State, t: Token, m: Move)
    requires ConnsSound(s.pool) && PlaceSound(s.pool, t.place) && CanMove(s, t, m) && Carries(m) && t.id in s.cache
    ensures PlaceSound(s.pool, NextPlace(s, t, m))
  {
  }

  lemma CarryKeepsPlaces(s: State, t: Token, m: Move)
    requires TokensSound(s.cache, s.soup) && ConnsSound(s.pool) && PlacesSound(s.pool, s.soup)
    requires CanMove(s, t, m) && Carries(m)
    ensures PlacesSound(s.pool, MoveDo(s, t, m).soup)
  {
    CarryIs(s, t, m);
    assert PlaceSound(s.pool, t.place);
    NextPlaceSound(s, t, m);
    MoveKeepsTokens(s.cache, s.soup, t, NextPlace(s, t, m));
  }

  lemma ExecuteKeepsPlaces(s: State, t: Token, response: Content)
    requires TokensSound(s.cache, s.soup) && PlacesSound(s.pool, s.soup) && CanMove(s, t, Execute(response))
    ensures PlacesSound(s.pool, Executed(s, t, response))
  {
    assert PlaceSound(s.pool, t.place);
    MoveKeepsTokens(s.cache, s.soup, t, Returning(t.place.conn, response));
    RemoveKeepsTokens(s.cache, s.soup, t);
  }

  lemma RemoveKeepsPlaces(s: State, t: Token)
    requires TokensSound(s.cache, s.soup) && PlacesSound(s.pool, s.soup) && t in s.soup
    ensures PlacesSound(s.pool, s.soup - multiset{t})
  {
    RemoveKeepsTokens(s.cache, s.soup, t);
  }

  lemma FailKeepsPlaces(s: State, t: Token)
    requires TokensSound(s.cache, s.soup) && HandsSound(s.soup) && PlacesSound(s.pool, s.soup)
    requires CanMove(s, t, WriteFails)
    ensures PlacesSound(WithoutSender(s.pool, t.place.conn), s.soup - multiset{t})
  {
    RemoveKeepsTokens(s.cache, s.soup, t);
    forall u | u in s.soup - multiset{t} ensures PlaceSound(WithoutSender(s.pool, t.place.conn), u.place) {
      assert PlaceSound(s.pool, u.place);
      assert Holder(u.place) != Holder(t.place);
    }
  }

  lemma MoveKeepsPlaces(s: State, t: Token, m: Move)
    requires TokensSound(s.cache, s.soup) && HandsSound(s.soup) && ConnsSound(s.pool) && PlacesSound(s.pool, s.soup)
    requires CanMove(s, t, m)
    ensures PlacesSound(MoveDo(s, t, m).pool, MoveDo(s, t, m).soup)
  {
    if Carries(m) {
      CarryKeepsPlaces(s, t, m);
      MoveKeepsPool(s, t, m, |s.pool.conns| + s.pool.vacant + s.pool.ended);
    } else if m.Execute? {
      ExecuteKeepsPlaces(s, t, m.response);
    } else if m.WriteFails? {
      FailKeepsPlaces(s, t);
    } else {
      RemoveKeepsPlaces(s, t);
    }
  }

  lemma StepKeepsPlaces(s: State, step: Step, batch: nat)
    requires TokensSound(s.cache, s.soup) && HandsSound(s.soup) && ConnsSound(s.pool) && PlacesSound(s.pool, s.soup)
    requires Counted(s.pool, batch) && Can(s, step)
    ensures PlacesSound(Do(s, step).pool, Do(s, step).soup)
    ensures ConnsSound(Do(s, step).pool) && Counted(Do(s, step).pool, batch)
  {
    if step.MoveStep? {
      MoveKeepsPlaces(s, step.t, step.m);
      MoveKeepsPool(s, step.t, step.m, batch);
    } else if step.PoolStep? {
      PoolActKeepsPlaces(s, step.act);
      PoolActKeepsConns(s, step.act, batch);
    }
  }

  lemma StepKeepsContext(s: State, step: Step)
    requires ContextSound(s.calls, s.stopped, s.ctxDone) && Can(s, step)
    ensures ContextSound(Do(s, step).calls, Do(s, step).stopped, Do(s, step).ctxDone)
  {
    if step.MoveStep? {
      MoveKeepsCalls(s, step.t, step.m);
    }
  }

  lemma {:induction false} PathKeepsOrderly(s: State, steps: seq<Step>, s': State, batch: nat)
    requires Inv(s) && Orderly(s, batch) && Path(s, steps, s')
    ensures Orderly(s', batch)
    decreases |steps|
  {
    if steps != [] {
      StepKeepsInv(s, steps[0]);
      StepKeepsHands(s, steps[0]);
      StepKeepsPlaces(s, steps[0], batch);
      StepKeepsContext(s, steps[0]);
      PathKeepsOrderly(Do(s, steps[0]), steps[1..], s', batch);
    }
  }
}
