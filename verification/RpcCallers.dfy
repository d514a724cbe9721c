/**
 What callers can count on while the context lives. A call is always taken unless very many others wait: the pool's
 deadlock takes two waiting calls for each connection, and one more. But a response can be lost on a dropped
 connection, and its caller then waits until the context is done.
 */
module RpcCallers {
  import opened Prelude
  import opened Rpc
  import opened RpcSafety
  import opened RpcPool
  import opened RpcAnswers
  import opened RpcReturns
  import opened RpcDeadlock

  /** The calls that wait for a response. */
  function WaitingCalls(s: State): set<nat> {
    set ch | ch in s.calls && s.calls[ch].phase.Waiting?
  }

  /** The calls that wait for a response that nothing carries any more. */
  ghost predicate Bereft(s: State, ch: nat) {
    PhaseIs(s, ch, Waiting) && forall t | t in s.soup :: t.id != s.calls[ch].id
  }

  ghost function BereftCalls(s: State): set<nat> {
    set ch | ch in s.calls && Bereft(s, ch)
  }

  function WithoutSenders(pool: Pool): set<nat> {
    set k | k in pool.conns && !pool.conns[k].sender
  }

  // ---- each connection without a sender has cost a call its message

  lemma StillBereft(s: State, step: Step, ch: nat)
    requires Reachable(s) && Can(s, step) && !s.ctxDone && Bereft(s, ch)
    ensures Bereft(Do(s, step), ch)
  {
    CallFacts(s);
    if step.MoveStep? {
      StillBereftInMove(s, step.t, step.m, ch);
    }
  }

  lemma StillBereftInMove(s: State, t: Token, m: Move, ch: nat)
    requires Reachable(s) && CanMove(s, t, m) && Bereft(s, ch)
    ensures Bereft(MoveDo(s, t, m), ch)
  {
    Uniqueness(s);
    MoveKeepsCalls(s, t, m);
    NoNewToken(s, t, m);
    if m.Deliver? {
      DeliversTo(s, t);
    }
  }

  /** Tokens keep their IDs on the way. */
  lemma NoNewToken(s: State, t: Token, m: Move)
    requires TokensSound(s.cache, s.soup) && CanMove(s, t, m)
    ensures forall u | u in MoveDo(s, t, m).soup :: exists v :: v in s.soup && v.id == u.id
  {
    forall u | u in MoveDo(s, t, m).soup ensures exists v :: v in s.soup && v.id == u.id {
      assert u in s.soup || u.id == t.id;
    }
  }

  /** A failed write leaves its caller bereft. */
  lemma WriteBereaves(s: State, t: Token) returns (ch: nat)
    requires Reachable(s) && !s.ctxDone && CanMove(s, t, WriteFails)
    ensures ch in s.calls && !Bereft(s, ch) && Bereft(MoveDo(s, t, WriteFails), ch)
  {
    CallFacts(s);
    Uniqueness(s);
    ch := s.cache[t.id];
    assert Unrouted(s.calls[ch].phase);
    RemoveKeepsTokens(s.cache, s.soup, t);
    MoveKeepsCalls(s, t, WriteFails);
  }

  ghost predicate Costly(s: State) {
    !s.ctxDone ==> |WithoutSenders(s.pool)| <= |BereftCalls(s)| && s.pool.ended == 0
  }

  lemma SendersStay(s: State, step: Step)
    requires Can(s, step) && !s.ctxDone && !(step.MoveStep? && step.m.WriteFails?)
    ensures WithoutSenders(Do(s, step).pool) <= WithoutSenders(s.pool)
    ensures Do(s, step).pool.ended == s.pool.ended
  {
    if step.MoveStep? {
      assert MovePool(s, step.t, step.m) == s.pool;
    }
  }

  lemma StepKeepsCostly(s: State, step: Step)
    requires Reachable(s) && Can(s, step) && Costly(s)
    ensures Costly(Do(s, step))
  {
    var s' := Do(s, step);
    if !s.ctxDone {
      forall ch | ch in BereftCalls(s) ensures ch in BereftCalls(s') {
        StillBereft(s, step, ch);
      }
      if step.MoveStep? && step.m.WriteFails? {
        var ch := WriteBereaves(s, step.t);
        SubsetSize(BereftCalls(s) + {ch}, BereftCalls(s'));
        SubsetSize(WithoutSenders(s'.pool), WithoutSenders(s.pool) + {step.t.place.conn});
      } else {
        SendersStay(s, step);
        SubsetSize(BereftCalls(s), BereftCalls(s'));
        SubsetSize(WithoutSenders(s'.pool), WithoutSenders(s.pool));
      }
    }
  }

  lemma {:induction false} PathKeepsCostly(s: State, steps: seq<Step>, s': State)
    requires Reachable(s) && Costly(s) && Path(s, steps, s')
    ensures Costly(s')
    decreases |steps|
  {
    if steps != [] {
      StepKeepsCostly(s, steps[0]);
      ReachableStep(s, steps[0]);
      PathKeepsCostly(Do(s, steps[0]), steps[1..], s');
    }
  }

  // ---- the deadlock needs a call for each held response, each failed write, and one more

  lemma {:induction false} ImageSize<K, V>(m: map<K, V>)
    requires forall k, k' | k in m && k' in m && m[k] == m[k'] :: k == k'
    ensures |m.Values| == |m.Keys|
    decreases |m.Keys|
  {
    if m.Keys == {} {
      assert m.Values == {};
    } else {
      var k :| k in m.Keys;
      var rest := m - {k};
      assert rest.Keys == m.Keys - {k};
      ImageSize(rest);
      assert m.Values == rest.Values + {m[k]} by {
        forall v | v in m.Values ensures v in rest.Values + {m[k]} {
          var k' :| k' in m && m[k'] == v;
          assert k' == k || rest[k'] == v;
        }
      }
    }
  }

  /** The caller of the response that a connection's handleReceive holds. */
  ghost predicate HeldFor(s: State, k: nat, ch: nat) {
    exists t :: t in s.soup && t.place.Received? && t.place.conn == k && t.id in s.cache && s.cache[t.id] == ch
  }

  lemma TokenCaller(s: State, t: Token)
    requires Reachable(s) && !s.ctxDone && t in s.soup
    ensures t.id in s.cache && s.cache[t.id] in WaitingCalls(s) && s.cache[t.id] !in BereftCalls(s)
  {
    CallFacts(s);
    Uniqueness(s);
    assert Unrouted(s.calls[s.cache[t.id]].phase);
  }

  lemma CallerOfHeld(s: State, k: nat) returns (ch: nat)
    requires Reachable(s) && !s.ctxDone && IsHolding(s.soup, k)
    ensures HeldFor(s, k, ch)
  {
    var t :| t in s.soup && t.place.Received? && t.place.conn == k;
    TokenCaller(s, t);
    ch := s.cache[t.id];
  }

  lemma HeldApart(s: State, k: nat, k': nat, ch: nat)
    requires Reachable(s) && HeldFor(s, k, ch) && HeldFor(s, k', ch)
    ensures k == k'
  {
    CallFacts(s);
    Uniqueness(s);
  }

  lemma {:induction false} HeldCallers(s: State, conns: set<nat>) returns (m: map<nat, nat>)
    requires Reachable(s) && !s.ctxDone && forall k | k in conns :: IsHolding(s.soup, k)
    ensures m.Keys == conns && forall k | k in m :: HeldFor(s, k, m[k])
    decreases |conns|
  {
    if conns == {} {
      m := map[];
    } else {
      var k :| k in conns;
      m := HeldCallers(s, conns - {k});
      var ch := CallerOfHeld(s, k);
      m := m[k := ch];
    }
  }

  /** In the deadlock every connection holds a response and has lost its sender. */
  lemma BlockedConns(s: State)
    requires Blocked(s) && !s.ctxDone && ConnsSound(s.pool) && PlacesSound(s.pool, s.soup)
    ensures s.pool.vacant == 0
    ensures forall k | k in s.pool.conns :: IsHolding(s.soup, k) && !s.pool.conns[k].sender
  {
    assert !Usable(s, Dial, false);
    forall k | k in s.pool.conns ensures IsHolding(s.soup, k) && !s.pool.conns[k].sender {
      assert !Usable(s, Via(k), false);
      if t :| t in s.soup && t.place.Received? && t.place.conn == k {
        assert PlaceSound(s.pool, t.place);
      }
    }
  }

  /** Waiting calls of three kinds, all different. */
  lemma ThreeKinds(s: State, held: set<nat>, u: Token)
    requires Reachable(s) && !s.ctxDone && u in s.soup && u.place.Forwarding?
    requires forall ch | ch in held :: exists k :: HeldFor(s, k, ch)
    ensures |WaitingCalls(s)| >= |BereftCalls(s)| + |held| + 1
  {
    Uniqueness(s);
    CallFacts(s);
    TokenCaller(s, u);
    var last := s.cache[u.id];
    forall ch | ch in held ensures ch in WaitingCalls(s) && ch !in BereftCalls(s) && ch != last {
      var k :| HeldFor(s, k, ch);
      var t :| t in s.soup && t.place.Received? && t.place.conn == k && t.id in s.cache && s.cache[t.id] == ch;
      TokenCaller(s, t);
    }
    assert |BereftCalls(s) + held + {last}| == |BereftCalls(s)| + |held| + 1;
    SubsetSize(BereftCalls(s) + held + {last}, WaitingCalls(s));
  }

  lemma RunFacts(batch: nat, s: State)
    requires RunOf(batch, s)
    ensures Reachable(s) && Costly(s) && Counted(s.pool, batch)
  {
    var steps :| Path(Start(batch), steps, s);
    assert Path(Start(batch), [], Start(batch));
    assert WithoutSenders(Start(batch).pool) == {};
    PathKeepsCostly(Start(batch), steps, s);
    PathKeepsOrderly(Start(batch), steps, s, batch);
  }

  lemma HeldCount(s: State) returns (held: set<nat>)
    requires Reachable(s) && !s.ctxDone && forall k | k in s.pool.conns :: IsHolding(s.soup, k)
    ensures |held| == |s.pool.conns| && forall ch | ch in held :: exists k :: HeldFor(s, k, ch)
  {
    var m := HeldCallers(s, s.pool.conns.Keys);
    forall k, k' | k in m && k' in m && m[k] == m[k'] ensures k == k' {
      HeldApart(s, k, k', m[k]);
    }
    ImageSize(m);
    held := m.Values;
    assert |s.pool.conns.Keys| == |s.pool.conns|;
  }

  lemma DeadlockTakes(batch: nat, s: State)
    requires RunOf(batch, s) && !s.ctxDone && Blocked(s)
    ensures |WaitingCalls(s)| >= 2 * batch + 1
  {
    RunFacts(batch, s);
    PoolFacts(s);
    BlockedConns(s);
    assert WithoutSenders(s.pool) == s.pool.conns.Keys;
    var held := HeldCount(s);
    var u :| u in s.soup && u.place.Forwarding?;
    ThreeKinds(s, held, u);
  }

  /**
   Exactly how many calls have to wait for the deadlock of a pool under a live context: one for each response that is
   held, one for each write that failed, and the one that processMsg cannot pass on.
   */
  lemma DeadlockIffCalls(batch: nat, n: nat)
    ensures (exists s :: RunOf(batch, s) && !s.ctxDone && Blocked(s) && |WaitingCalls(s)| <= n) <==>
            n >= 2 * batch + 1
  {
    if s :| RunOf(batch, s) && !s.ctxDone && Blocked(s) && |WaitingCalls(s)| <= n {
      DeadlockTakes(batch, s);
    }
    if n >= 2 * batch + 1 {
      var s := DropsCanDeadlock(batch);
      assert WaitingCalls(s) == s.calls.Keys;
      assert |WaitingCalls(s)| == |s.calls|;
    }
  }

  /**
   So while the context lives, no call of a transfer, which makes at most `batch` at a time, is left untaken: each
   can still return.
   */
  lemma FewCallsAreTaken(batch: nat, s: State, ch: nat)
    requires RunOf(batch, s) && !s.ctxDone && |WaitingCalls(s)| <= 2 * batch && PhaseIs(s, ch, Offering)
    ensures Leads(s, Returned(ch))
  {
    var steps :| Path(Start(batch), steps, s);
    assert Reachable(s);
    CallFacts(s);
    if Blocked(s) {
      DeadlockTakes(batch, s);
    }
    ReturnsIffTaken(batch, steps, s, ch);
  }

  // ---- a lost response

  /** A single call whose connection drops while its request is written. */
  lemma DropCanBereave(batch: nat) returns (s: State, ch: nat)
    requires batch >= 1
    ensures RunOf(batch, s) && !s.ctxDone && s.calls.Keys == {ch} && PhaseIs(s, ch, Waiting)
    ensures !Leads(s, Answered(ch))
  {
    s := OneLost(batch);
    ch :| ch in s.calls.Keys;
    assert |s.calls.Keys - {ch}| == 0;
    if Leads(s, Answered(ch)) {
      var more, s' :| Path(s, more, s') && Answered(ch)(s');
      assert Lost(s, ch, s.calls[ch].id);
      LostForever(s, more, s', ch, s.calls[ch].id);
    }
  }

  lemma OneLost(batch: nat) returns (s: State)
    requires batch >= 1
    ensures RunOf(batch, s) && !s.ctxDone && AllWait(s, 1) && s.soup == multiset{}
  {
    var s0 := Start(batch);
    assert Path(s0, [], s0);
    Connects(batch, s0);
    s := TakeAndDrop(batch, WithNew(s0), 0, 0);
  }
}
