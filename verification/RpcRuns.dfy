/** Runs of the RPC layer that bring a surviving token home, or a call past processMsg: the conditions' other halves. */
module RpcRuns {
  import opened Prelude
  import opened Rpc
  import opened RpcSafety
  import opened RpcPool
  import opened RpcAnswers

  lemma OneMore(s: State, step: Step, goal: State -> bool)
    requires Can(s, step) && Leads(Do(s, step), goal)
    ensures Leads(s, goal)
  {
    var steps, s' :| Path(Do(s, step), steps, s') && goal(s');
    assert ([step] + steps)[1..] == steps;
    assert Path(s, [step] + steps, s');
  }

  lemma There(s: State, goal: State -> bool)
    requires goal(s)
    ensures Leads(s, goal)
  {
    assert Path(s, [], s);
  }

  // ---- getting a request out of processMsg's hands

  /** Steps until the request can be taken this way, and one. */
  function Work(s: State, way: Way, good: bool): nat {
    match way
    case Dial => 2
    case Via(k) =>
      if k !in s.pool.conns then 0
      else if (if good then Connected(s.pool, k) else MaySend(s, k)) then (if IsWriting(s.soup, k) then 2 else 1)
      else 3 + (if s.pool.conns[k].sender then 1 else 0) + if s.pool.conns[k].receiver then 1 else 0
  }

  /** Steps of the pool and of requests being written. */
  predicate Prepares(step: Step) {
    || (step.PoolStep? && (step.act.Connect? || step.act.ReceiverStops? || step.act.Release?))
    || (step.MoveStep? && (step.m.Written? || step.m.WriteFails?))
  }

  lemma DialNow(s: State, good: bool)
    requires Reachable(s) && Usable(s, Dial, good)
    ensures Can(s, PoolStep(Connect))
    ensures Usable(Do(s, PoolStep(Connect)), Via(s.pool.dialled), good)
    ensures Work(Do(s, PoolStep(Connect)), Via(s.pool.dialled), good) == 1
  {
    if IsWriting(s.soup, s.pool.dialled) {
      var t :| t in s.soup && t.place.Writing? && t.place.conn == s.pool.dialled;
      PlaceFacts(s, t);
      assert false;
    }
  }

  lemma LastWriter(s: State, v: Token)
    requires TokensSound(s.cache, s.soup) && HandsSound(s.soup) && v in s.soup && v.place.Writing?
    ensures !IsWriting(Moved(s.soup, v, OnWire(v.place.conn, v.place.request)), v.place.conn)
  {
    var soup' := Moved(s.soup, v, OnWire(v.place.conn, v.place.request));
    MoveKeepsTokens(s.cache, s.soup, v, OnWire(v.place.conn, v.place.request));
    forall t | t in soup' && t.place.Writing? ensures t.place.conn != v.place.conn {
      assert t in s.soup && t != v;
    }
  }

  lemma WriteNow(s: State, k: nat, good: bool) returns (v: Token)
    requires Reachable(s) && k in s.pool.conns && IsWriting(s.soup, k)
    requires if good then Connected(s.pool, k) else MaySend(s, k)
    ensures Can(s, MoveStep(v, Written)) && v.place.Writing? && v.place.conn == k
    ensures Usable(Do(s, MoveStep(v, Written)), Via(k), good) && Work(Do(s, MoveStep(v, Written)), Via(k), good) == 1
  {
    v :| v in s.soup && v.place.Writing? && v.place.conn == k;
    assert SocketOpen(s.pool, k) by { PoolFacts(s); }
    assert !IsWriting(MoveDo(s, v, Written).soup, k) by {
      Uniqueness(s);
      LastWriter(s, v);
    }
  }

  /** A conn that must redial: its sender's write fails, then its receiver returns, then runConn dials. */
  predicate MustRedial(s: State, k: nat, good: bool) {
    MayRedial(s, k) && !(if good then Connected(s.pool, k) else MaySend(s, k))
  }

  lemma FailNow(s: State, k: nat, v: Token, good: bool)
    requires Reachable(s) && MustRedial(s, k, good) && !Connected(s.pool, k) && s.pool.conns[k].sender
    requires v in s.soup && v.place.Writing? && v.place.conn == k
    ensures Can(s, MoveStep(v, WriteFails))
    ensures var s' := MoveDo(s, v, WriteFails);
            && MustRedial(s', k, good) && Work(s', Via(k), good) < Work(s, Via(k), good)
            && forall j | j != k && SocketOpen(s.pool, j) :: SocketOpen(s'.pool, j)
  {
    Uniqueness(s);
    HoldersChange(s, MoveStep(v, WriteFails), k);
  }

  lemma RedialNow(s: State, k: nat, good: bool) returns (step: Step, way: Way)
    requires Reachable(s) && MustRedial(s, k, good)
    ensures Can(s, step) && Prepares(step)
    ensures Usable(Do(s, step), way, good) && Work(Do(s, step), way, good) < Work(s, Via(k), good)
    ensures !good ==> forall j | SocketOpen(s.pool, j) :: SocketOpen(Do(s, step).pool, j)
  {
    assert !Connected(s.pool, k) by { PoolFacts(s); }
    var c := s.pool.conns[k];
    way := Via(k);
    if c.sender {
      var v :| v in s.soup && v.place.Writing? && v.place.conn == k;
      step := MoveStep(v, WriteFails);
      FailNow(s, k, v, good);
    } else if c.receiver {
      step := PoolStep(ReceiverStops(k));
    } else {
      step := PoolStep(Release(k));
      way := Dial;
    }
  }

  lemma Approach(s: State, way: Way, good: bool) returns (step: Step, way': Way)
    requires Reachable(s) && Usable(s, way, good) && Work(s, way, good) != 1
    ensures Can(s, step) && Prepares(step)
    ensures Usable(Do(s, step), way', good) && Work(Do(s, step), way', good) < Work(s, way, good)
    ensures !good ==> forall j | SocketOpen(s.pool, j) :: SocketOpen(Do(s, step).pool, j)
  {
    match way
    case Dial =>
      DialNow(s, good);
      step, way' := PoolStep(Connect), Via(s.pool.dialled);
    case Via(k) =>
      if (if good then Connected(s.pool, k) else MaySend(s, k)) {
        var v := WriteNow(s, k, good);
        step, way' := MoveStep(v, Written), way;
      } else {
        step, way' := RedialNow(s, k, good);
      }
  }

  lemma PreparesKeeps(s: State, step: Step)
    requires TokensSound(s.cache, s.soup) && Can(s, step) && Prepares(step)
    ensures forall t | t in s.soup && !t.place.Writing? :: t in Do(s, step).soup
    ensures Do(s, step).calls == s.calls && Do(s, step).ctxDone == s.ctxDone && Do(s, step).stopped == s.stopped
  {
    forall t | t in s.soup && !t.place.Writing? ensures t in Do(s, step).soup {
      if t !in Do(s, step).soup {
        GoneToken(s, step, t);
      }
    }
    if step.MoveStep? {
      MoveKeepsCalls(s, step.t, step.m);
    }
  }

  /** Once the token processMsg holds has left it, processMsg holds none. */
  lemma RouterFreed(s: State, u: Token, s': State)
    requires HandsSound(s.soup) && u in s.soup && Holder(u.place) == Some(0) && !s'.stopped
    requires forall t | t in s'.soup :: t.place.Writing? || (t in s.soup && t != u)
    ensures RouterIdle(s') && !RouterSends(s'.soup)
  {
    forall t | t in s'.soup ensures !t.place.Forwarding? && !t.place.Delivering? {
      assert t in s.soup ==> Holder(t.place) != Holder(u.place);
    }
  }

  lemma TakeFrees(s: State, u: Token, way: Way, good: bool) returns (k: nat)
    requires Reachable(s) && !s.stopped && u in s.soup && u.place.Forwarding?
    requires Usable(s, way, good) && Work(s, way, good) == 1
    ensures way == Via(k) && CanMove(s, u, Take(k)) && (good ==> Connected(s.pool, k))
    ensures var s' := MoveDo(s, u, Take(k));
            && RouterIdle(s') && !RouterSends(s'.soup)
            && s'.calls == s.calls && s'.pool == s.pool && s'.ctxDone == s.ctxDone
            && forall t | t in s.soup && t != u :: t in s'.soup
  {
    k := way.conn;
    PoolFacts(s);
    Uniqueness(s);
    TakenIsFreed(s, u, k);
  }

  lemma TakenIsFreed(s: State, u: Token, k: nat)
    requires Reachable(s) && !s.stopped && CanMove(s, u, Take(k))
    ensures var s' := MoveDo(s, u, Take(k));
            && RouterIdle(s') && !RouterSends(s'.soup)
            && s'.calls == s.calls && s'.pool == s.pool && s'.ctxDone == s.ctxDone
            && forall t | t in s.soup && t != u :: t in s'.soup
  {
    Uniqueness(s);
    MoveKeepsTokens(s.cache, s.soup, u, Writing(k, u.place.request));
    RouterFreed(s, u, MoveDo(s, u, Take(k)));
  }

  lemma HandOverFrees(s: State, u: Token)
    requires Reachable(s) && !s.stopped && CanMove(s, u, Deliver)
    ensures RouterIdle(DeliverDo(s, u)) && !RouterSends(DeliverDo(s, u).soup)
    ensures forall t | t in s.soup && t != u :: t in DeliverDo(s, u).soup
  {
    Uniqueness(s);
    RemoveKeepsTokens(s.cache, s.soup, u);
    RouterFreed(s, u, DeliverDo(s, u));
  }

  // ---- bringing a token home

  ghost predicate Healthy(s: State, ch: nat, t: Token) {
    && Reachable(s) && !s.ctxDone && PhaseIs(s, ch, Waiting)
    && t in s.soup && t.id == s.calls[ch].id && Alive(s, t.place)
  }

  function Rank(p: Place): nat {
    match p
    case Forwarding(_) => 7
    case Writing(_, _) => 6
    case OnWire(_, _) => 5
    case Queued(_, _) => 4
    case Returning(_, _) => 3
    case Buffered(_, _) => 2
    case Received(_, _) => 1
    case Delivering(_, _) => 0
  }

  /** Responses in the way of one in the socket. */
  function HandLoad(s: State, p: Place): nat {
    if p.Buffered? && IsHolding(s.soup, p.conn) then 1 else 0
  }

  function Busy(s: State): nat {
    if RouterIdle(s) then 0 else 1
  }

  /** Steps that only prepare, or that free processMsg of another message, leave the token as healthy as it was. */
  lemma StaysHealthy(s: State, step: Step, ch: nat, t: Token)
    requires Healthy(s, ch, t) && Can(s, step) && (t.place.Buffered? || t.place.Received?)
    requires t in Do(s, step).soup && !Do(s, step).ctxDone && PhaseIs(Do(s, step), ch, Waiting)
    requires Do(s, step).calls[ch].id == t.id
    requires SocketOpen(s.pool, t.place.conn) ==> SocketOpen(Do(s, step).pool, t.place.conn)
    requires !RouterSends(Do(s, step).soup) || SomeWay(Do(s, step), false)
    ensures Healthy(Do(s, step), ch, t)
    ensures !(step.MoveStep? && step.m.Receive?) ==> HandLoad(Do(s, step), t.place) <= HandLoad(s, t.place)
  {
    ReachableStep(s, step);
    Uniqueness(s);
    HoldersChange(s, step, t.place.conn);
  }

  lemma {:induction false} SurvivorAnswers(s: State, ch: nat, t: Token)
    requires Healthy(s, ch, t)
    ensures Leads(s, Answered(ch))
    decreases Rank(t.place), HandLoad(s, t.place), Busy(s)
  {
    CallFacts(s);
    PoolFacts(s);
    match t.place
    case Forwarding(request) =>
      var way :| Usable(s, way, true);
      ForwardingAnswers(s, ch, t, way);
    case Writing(k, request) => OwnStep(s, ch, t, Written);
    case OnWire(k, request) => OwnStep(s, ch, t, Arrive);
    case Queued(k, request) => QueuedAnswers(s, ch, t);
    case Returning(k, response) => OwnStep(s, ch, t, Land);
    case Buffered(k, response) => BufferedAnswers(s, ch, t);
    case Received(k, response) => ReceivedAnswers(s, ch, t);
    case Delivering(response, to) => DeliveringAnswers(s, ch, t);
  }

  lemma {:induction false} OwnStep(s: State, ch: nat, t: Token, m: Move)
    requires Healthy(s, ch, t) && CanMove(s, t, m) && Carries(m) && t.id in s.cache
    requires Alive(MoveDo(s, t, m), NextPlace(s, t, m)) && Rank(NextPlace(s, t, m)) < Rank(t.place)
    ensures Leads(s, Answered(ch))
    decreases Rank(t.place), 0, 0, 0
  {
    CarryIs(s, t, m);
    ReachableStep(s, MoveStep(t, m));
    SurvivorAnswers(MoveDo(s, t, m), ch, Token(t.id, NextPlace(s, t, m)));
    OneMore(s, MoveStep(t, m), Answered(ch));
  }

  lemma {:induction false} ForwardingAnswers(s: State, ch: nat, t: Token, way: Way)
    requires Healthy(s, ch, t) && t.place.Forwarding? && Usable(s, way, true)
    ensures Leads(s, Answered(ch))
    decreases Rank(t.place), 0, 0, 1 + Work(s, way, true)
  {
    CallFacts(s);
    Uniqueness(s);
    if Work(s, way, true) == 1 {
      var k := TakeFrees(s, t, way, true);
      OwnStep(s, ch, t, Take(k));
    } else {
      var step, way' := Approach(s, way, true);
      PreparesKeeps(s, step);
      ReachableStep(s, step);
      ForwardingAnswers(Do(s, step), ch, t, way');
      OneMore(s, step, Answered(ch));
    }
  }

  lemma {:induction false} QueuedAnswers(s: State, ch: nat, t: Token)
    requires Healthy(s, ch, t) && t.place.Queued?
    ensures Leads(s, Answered(ch))
    decreases Rank(t.place), 0, 0, 0
  {
    var step := MoveStep(t, Execute([]));
    ReachableStep(s, step);
    SurvivorAnswers(Do(s, step), ch, Token(t.id, Returning(t.place.conn, [])));
    OneMore(s, step, Answered(ch));
  }

  lemma {:induction false} BufferedAnswers(s: State, ch: nat, t: Token)
    requires Healthy(s, ch, t) && t.place.Buffered?
    ensures Leads(s, Answered(ch))
    decreases Rank(t.place), HandLoad(s, t.place), Busy(s), 2
  {
    var k := t.place.conn;
    Uniqueness(s);
    assert Usable(s, Via(k), false);
    if !IsHolding(s.soup, k) {
      CarryIs(s, t, Receive);
      assert Usable(MoveDo(s, t, Receive), Via(k), false) by {
        assert MaySend(MoveDo(s, t, Receive), k);
      }
      OwnStep(s, ch, t, Receive);
    } else if RouterIdle(s) {
      var u :| u in s.soup && u.place.Received? && u.place.conn == k;
      RouteOther(s, ch, t, u);
    } else {
      ClearRouter(s, ch, t, Via(k));
    }
  }

  /** The response in handleReceive's hands goes on to processMsg. */
  lemma {:induction false} RouteOther(s: State, ch: nat, t: Token, u: Token)
    requires Healthy(s, ch, t) && t.place.Buffered? && RouterIdle(s)
    requires u in s.soup && u.place.Received? && u.place.conn == t.place.conn
    ensures Leads(s, Answered(ch))
    decreases Rank(t.place), HandLoad(s, t.place), Busy(s), 1
  {
    var step := MoveStep(u, Route);
    Uniqueness(s);
    CarryIs(s, u, Route);
    MoveKeepsTokens(s.cache, s.soup, u, NextPlace(s, u, Route));
    MoveKeepsCalls(s, u, Route);
    assert !RouterSends(Do(s, step).soup);
    StaysHealthy(s, step, ch, t);
    OneHand(s.soup, u, Do(s, step).soup);
    SurvivorAnswers(Do(s, step), ch, t);
    OneMore(s, step, Answered(ch));
  }

  lemma OneHand(soup: multiset<Token>, u: Token, soup': multiset<Token>)
    requires HandsSound(soup) && u in soup && u.place.Received?
    requires forall t | t in soup' :: t.place.Delivering? || (t in soup && t.id != u.id)
    ensures !IsHolding(soup', u.place.conn)
  {
    forall t | t in soup' && t.place.Received? ensures t.place.conn != u.place.conn {
      assert t in soup && t != u;
    }
  }

  lemma {:induction false} ReceivedAnswers(s: State, ch: nat, t: Token)
    requires Healthy(s, ch, t) && t.place.Received?
    ensures Leads(s, Answered(ch))
    decreases Rank(t.place), HandLoad(s, t.place), Busy(s), 1
  {
    Uniqueness(s);
    CallFacts(s);
    if RouterIdle(s) {
      OwnStep(s, ch, t, Route);
    } else if RouterSends(s.soup) {
      var way :| Usable(s, way, false);
      ClearRouter(s, ch, t, way);
    } else {
      ClearRouter(s, ch, t, Dial);
    }
  }

  lemma DeliveringAnswers(s: State, ch: nat, t: Token)
    requires Healthy(s, ch, t) && t.place.Delivering?
    ensures Leads(s, Answered(ch))
  {
    DeliversTo(s, t);
    CallFacts(s);
    assert t.place.ch == ch;
    There(DeliverDo(s, t), Answered(ch));
    OneMore(s, MoveStep(t, Deliver), Answered(ch));
  }

  /** Whatever keeps processMsg busy can be finished, without disturbing a response in the socket or in hand. */
  lemma {:induction false} ClearRouter(s: State, ch: nat, t: Token, way: Way)
    requires Healthy(s, ch, t) && (t.place.Buffered? || t.place.Received?) && !RouterIdle(s)
    requires RouterSends(s.soup) ==> Usable(s, way, false)
    ensures Leads(s, Answered(ch))
    decreases Rank(t.place), HandLoad(s, t.place), Busy(s), 1, Work(s, way, false)
  {
    CallFacts(s);
    var u :| u in s.soup && (u.place.Forwarding? || u.place.Delivering?);
    if u.place.Delivering? {
      ClearHandOver(s, ch, t, u);
    } else if Work(s, way, false) == 1 {
      ClearTake(s, ch, t, u, way);
    } else {
      var step, way' := Approach(s, way, false);
      ApproachKeepsHealthy(s, step, ch, t, u, way');
      ClearRouter(Do(s, step), ch, t, way');
      OneMore(s, step, Answered(ch));
    }
  }

  lemma ApproachKeepsHealthy(s: State, step: Step, ch: nat, t: Token, u: Token, way: Way)
    requires Healthy(s, ch, t) && (t.place.Buffered? || t.place.Received?)
    requires u in s.soup && u.place.Forwarding? && Can(s, step) && Prepares(step) && Usable(Do(s, step), way, false)
    requires forall j | SocketOpen(s.pool, j) :: SocketOpen(Do(s, step).pool, j)
    ensures Healthy(Do(s, step), ch, t) && !RouterIdle(Do(s, step))
    ensures HandLoad(Do(s, step), t.place) <= HandLoad(s, t.place)
  {
    Uniqueness(s);
    PreparesKeeps(s, step);
    StaysHealthy(s, step, ch, t);
    assert u in Do(s, step).soup;
  }

  lemma {:induction false} ClearHandOver(s: State, ch: nat, t: Token, u: Token)
    requires Healthy(s, ch, t) && (t.place.Buffered? || t.place.Received?) && !RouterIdle(s)
    requires u in s.soup && u.place.Delivering?
    ensures Leads(s, Answered(ch))
    decreases Rank(t.place), HandLoad(s, t.place), Busy(s), 0, 0
  {
    CallFacts(s);
    Uniqueness(s);
    DeliversTo(s, u);
    HandOverFrees(s, u);
    var step := MoveStep(u, Deliver);
    StaysHealthy(s, step, ch, t);
    SurvivorAnswers(Do(s, step), ch, t);
    OneMore(s, step, Answered(ch));
  }

  lemma {:induction false} ClearTake(s: State, ch: nat, t: Token, u: Token, way: Way)
    requires Healthy(s, ch, t) && (t.place.Buffered? || t.place.Received?) && !RouterIdle(s)
    requires u in s.soup && u.place.Forwarding? && Usable(s, way, false) && Work(s, way, false) == 1
    ensures Leads(s, Answered(ch))
    decreases Rank(t.place), HandLoad(s, t.place), Busy(s), 0, 0
  {
    CallFacts(s);
    var k := TakeFrees(s, u, way, false);
    var step := MoveStep(u, Take(k));
    StaysHealthy(s, step, ch, t);
    SurvivorAnswers(Do(s, step), ch, t);
    OneMore(s, step, Answered(ch));
  }

  /**
   Over every run: a caller that waits under a live context can still be answered exactly when its token survives,
   that is, a request that processMsg holds can get to a working connection; a message on a connection is on one
   that works, or already in a socket not closed; and a response in handleReceive's hands is not waiting for a
   processMsg that no sender will ever free.
   */
  lemma AnsweredIffSurvives(batch: nat, steps: seq<Step>, s: State, ch: nat)
    requires Path(Start(batch), steps, s) && PhaseIs(s, ch, Waiting) && !s.ctxDone
    ensures Leads(s, Answered(ch)) <==> Survives(s, s.calls[ch].id)
  {
    var id := s.calls[ch].id;
    if Survives(s, id) {
      var t :| t in s.soup && t.id == id && Alive(s, t.place);
      SurvivorAnswers(s, ch, t);
    } else if Leads(s, Answered(ch)) {
      var more, s' :| Path(s, more, s') && Answered(ch)(s');
      LostForever(s, more, s', ch, id);
    }
  }
}
