/** What every run of the RPC layer keeps, and what no run can do: the safety of matching responses to callers. */
module RpcSafety {
  import opened Rpc

  /** IDs are drawn from the counter, each for one call. */
  ghost predicate CallsSound(calls: map<nat, Call>, lastId: nat) {
    && (forall ch | ch in calls :: 1 <= calls[ch].id <= lastId)
    && (forall ch, ch' | ch in calls && ch' in calls && calls[ch].id == calls[ch'].id :: ch == ch')
  }

  predicate Unrouted(p: Phase) {
    p.Waiting? || p.GaveUp?
  }

  /** resCache holds exactly the calls that were forwarded and not yet answered. */
  ghost predicate CacheSound(calls: map<nat, Call>, cache: map<nat, nat>) {
    && (forall id | id in cache :: cache[id] in calls && calls[cache[id]].id == id && Unrouted(calls[cache[id]].phase))
    && (forall ch | ch in calls && Unrouted(calls[ch].phase) :: calls[ch].id in cache && cache[calls[ch].id] == ch)
  }

  /** There is at most one token for an ID, and only while the ID is in resCache. */
  ghost predicate TokensSound(cache: map<nat, nat>, soup: multiset<Token>) {
    && (forall t | t in soup :: soup[t] == 1 && t.id in cache)
    && (forall t, u | t in soup && u in soup && t.id == u.id :: t == u)
  }

  ghost predicate Done(log: seq<Execution>, id: nat) {
    exists k :: 0 <= k < |log| && log[k].id == id
  }

  /** Places on the way to the handler. */
  predicate Requests(p: Place) {
    p.Forwarding? || p.Writing? || p.OnWire? || p.Queued?
  }

  /** A token carries its caller's request, not executed yet, or the response made by executing that request. */
  ghost predicate Says(request: Content, log: seq<Execution>, ch: nat, t: Token) {
    if Requests(t.place) then t.place.request == request && !Done(log, t.id)
    else Execution(t.id, request, t.place.response) in log && (t.place.Delivering? ==> t.place.ch == ch)
  }

  ghost predicate TokenSound(calls: map<nat, Call>, cache: map<nat, nat>, log: seq<Execution>, t: Token) {
    t.id in cache && cache[t.id] in calls && Says(calls[cache[t.id]].request, log, cache[t.id], t)
  }

  ghost predicate ContentSound(calls: map<nat, Call>, cache: map<nat, nat>, soup: multiset<Token>,
                        log: seq<Execution>) {
    forall t | t in soup :: TokenSound(calls, cache, log, t)
  }

  ghost predicate Requested(calls: map<nat, Call>, e: Execution) {
    exists ch :: ch in calls && calls[ch].id == e.id && calls[ch].request == e.request && !calls[ch].phase.Offering?
  }

  /** No ID is executed twice, and what is executed is some call's request. */
  ghost predicate LogSound(calls: map<nat, Call>, log: seq<Execution>) {
    && (forall i, j | 0 <= i < j < |log| :: log[i].id != log[j].id)
    && (forall i | 0 <= i < |log| :: Requested(calls, log[i]))
  }

  ghost predicate AnswersSound(calls: map<nat, Call>, log: seq<Execution>) {
    forall ch | ch in calls && calls[ch].phase.Got? ::
      Execution(calls[ch].id, calls[ch].request, calls[ch].phase.response) in log
  }

  ghost predicate Inv(s: State) {
    && CallsSound(s.calls, s.lastId) && CacheSound(s.calls, s.cache) && TokensSound(s.cache, s.soup)
    && ContentSound(s.calls, s.cache, s.soup, s.log) && LogSound(s.calls, s.log) && AnswersSound(s.calls, s.log)
  }

  lemma MovedTokens(cache: map<nat, nat>, soup: multiset<Token>, t: Token, p: Place)
    requires TokensSound(cache, soup) && t in soup
    ensures Moved(soup, t, p)[Token(t.id, p)] == 1
    ensures forall u | u in Moved(soup, t, p) && u != Token(t.id, p) ::
              u in soup && u.id != t.id && Moved(soup, t, p)[u] == 1
    ensures forall u | u in soup && u.id != t.id :: u in Moved(soup, t, p)
  {
    assert Token(t.id, p) in soup ==> Token(t.id, p) == t;
    assert soup[t] == 1;
  }

  /** A token that moves takes its ID with it. */
  lemma MoveKeepsTokens(cache: map<nat, nat>, soup: multiset<Token>, t: Token, p: Place)
    requires TokensSound(cache, soup) && t in soup
    ensures TokensSound(cache, Moved(soup, t, p))
    ensures forall u | u in Moved(soup, t, p) :: u == Token(t.id, p) || (u in soup && u.id != t.id)
    ensures forall u | u in soup && u.id != t.id :: u in Moved(soup, t, p)
  {
    MovedTokens(cache, soup, t, p);
  }

  lemma RemoveKeepsTokens(cache: map<nat, nat>, soup: multiset<Token>, t: Token)
    requires TokensSound(cache, soup) && t in soup
    ensures TokensSound(cache, soup - multiset{t}) && TokensSound(cache - {t.id}, soup - multiset{t})
    ensures forall u | u in soup - multiset{t} :: u in soup && u.id != t.id
  {
  }

  lemma AddKeepsTokens(cache: map<nat, nat>, soup: multiset<Token>, id: nat, ch: nat, p: Place)
    requires TokensSound(cache, soup) && id !in cache
    ensures TokensSound(cache[id := ch], soup + multiset{Token(id, p)})
    ensures forall u | u in soup + multiset{Token(id, p)} :: u == Token(id, p) || (u in soup && u.id != id)
  {
  }

  lemma MoveContent(calls: map<nat, Call>, cache: map<nat, nat>, soup: multiset<Token>, log: seq<Execution>, t: Token,
                    p: Place, log': seq<Execution>)
    requires TokensSound(cache, soup) && ContentSound(calls, cache, soup, log) && t in soup
    requires log <= log' && (forall id | id != t.id && Done(log', id) :: Done(log, id))
    requires TokenSound(calls, cache, log', Token(t.id, p))
    ensures ContentSound(calls, cache, Moved(soup, t, p), log')
  {
    MoveKeepsTokens(cache, soup, t, p);
    forall u | u in Moved(soup, t, p) ensures TokenSound(calls, cache, log', u) {
      if u != Token(t.id, p) {
        assert TokenSound(calls, cache, log, u);
      }
    }
  }

  /** Steps that move one token, on the same calls and cache. */
  lemma MoveKeepsInv(s: State, t: Token, p: Place, log: seq<Execution>)
    requires Inv(s) && t in s.soup
    requires s.log <= log && (forall id | id != t.id && Done(log, id) :: Done(s.log, id))
    requires LogSound(s.calls, log)
    requires TokenSound(s.calls, s.cache, log, Token(t.id, p))
    ensures Inv(s.(soup := Moved(s.soup, t, p), log := log))
  {
    MoveContent(s.calls, s.cache, s.soup, s.log, t, p, log);
    MoveKeepsTokens(s.cache, s.soup, t, p);
  }

  lemma RemoveKeepsInv(s: State, t: Token)
    requires Inv(s) && t in s.soup
    ensures Inv(s.(soup := s.soup - multiset{t}))
  {
    RemoveKeepsTokens(s.cache, s.soup, t);
  }

  // ---- steps that change the calls

  /** Calls keep their ID and request, and never go back to offering. */
  ghost predicate Continues(calls: map<nat, Call>, calls': map<nat, Call>) {
    forall ch | ch in calls ::
      && ch in calls' && calls'[ch].id == calls[ch].id && calls'[ch].request == calls[ch].request
      && (calls'[ch].phase.Offering? ==> calls[ch].phase.Offering?)
  }

  /** What the tokens say stays true as long as the remaining ones keep their place in the cache. */
  lemma KeepContent(calls: map<nat, Call>, cache: map<nat, nat>, soup: multiset<Token>, log: seq<Execution>,
                    calls': map<nat, Call>, cache': map<nat, nat>, soup': multiset<Token>)
    requires ContentSound(calls, cache, soup, log) && Continues(calls, calls')
    requires forall t | t in soup' :: t in soup && t.id in cache' && (t.id in cache ==> cache'[t.id] == cache[t.id])
    ensures ContentSound(calls', cache', soup', log)
  {
    forall t | t in soup' ensures TokenSound(calls', cache', log, t) {
      assert TokenSound(calls, cache, log, t);
    }
  }

  lemma KeepRecords(calls: map<nat, Call>, calls': map<nat, Call>, log: seq<Execution>)
    requires LogSound(calls, log) && AnswersSound(calls, log) && Continues(calls, calls')
    requires forall ch | ch in calls' && calls'[ch].phase.Got? ::
      || (ch in calls && calls[ch].phase == calls'[ch].phase)
      || Execution(calls'[ch].id, calls'[ch].request, calls'[ch].phase.response) in log
    ensures LogSound(calls', log) && AnswersSound(calls', log)
  {
    forall i | 0 <= i < |log| ensures Requested(calls', log[i]) {
      assert Requested(calls, log[i]);
    }
  }

  lemma BeginCalls(calls: map<nat, Call>, lastId: nat, cache: map<nat, nat>, ch: nat, request: Content)
    requires CallsSound(calls, lastId) && CacheSound(calls, cache) && ch !in calls
    ensures var calls' := calls[ch := Call(lastId + 1, request, Offering)];
            CallsSound(calls', lastId + 1) && CacheSound(calls', cache) && Continues(calls, calls')
  {
  }

  lemma BeginKeepsInv(s: State, ch: nat, request: Content)
    requires Inv(s) && ch !in s.calls
    ensures Inv(s.(lastId := s.lastId + 1, calls := s.calls[ch := Call(s.lastId + 1, request, Offering)]))
  {
    BeginCalls(s.calls, s.lastId, s.cache, ch, request);
    var calls := s.calls[ch := Call(s.lastId + 1, request, Offering)];
    KeepContent(s.calls, s.cache, s.soup, s.log, calls, s.cache, s.soup);
    KeepRecords(s.calls, calls, s.log);
  }

  lemma SubmitCalls(calls: map<nat, Call>, lastId: nat, cache: map<nat, nat>, ch: nat)
    requires CallsSound(calls, lastId) && CacheSound(calls, cache) && ch in calls && calls[ch].phase.Offering?
    ensures calls[ch].id !in cache
    ensures var calls' := WithPhase(calls, ch, Waiting);
            CallsSound(calls', lastId) && CacheSound(calls', cache[calls[ch].id := ch]) && Continues(calls, calls')
  {
  }

  lemma SubmitContent(calls: map<nat, Call>, cache: map<nat, nat>, soup: multiset<Token>, log: seq<Execution>, ch: nat)
    requires ch in calls && calls[ch].id in cache && cache[calls[ch].id] == ch
    requires ContentSound(calls, cache, soup, log) && !Done(log, calls[ch].id)
    ensures ContentSound(calls, cache, soup + multiset{Token(calls[ch].id, Forwarding(calls[ch].request))}, log)
  {
    var sent := Token(calls[ch].id, Forwarding(calls[ch].request));
    forall t | t in soup + multiset{sent} ensures TokenSound(calls, cache, log, t) {
      if t != sent {
        assert t in soup;
      }
    }
  }

  /** What was never forwarded was never executed. */
  lemma OfferingNotDone(calls: map<nat, Call>, lastId: nat, log: seq<Execution>, ch: nat)
    requires CallsSound(calls, lastId) && LogSound(calls, log) && ch in calls && calls[ch].phase.Offering?
    ensures !Done(log, calls[ch].id)
  {
    forall k | 0 <= k < |log| ensures log[k].id != calls[ch].id {
      assert Requested(calls, log[k]);
    }
  }

  lemma SubmitRecords(calls: map<nat, Call>, lastId: nat, cache: map<nat, nat>, soup: multiset<Token>,
                      log: seq<Execution>, ch: nat)
    requires CallsSound(calls, lastId) && CacheSound(calls, cache) && TokensSound(cache, soup)
    requires ContentSound(calls, cache, soup, log) && LogSound(calls, log) && AnswersSound(calls, log)
    requires ch in calls && calls[ch].phase.Offering?
    ensures var calls', id := WithPhase(calls, ch, Waiting), calls[ch].id;
            && ContentSound(calls', cache[id := ch], soup + multiset{Token(id, Forwarding(calls[ch].request))}, log)
            && LogSound(calls', log) && AnswersSound(calls', log)
  {
    var id, calls' := calls[ch].id, WithPhase(calls, ch, Waiting);
    SubmitCalls(calls, lastId, cache, ch);
    OfferingNotDone(calls, lastId, log, ch);
    KeepRecords(calls, calls', log);
    KeepContent(calls, cache, soup, log, calls', cache[id := ch], soup);
    SubmitContent(calls', cache[id := ch], soup, log, ch);
  }

  lemma SubmitKeepsInv(s: State, ch: nat)
    requires Inv(s) && PhaseIs(s, ch, Offering)
    ensures Inv(SubmitDo(s, ch))
  {
    SubmitCalls(s.calls, s.lastId, s.cache, ch);
    AddKeepsTokens(s.cache, s.soup, s.calls[ch].id, ch, Forwarding(s.calls[ch].request));
    SubmitRecords(s.calls, s.lastId, s.cache, s.soup, s.log, ch);
  }

  lemma DeliverCalls(calls: map<nat, Call>, lastId: nat, cache: map<nat, nat>, ch: nat, response: Content)
    requires CallsSound(calls, lastId) && CacheSound(calls, cache) && ch in calls && calls[ch].phase.Waiting?
    ensures var calls' := WithPhase(calls, ch, Got(response));
            CallsSound(calls', lastId) && CacheSound(calls', cache - {calls[ch].id}) && Continues(calls, calls')
  {
  }

  /** The token at the caller's channel is for that caller. */
  lemma DeliveringIsForCaller(calls: map<nat, Call>, cache: map<nat, nat>, soup: multiset<Token>,
                        log: seq<Execution>, t: Token)
    requires CacheSound(calls, cache) && ContentSound(calls, cache, soup, log) && t in soup && t.place.Delivering?
    ensures var ch := t.place.ch;
            && ch in calls && calls[ch].id == t.id && t.id in cache && cache[t.id] == ch
            && Execution(t.id, calls[ch].request, t.place.response) in log
  {
    assert TokenSound(calls, cache, log, t);
  }

  lemma DeliverRecords(calls: map<nat, Call>, cache: map<nat, nat>, soup: multiset<Token>, log: seq<Execution>,
                       t: Token)
    requires TokensSound(cache, soup) && ContentSound(calls, cache, soup, log)
    requires LogSound(calls, log) && AnswersSound(calls, log)
    requires t in soup && t.place.Delivering? && t.place.ch in calls && calls[t.place.ch].phase.Waiting?
    requires Execution(calls[t.place.ch].id, calls[t.place.ch].request, t.place.response) in log
    ensures var calls' := WithPhase(calls, t.place.ch, Got(t.place.response));
            && ContentSound(calls', cache - {t.id}, soup - multiset{t}, log)
            && LogSound(calls', log) && AnswersSound(calls', log)
  {
    var calls' := WithPhase(calls, t.place.ch, Got(t.place.response));
    RemoveKeepsTokens(cache, soup, t);
    KeepRecords(calls, calls', log);
    KeepContent(calls, cache, soup, log, calls', cache - {t.id}, soup - multiset{t});
  }

  lemma DeliverKeepsInv(s: State, t: Token)
    requires Inv(s) && t in s.soup && t.place.Delivering? && PhaseIs(s, t.place.ch, Waiting)
    ensures Inv(DeliverDo(s, t))
  {
    DeliveringIsForCaller(s.calls, s.cache, s.soup, s.log, t);
    DeliverCalls(s.calls, s.lastId, s.cache, t.place.ch, t.place.response);
    DeliverRecords(s.calls, s.cache, s.soup, s.log, t);
    RemoveKeepsTokens(s.cache, s.soup, t);
  }

  lemma GiveUpCalls(calls: map<nat, Call>, lastId: nat, cache: map<nat, nat>, ch: nat)
    requires CallsSound(calls, lastId) && CacheSound(calls, cache) && ch in calls && calls[ch].phase.Waiting?
    ensures var calls' := WithPhase(calls, ch, Phase.GaveUp);
            CallsSound(calls', lastId) && CacheSound(calls', cache) && Continues(calls, calls')
  {
  }

  lemma GiveUpKeepsInv(s: State, ch: nat)
    requires Inv(s) && PhaseIs(s, ch, Waiting)
    ensures Inv(s.(calls := WithPhase(s.calls, ch, Phase.GaveUp)))
  {
    var calls := WithPhase(s.calls, ch, Phase.GaveUp);
    GiveUpCalls(s.calls, s.lastId, s.cache, ch);
    KeepRecords(s.calls, calls, s.log);
    KeepContent(s.calls, s.cache, s.soup, s.log, calls, s.cache, s.soup);
  }

  // ---- steps that move a token

  lemma ExecuteKeepsInv(s: State, t: Token, response: Content, p: Place)
    requires Inv(s) && t in s.soup && t.place.Queued? && p.Returning? && p.response == response
    ensures Inv(s.(soup := Moved(s.soup, t, p), log := s.log + [Execution(t.id, t.place.request, response)]))
  {
    var e := Execution(t.id, t.place.request, response);
    var log := s.log + [e];
    assert TokenSound(s.calls, s.cache, s.log, t);
    forall i | 0 <= i < |log| ensures Requested(s.calls, log[i]) {
      if i == |s.log| {
        assert s.cache[t.id] in s.calls;
      }
    }
    forall i, j | 0 <= i < j < |log| ensures log[i].id != log[j].id {
      if j == |s.log| {
        assert log[i] == s.log[i];
      }
    }
    assert log[|s.log|] == e;
    MoveKeepsInv(s, t, p, log);
  }

  lemma ExecuteDroppedKeepsInv(s: State, t: Token, response: Content, p: Place)
    requires Inv(s) && t in s.soup && t.place.Queued? && p.Returning? && p.response == response
    ensures Inv(s.(soup := s.soup - multiset{t}, log := s.log + [Execution(t.id, t.place.request, response)]))
  {
    ExecuteKeepsInv(s, t, response, p);
    var s1 := s.(soup := Moved(s.soup, t, p), log := s.log + [Execution(t.id, t.place.request, response)]);
    RemoveKeepsInv(s1, Token(t.id, p));
    assert Moved(s.soup, t, p) - multiset{Token(t.id, p)} == s.soup - multiset{t};
  }

  lemma ExecuteIs(s: State, t: Token, response: Content)
    requires t.place.Queued?
    ensures MoveDo(s, t, Execute(response)) ==
            s.(soup := Executed(s, t, response), log := s.log + [Execution(t.id, t.place.request, response)])
  {
  }

  lemma ExecuteStepKeepsInv(s: State, t: Token, response: Content, soup: multiset<Token>)
    requires Inv(s) && t in s.soup && t.place.Queued? && soup == Executed(s, t, response)
    ensures Inv(s.(soup := soup, log := s.log + [Execution(t.id, t.place.request, response)]))
  {
    if Connected(s.pool, t.place.conn) {
      ExecuteKeepsInv(s, t, response, Returning(t.place.conn, response));
    } else {
      ExecuteDroppedKeepsInv(s, t, response, Returning(t.place.conn, response));
    }
  }

  /** The next place of a token carries on what it says. */
  predicate CarriesOn(p: Place, q: Place, ch: nat) {
    if Requests(p) then Requests(q) && q.request == p.request
    else !Requests(q) && q.response == p.response && (q.Delivering? ==> q.ch == ch)
  }

  lemma CarryKeepsInv(s: State, t: Token, q: Place)
    requires Inv(s) && t in s.soup && t.id in s.cache && CarriesOn(t.place, q, s.cache[t.id])
    ensures Inv(s.(soup := Moved(s.soup, t, q)))
  {
    assert TokenSound(s.calls, s.cache, s.log, t);
    MoveKeepsInv(s, t, q, s.log);
  }

  lemma TokenCached(s: State, t: Token)
    requires Inv(s) && t in s.soup
    ensures t.id in s.cache
  {
  }

  /** Where a step that only moves a token puts it. */
  function NextPlace(s: State, t: Token, m: Move): Place
    requires Fits(s, t, m) && Carries(m) && t.id in s.cache
  {
    match m
    case Take(k) => Writing(k, t.place.request)
    case Written => OnWire(t.place.conn, t.place.request)
    case Arrive => Queued(t.place.conn, t.place.request)
    case Land => Buffered(t.place.conn, t.place.response)
    case Receive => Received(t.place.conn, t.place.response)
    case Route => Delivering(t.place.response, s.cache[t.id])
  }

  predicate Carries(m: Move) {
    m.Take? || m.Written? || m.Arrive? || m.Land? || m.Receive? || m.Route?
  }

  lemma CarryIs(s: State, t: Token, m: Move)
    requires Fits(s, t, m) && Carries(m) && t.id in s.cache
    ensures MoveDo(s, t, m) == s.(soup := Moved(s.soup, t, NextPlace(s, t, m)))
    ensures CarriesOn(t.place, NextPlace(s, t, m), s.cache[t.id])
  {
  }

  lemma CarryStepKeepsInv(s: State, t: Token, m: Move)
    requires Inv(s) && CanMove(s, t, m) && Carries(m)
    ensures Inv(MoveDo(s, t, m))
  {
    TokenCached(s, t);
    CarryIs(s, t, m);
    CarryKeepsInv(s, t, NextPlace(s, t, m));
  }

  lemma MoveStepKeepsInv(s: State, t: Token, m: Move)
    requires Inv(s) && CanMove(s, t, m)
    ensures Inv(MoveDo(s, t, m))
  {
    if Carries(m) {
      CarryStepKeepsInv(s, t, m);
    } else if m.Execute? {
      ExecuteIs(s, t, m.response);
      ExecuteStepKeepsInv(s, t, m.response, Executed(s, t, m.response));
    } else if m.Deliver? {
      DeliverKeepsInv(s, t);
    } else {
      RemoveKeepsInv(s, t);
    }
  }

  lemma CallStepKeepsInv(s: State, step: Step)
    requires Inv(s) && Can(s, step) && (step.Submit? || step.GiveUp?)
    ensures Inv(Do(s, step))
  {
    if step.Submit? {
      SubmitKeepsInv(s, step.ch);
    } else {
      GiveUpKeepsInv(s, step.ch);
    }
  }

  lemma StepKeepsInv(s: State, step: Step)
    requires Inv(s) && Can(s, step)
    ensures Inv(Do(s, step))
  {
    match step
    case MoveStep(t, m) => MoveStepKeepsInv(s, t, m);
    case Begin(ch, request) => BeginStepKeepsInv(s, ch, request);
    case Submit(_) => CallStepKeepsInv(s, step);
    case GiveUp(_) => CallStepKeepsInv(s, step);
    case _ => QuietStepKeepsInv(s, step, Do(s, step));
  }

  lemma BeginStepKeepsInv(s: State, ch: nat, request: Content)
    requires Inv(s) && ch !in s.calls
    ensures Inv(Do(s, Begin(ch, request)))
  {
    BeginKeepsInv(s, ch, request);
  }

  lemma QuietStepKeepsInv(s: State, step: Step, s': State)
    requires Inv(s) && Can(s, step) && s' == Do(s, step) && (step.PoolStep? || step.Cancel? || step.Stop?)
    ensures Inv(s')
  {
    assert s' == s.(pool := s'.pool, ctxDone := s'.ctxDone, stopped := s'.stopped);
  }

  lemma {:induction false} PathKeepsInv(s: State, steps: seq<Step>, s': State)
    requires Inv(s) && Path(s, steps, s')
    ensures Inv(s')
    decreases |steps|
  {
    if steps != [] {
      StepKeepsInv(s, steps[0]);
      PathKeepsInv(Do(s, steps[0]), steps[1..], s');
    }
  }

  // ---- safety over every run

  /**
   Over every run from the start: no caller gets another request's response. What a caller gets was produced by
   executing its own request, and that was executed once.
   */
  lemma ResponsesMatch(batch: nat, steps: seq<Step>, s: State, ch: nat) returns (k: nat)
    requires Path(Start(batch), steps, s) && ch in s.calls && s.calls[ch].phase.Got?
    ensures k < |s.log| && s.log[k] == Execution(s.calls[ch].id, s.calls[ch].request, s.calls[ch].phase.response)
    ensures forall j | 0 <= j < |s.log| && j != k :: s.log[j].id != s.calls[ch].id
  {
    PathKeepsInv(Start(batch), steps, s);
    k :| k < |s.log| && s.log[k] == Execution(s.calls[ch].id, s.calls[ch].request, s.calls[ch].phase.response);
  }

  /** Each ID is executed at most once, and only with the request of the one call it was drawn for. */
  lemma ExecutedAtMostOnce(batch: nat, steps: seq<Step>, s: State)
    requires Path(Start(batch), steps, s)
    ensures forall i, j | 0 <= i < j < |s.log| :: s.log[i].id != s.log[j].id
    ensures forall i, ch | 0 <= i < |s.log| && ch in s.calls && s.calls[ch].id == s.log[i].id ::
              s.calls[ch].request == s.log[i].request
  {
    PathKeepsInv(Start(batch), steps, s);
    forall i, ch | 0 <= i < |s.log| && ch in s.calls && s.calls[ch].id == s.log[i].id
      ensures s.calls[ch].request == s.log[i].request
    {
      assert Requested(s.calls, s.log[i]);
    }
  }

  /** The keys of resCache are exactly the forwarded calls whose response has not been routed to them yet. */
  lemma CacheIsUnrouted(batch: nat, steps: seq<Step>, s: State, id: nat)
    requires Path(Start(batch), steps, s)
    ensures id in s.cache <==> exists ch :: ch in s.calls && s.calls[ch].id == id && Unrouted(s.calls[ch].phase)
  {
    PathKeepsInv(Start(batch), steps, s);
    if id in s.cache {
      assert s.cache[id] in s.calls;
    }
  }

  lemma StepKeepsAnswer(s: State, step: Step, ch: nat)
    requires Can(s, step) && ch in s.calls && s.calls[ch].phase.Got?
    ensures ch in Do(s, step).calls && Do(s, step).calls[ch] == s.calls[ch]
  {
    if step.MoveStep? {
      MoveKeepsCalls(s, step.t, step.m);
    }
  }

  lemma MoveKeepsCalls(s: State, t: Token, m: Move)
    requires Fits(s, t, m)
    ensures m.Deliver? ==> MoveDo(s, t, m).calls == WithPhase(s.calls, t.place.ch, Got(t.place.response))
    ensures !m.Deliver? ==> MoveDo(s, t, m).calls == s.calls
  {
  }

  /** Answered at most once: a call that got its response keeps it, whatever else arrives. */
  lemma {:induction false} AnsweredOnce(s: State, steps: seq<Step>, s': State, ch: nat)
    requires Path(s, steps, s') && ch in s.calls && s.calls[ch].phase.Got?
    ensures ch in s'.calls && s'.calls[ch] == s.calls[ch]
    decreases |steps|
  {
    if steps != [] {
      StepKeepsAnswer(s, steps[0], ch);
      AnsweredOnce(Do(s, steps[0]), steps[1..], s', ch);
    }
  }
}
