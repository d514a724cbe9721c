/** Who gets in: for every request and every login exactly when it succeeds, what it gets, and what a refusal does. */
module AuthLogin {
  import opened Prelude
  import opened Auth

  /** A refused connection is closed, and nothing else changes. Any other answer changes the one connection. */
  lemma RefusedIsClosed(lib: Library, s: Server, e: Event)
    ensures Reply(lib, s, e).Denied? ==> After(lib, s, e) == Server(s.sessions, s.conns, s.closed + {e.conn})
    ensures !Reply(lib, s, e).Denied? ==>
              var s' := After(lib, s, e);
              && s'.closed == s.closed && s'.conns.Keys == s.conns.Keys + {e.conn}
              && forall c | c in s.conns && c != e.conn :: s'.conns[c] == s.conns[c]
    ensures Reply(lib, s, e).Granted? <==>
              !Reply(lib, s, e).Denied? && After(lib, s, e).conns[e.conn].state.AuthOK?
    ensures Reply(lib, s, e).Challenged? <==>
              !Reply(lib, s, e).Denied? && After(lib, s, e).conns[e.conn].state.AuthPending?
  {
  }

  /** A token is accepted exactly if a session has it, whatever else the request holds, and joins that session. */
  lemma TokenJoins(lib: Library, s: Server, conn: int, req: AuthReq, w: World)
    requires req.token != ""
    ensures var e := Event(conn, req, w);
            && !Reply(lib, s, e).Challenged? && (Reply(lib, s, e).Granted? <==> req.token in s.sessions)
            && After(lib, s, e).sessions == s.sessions
            && (req.token in s.sessions ==>
                  var info, ca := s.sessions[req.token], After(lib, s, e).conns[conn];
                  && Reply(lib, s, e) == Granted("", info.user)
                  && ca.user == info.user && ca.home == info.home && ca.key == info.key)
  {
  }

  /** A request with neither token nor signature begins a login: it gets a challenge exactly if it names a key. */
  predicate Asks(req: AuthReq) {
    req.token == "" && req.signature == []
  }

  predicate Answers(req: AuthReq) {
    req.token == "" && req.signature != []
  }

  /** The signature on this challenge is that of a key with an account. */
  ghost predicate Proves(lib: Library, challenge: seq<byte>, req: AuthReq, w: World, k: int) {
    lib.parse(req.pubKey) == Some(k) && lib.verify(k, challenge, req.signature) && w.account.Some?
  }

  lemma {:induction false} OthersLeaveConn(lib: Library, s: Server, events: seq<Event>, conn: int)
    requires conn in s.conns && forall i | 0 <= i < |events| :: events[i].conn != conn
    ensures conn in Run(lib, s, events).conns && Run(lib, s, events).conns[conn] == s.conns[conn]
    decreases |events|
  {
    if events != [] {
      RefusedIsClosed(lib, s, events[0]);
      assert forall i | 0 <= i < |events[1..]| :: events[1..][i].conn == events[i + 1].conn;
      OthersLeaveConn(lib, After(lib, s, events[0]), events[1..], conn);
    }
  }

  /** The first request, from any state of the server. */
  lemma ChallengedIff(lib: Library, s: Server, conn: int, ask: AuthReq, w: World)
    requires Asks(ask)
    ensures var e := Event(conn, ask, w);
            && (Reply(lib, s, e).Challenged? <==> ask.pubKey != [] && w.newChallenge.Some?)
            && (Reply(lib, s, e).Denied? <==> ask.pubKey == [] || w.newChallenge.None?)
            && (Reply(lib, s, e).Challenged? ==>
                  && Reply(lib, s, e) == Challenged(w.newChallenge.value)
                  && Pending(After(lib, s, e), conn)
                  && After(lib, s, e).conns[conn].challenge == w.newChallenge
                  && After(lib, s, e).sessions == s.sessions)
  {
  }

  /** The second request: granted exactly if the connection has a challenge and the signature on it proves a key. */
  lemma GrantedIff(lib: Library, s: Server, conn: int, answer: AuthReq, w: World)
    requires Answers(answer)
    ensures var e := Event(conn, answer, w);
            && !Reply(lib, s, e).Challenged?
            && (Reply(lib, s, e).Granted? <==>
                  Pending(s, conn) && exists k :: Proves(lib, s.conns[conn].challenge.value, answer, w, k))
            && forall k | Pending(s, conn) && Proves(lib, s.conns[conn].challenge.value, answer, w, k) ::
                 LoggedIn(lib, s, e, k)
  {
    if Pending(s, conn) && lib.parse(answer.pubKey).Some? && w.account.Some? {
      var k := lib.parse(answer.pubKey).value;
      if lib.verify(k, s.conns[conn].challenge.value, answer.signature) {
        assert Proves(lib, s.conns[conn].challenge.value, answer, w, k);
      }
    }
  }

  /** The connection acts for the account and uses the key derived from k; a new session lets others do so. */
  ghost predicate LoggedIn(lib: Library, s: Server, e: Event, k: int)
    requires e.w.account.Some?
  {
    var (user, home) := e.w.account.value;
    var s' := After(lib, s, e);
    && Reply(lib, s, e) == Granted(e.w.newToken, user)
    && e.conn in s'.conns
    && s'.conns[e.conn] == ConnAuth(AuthOK, None, user, home, Some(lib.derive(k)))
    && s'.sessions == s.sessions[e.w.newToken := SessionInfo(user, home, Some(lib.derive(k)))]
  }

  /**
   A whole login, from any state of the server and with any requests on other connections in between: the connection
   gets in exactly if it names a key, a challenge is made, and the answer's signature on that very challenge proves a
   key with an account; then it is logged in with that key. Otherwise one of its two requests is refused and the
   connection closed.
   */
  lemma LoginIff(lib: Library, s: Server, conn: int, ask: AuthReq, w1: World, between: seq<Event>, answer: AuthReq,
                 w2: World)
    requires Asks(ask) && Answers(answer) && forall i | 0 <= i < |between| :: between[i].conn != conn
    ensures var e1, e2 := Event(conn, ask, w1), Event(conn, answer, w2);
            var s1 := After(lib, s, e1);
            var s2 := Run(lib, s1, between);
            && (Reply(lib, s, e1).Challenged? && Reply(lib, s2, e2).Granted? <==>
                  && ask.pubKey != [] && w1.newChallenge.Some?
                  && exists k :: Proves(lib, w1.newChallenge.value, answer, w2, k))
            && (Reply(lib, s, e1).Challenged? ==>
                  forall k | Proves(lib, w1.newChallenge.value, answer, w2, k) :: LoggedIn(lib, s2, e2, k))
            && (!Reply(lib, s, e1).Challenged? ==> conn in s1.closed)
            && (!Reply(lib, s2, e2).Granted? ==> conn in After(lib, s2, e2).closed)
  {
    var e1, e2 := Event(conn, ask, w1), Event(conn, answer, w2);
    var s1 := After(lib, s, e1);
    var s2 := Run(lib, s1, between);
    ChallengedIff(lib, s, conn, ask, w1);
    RefusedIsClosed(lib, s, e1);
    GrantedIff(lib, s2, conn, answer, w2);
    RefusedIsClosed(lib, s2, e2);
    if Reply(lib, s, e1).Challenged? {
      OthersLeaveConn(lib, s1, between, conn);
    }
  }
}
