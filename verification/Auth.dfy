/**
 Authentication (handleAuth in serve.go, sessionStore in auth.go, dialAndAuth and tokenAuth in client.go):
 a challenge-response on one connection yields a token, and the pool's connections present the token.
 Signature checking is a library function; the user lookup and the random tokens and challenges come from outside.
 */
module Auth {
  import opened Prelude

  /** Key formats, signatures and key derivation: library code. A public key is known by an identity. */
  datatype Library = Library(
    parse: seq<byte> -> Option<int>,            // ssh.ParsePublicKey
    marshal: int -> seq<byte>,
    verify: (int, seq<byte>, seq<byte>) -> bool, // the key's check of a challenge and a signature on it
    derive: int -> Key)                         // deriveEncryptionKey

  ghost predicate Lawful(lib: Library) {
    forall k: int :: lib.parse(lib.marshal(k)) == Some(k)
  }

  datatype AuthState = AuthNew | AuthPending | AuthOK

  /** connAuth, kept in the connection's context; absent from the map stands for nil. */
  datatype ConnAuth = ConnAuth(
    state: AuthState,
    challenge: Option<seq<byte>>,
    user: string,
    home: string,
    key: Option<Key>)

  datatype SessionInfo = SessionInfo(user: string, home: string, key: Option<Key>)

  datatype AuthReq = AuthReq(user: string, pubKey: seq<byte>, signature: seq<byte>, token: string)

  datatype AuthReply =
    | Denied
    | Challenged(challenge: seq<byte>)
    | Granted(token: string, user: string)      // the token is empty on token authentication

  /** What the world answers while one request is handled. */
  datatype World = World(
    account: Option<(string, string)>,          // findUserByPubKey
    newToken: string,                           // sessionTokenHex
    newChallenge: Option<seq<byte>>)            // generateChallenge

  datatype Server = Server(sessions: map<string, SessionInfo>, conns: map<int, ConnAuth>, closed: set<int>)

  function Refuse(s: Server, conn: int): (Server, AuthReply) {
    (s.(closed := s.closed + {conn}), Denied)
  }

  function Pending(s: Server, conn: int): bool {
    conn in s.conns && s.conns[conn].state.AuthPending? && s.conns[conn].challenge.Some?
  }

  function ByToken(s: Server, conn: int, token: string): (Server, AuthReply) {
    if token !in s.sessions then Refuse(s, conn)
    else
      var info := s.sessions[token];
      (s.(conns := s.conns[conn := ConnAuth(AuthOK, None, info.user, info.home, info.key)]), Granted("", info.user))
  }

  function BySignature(lib: Library, s: Server, conn: int, req: AuthReq, w: World): (Server, AuthReply) {
    var pub := lib.parse(req.pubKey);
    if !Pending(s, conn) || pub.None? then Refuse(s, conn)
    else if !lib.verify(pub.value, s.conns[conn].challenge.value, req.signature) || w.account.None? then Refuse(s, conn)
    else
      var (user, home) := w.account.value;
      var info := SessionInfo(user, home, Some(lib.derive(pub.value)));
      (s.(sessions := s.sessions[w.newToken := info],
          conns := s.conns[conn := ConnAuth(AuthOK, None, user, home, info.key)]),
       Granted(w.newToken, user))
  }

  function Challenge(s: Server, conn: int, req: AuthReq, w: World): (Server, AuthReply) {
    if req.pubKey == [] || w.newChallenge.None? then Refuse(s, conn)
    else
      (s.(conns := s.conns[conn := ConnAuth(AuthPending, w.newChallenge, "", "", None)]),
       Challenged(w.newChallenge.value))
  }

  /** handleAuth as a function: a token wins over a signature, and a signature over a bare public key. */
  function HandleAuth(lib: Library, s: Server, conn: int, req: AuthReq, w: World): (Server, AuthReply) {
    if req.token != "" then ByToken(s, conn, req.token)
    else if req.signature != [] then BySignature(lib, s, conn, req, w)
    else Challenge(s, conn, req, w)
  }

  /** The server's mutable parts: the session store, and the contexts of its connections. */
  class AuthServer {
    const lib: Library
    var sessions: map<string, SessionInfo>
    var conns: map<int, ConnAuth>
    var closed: set<int>

    constructor (lib: Library)
      ensures this.lib == lib && View() == Server(map[], map[], {})
    {
      this.lib := lib;
      sessions, conns, closed := map[], map[], {};
    }

    function View(): Server
      reads this
    {
      Server(sessions, conns, closed)
    }

    method Close(conn: int) returns (reply: AuthReply)
      modifies `closed
      ensures closed == old(closed) + {conn} && reply == Denied
    {
      closed := closed + {conn};
      reply := Denied;
    }

    method Handle(conn: int, req: AuthReq, w: World) returns (reply: AuthReply)
      modifies this
      ensures (View(), reply) == HandleAuth(lib, old(View()), conn, req, w)
    {
      if |req.signature| > 0 || req.token != "" {
        if req.token != "" {
          if req.token !in sessions {
            reply := Close(conn);
            return;
          }
          var info := sessions[req.token];
          conns := conns[conn := ConnAuth(AuthOK, None, info.user, info.home, info.key)];
          return Granted("", info.user);
        }
        if conn !in conns || conns[conn].state != AuthPending || conns[conn].challenge.None? {
          reply := Close(conn);
          return;
        }
        var pub := lib.parse(req.pubKey);
        if pub.None? || !lib.verify(pub.value, conns[conn].challenge.value, req.signature) {
          reply := Close(conn);
          return;
        }
        if w.account.None? {
          reply := Close(conn);
          return;
        }
        var (user, home) := w.account.value;
        var info := SessionInfo(user, home, None);
        info := info.(key := Some(lib.derive(pub.value)));
        sessions := sessions[w.newToken := info];
        conns := conns[conn := ConnAuth(AuthOK, None, info.user, info.home, info.key)];
        return Granted(w.newToken, user);
      }
      if |req.pubKey| == 0 {
        reply := Close(conn);
        return;
      }
      if w.newChallenge.None? {
        reply := Close(conn);
        return;
      }
      conns := conns[conn := ConnAuth(AuthPending, w.newChallenge, "", "", None)];
      return Challenged(w.newChallenge.value);
    }
  }

  /** One handled request of a run. */
  datatype Event = Event(conn: int, req: AuthReq, w: World)

  function After(lib: Library, s: Server, e: Event): Server {
    HandleAuth(lib, s, e.conn, e.req, e.w).0
  }

  function Reply(lib: Library, s: Server, e: Event): AuthReply {
    HandleAuth(lib, s, e.conn, e.req, e.w).1
  }

  function Run(lib: Library, s: Server, events: seq<Event>): Server
    decreases |events|
  {
    if events == [] then s else Run(lib, After(lib, s, events[0]), events[1..])
  }

  /** Random tokens do not repeat (and are never empty). */
  ghost predicate FreshTokens(lib: Library, s: Server, events: seq<Event>)
    decreases |events|
  {
    events == [] ||
    (&& events[0].w.newToken !in s.sessions && events[0].w.newToken != ""
     && FreshTokens(lib, After(lib, s, events[0]), events[1..]))
  }

  /** Every authenticated connection and every session has a key: nothing is sent in the clear by mistake. */
  ghost predicate Keyed(s: Server) {
    && (forall t | t in s.sessions :: s.sessions[t].key.Some?)
    && (forall k | k in s.conns && s.conns[k].state.AuthOK? :: s.conns[k].key.Some?)
  }

  lemma {:induction false} RunKeepsKeyed(lib: Library, s: Server, events: seq<Event>)
    requires Keyed(s)
    ensures Keyed(Run(lib, s, events))
    decreases |events|
  {
    if events != [] {
      RunKeepsKeyed(lib, After(lib, s, events[0]), events[1..]);
    }
  }

  /** A session, once made, is never changed. */
  lemma {:induction false} RunKeepsSession(lib: Library, s: Server, events: seq<Event>, token: string)
    requires FreshTokens(lib, s, events) && token in s.sessions
    ensures var s' := Run(lib, s, events); token in s'.sessions && s'.sessions[token] == s.sessions[token]
    decreases |events|
  {
    if events != [] {
      RunKeepsSession(lib, After(lib, s, events[0]), events[1..], token);
    }
  }

  /**
   Key agreement over every run: a client with key pair k completes the challenge-response and gets a token.
   After any further requests by anyone, a pool connection that presents the token is granted the key the
   client derived for itself.
   */
  lemma PoolSharesClientKey(lib: Library, s: Server, conn: int, user: string, k: int, sig: seq<byte>, w: World,
                            events: seq<Event>, conn': int, w': World)
    requires Lawful(lib) && sig != []
    requires var login := Event(conn, AuthReq(user, lib.marshal(k), sig, ""), w);
             && Reply(lib, s, login).Granted?
             && FreshTokens(lib, s, [login] + events)
    ensures var login := Event(conn, AuthReq(user, lib.marshal(k), sig, ""), w);
            var token := Reply(lib, s, login).token;
            var s1 := Run(lib, s, [login] + events);
            var join := Event(conn', AuthReq("", [], [], token), w');
            && Reply(lib, s1, join).Granted?
            && After(lib, s1, join).conns[conn'].state.AuthOK?
            && After(lib, s1, join).conns[conn'].key == Some(lib.derive(k))
  {
    var login := Event(conn, AuthReq(user, lib.marshal(k), sig, ""), w);
    assert ([login] + events)[0] == login && ([login] + events)[1..] == events;
    RunKeepsSession(lib, After(lib, s, login), events, Reply(lib, s, login).token);
  }

  // ---- Every key a server uses was proved by its owner ----

  function Start(): Server {
    Server(map[], map[], {})
  }

  lemma {:induction false} RunSnoc(lib: Library, s: Server, events: seq<Event>, e: Event)
    ensures Run(lib, s, events + [e]) == After(lib, Run(lib, s, events), e)
    decreases |events|
  {
    if events == [] {
      assert Run(lib, After(lib, s, e), []) == After(lib, s, e);
      assert ([] + [e])[1..] == [];
    } else {
      RunSnoc(lib, After(lib, s, events[0]), events[1..], e);
      assert (events + [e])[1..] == events[1..] + [e];
    }
  }

  /** Request i of the history proved possession of key k: its signature checks against the pending challenge. */
  ghost predicate Proof(lib: Library, h: seq<Event>, i: nat, k: int, account: (string, string)) {
    && i < |h|
    && var s, e := Run(lib, Start(), h[..i]), h[i];
    && e.req.token == "" && e.req.signature != [] && Pending(s, e.conn)
    && lib.parse(e.req.pubKey) == Some(k) && lib.verify(k, s.conns[e.conn].challenge.value, e.req.signature)
    && e.w.account == Some(account)
  }

  /** Request j of the history was answered, on connection c, with this challenge. */
  ghost predicate Issued(lib: Library, h: seq<Event>, j: nat, c: int, challenge: seq<byte>) {
    && j < |h| && h[j].conn == c
    && Reply(lib, Run(lib, Start(), h[..j]), h[j]) == Challenged(challenge)
  }

  ghost predicate Proved(lib: Library, h: seq<Event>, key: Option<Key>, account: (string, string)) {
    exists i: nat, k: int :: Proof(lib, h, i, k, account) && key == Some(lib.derive(k))
  }

  ghost predicate SessionsProved(lib: Library, h: seq<Event>, s: Server) {
    forall t | t in s.sessions :: Proved(lib, h, s.sessions[t].key, (s.sessions[t].user, s.sessions[t].home))
  }

  ghost predicate ConnsProved(lib: Library, h: seq<Event>, s: Server) {
    forall c | c in s.conns && s.conns[c].state.AuthOK? ::
      Proved(lib, h, s.conns[c].key, (s.conns[c].user, s.conns[c].home))
  }

  ghost predicate PendingIssued(lib: Library, h: seq<Event>, s: Server) {
    forall c | Pending(s, c) :: exists j: nat :: Issued(lib, h, j, c, s.conns[c].challenge.value)
  }

  lemma ProvedLater(lib: Library, h: seq<Event>, e: Event, key: Option<Key>, account: (string, string))
    requires Proved(lib, h, key, account)
    ensures Proved(lib, h + [e], key, account)
  {
    var i: nat, k: int :| Proof(lib, h, i, k, account) && key == Some(lib.derive(k));
    assert (h + [e])[..i] == h[..i];
    assert Proof(lib, h + [e], i, k, account);
  }

  lemma IssuedLater(lib: Library, h: seq<Event>, e: Event, j: nat, c: int, challenge: seq<byte>)
    requires Issued(lib, h, j, c, challenge)
    ensures Issued(lib, h + [e], j, c, challenge)
  {
    assert (h + [e])[..j] == h[..j];
  }

  /** The step that proves: a signature accepted. */
  lemma SignatureProves(lib: Library, h: seq<Event>, e: Event, s: Server)
    requires s == Run(lib, Start(), h)
    requires e.req.token == "" && e.req.signature != [] && Reply(lib, s, e).Granted?
    ensures e.w.account.Some? && lib.parse(e.req.pubKey).Some?
    ensures var (user, home) := e.w.account.value;
            Proved(lib, h + [e], Some(lib.derive(lib.parse(e.req.pubKey).value)), (user, home))
  {
    assert (h + [e])[..|h|] == h;
    var (user, home) := e.w.account.value;
    assert Proof(lib, h + [e], |h|, lib.parse(e.req.pubKey).value, (user, home));
  }

  lemma EventKeepsSessionsProved(lib: Library, h: seq<Event>, e: Event, s: Server)
    requires s == Run(lib, Start(), h) && SessionsProved(lib, h, s)
    ensures SessionsProved(lib, h + [e], After(lib, s, e))
  {
    var s' := After(lib, s, e);
    if e.req.token == "" && e.req.signature != [] && Reply(lib, s, e).Granted? {
      SignatureProves(lib, h, e, s);
    }
    forall t | t in s'.sessions
      ensures Proved(lib, h + [e], s'.sessions[t].key, (s'.sessions[t].user, s'.sessions[t].home))
    {
      if t in s.sessions && s'.sessions[t] == s.sessions[t] {
        ProvedLater(lib, h, e, s.sessions[t].key, (s.sessions[t].user, s.sessions[t].home));
      }
    }
  }

  lemma EventKeepsConnsProved(lib: Library, h: seq<Event>, e: Event, s: Server)
    requires s == Run(lib, Start(), h) && SessionsProved(lib, h, s) && ConnsProved(lib, h, s)
    ensures ConnsProved(lib, h + [e], After(lib, s, e))
  {
    var s' := After(lib, s, e);
    if e.req.token == "" && e.req.signature != [] && Reply(lib, s, e).Granted? {
      SignatureProves(lib, h, e, s);
    }
    forall c | c in s'.conns && s'.conns[c].state.AuthOK?
      ensures Proved(lib, h + [e], s'.conns[c].key, (s'.conns[c].user, s'.conns[c].home))
    {
      if c in s.conns && s'.conns[c] == s.conns[c] {
        ProvedLater(lib, h, e, s.conns[c].key, (s.conns[c].user, s.conns[c].home));
      } else if e.req.token != "" {
        var info := s.sessions[e.req.token];
        ProvedLater(lib, h, e, info.key, (info.user, info.home));
      }
    }
  }

  lemma EventKeepsIssued(lib: Library, h: seq<Event>, e: Event, s: Server)
    requires s == Run(lib, Start(), h)
    requires PendingIssued(lib, h, s)
    ensures PendingIssued(lib, h + [e], After(lib, s, e))
  {
    var s' := After(lib, s, e);
    assert (h + [e])[..|h|] == h;
    forall c | Pending(s', c)
      ensures exists j: nat :: Issued(lib, h + [e], j, c, s'.conns[c].challenge.value)
    {
      if c in s.conns && s'.conns[c] == s.conns[c] {
        var j: nat :| Issued(lib, h, j, c, s.conns[c].challenge.value);
        IssuedLater(lib, h, e, j, c, s.conns[c].challenge.value);
      } else {
        assert Issued(lib, h + [e], |h|, c, s'.conns[c].challenge.value);
      }
    }
  }

  lemma {:induction false} HistoryProves(lib: Library, h: seq<Event>)
    ensures var s := Run(lib, Start(), h);
            SessionsProved(lib, h, s) && ConnsProved(lib, h, s) && PendingIssued(lib, h, s)
    decreases |h|
  {
    if h != [] {
      var before, e := h[..|h| - 1], h[|h| - 1];
      assert h == before + [e];
      HistoryProves(lib, before);
      RunSnoc(lib, Start(), before, e);
      EventKeepsSessionsProved(lib, before, e, Run(lib, Start(), before));
      EventKeepsConnsProved(lib, before, e, Run(lib, Start(), before));
      EventKeepsIssued(lib, before, e, Run(lib, Start(), before));
    }
  }

  /**
   Authentication over every run of requests on any connections: an authenticated connection acts for an account
   whose key signed, earlier, a challenge that the server had issued on the connection that signed it; and the
   connection's session key is derived from that very key.
   */
  lemma AuthenticatedMeansChallenged(lib: Library, h: seq<Event>, c: int) returns (j: nat, i: nat, k: int)
    requires c in Run(lib, Start(), h).conns && Run(lib, Start(), h).conns[c].state.AuthOK?
    ensures j < i < |h|
    ensures var conn := Run(lib, Start(), h).conns[c];
            Proof(lib, h, i, k, (conn.user, conn.home)) && conn.key == Some(lib.derive(k))
    ensures Issued(lib, h, j, h[i].conn, Run(lib, Start(), h[..i]).conns[h[i].conn].challenge.value)
  {
    HistoryProves(lib, h);
    var conn := Run(lib, Start(), h).conns[c];
    assert Proved(lib, h, conn.key, (conn.user, conn.home));
    i, k :| Proof(lib, h, i, k, (conn.user, conn.home)) && conn.key == Some(lib.derive(k));
    var s := Run(lib, Start(), h[..i]);
    HistoryProves(lib, h[..i]);
    assert Pending(s, h[i].conn);
    j :| Issued(lib, h[..i], j, h[i].conn, s.conns[h[i].conn].challenge.value);
    assert h[..i][..j] == h[..j];
  }
}
