/** The workers' gate (process in serve.go): file requests are served on authenticated connections only. */
module AuthGate {
  import opened Prelude
  import opened Auth

  /** What a worker takes from the channel: an authentication request, or any other message. */
  datatype Message = Login(req: AuthReq, w: World) | FileRequest

  datatype Outcome = Answered(reply: AuthReply) | Served(user: string, home: string, key: Option<Key>) | TurnedAway

  /** One message of a connection: only authentication requests pass without a connection that is authenticated. */
  function Process(lib: Library, s: Server, conn: int, m: Message): (Server, Outcome) {
    match m
    case Login(req, w) =>
      var (s', reply) := HandleAuth(lib, s, conn, req, w);
      (s', Answered(reply))
    case FileRequest =>
      if conn !in s.conns || !s.conns[conn].state.AuthOK? then (s.(closed := s.closed + {conn}), TurnedAway)
      else (s, Served(s.conns[conn].user, s.conns[conn].home, s.conns[conn].key))
  }

  function After(lib: Library, s: Server, conn: int, m: Message): Server {
    Process(lib, s, conn, m).0
  }

  /** A run of messages on any connections. */
  function RunAll(lib: Library, s: Server, ms: seq<(int, Message)>): Server
    decreases |ms|
  {
    if ms == [] then s else RunAll(lib, After(lib, s, ms[0].0, ms[0].1), ms[1..])
  }

  /** Its authentication requests alone. */
  function Logins(ms: seq<(int, Message)>): seq<Event> {
    if ms == [] then []
    else (if ms[0].1.Login? then [Event(ms[0].0, ms[0].1.req, ms[0].1.w)] else []) + Logins(ms[1..])
  }

  /** The rest changes neither sessions nor connections, apart from closing some. */
  ghost predicate SameAuth(s: Server, t: Server) {
    s.sessions == t.sessions && s.conns == t.conns
  }

  lemma {:induction false} OnlyLoginsCount(lib: Library, s: Server, t: Server, ms: seq<(int, Message)>)
    requires SameAuth(s, t)
    ensures SameAuth(RunAll(lib, s, ms), Run(lib, t, Logins(ms)))
    decreases |ms|
  {
    if ms != [] {
      var s1 := After(lib, s, ms[0].0, ms[0].1);
      if ms[0].1.Login? {
        var e := Event(ms[0].0, ms[0].1.req, ms[0].1.w);
        assert Logins(ms) == [e] + Logins(ms[1..]);
        assert Logins(ms)[0] == e && Logins(ms)[1..] == Logins(ms[1..]);
        OnlyLoginsCount(lib, s1, Auth.After(lib, t, e), ms[1..]);
      } else {
        assert Logins(ms) == Logins(ms[1..]);
        OnlyLoginsCount(lib, s1, t, ms[1..]);
      }
    }
  }

  /** A file request is served exactly on an authenticated connection; otherwise its connection is closed. */
  lemma ServedIff(lib: Library, s: Server, conn: int)
    ensures var (s', o) := Process(lib, s, conn, FileRequest);
            && SameAuth(s, s')
            && (o.Served? <==> conn in s.conns && s.conns[conn].state == AuthOK)
            && (o.Served? ==> s' == s)
            && (!o.Served? ==> o == TurnedAway && s'.closed == s.closed + {conn})
  {
  }

  /**
   Over every run of messages, in any order and on any connections: whoever is served acts for an account whose key
   signed a challenge that the server had issued before, with the key derived from it.
   */
  lemma ServedMeansChallenged(lib: Library, ms: seq<(int, Message)>, conn: int) returns (j: nat, i: nat, k: int)
    requires Process(lib, RunAll(lib, Start(), ms), conn, FileRequest).1.Served?
    ensures var h := Logins(ms);
            && j < i < |h|
            && var served := Process(lib, RunAll(lib, Start(), ms), conn, FileRequest).1;
            && Proof(lib, h, i, k, (served.user, served.home)) && served.key == Some(lib.derive(k))
            && Issued(lib, h, j, h[i].conn, Run(lib, Start(), h[..i]).conns[h[i].conn].challenge.value)
  {
    OnlyLoginsCount(lib, Start(), Start(), ms);
    j, i, k := AuthenticatedMeansChallenged(lib, Logins(ms), conn);
  }
}
