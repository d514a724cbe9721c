/** Authentication and the chunk pipeline together: what the key of a joined connection is good for. */
module SecureSession {
  import opened Prelude
  import Auth
  import Pipeline

  /**
   A client with key pair k logged in; after any further requests by anyone, a pool connection presents the
   client's token. Then what the client packs under the key it derived for itself the write handler unpacks under
   the connection's key, and what the read handler packs the client unpacks. Under any other key that does not
   open the client's boxes, encrypted data is refused.
   */
  lemma JoinedConnectionCarries(auth: Auth.Library, s: Auth.Server, conn: int, user: string, k: int, sig: seq<byte>,
                                w: Auth.World, events: seq<Auth.Event>, conn': int, w': Auth.World,
                                lib: Pipeline.Library, data: seq<byte>, algo: byte, encrypt: bool, nonce: seq<byte>,
                                useChecksum: bool, stranger: Key)
    requires Auth.Lawful(auth) && sig != []
    requires var login := Auth.Event(conn, Auth.AuthReq(user, auth.marshal(k), sig, ""), w);
             && Auth.Reply(auth, s, login).Granted?
             && Auth.FreshTokens(auth, s, [login] + events)
    requires Pipeline.Lawful(lib) && Pipeline.Authentic(lib, stranger, auth.derive(k)) && |nonce| == Pipeline.NONCE_SIZE
    ensures var login := Auth.Event(conn, Auth.AuthReq(user, auth.marshal(k), sig, ""), w);
            var s1 := Auth.Run(auth, s, [login] + events);
            var join := Auth.Event(conn', Auth.AuthReq("", [], [], Auth.Reply(auth, s, login).token), w');
            var conns := Auth.After(auth, s1, join).conns;
            && conn' in conns && conns[conn'].state.AuthOK?
            && var mine, theirs := Some(auth.derive(k)), conns[conn'].key;
            var encryption := if encrypt then Pipeline.ENCRYPTION_SECRET_BOX else Pipeline.ENCRYPTION_NONE;
            && Pipeline.ServerWrite(lib, Pipeline.ClientWrite(lib, data, algo, encrypt, mine, nonce, useChecksum),
                                    theirs)
               == Some(data)
            && Pipeline.ClientRead(lib, Pipeline.ServerRead(lib, data, algo, encryption, theirs, nonce), mine,
                                   useChecksum)
               == Some(data)
            && (encrypt && data != [] && stranger != auth.derive(k) ==>
                  Pipeline.ServerWrite(lib, Pipeline.ClientWrite(lib, data, algo, encrypt, Some(stranger), nonce,
                                                                 useChecksum), theirs) == None)
  {
    Auth.PoolSharesClientKey(auth, s, conn, user, k, sig, w, events, conn', w');
    var encryption := if encrypt then Pipeline.ENCRYPTION_SECRET_BOX else Pipeline.ENCRYPTION_NONE;
    var key := auth.derive(k);
    Pipeline.WriteRoundTrip(lib, data, algo, encrypt, Some(key), nonce, useChecksum);
    Pipeline.ReadRoundTrip(lib, data, algo, encryption, Some(key), nonce, useChecksum);
    Pipeline.KeysMustAgree(lib, data, algo, encrypt, stranger, key, nonce, useChecksum);
  }
}
