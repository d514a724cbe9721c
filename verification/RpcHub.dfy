/** What processMsg does with every sequence of messages, said without its cache. */
module RpcHub {
  import opened Rpc

  /** The cache after these messages, the last one last. */
  function CacheAfter(h: seq<Arrival>): map<nat, nat> {
    if h == [] then map[] else HubCache(CacheAfter(h[..|h| - 1]), h[|h| - 1])
  }

  /** The last message with this ID was a request whose caller listens on ch. */
  ghost predicate OpenFor(h: seq<Arrival>, id: nat, ch: nat) {
    exists j :: 0 <= j < |h| && LastRequest(h, j, id, ch)
  }

  ghost predicate LastRequest(h: seq<Arrival>, j: nat, id: nat, ch: nat)
    requires j < |h|
  {
    h[j].Request? && h[j].id == id && h[j].ch == ch && forall k | j < k < |h| :: h[k].id != id
  }

  lemma {:induction false} CacheIsOpen(h: seq<Arrival>, id: nat, ch: nat)
    ensures id in CacheAfter(h) && CacheAfter(h)[id] == ch <==> OpenFor(h, id, ch)
    decreases |h|
  {
    if h != [] {
      var n := |h| - 1;
      var before := h[..n];
      CacheIsOpen(before, id, ch);
      if h[n].id == id {
        if OpenFor(h, id, ch) {
          var j :| 0 <= j < |h| && LastRequest(h, j, id, ch);
          assert j == n;
        }
        assert h[n].Request? && h[n].ch == ch ==> LastRequest(h, n, id, ch);
      } else {
        if OpenFor(before, id, ch) {
          var j :| 0 <= j < n && LastRequest(before, j, id, ch);
          assert LastRequest(h, j, id, ch);
        }
        if OpenFor(h, id, ch) {
          var j :| 0 <= j < |h| && LastRequest(h, j, id, ch);
          assert LastRequest(before, j, id, ch);
        }
      }
    }
  }

  /**
   Over every sequence of messages: a response is handed to a caller exactly if the last message with its ID was that
   caller's request, and ignored exactly if there is no such caller.
   */
  lemma RoutedByLastRequest(h: seq<Arrival>, id: nat, response: Content)
    ensures var e := HubEffect(CacheAfter(h), Response(id, response));
            && (forall ch, r :: e == HandOver(ch, r) <==> OpenFor(h, id, ch) && r == response)
            && (e == Ignore <==> forall ch :: !OpenFor(h, id, ch))
  {
    forall ch ensures id in CacheAfter(h) && CacheAfter(h)[id] == ch <==> OpenFor(h, id, ch) {
      CacheIsOpen(h, id, ch);
    }
    if id in CacheAfter(h) {
      assert OpenFor(h, id, CacheAfter(h)[id]);
    }
  }

  function CacheOn(cache: map<nat, nat>, h: seq<Arrival>): map<nat, nat>
    decreases |h|
  {
    if h == [] then cache else CacheOn(HubCache(cache, h[0]), h[1..])
  }

  lemma {:induction false} OthersKeep(cache: map<nat, nat>, h: seq<Arrival>, id: nat)
    requires id in cache && forall k | 0 <= k < |h| :: h[k].id != id
    ensures id in CacheOn(cache, h) && CacheOn(cache, h)[id] == cache[id]
    decreases |h|
  {
    if h != [] {
      assert forall k | 0 <= k < |h[1..]| :: h[1..][k].id == h[k + 1].id;
      OthersKeep(HubCache(cache, h[0]), h[1..], id);
    }
  }

  /**
   A request is sent on as it is, under an ID such that the response to that ID finds its caller, whatever was cached
   before and whatever messages with other IDs come in between.
   */
  lemma SentComesBack(cache: map<nat, nat>, id: nat, ch: nat, request: Content, between: seq<Arrival>,
                      response: Content)
    ensures var sent := HubEffect(cache, Request(id, ch, request));
            && sent == Send(id, request)
            && ((forall k | 0 <= k < |between| :: between[k].id != sent.id) ==>
                  HubEffect(CacheOn(HubCache(cache, Request(id, ch, request)), between), Response(sent.id, response))
                  == HandOver(ch, response))
  {
    var sent := HubEffect(cache, Request(id, ch, request));
    if forall k | 0 <= k < |between| :: between[k].id != sent.id {
      OthersKeep(HubCache(cache, Request(id, ch, request)), between, sent.id);
    }
  }
}
