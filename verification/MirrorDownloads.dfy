/** That a file's download, one operation in the walk, has exactly the results that runs of the Transfer system have. */
module MirrorDownloads {
  import opened Prelude
  import opened Chunks
  import opened Files
  import opened PartialCopy
  import opened Transfer
  import opened TransferSafety
  import opened TransferResults
  import opened TransferProcess
  import opened DownloadOutcomes
  import opened DownloadRuns
  import Mirror
  import opened MirrorWalk

  /** The download, with this outcome, succeeds and leaves these bytes. */
  predicate Downloads(bytes: seq<byte>, at: Mirror.Path, l: Local, w: World, o: Outcome, t: seq<byte>) {
    var (ok, l') := DownloadTo(bytes, at, l, w.(outcome := _ => o));
    ok && l'.files == l.files[at := t]
  }

  /** A transfer system for this download, about to begin. */
  ghost predicate TransferOf(bytes: seq<byte>, at: Mirror.Path, l: Local, w: World, c: Config, s0: State) {
    && ValidConfig(c) && c.direction.Download? && c.source == bytes
    && c.chunkSize == w.chunkSize && c.batch == w.batch && c.useSha256 == w.verify && Injective(c.hash)
    && Initial(c, s0) && Can(c, s0, Begin)
    && s0.disk.Some? == w.resumed(at)
    && s0.target == if at in l.files then Some(l.files[at]) else None
  }

  /** It has a run that succeeds with these bytes; without a cancellation if there is none. */
  ghost predicate Reaches(w: World, c: Config, s0: State, t: seq<byte>) {
    && Can(c, s0, Begin)
    && exists steps, s' ::
      && (if w.cancelled then OneProcess(c, Do(c, s0, Begin), steps, s') else LiveRun(c, Do(c, s0, Begin), steps, s'))
      && Succeeds(s', t)
  }

  lemma BaseIs(bytes: seq<byte>, at: Mirror.Path, l: Local, w: World, c: Config, s0: State)
    requires TransferOf(bytes, at, l, w, c, s0)
    ensures Content(Do(c, s0, Begin).target) == Base(l.files, at, w.resumed(at))
  {
  }

  /** What the walk takes for possible parts is what a run can land, if the state file lists nothing. */
  lemma PossibleLands(bytes: seq<byte>, c: Config, batch: nat, loaded: set<int>, parts: seq<nat>)
    requires ValidConfig(c) && c.source == bytes && c.batch == batch
    ensures CanLand(c, loaded, parts) ==> PartsPossible(bytes, c.chunkSize, batch, parts)
    ensures PartsPossible(bytes, c.chunkSize, batch, parts) && (forall i: nat | i < |c.tiles| :: i in c.mayFail) ==>
              CanLand(c, {}, parts)
  {
    if |parts| == |c.tiles| {
      assert PartwaySet(c, parts) == set i | 0 <= i < |c.tiles| && 0 < parts[i] < c.tiles[i].size;
    }
  }

  // ---- from the walk to the system

  function All(n: nat): (s: set<nat>)
    ensures forall i: nat :: i in s <==> i < n
  {
    if n == 0 then {} else All(n - 1) + {n - 1}
  }

  /** A transfer in which any chunk may fail, and the hash tells everything apart. */
  function Loose(bytes: seq<byte>, w: World): Config {
    var tiles := Tiles(0, |bytes|, w.chunkSize);
    Config(bytes, w.chunkSize, tiles, w.batch, 0, Download, true, w.verify, x => x, All(|tiles|))
  }

  /** It finds the local file, and a state file that lists nothing if one is usable. */
  function Found(at: Mirror.Path, l: Local, w: World): State {
    State(if at in l.files then Some(l.files[at]) else None, if w.resumed(at) then Some({}) else None, {}, None)
  }

  lemma LooseIsTransfer(bytes: seq<byte>, at: Mirror.Path, l: Local, w: World)
    requires w.resumed(at) ==> at in l.files
    ensures TransferOf(bytes, at, l, w, Loose(bytes, w), Found(at, l, w))
  {
    var c := Loose(bytes, w);
    forall x, y | c.hash(x) == c.hash(y) ensures x == y {
    }
  }

  /** A download that runs through does so in the system, with the context alive. */
  lemma FinishedIsReached(bytes: seq<byte>, at: Mirror.Path, l: Local, w: World, t: seq<byte>)
    requires (w.resumed(at) ==> at in l.files) && (w.verify ==> t == bytes)
    requires t == bytes + Tail(Base(l.files, at, w.resumed(at)), |bytes|)
    ensures Reaches(w, Loose(bytes, w), Found(at, l, w), t)
  {
    var c, s0 := Loose(bytes, w), Found(at, l, w);
    LooseIsTransfer(bytes, at, l, w);
    BaseIs(bytes, at, l, w, c, s0);
    LiveOutcomeIsSource(c, s0, t);
  }

  lemma CutIsReached(bytes: seq<byte>, at: Mirror.Path, l: Local, w: World, parts: seq<nat>, t: seq<byte>)
    requires (w.resumed(at) ==> at in l.files) && !w.verify && w.cancelled
    requires PartsPossible(bytes, w.chunkSize, w.batch, parts)
    requires var ts := Tiles(0, |bytes|, w.chunkSize);
             t == CopyParts(bytes, ts, parts, Base(l.files, at, w.resumed(at)), |ts|)
    ensures Reaches(w, Loose(bytes, w), Found(at, l, w), t)
  {
    var c, s0 := Loose(bytes, w), Found(at, l, w);
    LooseIsTransfer(bytes, at, l, w);
    BaseIs(bytes, at, l, w, c, s0);
    PossibleLands(bytes, c, w.batch, {}, parts);
    assert IsCopy(c, Do(c, s0, Begin), parts, t);
    OutcomesAreCopies(c, s0, t);
  }

  lemma NothingIsReached(bytes: seq<byte>, at: Mirror.Path, l: Local, w: World)
    requires (w.resumed(at) ==> at in l.files) && !w.verify && w.cancelled
    ensures Reaches(w, Loose(bytes, w), Found(at, l, w), Base(l.files, at, w.resumed(at)))
  {
    var ts := Tiles(0, |bytes|, w.chunkSize);
    var none: seq<nat> := seq(|ts|, _ => 0);
    TilesApart(|bytes|, w.chunkSize);
    assert (set i | 0 <= i < |ts| && 0 < none[i] < ts[i].size) == {};
    NoParts(bytes, ts, none, Base(l.files, at, w.resumed(at)), |ts|);
    CutIsReached(bytes, at, l, w, none, Base(l.files, at, w.resumed(at)));
  }

  lemma DownloadIsReached(bytes: seq<byte>, at: Mirror.Path, l: Local, w: World, o: Outcome, t: seq<byte>)
    requires Downloads(bytes, at, l, w, o, t)
    ensures Reaches(w, Loose(bytes, w), Found(at, l, w), t)
  {
    var w1 := w.(outcome := _ => o);
    assert l.files[at := t][at] == t;
    if Cut(w1, at) {
      if PartsPossible(bytes, w.chunkSize, w.batch, o.parts) {
        CutIsReached(bytes, at, l, w, o.parts, t);
      } else {
        NothingIsReached(bytes, at, l, w);
      }
    } else {
      FinishedIsReached(bytes, at, l, w, t);
    }
  }

  // ---- and back

  lemma ReachedIsDownload(bytes: seq<byte>, at: Mirror.Path, l: Local, w: World, c: Config, s0: State, t: seq<byte>)
    returns (o: Outcome)
    requires !l.ctxDone && at !in l.dirs && (w.resumed(at) ==> at in l.files)
    requires TransferOf(bytes, at, l, w, c, s0) && Reaches(w, c, s0, t)
    ensures Downloads(bytes, at, l, w, o, t)
  {
    var s := Do(c, s0, Begin);
    BaseIs(bytes, at, l, w, c, s0);
    if w.cancelled && !w.verify {
      OutcomesAreCopies(c, s0, t);
      var parts :| CanLand(c, s.session.value.loaded, parts) && IsCopy(c, s, parts, t);
      PossibleLands(bytes, c, w.batch, s.session.value.loaded, parts);
      o := CutShort(parts);
    } else {
      OutcomesAreCopies(c, s0, t);
      LiveOutcomeIsSource(c, s0, t);
      o := Finishes;
    }
  }

  /**
   The download of a file, as the walk has it, can succeed and leave some bytes exactly if a run of the Transfer system
   can, from the same file and with a usable state file if one is found: any run if the context may be cancelled, and
   otherwise one in which it is not.
   */
  lemma DownloadIsTransfer(bytes: seq<byte>, at: Mirror.Path, l: Local, w: World, t: seq<byte>)
    requires !l.ctxDone && at !in l.dirs && (w.resumed(at) ==> at in l.files)
    ensures (exists o :: Downloads(bytes, at, l, w, o, t)) <==>
            exists c, s0 :: TransferOf(bytes, at, l, w, c, s0) && Reaches(w, c, s0, t)
  {
    if o :| Downloads(bytes, at, l, w, o, t) {
      LooseIsTransfer(bytes, at, l, w);
      DownloadIsReached(bytes, at, l, w, o, t);
    }
    if c, s0 :| TransferOf(bytes, at, l, w, c, s0) && Reaches(w, c, s0, t) {
      var o := ReachedIsDownload(bytes, at, l, w, c, s0, t);
    }
  }
}
