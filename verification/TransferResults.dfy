/** What processChunks' return value means, and what a whole history of runs leaves in the target. */
module TransferResults {
  import opened Prelude
  import opened Files
  import opened Transfer
  import opened TransferSafety

  ghost predicate FailedWith(ph: seq<Phase>, e: ChunkError) {
    exists i :: 0 <= i < |ph| && ph[i] == Failed(e)
  }

  /** Every chunk was completed before or had its callback return nil. */
  ghost predicate AllDone(ph: seq<Phase>) {
    forall i | 0 <= i < |ph| :: ph[i].Skipped? || ph[i].Succeeded?
  }

  predicate Nil(m: Main) {
    m == Returned(None) || m.Concluded?
  }

  predicate Ended(m: Main) {
    m.Returned? || m.Concluded?
  }

  /** The dispatch loop has reached exactly the chunks before its index. */
  ghost predicate Frontier(ss: Session) {
    match ss.main
    case Opening => forall i | 0 <= i < |ss.ph| :: ss.ph[i].NotReached?
    case Looping(n) => forall i | 0 <= i < |ss.ph| :: ss.ph[i].NotReached? <==> i >= n
    case Reporting(n) => forall i | 0 <= i < |ss.ph| :: ss.ph[i].NotReached? <==> i >= n
    case Joining => forall i | 0 <= i < |ss.ph| :: !ss.ph[i].NotReached?
    case _ => true
  }

  ghost predicate ErrorsSound(ss: Session) {
    && (forall e | e in ss.errs :: FailedWith(ss.ph, e))
    && (ss.main.Returned? && ss.main.error.Some? ==> FailedWith(ss.ph, ss.main.error.value))
    && (ss.errs == [] && !ss.ctxDone ==> forall i | 0 <= i < |ss.ph| :: !ss.ph[i].Failed?)
  }

  /** An offset counts as completed because it was loaded or because its own goroutine recorded it. */
  ghost predicate RecordsSound(c: Config, ss: Session) {
    forall i | 0 <= i < |ss.ph| && i < |c.tiles| ::
      && (ss.ph[i].Skipped? ==> c.tiles[i].off in ss.loaded)
      && (IsCompleted(ss.mem, c.tiles[i].off) ==>
            c.tiles[i].off in ss.loaded || ss.ph[i].Saving? || ss.ph[i].Succeeded?)
  }

  ghost predicate Control(c: Config, ss: Session) {
    && |ss.ph| == |c.tiles|
    && Frontier(ss)
    && (ss.ctxDone ==> ss.parentDone || Ended(ss.main))
    && (forall i | 0 <= i < |ss.ph| :: ss.ph[i].Cancelled? ==> ss.ctxDone)
    && ErrorsSound(ss)
    && RecordsSound(c, ss)
    && (ss.main.Reporting? && ss.main.next < |c.tiles| ==> IsCompleted(ss.mem, c.tiles[ss.main.next].off))
    && (ss.main.Finishing? || Nil(ss.main) ==> forall i | 0 <= i < |ss.ph| :: Finished(ss.ph[i]))
    && (Nil(ss.main) ==> ss.parentDone || AllDone(ss.ph))
  }

  ghost predicate Controlled(c: Config, s: State) {
    s.session.Some? ==> Control(c, s.session.value)
  }

  lemma ChunkKeepsFailedWith(c: Config, target: Option<seq<byte>>, ss: Session, i: nat, act: ChunkAct, e: ChunkError)
    requires CanChunk(c, target, ss, i, act) && FailedWith(ss.ph, e)
    ensures FailedWith(ChunkDo(c, ss, i, act).ph, e)
  {
    var j :| 0 <= j < |ss.ph| && ss.ph[j] == Failed(e);
    assert j != i;
    assert ChunkDo(c, ss, i, act).ph[j] == Failed(e);
  }

  lemma ChunkKeepsErrorsSound(c: Config, target: Option<seq<byte>>, ss: Session, i: nat, act: ChunkAct)
    requires CanChunk(c, target, ss, i, act) && ErrorsSound(ss)
    ensures ErrorsSound(ChunkDo(c, ss, i, act))
  {
    var ss' := ChunkDo(c, ss, i, act);
    forall e | e in ss'.errs ensures FailedWith(ss'.ph, e) {
      if e in ss.errs {
        ChunkKeepsFailedWith(c, target, ss, i, act, e);
      } else {
        assert ss'.ph[i] == Failed(e);
      }
    }
    if ss.main.Returned? && ss.main.error.Some? {
      ChunkKeepsFailedWith(c, target, ss, i, act, ss.main.error.value);
    }
  }

  lemma ChunkKeepsRecordsSound(c: Config, target: Option<seq<byte>>, ss: Session, i: nat, act: ChunkAct)
    requires ValidConfig(c) && CanChunk(c, target, ss, i, act) && RecordsSound(c, ss)
    ensures RecordsSound(c, ChunkDo(c, ss, i, act))
  {
    ConfigFacts(c);
    var ss' := ChunkDo(c, ss, i, act);
    forall j | 0 <= j < |ss.ph| && j < |c.tiles|
      ensures ss'.ph[j].Skipped? ==> c.tiles[j].off in ss'.loaded
      ensures IsCompleted(ss'.mem, c.tiles[j].off) ==>
                c.tiles[j].off in ss'.loaded || ss'.ph[j].Saving? || ss'.ph[j].Succeeded?
    {
      if j != i {
        assert IsCompleted(ss'.mem, c.tiles[j].off) ==> IsCompleted(ss.mem, c.tiles[j].off);
      }
    }
  }

  lemma ChunkKeepsControl(c: Config, target: Option<seq<byte>>, ss: Session, i: nat, act: ChunkAct)
    requires ValidConfig(c) && CanChunk(c, target, ss, i, act) && Control(c, ss)
    ensures Control(c, ChunkDo(c, ss, i, act))
  {
    ChunkKeepsErrorsSound(c, target, ss, i, act);
    ChunkKeepsRecordsSound(c, target, ss, i, act);
    assert !Finished(ss.ph[i]) && !ss.ph[i].NotReached?;
    assert !NextPhase(c, ss.mem, i, ss.ph[i], act).NotReached?;
  }

  lemma MainKeepsErrorsSound(c: Config, target: Option<seq<byte>>, ss: Session, m: MainAct)
    requires CanMain(c, target, ss, m) && Control(c, ss)
    ensures ErrorsSound(MainDo(c, ss, m))
  {
    var ss' := MainDo(c, ss, m);
    forall e | FailedWith(ss.ph, e) ensures FailedWith(ss'.ph, e) {
      var j :| 0 <= j < |ss.ph| && ss.ph[j] == Failed(e);
      assert ss'.ph[j] == Failed(e);
    }
  }

  lemma MainKeepsFrontier(c: Config, target: Option<seq<byte>>, ss: Session, m: MainAct, ss': Session)
    requires CanMain(c, target, ss, m) && Control(c, ss) && ss' == MainDo(c, ss, m)
    ensures |ss'.ph| == |c.tiles| && Frontier(ss')
    ensures forall i | 0 <= i < |ss'.ph| :: ss'.ph[i].Cancelled? ==> ss'.ctxDone
  {
  }

  lemma MainKeepsRecordsSound(c: Config, target: Option<seq<byte>>, ss: Session, m: MainAct, ss': Session)
    requires CanMain(c, target, ss, m) && Control(c, ss) && ss' == MainDo(c, ss, m)
    ensures RecordsSound(c, ss')
  {
  }

  /** What holds where processChunks stands. */
  lemma MainKeepsPlaces(c: Config, target: Option<seq<byte>>, ss: Session, m: MainAct, ss': Session)
    requires CanMain(c, target, ss, m) && Control(c, ss) && ss' == MainDo(c, ss, m)
    ensures ss'.ctxDone ==> ss'.parentDone || Ended(ss'.main)
    ensures ss'.main.Reporting? && ss'.main.next < |c.tiles| ==> IsCompleted(ss'.mem, c.tiles[ss'.main.next].off)
    ensures ss'.main.Finishing? || Nil(ss'.main) ==> forall i | 0 <= i < |ss'.ph| :: Finished(ss'.ph[i])
    ensures Nil(ss'.main) ==> ss'.parentDone || AllDone(ss'.ph)
  {
  }

  lemma MainKeepsControl(c: Config, target: Option<seq<byte>>, ss: Session, m: MainAct)
    requires ValidConfig(c) && CanMain(c, target, ss, m) && Control(c, ss)
    ensures Control(c, MainDo(c, ss, m))
  {
    var ss' := MainDo(c, ss, m);
    MainKeepsErrorsSound(c, target, ss, m);
    MainKeepsFrontier(c, target, ss, m, ss');
    MainKeepsRecordsSound(c, target, ss, m, ss');
    MainKeepsPlaces(c, target, ss, m, ss');
  }

  lemma StepKeepsControl(c: Config, s: State, step: Step)
    requires ValidConfig(c) && Controlled(c, s) && Can(c, s, step)
    ensures Controlled(c, Do(c, s, step))
  {
    match step
    case MainStep(m) => MainKeepsControl(c, s.target, s.session.value, m);
    case ChunkStep(i, act) => ChunkKeepsControl(c, s.target, s.session.value, i, act);
    case _ =>
  }

  lemma {:induction false} PathKeeps(c: Config, s: State, steps: seq<Step>, s': State)
    requires ValidConfig(c) && FilesSound(c, s) && Controlled(c, s) && Path(c, s, steps, s')
    ensures FilesSound(c, s') && Controlled(c, s')
    decreases |steps|
  {
    if steps != [] {
      StepKeepsFiles(c, s, steps[0]);
      StepKeepsControl(c, s, steps[0]);
      PathKeeps(c, Do(c, s, steps[0]), steps[1..], s');
    }
  }

  /**
   Crash-safe resume: after any run of dispatches, writes, records, saves, crashes and restarts, each
   offset listed as completed, in the state file or in memory, has its bytes in the target.
   */
  lemma CrashSafeResume(c: Config, s0: State, steps: seq<Step>, s: State, i: nat)
    requires ValidConfig(c) && Initial(c, s0) && Path(c, s0, steps, s) && i < |c.tiles|
    requires || (s.disk.Some? && c.tiles[i].off in s.disk.value)
             || (s.session.Some? && IsCompleted(s.session.value.mem, c.tiles[i].off))
    ensures var t := c.tiles[i];
            && t.End() <= |c.source| && t.End() <= |Content(s.target)|
            && Content(s.target)[t.off..t.End()] == c.source[t.off..t.End()]
  {
    PathKeeps(c, s0, steps, s);
    ConfigFacts(c);
    assert InPlace(c, s.target, i, c.tiles[i].size);
    RightSlice(c.source, Content(s.target), c.tiles[i].off, c.tiles[i].End());
  }

  /** Result soundness: nil means every callback that was needed returned nil; an error is some callback's error. */
  lemma ResultSound(c: Config, s0: State, steps: seq<Step>, s: State)
    requires ValidConfig(c) && Initial(c, s0) && Path(c, s0, steps, s) && s.session.Some?
    ensures var ss := s.session.value;
            && (Nil(ss.main) && !ss.parentDone ==>
                  forall i | 0 <= i < |ss.ph| && i < |c.tiles| ::
                    ss.ph[i].Succeeded? || (ss.ph[i].Skipped? && c.tiles[i].off in ss.loaded))
            && (ss.main.Returned? && ss.main.error.Some? ==> FailedWith(ss.ph, ss.main.error.value))
  {
    PathKeeps(c, s0, steps, s);
  }

  /** When processChunks returns nil under a live parent context, the target begins with the source. */
  lemma NilMeansCopied(c: Config, s0: State, steps: seq<Step>, s: State)
    requires ValidConfig(c) && Initial(c, s0) && Path(c, s0, steps, s)
    requires s.session.Some? && Nil(s.session.value.main) && !s.session.value.parentDone
    ensures Content(s.target) == c.source + Tail(Content(s.target), |c.source|)
  {
    PathKeeps(c, s0, steps, s);
    ConfigFacts(c);
    var ss := s.session.value;
    forall i | 0 <= i < |c.tiles|
      ensures Right(c.source, Content(s.target), c.tiles[i].off, c.tiles[i].End())
    {
      assert PhaseSound(c, s.target, i, ss.ph[i]);
    }
    RightFromChunks(c.source, Content(s.target), c.tiles, c.chunkSize);
    AllRightIsCopy(c.source, Content(s.target));
  }

  // ---- the bytes beyond the source's length

  lemma WrittenKeepsTail(c: Config, target: Option<seq<byte>>, a: nat, b: nat)
    requires a <= b <= |c.source|
    ensures Tail(Content(Written(c, target, a, b)), |c.source|) == Tail(Content(target), |c.source|)
  {
    WriteKeepsTail(Content(target), a, c.source[a..b], |c.source|);
  }

  lemma ChunkTargetKeepsTail(c: Config, s: State, i: nat, act: ChunkAct)
    requires ValidConfig(c) && Can(c, s, ChunkStep(i, act))
    ensures Tail(Content(ChunkTarget(c, s.target, s.session.value, i, act)), |c.source|) ==
            Tail(Content(s.target), |c.source|)
  {
    if act.Land? {
      LandRange(c, s, i, act.k);
      var from := c.tiles[i].off + s.session.value.ph[i].landed;
      WrittenKeepsTail(c, s.target, from, from + act.k);
    }
  }

  /** Only a fresh download, which truncates, changes what lies beyond the source's length. */
  lemma StepKeepsTail(c: Config, s: State, step: Step)
    requires ValidConfig(c) && Can(c, s, step)
    ensures var t, t' := Content(s.target), Content(Do(c, s, step).target);
            Tail(t', |c.source|) ==
            if step.Begin? && s.disk.None? && c.direction.Download? then [] else Tail(t, |c.source|)
  {
    match step
    case LandStale(i, a, b) =>
      assert c.tiles[i].End() <= |c.source| by { ConfigFacts(c); }
      WrittenKeepsTail(c, s.target, a, b);
    case ChunkStep(i, act) => ChunkTargetKeepsTail(c, s, i, act);
    case _ =>
  }

  lemma {:induction false} PathKeepsTail(c: Config, s: State, steps: seq<Step>, s': State)
    requires ValidConfig(c) && Path(c, s, steps, s')
    ensures var t, t' := Tail(Content(s.target), |c.source|), Tail(Content(s'.target), |c.source|);
            t' == t || (c.direction.Download? && t' == [])
    decreases |steps|
  {
    if steps != [] {
      StepKeepsTail(c, s, steps[0]);
      PathKeepsTail(c, Do(c, s, steps[0]), steps[1..], s');
    }
  }

  /**
   Schedule independence: whatever the interleaving, the crashes and the retries, a successful upload leaves
   what the left-to-right copy onto the old file leaves, namely the source followed by any old bytes beyond it.
   */
  lemma UploadResult(c: Config, s0: State, steps: seq<Step>, s: State)
    requires ValidConfig(c) && c.direction.Upload? && Initial(c, s0) && Path(c, s0, steps, s)
    requires s.session.Some? && Nil(s.session.value.main) && !s.session.value.parentDone
    ensures forall t | t in c.tiles :: t.End() <= |c.source|
    ensures var old0 := Content(s0.target);
            && Content(s.target) == CopyInOrder(c.source, old0, c.tiles)
            && Content(s.target) == c.source + Tail(old0, |c.source|)
            && (Content(s.target) == c.source <==> |old0| <= |c.source|)
  {
    NilMeansCopied(c, s0, steps, s);
    PathKeepsTail(c, s0, steps, s);
    CopyInOrderIsCopy(c.source, Content(s0.target), c.chunkSize);
  }

  /** A download that starts without a usable state file truncates first, and then success is equality. */
  lemma FreshDownloadResult(c: Config, s0: State, steps: seq<Step>, s: State)
    requires ValidConfig(c) && c.direction.Download? && Initial(c, s0) && s0.disk.None?
    requires steps != [] && steps[0].Begin? && Path(c, s0, steps, s)
    requires s.session.Some? && Nil(s.session.value.main) && !s.session.value.parentDone
    ensures Content(s.target) == c.source
  {
    NilMeansCopied(c, s0, steps, s);
    StepKeepsTail(c, s0, steps[0]);
    PathKeepsTail(c, Do(c, s0, steps[0]), steps[1..], s);
  }

  // ---- verification of the whole file

  ghost predicate Injective(hash: seq<byte> -> seq<byte>) {
    forall x, y :: hash(x) == hash(y) ==> x == y
  }

  /** Once verified, the target stays the source: late writes only repeat its own bytes. */
  ghost predicate VerifiedEqual(c: Config, s: State) {
    s.session.Some? && s.session.value.main.Concluded? && c.useSha256 ==> s.target == Some(c.source)
  }

  lemma RewriteSource(source: seq<byte>, a: nat, b: nat)
    requires a <= b <= |source|
    ensures WriteAt(source, a, source[a..b]) == source
  {
  }

  lemma LandKeepsSource(c: Config, s: State, i: nat, act: ChunkAct)
    requires ValidConfig(c) && Can(c, s, ChunkStep(i, act)) && s.target == Some(c.source)
    ensures ChunkTarget(c, s.target, s.session.value, i, act) == Some(c.source)
  {
    if act.Land? {
      LandRange(c, s, i, act.k);
      var from := c.tiles[i].off + s.session.value.ph[i].landed;
      RewriteSource(c.source, from, from + act.k);
    }
  }

  lemma StepKeepsVerified(c: Config, s: State, step: Step)
    requires ValidConfig(c) && Injective(c.hash) && VerifiedEqual(c, s) && Can(c, s, step)
    ensures VerifiedEqual(c, Do(c, s, step))
  {
    match step
    case LandStale(i, a, b) =>
      assert c.tiles[i].End() <= |c.source| by { ConfigFacts(c); }
      RewriteSource(c.source, a, b);
    case ChunkStep(i, act) =>
      if s.target == Some(c.source) {
        LandKeepsSource(c, s, i, act);
      }
    case MainStep(m) =>
      if m.Conclude? && c.useSha256 {
        assert c.hash(s.target.value) == c.hash(c.source);
      }
    case _ =>
  }

  lemma {:induction false} PathKeepsVerified(c: Config, s: State, steps: seq<Step>, s': State)
    requires ValidConfig(c) && Injective(c.hash) && VerifiedEqual(c, s) && Path(c, s, steps, s')
    ensures VerifiedEqual(c, s')
    decreases |steps|
  {
    if steps != [] {
      StepKeepsVerified(c, s, steps[0]);
      PathKeepsVerified(c, Do(c, s, steps[0]), steps[1..], s');
    }
  }

  /** With hash checking on, success means equality, even if the context was cancelled on the way. */
  lemma VerifiedSuccess(c: Config, s0: State, steps: seq<Step>, s: State)
    requires ValidConfig(c) && Injective(c.hash) && c.useSha256 && Initial(c, s0) && Path(c, s0, steps, s)
    requires s.session.Some? && s.session.value.main.Concluded?
    ensures s.target == Some(c.source)
  {
    PathKeepsVerified(c, s0, steps, s);
  }

  /** A saved set is never replaced by a smaller one; only deleting the file after success forgets it. */
  lemma SavedSetsGrow(c: Config, s: State, step: Step)
    requires ValidConfig(c) && FilesSound(c, s) && Can(c, s, step) && s.disk.Some?
    ensures var disk' := Do(c, s, step).disk;
            if disk'.Some? then s.disk.value <= disk'.value
            else step.MainStep? && step.m.Conclude? && s.session.value.main == Returned(None)
  {
  }
}
