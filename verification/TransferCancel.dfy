/**
 What nil means when the parent context may be cancelled. A goroutine that sees the cancellation before it has a
 slot returns silently, so processChunks returns nil although its chunk was never moved; and the caller then
 takes the transfer for complete and deletes the state file.
 */
module TransferCancel {
  import opened Prelude
  import opened Transfer
  import opened TransferSafety
  import opened TransferResults
  import opened TransferReturns
  import opened TransferProcess

  /** Everything was completed in earlier runs. */
  ghost predicate NothingLeft(c: Config, loaded: set<int>) {
    forall i | 0 <= i < |c.tiles| :: c.tiles[i].off in loaded
  }

  /** What was loaded as completed is never dispatched. */
  ghost predicate LoadedSkipped(c: Config, loaded: set<int>, s: State) {
    && s.session.Some?
    && var ss := s.session.value;
    && |ss.ph| == |c.tiles|
    && (forall i | 0 <= i < |c.tiles| && c.tiles[i].off in loaded ::
          IsCompleted(ss.mem, c.tiles[i].off) && (ss.ph[i].NotReached? || ss.ph[i].Skipped?))
  }

  lemma StepKeepsLoadedSkipped(c: Config, loaded: set<int>, s: State, step: Step)
    requires LoadedSkipped(c, loaded, s) && Can(c, s, step) && !step.Crash?
    ensures LoadedSkipped(c, loaded, Do(c, s, step))
  {
    if step.ChunkStep? {
      assert CanChunk(c, s.target, s.session.value, step.i, step.act);
    }
  }

  lemma {:induction false} ProcessKeepsLoadedSkipped(c: Config, loaded: set<int>, s: State, steps: seq<Step>, s': State)
    requires LoadedSkipped(c, loaded, s) && OneProcess(c, s, steps, s')
    ensures LoadedSkipped(c, loaded, s')
    decreases |steps|
  {
    if steps != [] {
      StepKeepsLoadedSkipped(c, loaded, s, steps[0]);
      ProcessKeepsLoadedSkipped(c, loaded, Do(c, s, steps[0]), steps[1..], s');
    }
  }

  // ---- the run that gives up

  /** Waiting for goroutines that are queued, with the parent cancelled: the first k have given up. */
  ghost predicate GivingUp(c: Config, loaded: set<int>, s: State, k: nat) {
    && s.session.Some?
    && var ss := s.session.value;
    && ss.main.Joining? && ss.ctxDone && ss.errs == [] && |ss.ph| == |c.tiles| && k <= |c.tiles|
    && (forall j | 0 <= j < |c.tiles| ::
          ss.ph[j] == if c.tiles[j].off in loaded then Skipped else if j < k then Cancelled else Queued)
  }

  lemma {:induction false} AllGiveUp(c: Config, loaded: set<int>, s: State, k: nat)
    returns (steps: seq<Step>, s': State)
    requires GivingUp(c, loaded, s, k)
    ensures OneProcess(c, s, steps, s') && GivingUp(c, loaded, s', |c.tiles|) && s'.target == s.target
    ensures s'.session.value.mem == s.session.value.mem
    decreases |c.tiles| - k
  {
    if k == |c.tiles| {
      steps, s' := [], s;
    } else if c.tiles[k].off in loaded {
      assert GivingUp(c, loaded, s, k + 1);
      steps, s' := AllGiveUp(c, loaded, s, k + 1);
    } else {
      var step := ChunkStep(k, GiveUp);
      RunStep(c, s, step);
      var s1 := Do(c, s, step);
      assert s1.session.value.ph == s.session.value.ph[k := Cancelled];
      var rest;
      rest, s' := AllGiveUp(c, loaded, s1, k + 1);
      JoinRuns(c, s, [step], s1, rest, s');
      steps := [step] + rest;
    }
  }

  lemma LoopThenCancel(c: Config, s: State) returns (steps: seq<Step>, s': State)
    requires Dispatched(c, s, |c.tiles|)
    ensures OneProcess(c, s, steps, s') && GivingUp(c, s.session.value.loaded, s', 0) && s'.target == s.target
  {
    var s1 := Do(c, s, MainStep(LoopDone));
    RunStep(c, s, MainStep(LoopDone));
    RunStep(c, s1, CancelParent);
    s' := Do(c, s1, CancelParent);
    JoinRuns(c, s, [MainStep(LoopDone)], s1, [CancelParent], s');
    steps := [MainStep(LoopDone)] + [CancelParent];
  }

  lemma JoinThenNil(c: Config, loaded: set<int>, s: State) returns (steps: seq<Step>, s': State)
    requires GivingUp(c, loaded, s, |c.tiles|)
    ensures OneProcess(c, s, steps, s') && s'.session.Some? && s'.session.value.main == Returned(None)
    ensures s'.session.value.ph == s.session.value.ph && s'.session.value.mem == s.session.value.mem
    ensures s'.target == s.target
  {
    var s1 := Do(c, s, MainStep(Join));
    RunStep(c, s, MainStep(Join));
    RunStep(c, s1, MainStep(Finish(true)));
    s' := Do(c, s1, MainStep(Finish(true)));
    JoinRuns(c, s, [MainStep(Join)], s1, [MainStep(Finish(true))], s');
    steps := [MainStep(Join)] + [MainStep(Finish(true))];
  }

  /**
   Whatever is still to be moved: there is a run in which processChunks returns nil and none of it was moved. Unless
   hashes are checked, the caller then deletes the state file.
   */
  lemma NilWithoutMoving(c: Config, s0: State) returns (steps: seq<Step>, s': State)
    requires ValidConfig(c) && Initial(c, s0) && Can(c, s0, Begin) && Do(c, s0, Begin).target.Some?
    ensures var s := Do(c, s0, Begin);
            && OneProcess(c, s, steps, s') && s'.session.Some? && s'.session.value.main == Returned(None)
            && |s'.session.value.ph| == |c.tiles| && s'.target == s.target
            && (forall i | 0 <= i < |c.tiles| && c.tiles[i].off !in s.session.value.loaded ::
                  s'.session.value.ph[i].Cancelled?)
    ensures !c.useSha256 && s'.session.value.mem.Some? ==>
              Can(c, s', MainStep(Conclude(true))) && Do(c, s', MainStep(Conclude(true))).disk == None
  {
    var s := Do(c, s0, Begin);
    var loaded := s.session.value.loaded;
    var first, s1 := OpenAndDispatch(c, s0);
    var second, s2 := LoopThenCancel(c, s1);
    var third, s3 := AllGiveUp(c, loaded, s2, 0);
    var fourth;
    fourth, s' := JoinThenNil(c, loaded, s3);
    JoinRuns(c, s, first, s1, second, s2);
    JoinRuns(c, s, first + second, s2, third, s3);
    JoinRuns(c, s, first + second + third, s3, fourth, s');
    steps := first + second + third + fourth;
  }

  /**
   For instance a fresh download: it truncates, returns nil, and concludes, with an empty file in place of any
   source, if hashes are not checked.
   */
  lemma EmptySuccess(c: Config, s0: State) returns (steps: seq<Step>, s': State)
    requires ValidConfig(c) && Initial(c, s0) && c.direction.Download? && !c.useSha256
    requires s0.disk.None?
    ensures OneProcess(c, Do(c, s0, Begin), steps, s') && s'.session.Some? && s'.session.value.main.Concluded?
    ensures s'.target == Some([])
  {
    var first, s1 := NilWithoutMoving(c, s0);
    var last := MainStep(Conclude(true));
    RunStep(c, s1, last);
    s' := Do(c, s1, last);
    JoinRuns(c, Do(c, s0, Begin), first, s1, [last], s');
    steps := first + [last];
  }

  /** If processChunks returned nil, every chunk is done. */
  ghost predicate NilMeansDone(s: State) {
    s.session.Some? && Nil(s.session.value.main) ==> AllDone(s.session.value.ph)
  }

  /**
   So nil alone means that every chunk is done exactly when there was none left to move. In all other transfers
   the caller has to ask whether its context is still live, and then it does (ResultSound).
   */
  lemma NilMeansDoneIffNothingLeft(c: Config, s0: State)
    requires ValidConfig(c) && Initial(c, s0) && Can(c, s0, Begin) && Do(c, s0, Begin).target.Some?
    ensures var s := Do(c, s0, Begin);
            (forall steps, s' :: OneProcess(c, s, steps, s') ==> NilMeansDone(s')) <==>
            NothingLeft(c, s.session.value.loaded)
  {
    var s := Do(c, s0, Begin);
    var loaded := s.session.value.loaded;
    if NothingLeft(c, loaded) {
      forall steps, s' | OneProcess(c, s, steps, s') ensures NilMeansDone(s') {
        SkippedAll(c, s0, steps, s');
      }
    } else {
      var steps, s' := NilWithoutMoving(c, s0);
      var i :| 0 <= i < |c.tiles| && c.tiles[i].off !in loaded;
      assert s'.session.value.ph[i].Cancelled?;
    }
  }

  lemma SkippedAll(c: Config, s0: State, steps: seq<Step>, s': State)
    requires ValidConfig(c) && Initial(c, s0) && Can(c, s0, Begin)
    requires var s := Do(c, s0, Begin);
             NothingLeft(c, s.session.value.loaded) && OneProcess(c, s, steps, s')
    ensures NilMeansDone(s')
  {
    var s := Do(c, s0, Begin);
    ProcessKeepsLoadedSkipped(c, s.session.value.loaded, s, steps, s');
    assert ([Begin] + steps)[1..] == steps;
    PathKeeps(c, s0, [Begin] + steps, s');
  }
}
