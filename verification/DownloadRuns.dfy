/** The other direction: a run for every such copy, and so the exact set of files that a success can leave. */
module DownloadRuns {
  import opened Prelude
  import opened Files
  import opened PartialCopy
  import opened Transfer
  import opened TransferSafety
  import opened TransferResults
  import opened TransferLiveness
  import opened TransferReturns
  import opened TransferProcess
  import opened DownloadOutcomes

  // ---- one goroutine on its way

  /** Only the goroutine of chunk i has moved, to p; what is recorded does not matter here. */
  ghost predicate Alone(c: Config, s: State, s0: Session, i: nat, p: Phase) {
    && Live(c, s) && i < |s0.ph|
    && var ss := s.session.value;
    && ss.main == s0.main && ss.ph == s0.ph[i := p] && ss.errs == s0.errs && ss.progress == s0.progress
  }

  lemma AloneStep(c: Config, s: State, steps: seq<Step>, s1: State, s0: Session, i: nat, p: Phase, act: ChunkAct)
    returns (longer: seq<Step>, s2: State)
    requires ValidConfig(c) && CalmPath(c, s, steps, s1) && Alone(c, s1, s0, i, p)
    requires CanChunk(c, s1.target, s1.session.value, i, act) && !act.Hang? && !act.Report? && !act.PushError?
    ensures CalmPath(c, s, longer, s2)
    ensures Alone(c, s2, s0, i, NextPhase(c, s1.session.value.mem, i, p, act))
  {
    longer, s2 := Extend(c, s, steps, s1, ChunkStep(i, act));
    Overwrite(s0.ph, i, p, NextPhase(c, s1.session.value.mem, i, p, act));
  }

  /** So far that n bytes of the chunk are written. */
  lemma WritesSome(c: Config, s: State, i: nat, n: nat) returns (steps: seq<Step>, s': State)
    requires ValidConfig(c) && Live(c, s) && i < |c.tiles| && s.session.value.ph[i].Queued?
    requires s.session.value.slots < c.batch && 0 < n <= c.tiles[i].size
    ensures CalmPath(c, s, steps, s') && Alone(c, s', s.session.value, i, Sending(0, n))
  {
    var s0 := s.session.value;
    NoStep(c, s);
    assert s0.ph[i := Queued] == s0.ph;
    steps, s' := AloneStep(c, s, [], s, s0, i, Queued, Acquire);
    steps, s' := AloneStep(c, s, steps, s', s0, i, Working(0), StartSend);
    steps, s' := AloneStep(c, s, steps, s', s0, i, Sending(0, 0), Land(n));
  }

  /** All of it is written and reported, and the report is taken from the channel. */
  lemma Reports(c: Config, s: State, s0: Session, i: nat) returns (steps: seq<Step>, s': State)
    requires ValidConfig(c) && Alone(c, s, s0, i, Acked) && i < |c.tiles| && s0.progress == []
    requires !s.session.value.main.Opening?
    ensures CalmPath(c, s, steps, s') && Alone(c, s', s0, i, Reported)
  {
    ConfigFacts(c);
    var ss := s.session.value;
    OwedAtLeast(c.tiles, ss.ph, |ss.ph|, i);
    NoStep(c, s);
    var s1;
    steps, s1 := Extend(c, s, [], s, ChunkStep(i, Report));
    Overwrite(s0.ph, i, Acked, Reported);
    steps, s' := Extend(c, s, steps, s1, Consume);
  }

  lemma Records(c: Config, s: State, s0: Session, i: nat) returns (steps: seq<Step>, s': State)
    requires ValidConfig(c) && Alone(c, s, s0, i, Reported) && i < |c.tiles|
    ensures CalmPath(c, s, steps, s') && Alone(c, s', s0, i, Succeeded)
  {
    NoStep(c, s);
    steps, s' := AloneStep(c, s, [], s, s0, i, Reported, Record);
    if s'.session.value.ph[i].Saving? {
      steps, s' := AloneStep(c, s, steps, s', s0, i, Saving, SaveOk);
    }
  }

  lemma WritesAll(c: Config, s: State, i: nat) returns (steps: seq<Step>, s': State)
    requires ValidConfig(c) && Live(c, s) && i < |c.tiles| && s.session.value.ph[i].Queued?
    requires s.session.value.slots < c.batch && s.session.value.progress == [] && s.session.value.main.Joining?
    ensures CalmPath(c, s, steps, s') && Alone(c, s', s.session.value, i, Succeeded)
  {
    ConfigFacts(c);
    var s0, size := s.session.value, c.tiles[i].size;
    var s1, s2, more;
    steps, s1 := WritesSome(c, s, i, size);
    steps, s1 := AloneStep(c, s, steps, s1, s0, i, Sending(0, size), Ack);
    more, s2 := Reports(c, s1, s0, i);
    PathAppend(c, s, steps, s1, more, s2);
    steps := steps + more;
    more, s' := Records(c, s2, s0, i);
    PathAppend(c, s, steps, s2, more, s');
    steps := steps + more;
  }

  // ---- first the whole chunks, then the half ones

  /** Where the goroutine of chunk i is before, after the first, and after the second pass. */
  function StageOf(c: Config, loaded: set<int>, parts: seq<nat>, i: nat, pass: nat): Phase
    requires i < |c.tiles| == |parts|
  {
    if c.tiles[i].off in loaded then Skipped
    else if pass >= 1 && parts[i] == c.tiles[i].size then Succeeded
    else if pass >= 2 && parts[i] > 0 then Sending(0, parts[i])
    else Queued
  }

  /** In this pass, the chunks before k have been dealt with. */
  ghost predicate Staged(c: Config, s: State, loaded: set<int>, parts: seq<nat>, pass: nat, k: nat) {
    && Live(c, s) && |parts| == |c.tiles| && pass >= 1 && k <= |c.tiles|
    && var ss := s.session.value;
    && ss.main.Joining? && ss.errs == [] && ss.progress == []
    && (forall j | 0 <= j < |c.tiles| :: ss.ph[j] == StageOf(c, loaded, parts, j, if j < k then pass else pass - 1))
  }

  lemma NoSlotsHeld(c: Config, s: State, loaded: set<int>, parts: seq<nat>, k: nat)
    requires Staged(c, s, loaded, parts, 1, k)
    ensures s.session.value.slots == 0
  {
    var ph := s.session.value.ph;
    HoldingCount(ph);
    assert HoldingSet(ph) == {};
  }

  lemma SlotFree(c: Config, s: State, loaded: set<int>, parts: seq<nat>, k: nat)
    requires CanLand(c, loaded, parts) && Staged(c, s, loaded, parts, 2, k)
    requires k < |c.tiles| && Partway(c, k, parts[k])
    ensures s.session.value.slots < c.batch
  {
    var ph := s.session.value.ph;
    HoldingCount(ph);
    forall j | j in HoldingSet(ph) ensures j in PartwaySet(c, parts) - {k} {
    }
    SubsetSize(HoldingSet(ph), PartwaySet(c, parts) - {k});
  }

  lemma StagedNext(c: Config, s: State, s': State, loaded: set<int>, parts: seq<nat>, pass: nat, k: nat)
    requires Staged(c, s, loaded, parts, pass, k) && k < |c.tiles|
    requires Alone(c, s', s.session.value, k, StageOf(c, loaded, parts, k, pass))
    ensures Staged(c, s', loaded, parts, pass, k + 1)
  {
  }

  lemma StageNext(c: Config, s: State, loaded: set<int>, parts: seq<nat>, pass: nat, k: nat)
    returns (steps: seq<Step>, s': State)
    requires ValidConfig(c) && CanLand(c, loaded, parts) && Staged(c, s, loaded, parts, pass, k) && k < |c.tiles|
    requires pass == 1 || pass == 2
    ensures CalmPath(c, s, steps, s') && Staged(c, s', loaded, parts, pass, k + 1)
  {
    ConfigFacts(c);
    var p := StageOf(c, loaded, parts, k, pass);
    assert s.session.value.ph[k] == StageOf(c, loaded, parts, k, pass - 1);
    if p == s.session.value.ph[k] {
      NoStep(c, s);
      steps, s' := [], s;
    } else {
      if pass == 1 {
        NoSlotsHeld(c, s, loaded, parts, k);
        steps, s' := WritesAll(c, s, k);
        StagedNext(c, s, s', loaded, parts, pass, k);
      } else {
        SlotFree(c, s, loaded, parts, k);
        steps, s' := WritesSome(c, s, k, parts[k]);
        StagedNext(c, s, s', loaded, parts, pass, k);
      }
    }
  }

  lemma {:induction false} StageAll(c: Config, s: State, loaded: set<int>, parts: seq<nat>, pass: nat, k: nat)
    returns (steps: seq<Step>, s': State)
    requires ValidConfig(c) && CanLand(c, loaded, parts) && Staged(c, s, loaded, parts, pass, k)
    requires pass == 1 || pass == 2
    ensures CalmPath(c, s, steps, s') && Staged(c, s', loaded, parts, pass, |c.tiles|)
    decreases |c.tiles| - k
  {
    if k == |c.tiles| {
      NoStep(c, s);
      steps, s' := [], s;
    } else {
      var s1, more;
      steps, s1 := StageNext(c, s, loaded, parts, pass, k);
      more, s' := StageAll(c, s1, loaded, parts, pass, k + 1);
      PathAppend(c, s, steps, s1, more, s');
      steps := steps + more;
    }
  }

  /** From the beginning through both passes. */
  lemma StageBoth(c: Config, s0: State, loaded: set<int>, parts: seq<nat>) returns (steps: seq<Step>, s': State)
    requires ValidConfig(c) && c.direction.Download? && Initial(c, s0) && Can(c, s0, Begin)
    requires loaded == Do(c, s0, Begin).session.value.loaded && CanLand(c, loaded, parts)
    ensures CalmPath(c, Do(c, s0, Begin), steps, s') && Staged(c, s', loaded, parts, 2, |c.tiles|)
  {
    var s := Do(c, s0, Begin);
    var s1, s2, more;
    steps, s1 := OpenAndDispatch(c, s0);
    steps, s1 := Extend(c, s, steps, s1, MainStep(LoopDone));
    assert Staged(c, s1, loaded, parts, 1, 0);
    more, s2 := StageAll(c, s1, loaded, parts, 1, 0);
    PathAppend(c, s, steps, s1, more, s2);
    steps := steps + more;
    assert Staged(c, s2, loaded, parts, 2, 0);
    more, s' := StageAll(c, s2, loaded, parts, 2, 0);
    PathAppend(c, s, steps, s2, more, s');
    steps := steps + more;
  }

  /** There the target is the copy. */
  lemma StagedTarget(c: Config, s0: State, steps: seq<Step>, s: State, loaded: set<int>, parts: seq<nat>)
    requires ValidConfig(c) && c.direction.Download? && Initial(c, s0) && Can(c, s0, Begin)
    requires loaded == Do(c, s0, Begin).session.value.loaded && CanLand(c, loaded, parts)
    requires OneProcess(c, Do(c, s0, Begin), steps, s) && Staged(c, s, loaded, parts, 2, |c.tiles|)
    ensures s.target == Some(CopyParts(c.source, c.tiles, parts, Content(Do(c, s0, Begin).target), |c.tiles|))
  {
    var s1 := Do(c, s0, Begin);
    var base := Content(s1.target);
    BeginsLanding(c, s0);
    var found := RunKeepsLanding(c, s1, steps, s, loaded, base, seq(|c.tiles|, _ => 0));
    forall i | 0 <= i < |c.tiles| ensures found[i] == parts[i] {
      assert Shows(c, i, s.session.value.ph[i], found[i]);
    }
    assert found == parts;
  }

  // ---- then cancel, if anything is left, and return nil

  /** Whoever has not finished gives up or fails without being heard. */
  ghost predicate Settling(c: Config, s: State, k: nat) {
    && s.session.Some? && k <= |c.tiles|
    && var ss := s.session.value;
    && ss.main.Joining? && ss.errs == [] && |ss.ph| == |c.tiles|
    && (forall j | 0 <= j < k :: Finished(ss.ph[j]))
    && (forall j | k <= j < |c.tiles| ::
          Finished(ss.ph[j]) || (ss.ctxDone && (ss.ph[j].Queued? || (ss.ph[j].Sending? && j in c.mayFail))))
  }

  lemma FailUnheard(c: Config, s: State, i: nat) returns (steps: seq<Step>, s': State)
    requires s.session.Some? && c.direction.Download? && In(c, s.session.value, i) && i in c.mayFail
    requires s.session.value.ph[i].Sending? && s.session.value.ctxDone
    ensures OneProcess(c, s, steps, s') && s'.target == s.target && s'.session.Some?
    ensures var ss, ss' := s.session.value, s'.session.value;
            ss' == ss.(ph := ss.ph[i := Failed(Failure(0))], slots := ss.slots - 1)
  {
    var a, b := ChunkStep(i, Fatal(Failure(0))), ChunkStep(i, DropError);
    var s1 := Do(c, s, a);
    s' := Do(c, s1, b);
    RunStep(c, s, a);
    RunStep(c, s1, b);
    JoinRuns(c, s, [a], s1, [b], s');
    steps := [a] + [b];
    Overwrite(s.session.value.ph, i, Failing(Failure(0)), Failed(Failure(0)));
  }

  lemma SettleNext(c: Config, s: State, k: nat) returns (steps: seq<Step>, s': State)
    requires c.direction.Download? && Settling(c, s, k) && k < |c.tiles|
    ensures OneProcess(c, s, steps, s') && Settling(c, s', k + 1) && s'.target == s.target
    ensures s.session.value.ctxDone || (steps == [] && s' == s)
  {
    var ph := s.session.value.ph;
    if Finished(ph[k]) {
      steps, s' := [], s;
    } else if ph[k].Queued? {
      steps, s' := [ChunkStep(k, GiveUp)], Do(c, s, ChunkStep(k, GiveUp));
      RunStep(c, s, ChunkStep(k, GiveUp));
      assert s'.session.value.ph == ph[k := Phase.Cancelled];
    } else {
      steps, s' := FailUnheard(c, s, k);
    }
  }

  lemma {:induction false} SettleAll(c: Config, s: State, k: nat) returns (steps: seq<Step>, s': State)
    requires c.direction.Download? && Settling(c, s, k)
    ensures OneProcess(c, s, steps, s') && Settling(c, s', |c.tiles|) && s'.target == s.target
    ensures s.session.value.ctxDone || (steps == [] && s' == s)
    decreases |c.tiles| - k
  {
    if k == |c.tiles| {
      steps, s' := [], s;
    } else {
      var first, s1 := SettleNext(c, s, k);
      var rest;
      rest, s' := SettleAll(c, s1, k + 1);
      JoinRuns(c, s, first, s1, rest, s');
      steps := first + rest;
    }
  }

  lemma Concludes(c: Config, s: State) returns (steps: seq<Step>, s': State)
    requires Settling(c, s, |c.tiles|) && s.target.Some?
    requires c.useSha256 ==> !s.session.value.parentDone && c.hash(s.target.value) == c.hash(c.source)
    ensures OneProcess(c, s, steps, s') && s'.target == s.target
    ensures s'.session.Some? && s'.session.value.main.Concluded?
    ensures steps == [MainStep(Join), MainStep(Finish(true)), MainStep(Conclude(true))]
  {
    var s1 := Do(c, s, MainStep(Join));
    var s2 := Do(c, s1, MainStep(Finish(true)));
    s' := Do(c, s2, MainStep(Conclude(true)));
    RunStep(c, s, MainStep(Join));
    RunStep(c, s1, MainStep(Finish(true)));
    RunStep(c, s2, MainStep(Conclude(true)));
    JoinRuns(c, s, [MainStep(Join)], s1, [MainStep(Finish(true))], s2);
    JoinRuns(c, s, [MainStep(Join)] + [MainStep(Finish(true))], s2, [MainStep(Conclude(true))], s');
    steps := [MainStep(Join)] + [MainStep(Finish(true))] + [MainStep(Conclude(true))];
  }

  /** Nothing is left out. */
  ghost predicate Whole(c: Config, loaded: set<int>, parts: seq<nat>)
    requires |parts| == |c.tiles|
  {
    forall i | 0 <= i < |c.tiles| :: c.tiles[i].off in loaded || parts[i] == c.tiles[i].size
  }

  /** The parent is cancelled only if something is. */
  lemma ReadyToSettle(c: Config, s: State, loaded: set<int>, parts: seq<nat>) returns (steps: seq<Step>, s': State)
    requires ValidConfig(c) && CanLand(c, loaded, parts) && Staged(c, s, loaded, parts, 2, |c.tiles|)
    ensures OneProcess(c, s, steps, s') && Settling(c, s', 0) && s'.target == s.target
    ensures Whole(c, loaded, parts) ==> steps == [] && s' == s && !s.session.value.ctxDone
  {
    if Whole(c, loaded, parts) {
      ConfigFacts(c);
      steps, s' := [], s;
    } else {
      RunStep(c, s, CancelParent);
      steps, s' := [CancelParent], Do(c, s, CancelParent);
    }
  }

  lemma SettleAndConclude(c: Config, s: State, loaded: set<int>, parts: seq<nat>) returns (steps: seq<Step>, s': State)
    requires ValidConfig(c) && c.direction.Download? && CanLand(c, loaded, parts)
    requires Staged(c, s, loaded, parts, 2, |c.tiles|)
    requires c.useSha256 ==> Whole(c, loaded, parts) && c.hash(s.target.value) == c.hash(c.source)
    ensures OneProcess(c, s, steps, s') && s'.target == s.target
    ensures s'.session.Some? && s'.session.value.main.Concluded?
    ensures Whole(c, loaded, parts) ==> CancelParent !in steps
  {
    var first, s1 := ReadyToSettle(c, s, loaded, parts);
    var second, s2 := SettleAll(c, s1, 0);
    var third;
    third, s' := Concludes(c, s2);
    JoinRuns(c, s, first, s1, second, s2);
    JoinRuns(c, s, first + second, s2, third, s');
    steps := first + second + third;
  }

  /** A run that ends in success with this copy, under a live context if nothing is left out. */
  lemma CopyIsReached(c: Config, s0: State, parts: seq<nat>) returns (steps: seq<Step>, s': State)
    requires ValidConfig(c) && c.direction.Download? && Initial(c, s0) && Can(c, s0, Begin)
    requires CanLand(c, Do(c, s0, Begin).session.value.loaded, parts)
    requires var t := CopyParts(c.source, c.tiles, parts, Content(Do(c, s0, Begin).target), |c.tiles|);
             c.useSha256 ==> Whole(c, Do(c, s0, Begin).session.value.loaded, parts) && c.hash(t) == c.hash(c.source)
    ensures OneProcess(c, Do(c, s0, Begin), steps, s') && s'.session.Some? && s'.session.value.main.Concluded?
    ensures s'.target ==
            Some(CopyParts(c.source, c.tiles, parts, Content(Do(c, s0, Begin).target), |c.tiles|))
    ensures Whole(c, Do(c, s0, Begin).session.value.loaded, parts) ==> LiveRun(c, Do(c, s0, Begin), steps, s')
  {
    var loaded := Do(c, s0, Begin).session.value.loaded;
    var first, s1 := StageBoth(c, s0, loaded, parts);
    StagedTarget(c, s0, first, s1, loaded, parts);
    var rest;
    rest, s' := SettleAndConclude(c, s1, loaded, parts);
    JoinRuns(c, Do(c, s0, Begin), first, s1, rest, s');
    steps := first + rest;
  }

  // ---- the exact sets

  predicate Succeeds(s: State, t: seq<byte>) {
    s.session.Some? && s.session.value.main.Concluded? && s.target == Some(t)
  }

  /** These parts, copied onto the file that the download begins with. */
  ghost predicate IsCopy(c: Config, s: State, parts: seq<nat>, t: seq<byte>) {
    PartsFit(c.source, c.tiles, parts) && t == CopyParts(c.source, c.tiles, parts, Content(s.target), |c.tiles|)
  }

  /** The source, and what lay beyond it in the file that the download begins with. */
  ghost predicate IsSource(c: Config, s: State, t: seq<byte>) {
    t == c.source + Tail(Content(s.target), |c.source|)
  }

  predicate Checked(c: Config, t: seq<byte>) {
    c.useSha256 ==> c.hash(t) == c.hash(c.source)
  }

  /** Everything that was not completed before. */
  function Rest(c: Config, loaded: set<int>): (parts: seq<nat>)
    ensures |parts| == |c.tiles|
    ensures forall i | 0 <= i < |parts| :: parts[i] == if c.tiles[i].off in loaded then 0 else c.tiles[i].size
  {
    seq(|c.tiles|, i requires 0 <= i < |c.tiles| => if c.tiles[i].off in loaded then 0 else c.tiles[i].size)
  }

  lemma RestIsAll(c: Config, s0: State)
    requires ValidConfig(c) && c.direction.Download? && Initial(c, s0) && Can(c, s0, Begin)
    ensures var s := Do(c, s0, Begin);
            var parts := Rest(c, s.session.value.loaded);
            && CanLand(c, s.session.value.loaded, parts)
            && CopyParts(c.source, c.tiles, parts, Content(s.target), |c.tiles|) ==
               c.source + Tail(Content(s.target), |c.source|)
  {
    var s := Do(c, s0, Begin);
    var parts := Rest(c, s.session.value.loaded);
    ConfigFacts(c);
    assert PartwaySet(c, parts) == {};
    forall i | 0 <= i < |c.tiles|
      ensures parts[i] == c.tiles[i].size || Right(c.source, Content(s.target), c.tiles[i].off, c.tiles[i].End())
    {
      if c.tiles[i].off in s.session.value.loaded {
        assert InPlace(c, s0.target, i, c.tiles[i].size);
      }
    }
    AllParts(c.source, c.chunkSize, parts, Content(s.target));
  }

  /** A checked success found the hashes equal and everything done. */
  ghost predicate ConcludedChecked(c: Config, s: State) {
    s.session.Some? && s.session.value.main.Concluded? && c.useSha256 && s.target.Some? ==>
      Checked(c, s.target.value) && AllDone(s.session.value.ph)
  }

  lemma StepKeepsChecked(c: Config, s: State, step: Step)
    requires c.direction.Download? && FilesSound(c, s) && Controlled(c, s) && ConcludedChecked(c, s)
    requires Can(c, s, step) && !step.Crash?
    ensures ConcludedChecked(c, Do(c, s, step))
  {
    if step.ChunkStep? && s.session.value.main.Concluded? {
      assert Finished(s.session.value.ph[step.i]);
    }
  }

  lemma {:induction false} RunKeepsChecked(c: Config, s: State, steps: seq<Step>, s': State)
    requires ValidConfig(c) && c.direction.Download? && OneProcess(c, s, steps, s')
    requires FilesSound(c, s) && Controlled(c, s) && ConcludedChecked(c, s)
    ensures ConcludedChecked(c, s')
    decreases |steps|
  {
    if steps != [] {
      StepKeepsFiles(c, s, steps[0]);
      StepKeepsControl(c, s, steps[0]);
      StepKeepsChecked(c, s, steps[0]);
      RunKeepsChecked(c, Do(c, s, steps[0]), steps[1..], s');
    }
  }

  lemma RunIsChecked(c: Config, s0: State, steps: seq<Step>, s: State)
    requires ValidConfig(c) && c.direction.Download? && Initial(c, s0) && Can(c, s0, Begin)
    requires OneProcess(c, Do(c, s0, Begin), steps, s)
    ensures ConcludedChecked(c, s)
  {
    StepKeepsFiles(c, s0, Begin);
    StepKeepsControl(c, s0, Begin);
    RunKeepsChecked(c, Do(c, s0, Begin), steps, s);
  }

  /** With everything done, the copy is the whole one. */
  lemma DoneIsSource(c: Config, s0: State, steps: seq<Step>, s': State)
    requires ValidConfig(c) && c.direction.Download? && Initial(c, s0) && Can(c, s0, Begin)
    requires OneProcess(c, Do(c, s0, Begin), steps, s') && s'.session.Some? && AllDone(s'.session.value.ph)
    ensures s'.target.Some? && IsSource(c, Do(c, s0, Begin), s'.target.value)
  {
    var s := Do(c, s0, Begin);
    var loaded, base := s.session.value.loaded, Content(s.target);
    BeginsLanding(c, s0);
    var parts := RunKeepsLanding(c, s, steps, s', loaded, base, seq(|c.tiles|, _ => 0));
    forall i | 0 <= i < |c.tiles| ensures parts[i] == Rest(c, loaded)[i] {
      assert Shows(c, i, s'.session.value.ph[i], parts[i]);
      assert RecordsSound(c, s'.session.value);
    }
    assert parts == Rest(c, loaded);
    RestIsAll(c, s0);
  }

  /**
   The files that a download can leave when it succeeds, cancelled or not. With hash checking, only the source with what
   a resumed download found beyond it, if that passes. Without, exactly what copying the beginnings of any chunks not
   completed before onto the old file yields, where at most `batch` chunks are neither whole nor missing, and those only
   if their local write can fail.
   */
  lemma OutcomesAreCopies(c: Config, s0: State, t: seq<byte>)
    requires ValidConfig(c) && c.direction.Download? && Initial(c, s0) && Can(c, s0, Begin)
    ensures var s := Do(c, s0, Begin);
            (exists steps, s' :: OneProcess(c, s, steps, s') && Succeeds(s', t)) <==>
            if c.useSha256 then Checked(c, t) && IsSource(c, s, t)
            else exists parts :: CanLand(c, s.session.value.loaded, parts) && IsCopy(c, s, parts, t)
  {
    var s := Do(c, s0, Begin);
    if steps, s' :| OneProcess(c, s, steps, s') && Succeeds(s', t) {
      var parts := SuccessLands(c, s0, steps, s');
      assert IsCopy(c, s, parts, t);
      RunIsChecked(c, s0, steps, s');
      if c.useSha256 {
        DoneIsSource(c, s0, steps, s');
      }
    }
    if c.useSha256 {
      LiveOutcomeIsSource(c, s0, t);
    } else if parts :| CanLand(c, s.session.value.loaded, parts) && IsCopy(c, s, parts, t) {
      var steps, s' := CopyIsReached(c, s0, parts);
    }
  }

  /** Under a live context there is one such file only: the source, and what a resumed download found beyond it. */
  lemma LiveOutcomeIsSource(c: Config, s0: State, t: seq<byte>)
    requires ValidConfig(c) && c.direction.Download? && Initial(c, s0) && Can(c, s0, Begin)
    ensures var s := Do(c, s0, Begin);
            (exists steps, s' :: LiveRun(c, s, steps, s') && Succeeds(s', t)) <==>
            Checked(c, t) && IsSource(c, s, t)
  {
    var s := Do(c, s0, Begin);
    if steps, s' :| LiveRun(c, s, steps, s') && Succeeds(s', t) {
      RunIsChecked(c, s0, steps, s');
      LiveStays(c, s, steps, s');
      assert ([Begin] + steps)[1..] == steps;
      NilMeansCopied(c, s0, [Begin] + steps, s');
      ProcessKeepsTail(c, s, steps, s');
    }
    if Checked(c, t) && IsSource(c, s, t) {
      RestIsAll(c, s0);
      var steps, s' := CopyIsReached(c, s0, Rest(c, s.session.value.loaded));
    }
  }
}
