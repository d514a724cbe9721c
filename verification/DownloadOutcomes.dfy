/**
 All the files that a download can leave when it reports success, cancelled or not: what is reachable in the transition
 system is exactly what copying some beginnings of chunks can produce.
 */
module DownloadOutcomes {
  import opened Prelude
  import opened PartialCopy
  import opened Transfer
  import opened TransferSafety
  import opened TransferResults
  import opened TransferStore
  import opened TransferProcess
  import opened TransferErrors
  import opened TransferCancel
  import opened TransferJam

  /** How much of chunk i may have been written when its goroutine is at p. */
  predicate Shows(c: Config, i: nat, p: Phase, n: nat)
    requires i < |c.tiles|
  {
    match p
    case Sending(_, landed) => n == landed
    case Acked | Reported | Saving | Succeeded => n == c.tiles[i].size
    case Failing(_) | Failed(_) => n > 0 ==> i in c.mayFail
    case _ => n == 0
  }

  ghost predicate AllShow(c: Config, ph: seq<Phase>, parts: seq<nat>) {
    |ph| == |parts| == |c.tiles| && forall i | 0 <= i < |ph| :: Shows(c, i, ph[i], parts[i])
  }

  /** The target is what the download began with, and these parts of the chunks. */
  ghost predicate Holds(c: Config, target: Option<seq<byte>>, base: seq<byte>, parts: seq<nat>) {
    && target.Some? && PartsFit(c.source, c.tiles, parts)
    && target.value == CopyParts(c.source, c.tiles, parts, base, |c.tiles|)
  }

  ghost predicate InParts(c: Config, base: seq<byte>, s: State, parts: seq<nat>) {
    s.session.Some? && AllShow(c, s.session.value.ph, parts) && Holds(c, s.target, base, parts)
  }

  function PartsAfter(parts: seq<nat>, step: Step): seq<nat> {
    if step.ChunkStep? && step.act.Land? && step.i < |parts| then parts[step.i := parts[step.i] + step.act.k] else parts
  }

  lemma ActShows(c: Config, target: Option<seq<byte>>, ss: Session, i: nat, act: ChunkAct, n: nat)
    requires c.direction.Download? && CanChunk(c, target, ss, i, act) && Shows(c, i, ss.ph[i], n)
    ensures Shows(c, i, NextPhase(c, ss.mem, i, ss.ph[i], act), if act.Land? then n + act.k else n)
  {
  }

  lemma WrittenHolds(c: Config, target: Option<seq<byte>>, after: Option<seq<byte>>, base: seq<byte>, parts: seq<nat>,
                     more: seq<nat>, i: nat, from: nat, k: nat)
    requires Apart(c.tiles) && i < |c.tiles| && Holds(c, target, base, parts) && PartsFit(c.source, c.tiles, more)
    requires from == c.tiles[i].off + parts[i] && from + k <= c.tiles[i].End() <= |c.source|
    requires more == parts[i := parts[i] + k] && after == Written(c, target, from, from + k)
    ensures Holds(c, after, base, more)
  {
    var d := c.source[from..from + k];
    assert Continues(c.source, c.tiles[i], parts[i], from, d);
    MoreOfOne(c.source, c.tiles, parts, more, base, |c.tiles|, i, from, d);
  }

  lemma MoreFits(c: Config, s: State, i: nat, k: nat, base: seq<byte>, parts: seq<nat>)
    requires ValidConfig(c) && Can(c, s, ChunkStep(i, Land(k))) && InParts(c, base, s, parts)
    ensures s.session.value.ph[i].landed == parts[i]
    ensures PartsFit(c.source, c.tiles, parts[i := parts[i] + k])
    ensures AllShow(c, Do(c, s, ChunkStep(i, Land(k))).session.value.ph, parts[i := parts[i] + k])
  {
    assert Shows(c, i, s.session.value.ph[i], parts[i]);
    LandIs(c, s, i, k);
  }

  lemma ConfigApart(c: Config)
    requires ValidConfig(c)
    ensures Apart(c.tiles)
  {
    TilesApart(|c.source|, c.chunkSize);
  }

  lemma LandHolds(c: Config, s: State, s': State, i: nat, k: nat, base: seq<byte>, parts: seq<nat>, more: seq<nat>)
    requires ValidConfig(c) && Can(c, s, ChunkStep(i, Land(k))) && s' == Do(c, s, ChunkStep(i, Land(k)))
    requires Holds(c, s.target, base, parts) && s.session.value.ph[i].landed == parts[i]
    requires more == parts[i := parts[i] + k] && PartsFit(c.source, c.tiles, more)
    ensures Holds(c, s'.target, base, more)
  {
    var from := c.tiles[i].off + parts[i];
    LandTarget(c, s, s', i, k, from);
    ConfigApart(c);
    WrittenHolds(c, s.target, s'.target, base, parts, more, i, from, k);
  }

  lemma LandKeepsParts(c: Config, s: State, s': State, i: nat, k: nat, base: seq<byte>, parts: seq<nat>,
                       more: seq<nat>)
    requires ValidConfig(c) && Can(c, s, ChunkStep(i, Land(k))) && s' == Do(c, s, ChunkStep(i, Land(k)))
    requires InParts(c, base, s, parts) && more == parts[i := parts[i] + k]
    ensures InParts(c, base, s', more)
  {
    MoreFits(c, s, i, k, base, parts);
    LandHolds(c, s, s', i, k, base, parts, more);
  }

  lemma ActKeepsParts(c: Config, s: State, i: nat, act: ChunkAct, base: seq<byte>, parts: seq<nat>)
    requires c.direction.Download? && Can(c, s, ChunkStep(i, act)) && !act.Land? && InParts(c, base, s, parts)
    ensures InParts(c, base, Do(c, s, ChunkStep(i, act)), parts)
  {
    ActShows(c, s.target, s.session.value, i, act, parts[i]);
  }

  lemma MainKeepsParts(c: Config, s: State, m: MainAct, base: seq<byte>, parts: seq<nat>)
    requires Can(c, s, MainStep(m)) && InParts(c, base, s, parts) && Control(c, s.session.value)
    ensures InParts(c, base, Do(c, s, MainStep(m)), parts)
  {
    if m.Spawn? || m.ReportSkipped? {
      assert s.session.value.ph[s.session.value.main.next].NotReached?;
    }
  }

  lemma StepKeepsParts(c: Config, s: State, step: Step, base: seq<byte>, parts: seq<nat>)
    requires ValidConfig(c) && c.direction.Download? && s.stale == {} && Can(c, s, step) && !step.Crash?
    requires InParts(c, base, s, parts) && Controlled(c, s)
    ensures InParts(c, base, Do(c, s, step), PartsAfter(parts, step))
  {
    match step
    case ChunkStep(i, act) =>
      if act.Land? {
        LandKeepsParts(c, s, Do(c, s, step), i, act.k, base, parts, PartsAfter(parts, step));
      } else {
        ActKeepsParts(c, s, i, act, base, parts);
      }
    case MainStep(m) => MainKeepsParts(c, s, m, base, parts);
    case _ =>
  }

  // ---- at most `batch` chunks are left half written

  predicate Partway(c: Config, i: nat, n: nat)
    requires i < |c.tiles|
  {
    0 < n < c.tiles[i].size
  }

  /** No error stands against a nil result. */
  predicate ErrFree(ss: Session) {
    ss.errs == [] && !(ss.main.Returned? && ss.main.error.Some?)
  }

  /** Chunks that are half written, or still may be, are among these few. */
  ghost predicate Covers(c: Config, ph: seq<Phase>, parts: seq<nat>, h: set<nat>)
    requires |ph| == |parts| == |c.tiles|
  {
    |h| <= c.batch && forall i | 0 <= i < |ph| && (ph[i].Sending? || Partway(c, i, parts[i])) :: i in h
  }

  ghost predicate FewPartway(c: Config, ss: Session, parts: seq<nat>) {
    |ss.ph| == |parts| == |c.tiles| && (ErrFree(ss) && ss.ctxDone ==> exists h :: Covers(c, ss.ph, parts, h))
  }

  function HoldingSet(ph: seq<Phase>): set<nat> {
    set i | 0 <= i < |ph| && Holding(ph[i])
  }

  lemma {:induction false} HoldingCount(ph: seq<Phase>)
    ensures |HoldingSet(ph)| == CountHolding(ph)
  {
    if ph == [] {
      assert HoldingSet(ph) == {};
    } else {
      var n := |ph| - 1;
      HoldingCount(ph[..n]);
      assert HoldingSet(ph) == HoldingSet(ph[..n]) + if Holding(ph[n]) then {n} else {};
    }
  }

  /** When the context is cancelled, they are those that hold a slot. */
  lemma SlotsCover(c: Config, ss: Session, parts: seq<nat>)
    requires Control(c, ss) && SlotsSound(c, ss) && AllShow(c, ss.ph, parts) && ss.errs == [] && !ss.ctxDone
    ensures Covers(c, ss.ph, parts, HoldingSet(ss.ph))
  {
    HoldingCount(ss.ph);
    forall i | 0 <= i < |ss.ph| && (ss.ph[i].Sending? || Partway(c, i, parts[i])) ensures i in HoldingSet(ss.ph) {
      assert Shows(c, i, ss.ph[i], parts[i]) && !ss.ph[i].Failed?;
    }
  }

  lemma ActKeepsFew(c: Config, target: Option<seq<byte>>, ss: Session, i: nat, act: ChunkAct, parts: seq<nat>)
    requires CanChunk(c, target, ss, i, act) && AllShow(c, ss.ph, parts) && FewPartway(c, ss, parts)
    ensures FewPartway(c, ChunkDo(c, ss, i, act), PartsAfter(parts, ChunkStep(i, act)))
  {
    var ss', parts' := ChunkDo(c, ss, i, act), PartsAfter(parts, ChunkStep(i, act));
    if ErrFree(ss') && ss'.ctxDone {
      var h :| Covers(c, ss.ph, parts, h);
      forall j | 0 <= j < |ss'.ph| && (ss'.ph[j].Sending? || Partway(c, j, parts'[j])) ensures j in h {
        assert j != i ==> ss'.ph[j] == ss.ph[j] && parts'[j] == parts[j];
      }
      assert Covers(c, ss'.ph, parts', h);
    }
  }

  lemma MainKeepsFew(c: Config, target: Option<seq<byte>>, ss: Session, m: MainAct, parts: seq<nat>)
    requires CanMain(c, target, ss, m) && Control(c, ss) && SlotsSound(c, ss) && AllShow(c, ss.ph, parts)
    requires FewPartway(c, ss, parts)
    ensures FewPartway(c, MainDo(c, ss, m), parts)
  {
    var ss' := MainDo(c, ss, m);
    if ErrFree(ss') && ss'.ctxDone {
      if ss.ctxDone {
        var h :| Covers(c, ss.ph, parts, h);
        assert Covers(c, ss'.ph, parts, h);
      } else {
        SlotsCover(c, ss, parts);
        assert Covers(c, ss'.ph, parts, HoldingSet(ss.ph));
      }
    }
  }

  lemma StepKeepsFew(c: Config, s: State, step: Step, base: seq<byte>, parts: seq<nat>)
    requires Can(c, s, step) && !step.Crash? && InParts(c, base, s, parts) && Controlled(c, s)
    requires SlotsSound(c, s.session.value) && FewPartway(c, s.session.value, parts)
    ensures FewPartway(c, Do(c, s, step).session.value, PartsAfter(parts, step))
  {
    var ss := s.session.value;
    match step
    case ChunkStep(i, act) => ActKeepsFew(c, s.target, ss, i, act, parts);
    case MainStep(m) => MainKeepsFew(c, s.target, ss, m, parts);
    case CancelParent =>
      if ErrFree(ss) && !ss.ctxDone {
        SlotsCover(c, ss, parts);
      }
    case _ =>
  }

  // ---- whatever a successful download leaves is such a copy

  ghost function PartwaySet(c: Config, parts: seq<nat>): set<nat>
    requires |parts| == |c.tiles|
  {
    set i | 0 <= i < |parts| && Partway(c, i, parts[i])
  }

  /** What a run can have copied at the end: nothing of what was completed before, and few half chunks. */
  ghost predicate CanLand(c: Config, loaded: set<int>, parts: seq<nat>) {
    && PartsFit(c.source, c.tiles, parts)
    && (forall i | 0 <= i < |c.tiles| && c.tiles[i].off in loaded :: parts[i] == 0)
    && (forall i | 0 <= i < |c.tiles| && Partway(c, i, parts[i]) :: i in c.mayFail)
    && |PartwaySet(c, parts)| <= c.batch
  }

  ghost predicate Landing(c: Config, s: State, loaded: set<int>, base: seq<byte>, parts: seq<nat>) {
    && Kept(c, s, loaded) && LoadedSkipped(c, loaded, s) && SlotsSound(c, s.session.value)
    && InParts(c, base, s, parts) && FewPartway(c, s.session.value, parts)
  }

  lemma StepKeepsLanding(c: Config, s: State, step: Step, loaded: set<int>, base: seq<byte>, parts: seq<nat>)
    requires ValidConfig(c) && c.direction.Download? && Can(c, s, step) && !step.Crash?
    requires Landing(c, s, loaded, base, parts)
    ensures Landing(c, Do(c, s, step), loaded, base, PartsAfter(parts, step))
  {
    StepKeepsKept(c, s, step, loaded);
    StepKeepsLoadedSkipped(c, loaded, s, step);
    StepKeepsSlots(c, s, step);
    StepKeepsParts(c, s, step, base, parts);
    StepKeepsFew(c, s, step, base, parts);
  }

  lemma {:induction false} RunKeepsLanding(c: Config, s: State, steps: seq<Step>, s': State, loaded: set<int>,
                                           base: seq<byte>, parts: seq<nat>) returns (parts': seq<nat>)
    requires ValidConfig(c) && c.direction.Download? && OneProcess(c, s, steps, s')
    requires Landing(c, s, loaded, base, parts)
    ensures Landing(c, s', loaded, base, parts')
    decreases |steps|
  {
    if steps == [] {
      parts' := parts;
    } else {
      StepKeepsLanding(c, s, steps[0], loaded, base, parts);
      parts' := RunKeepsLanding(c, Do(c, s, steps[0]), steps[1..], s', loaded, base, PartsAfter(parts, steps[0]));
    }
  }

  lemma BeginsLanding(c: Config, s0: State)
    requires ValidConfig(c) && c.direction.Download? && Initial(c, s0) && Can(c, s0, Begin)
    ensures var s := Do(c, s0, Begin);
            Landing(c, s, s.session.value.loaded, Content(s.target), seq(|c.tiles|, _ => 0))
  {
    var s, none := Do(c, s0, Begin), seq(|c.tiles|, _ => 0);
    BeginIsKept(c, s0);
    StepKeepsSlots(c, s0, Begin);
    ConfigFacts(c);
    NoParts(c.source, c.tiles, none, s.target.value, |c.tiles|);
  }

  lemma ConcludedLands(c: Config, s: State, loaded: set<int>, base: seq<byte>, parts: seq<nat>)
    requires Landing(c, s, loaded, base, parts) && s.session.value.main.Concluded? && ErrFree(s.session.value)
    requires s.session.value.ctxDone
    ensures CanLand(c, loaded, parts)
  {
    var ss := s.session.value;
    var h :| Covers(c, ss.ph, parts, h);
    forall i | 0 <= i < |c.tiles| ensures Shows(c, i, ss.ph[i], parts[i]) && Finished(ss.ph[i]) {
    }
    SubsetSize(PartwaySet(c, parts), h);
  }

  lemma SuccessLands(c: Config, s0: State, steps: seq<Step>, s': State) returns (parts: seq<nat>)
    requires ValidConfig(c) && c.direction.Download? && Initial(c, s0) && Can(c, s0, Begin)
    requires OneProcess(c, Do(c, s0, Begin), steps, s') && s'.session.Some? && s'.session.value.main.Concluded?
    ensures var s := Do(c, s0, Begin);
            && CanLand(c, s.session.value.loaded, parts)
            && s'.target == Some(CopyParts(c.source, c.tiles, parts, Content(s.target), |c.tiles|))
  {
    var s := Do(c, s0, Begin);
    var loaded, base := s.session.value.loaded, Content(s.target);
    BeginsLanding(c, s0);
    parts := RunKeepsLanding(c, s, steps, s', loaded, base, seq(|c.tiles|, _ => 0));
    RunKeepsNilClean(c, s, steps, s');
    ConcludedLands(c, s', loaded, base, parts);
  }
}
