/**
 What no schedule, no crash and no retry can break: an offset recorded as completed, in memory or on disk,
 has its bytes in the target; and when a transfer reports success the target is the source.
 */
module TransferSafety {
  import opened Prelude
  import opened Chunks
  import opened Files
  import opened Transfer

  /** The first `n` bytes of chunk i are in place. */
  ghost predicate InPlace(c: Config, target: Option<seq<byte>>, i: nat, n: nat)
    requires i < |c.tiles|
  {
    n <= c.tiles[i].size && Right(c.source, Content(target), c.tiles[i].off, c.tiles[i].off + n)
  }

  ghost predicate Sound(c: Config, target: Option<seq<byte>>, completed: set<int>) {
    forall i | 0 <= i < |c.tiles| && c.tiles[i].off in completed :: InPlace(c, target, i, c.tiles[i].size)
  }

  ghost predicate PhaseSound(c: Config, target: Option<seq<byte>>, i: nat, p: Phase)
    requires i < |c.tiles|
  {
    match p
    case Sending(_, landed) => InPlace(c, target, i, landed)
    case Acked | Reported | Saving | Succeeded | Skipped => InPlace(c, target, i, c.tiles[i].size)
    case _ => true
  }

  /** Write before record: the files agree with the books. */
  ghost predicate FilesSound(c: Config, s: State) {
    && (s.disk.Some? ==> Sound(c, s.target, s.disk.value))
    && (c.direction.Download? ==> s.stale == {})
    && (s.session.Some? ==> SessionSound(c, s.target, s.disk, s.session.value))
  }

  ghost predicate SessionSound(c: Config, target: Option<seq<byte>>, disk: Option<set<int>>, ss: Session) {
    && |ss.ph| == |c.tiles|
    && (forall i | 0 <= i < |ss.ph| :: PhaseSound(c, target, i, ss.ph[i]))
    && (ss.mem.Some? ==> Sound(c, target, ss.mem.value.completed))
    && (ss.mem.Some? && disk.Some? ==> disk.value <= ss.mem.value.completed)
    && (ss.mem.None? ==> disk.None?)
    && (ss.mem.Some? && disk.None? ==> ss.main.Concluded?)
    && (ss.main.Reporting? && ss.main.next < |c.tiles| ==> IsCompleted(ss.mem, c.tiles[ss.main.next].off))
  }

  /** A state in which no process runs; the state file may be any sound one. */
  ghost predicate Initial(c: Config, s: State) {
    s.session.None? && FilesSound(c, s)
  }

  lemma ConfigFacts(c: Config)
    requires ValidConfig(c)
    ensures Partition(c.tiles, 0, |c.source|, c.chunkSize)
    ensures forall i | 0 <= i < |c.tiles| :: c.tiles[i].End() <= |c.source| && c.tiles[i].size > 0
    ensures forall i, j | 0 <= i < |c.tiles| && 0 <= j < |c.tiles| && i != j :: c.tiles[i].off != c.tiles[j].off
  {
    TilesPartition(0, |c.source|, c.chunkSize);
    forall i | 0 <= i < |c.tiles| ensures c.tiles[i].End() <= |c.source| {
      PartitionEnds(c.tiles, 0, |c.source|, c.chunkSize, i);
    }
    forall i, j | 0 <= i < |c.tiles| && 0 <= j < |c.tiles| && i != j
      ensures c.tiles[i].off != c.tiles[j].off
    {
      if i < j {
        PartitionOrdered(c.tiles, 0, |c.source|, c.chunkSize, i, j);
      } else {
        PartitionOrdered(c.tiles, 0, |c.source|, c.chunkSize, j, i);
      }
    }
  }

  /** Whatever was in place stays in place. */
  ghost predicate Improves(c: Config, before: Option<seq<byte>>, after: Option<seq<byte>>) {
    forall i: nat, n: nat {:trigger InPlace(c, after, i, n)} ::
      i < |c.tiles| && InPlace(c, before, i, n) ==> InPlace(c, after, i, n)
  }

  /** Landing a piece of any chunk keeps every chunk's bytes in place, however far they had got. */
  lemma WrittenImproves(c: Config, target: Option<seq<byte>>, a: nat, b: nat)
    requires a <= b <= |c.source|
    ensures Improves(c, target, Written(c, target, a, b))
  {
    forall i: nat, n: nat | i < |c.tiles| && InPlace(c, target, i, n)
      ensures InPlace(c, Written(c, target, a, b), i, n)
    {
      WriteKeepsRight(c.source, Content(target), a, b, c.tiles[i].off, c.tiles[i].off + n);
    }
  }

  lemma WrittenExtends(c: Config, target: Option<seq<byte>>, i: nat, n: nat, k: nat)
    requires i < |c.tiles| && InPlace(c, target, i, n)
    requires n + k <= c.tiles[i].size && c.tiles[i].End() <= |c.source|
    ensures InPlace(c, Written(c, target, c.tiles[i].off + n, c.tiles[i].off + n + k), i, n + k)
  {
    var off := c.tiles[i].off;
    WriteExtendsRight(c.source, Content(target), off, off + n, off + n + k);
  }

  lemma ImproveKeepsSession(c: Config, before: Option<seq<byte>>, after: Option<seq<byte>>, disk: Option<set<int>>,
                        ss: Session)
    requires SessionSound(c, before, disk, ss) && Improves(c, before, after)
    ensures SessionSound(c, after, disk, ss)
  {
    forall i | 0 <= i < |ss.ph| ensures PhaseSound(c, after, i, ss.ph[i]) {
      assert PhaseSound(c, before, i, ss.ph[i]);
    }
  }

  /** A better target, and perhaps one goroutine that has got further. */
  lemma ImproveKeepsFiles(c: Config, s: State, s': State, i: nat, p: Phase)
    requires FilesSound(c, s) && Improves(c, s.target, s'.target)
    requires s'.disk == s.disk && s'.stale == s.stale
    requires s'.session == s.session ||
             (s.session.Some? && s'.session.Some? && i < |s.session.value.ph| && i < |c.tiles| &&
              s'.session.value == s.session.value.(ph := s.session.value.ph[i := p]) &&
              PhaseSound(c, s'.target, i, p))
    ensures FilesSound(c, s')
  {
    if s.session.Some? {
      ImproveKeepsSession(c, s.target, s'.target, s.disk, s.session.value);
    }
  }

  lemma LandRange(c: Config, s: State, i: nat, k: nat)
    requires ValidConfig(c) && Can(c, s, ChunkStep(i, Land(k)))
    ensures c.tiles[i].off + s.session.value.ph[i].landed + k <= c.tiles[i].End() <= |c.source|
  {
    ConfigFacts(c);
  }

  lemma PhaseAt(c: Config, s: State, i: nat)
    requires FilesSound(c, s) && s.session.Some? && i < |c.tiles|
    ensures PhaseSound(c, s.target, i, s.session.value.ph[i])
  {
  }

  lemma OtherActSound(c: Config, target: Option<seq<byte>>, ss: Session, i: nat, act: ChunkAct)
    requires CanChunk(c, target, ss, i, act) && !act.Land?
    requires PhaseSound(c, target, i, ss.ph[i]) && c.tiles[i].End() <= |c.source|
    ensures PhaseSound(c, target, i, NextPhase(c, ss.mem, i, ss.ph[i], act))
  {
  }

  lemma ChunkMemSound(c: Config, s: State, i: nat, act: ChunkAct)
    requires ValidConfig(c) && FilesSound(c, s) && Can(c, s, ChunkStep(i, act))
    requires act.Record? && s.session.value.mem.Some?
    ensures Sound(c, s.target, NextMem(c, s.session.value.mem, i, act).value.completed)
  {
    ConfigFacts(c);
    var ss := s.session.value;
    assert PhaseSound(c, s.target, i, ss.ph[i]);
    var m, m' := ss.mem.value.completed, NextMem(c, ss.mem, i, act).value.completed;
    forall j | 0 <= j < |c.tiles| && c.tiles[j].off in m'
      ensures InPlace(c, s.target, j, c.tiles[j].size)
    {
      assert j == i || c.tiles[j].off in m;
    }
  }

  lemma LandIs(c: Config, s: State, i: nat, k: nat)
    requires Can(c, s, ChunkStep(i, Land(k)))
    ensures var ss := s.session.value;
            var from := c.tiles[i].off + ss.ph[i].landed;
            Do(c, s, ChunkStep(i, Land(k))) ==
              s.(target := Written(c, s.target, from, from + k),
                 session := Some(ss.(ph := ss.ph[i := Sending(ss.ph[i].attempt, ss.ph[i].landed + k)])))
  {
  }

  /** Where a landing writes. */
  lemma LandTarget(c: Config, s: State, s': State, i: nat, k: nat, from: nat)
    requires ValidConfig(c) && Can(c, s, ChunkStep(i, Land(k))) && s' == Do(c, s, ChunkStep(i, Land(k)))
    requires from == c.tiles[i].off + s.session.value.ph[i].landed
    ensures s'.target == Written(c, s.target, from, from + k) && from + k <= c.tiles[i].End() <= |c.source|
  {
    LandIs(c, s, i, k);
    LandRange(c, s, i, k);
  }

  lemma ChunkKeepsFiles(c: Config, s: State, i: nat, act: ChunkAct)
    requires ValidConfig(c) && FilesSound(c, s) && Can(c, s, ChunkStep(i, act)) && !act.Land?
    ensures FilesSound(c, Do(c, s, ChunkStep(i, act)))
  {
    ConfigFacts(c);
    OtherActSound(c, s.target, s.session.value, i, act);
    if act.Record? && s.session.value.mem.Some? {
      ChunkMemSound(c, s, i, act);
    }
  }

  lemma MainKeepsFiles(c: Config, s: State, m: MainAct)
    requires FilesSound(c, s) && Can(c, s, MainStep(m))
    ensures FilesSound(c, Do(c, s, MainStep(m)))
  {
    var ss := s.session.value;
    if m.ReportSkipped? {
      assert IsCompleted(ss.mem, c.tiles[ss.main.next].off);
    }
  }

  lemma PieceImproves(c: Config, target: Option<seq<byte>>, after: Option<seq<byte>>, i: nat, n: nat, k: nat)
    requires i < |c.tiles| && InPlace(c, target, i, n)
    requires n + k <= c.tiles[i].size && c.tiles[i].End() <= |c.source|
    requires after == Written(c, target, c.tiles[i].off + n, c.tiles[i].off + n + k)
    ensures Improves(c, target, after) && InPlace(c, after, i, n + k)
  {
    WrittenImproves(c, target, c.tiles[i].off + n, c.tiles[i].off + n + k);
    WrittenExtends(c, target, i, n, k);
  }

  /** What a landing does to the state, apart from the bytes. */
  lemma LandShape(c: Config, s: State, s': State, i: nat, k: nat)
    requires ValidConfig(c) && FilesSound(c, s) && Can(c, s, ChunkStep(i, Land(k)))
    requires s' == Do(c, s, ChunkStep(i, Land(k)))
    ensures var ss := s.session.value;
            && InPlace(c, s.target, i, ss.ph[i].landed) && s'.disk == s.disk && s'.stale == s.stale
            && s'.session == Some(ss.(ph := ss.ph[i := Sending(ss.ph[i].attempt, ss.ph[i].landed + k)]))
  {
    PhaseAt(c, s, i);
    LandIs(c, s, i, k);
  }

  lemma LandedTarget(c: Config, s: State, s': State, i: nat, k: nat)
    requires ValidConfig(c) && Can(c, s, ChunkStep(i, Land(k))) && s' == Do(c, s, ChunkStep(i, Land(k)))
    requires InPlace(c, s.target, i, s.session.value.ph[i].landed)
    ensures Improves(c, s.target, s'.target) && InPlace(c, s'.target, i, s.session.value.ph[i].landed + k)
  {
    LandRange(c, s, i, k);
    LandIs(c, s, i, k);
    PieceImproves(c, s.target, s'.target, i, s.session.value.ph[i].landed, k);
  }

  lemma LandKeepsFiles(c: Config, s: State, s': State, i: nat, k: nat)
    requires ValidConfig(c) && FilesSound(c, s) && Can(c, s, ChunkStep(i, Land(k)))
    requires s' == Do(c, s, ChunkStep(i, Land(k)))
    ensures FilesSound(c, s')
  {
    var p := s.session.value.ph[i];
    LandShape(c, s, s', i, k);
    LandedTarget(c, s, s', i, k);
    ImproveKeepsFiles(c, s, s', i, Sending(p.attempt, p.landed + k));
  }

  lemma LandStaleKeepsFiles(c: Config, s: State, i: nat, a: nat, b: nat)
    requires ValidConfig(c) && FilesSound(c, s) && Can(c, s, LandStale(i, a, b))
    ensures FilesSound(c, Do(c, s, LandStale(i, a, b)))
  {
    assert c.tiles[i].End() <= |c.source| by { ConfigFacts(c); }
    WrittenImproves(c, s.target, a, b);
    ImproveKeepsFiles(c, s, Do(c, s, LandStale(i, a, b)), i, NotReached);
  }

  /** Every step keeps the files in agreement with the books. */
  lemma StepKeepsFiles(c: Config, s: State, step: Step)
    requires ValidConfig(c) && FilesSound(c, s) && Can(c, s, step)
    ensures FilesSound(c, Do(c, s, step))
  {
    match step
    case LandStale(i, a, b) => LandStaleKeepsFiles(c, s, i, a, b);
    case MainStep(m) => MainKeepsFiles(c, s, m);
    case ChunkStep(i, act) =>
      if act.Land? {
        LandKeepsFiles(c, s, Do(c, s, step), i, act.k);
      } else {
        ChunkKeepsFiles(c, s, i, act);
      }
    case _ => OtherStepKeepsFiles(c, s, step);
  }

  lemma OtherStepKeepsFiles(c: Config, s: State, step: Step)
    requires FilesSound(c, s) && Can(c, s, step)
    requires !step.LandStale? && !step.MainStep? && !step.ChunkStep?
    ensures FilesSound(c, Do(c, s, step))
  {
  }
}
