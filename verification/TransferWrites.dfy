/** What any observer of the target can see at any time, and the writes that outlive their process. */
module TransferWrites {
  import opened Prelude
  import opened Files
  import opened PartialCopy
  import opened Transfer
  import opened TransferSafety

  /** The file an upload writes to: one that is there, or a new one of the source's size in zeros. */
  function Created(c: Config, target: Option<seq<byte>>): seq<byte> {
    if target.Some? then target.value else Zeros(|c.source|)
  }

  lemma WrittenKeepsPartial(c: Config, base: seq<byte>, target: Option<seq<byte>>, a: nat, b: nat)
    requires target.Some? && Partial(c.source, base, target.value) && a <= b <= |c.source|
    ensures Written(c, target, a, b).Some? && Partial(c.source, base, Written(c, target, a, b).value)
  {
    WriteKeepsPartial(c.source, base, target.value, a, b);
  }

  /** Not there yet, or the file with some of the source's bytes in place. */
  ghost predicate UploadPartial(c: Config, base: seq<byte>, isNew: bool, s: State) {
    if s.target.None? then isNew && s.session.None? && base == Zeros(|c.source|)
    else Partial(c.source, base, s.target.value)
  }

  lemma LateKeepsUpload(c: Config, s: State, s': State, i: nat, a: nat, b: nat, base: seq<byte>)
    requires ValidConfig(c) && Can(c, s, LandStale(i, a, b)) && s' == Do(c, s, LandStale(i, a, b))
    requires Partial(c.source, base, s.target.value)
    ensures s'.target.Some? && Partial(c.source, base, s'.target.value)
  {
    assert c.tiles[i].End() <= |c.source| by { ConfigFacts(c); }
    WrittenKeepsPartial(c, base, s.target, a, b);
  }

  lemma LandKeepsUpload(c: Config, s: State, s': State, i: nat, k: nat, base: seq<byte>)
    requires ValidConfig(c) && Can(c, s, ChunkStep(i, Land(k))) && s' == Do(c, s, ChunkStep(i, Land(k)))
    requires Partial(c.source, base, s.target.value)
    ensures s'.target.Some? && Partial(c.source, base, s'.target.value)
  {
    var from := c.tiles[i].off + s.session.value.ph[i].landed;
    LandTarget(c, s, s', i, k, from);
    WrittenKeepsPartial(c, base, s.target, from, from + k);
  }

  lemma StepKeepsUpload(c: Config, s: State, step: Step, base: seq<byte>, isNew: bool)
    requires ValidConfig(c) && c.direction.Upload? && UploadPartial(c, base, isNew, s) && Can(c, s, step)
    requires !step.CreateFails? && (s.target.None? ==> s.disk.None?)
    ensures UploadPartial(c, base, isNew, Do(c, s, step))
  {
    match step
    case LandStale(i, a, b) => LateKeepsUpload(c, s, Do(c, s, step), i, a, b, base);
    case ChunkStep(i, act) =>
      if act.Land? {
        LandKeepsUpload(c, s, Do(c, s, step), i, act.k, base);
      }
    case _ =>
  }

  lemma {:induction false} PathKeepsUpload(c: Config, s: State, steps: seq<Step>, s': State, base: seq<byte>,
                                           isNew: bool)
    requires ValidConfig(c) && c.direction.Upload? && UploadPartial(c, base, isNew, s) && Path(c, s, steps, s')
    requires FilesSound(c, s) && (s.target.None? ==> s.disk.None?)
    requires forall step | step in steps :: !step.CreateFails?
    ensures UploadPartial(c, base, isNew, s')
    decreases |steps|
  {
    if steps != [] {
      assert !steps[0].CreateFails?;
      StepKeepsUpload(c, s, steps[0], base, isNew);
      StepKeepsFiles(c, s, steps[0]);
      PathKeepsUpload(c, Do(c, s, steps[0]), steps[1..], s', base, isNew);
    }
  }

  /**
   Over every run of an upload, with any crashes and late writes: the target is at every moment the old file, or a new
   one of the source's size in zeros, with some of the source's bytes in their places.
   */
  lemma UploadShowsSource(c: Config, s0: State, steps: seq<Step>, s: State)
    requires ValidConfig(c) && c.direction.Upload? && Initial(c, s0) && (s0.target.None? ==> s0.disk.None?)
    requires Path(c, s0, steps, s) && forall step | step in steps :: !step.CreateFails?
    ensures s.target.None? ==> s0.target.None? && s.session.None?
    ensures s.target.Some? ==> Partial(c.source, Created(c, s0.target), s.target.value)
    ensures s.target.Some? && s0.target.None? ==> |s.target.value| == |c.source|
  {
    var base := Created(c, s0.target);
    if s0.target.Some? {
      NothingWritten(c.source, base);
    }
    PathKeepsUpload(c, s0, steps, s, base, s0.target.None?);
  }

  lemma NothingWritten(source: seq<byte>, base: seq<byte>)
    ensures Partial(source, base, base)
  {
  }

  /**
   When a process can begin, and with what: a resumed download needs its target; an upload creates one if there is none
   and a fresh download truncates; what the state file lists is loaded, and nothing is pending.
   */
  lemma BeginIs(c: Config, s: State)
    ensures Can(c, s, Begin) <==>
              s.session.None? && !(c.direction.Download? && s.disk.Some? && s.target.None?)
    ensures Can(c, s, Begin) ==>
              var s' := Do(c, s, Begin);
              var ss := s'.session.value;
              && s'.disk == s.disk && s'.stale == s.stale
              && (s.disk.Some? ==> s'.target == s.target && ss.mem == Some(Memory(s.disk.value, [])))
              && (s.disk.None? ==> ss.mem == None && ss.loaded == {})
              && (s.disk.None? && c.direction.Download? ==> s'.target == Some([]))
              && (s.disk.None? && c.direction.Upload? && s.target.Some? ==> s'.target == s.target)
              && (s.disk.None? && c.direction.Upload? && s.target.None? ==>
                    s'.target.Some? && |s'.target.value| == |c.source| && forall b | b in s'.target.value :: b == 0)
  {
  }

  /** A create whose sizing fails leaves an empty file, and the next attempt takes it as it is. */
  lemma FailedSizingStays(c: Config, s: State)
    ensures Can(c, s, CreateFails) <==> c.direction.Upload? && s.session.None? && s.disk.None? && s.target.None?
    ensures Can(c, s, CreateFails) ==>
            var s1 := Do(c, s, CreateFails);
            s1.target == Some([]) && Can(c, s1, Begin) && Do(c, s1, Begin).target == Some([])
  {
  }

  // ---- writes that outlive their process

  /** The chunk's request is under way. */
  predicate UnderWay(c: Config, s: State, i: nat) {
    c.direction.Upload? && s.session.Some? && i < |s.session.value.ph| && s.session.value.ph[i].Sending?
  }

  /** Exactly the requests of an upload that are given up, by their attempt or with the process, are left behind. */
  lemma LeftBehindIff(c: Config, s: State, step: Step, i: nat)
    requires Can(c, s, step) && i !in s.stale
    ensures i in Do(c, s, step).stale <==>
              && UnderWay(c, s, i)
              && (step.Crash? || (step.ChunkStep? && step.i == i && (step.act.AttemptFails? || step.act.Hang?)))
  {
  }

  lemma LeftBehindUntil(c: Config, s: State, step: Step, i: nat)
    requires Can(c, s, step) && i in s.stale
    ensures i in Do(c, s, step).stale <==> step != DropStale(i)
  {
  }

  /** And they can still land, in part or as a whole, after the process is gone, and again later. */
  lemma LeftBehindLands(c: Config, s: State, i: nat, a: nat, b: nat)
    requires ValidConfig(c) && UnderWay(c, s, i) && s.target.Some? && i < |c.tiles|
    requires c.tiles[i].off <= a <= b <= c.tiles[i].End()
    ensures b <= |c.source|
    ensures var s1 := Do(c, s, Crash);
            && Can(c, s1, LandStale(i, a, b)) && Do(c, s1, LandStale(i, a, b)).session.None?
            && Do(c, s1, LandStale(i, a, b)).target == Some(WriteAt(s.target.value, a, c.source[a..b]))
            && Can(c, Do(c, s1, LandStale(i, a, b)), LandStale(i, a, b))
  {
    ConfigFacts(c);
  }

  /** A download leaves nothing behind: once its process is gone, nothing happens until it begins again. */
  lemma DownloadStaysDead(c: Config, s: State, step: Step)
    requires c.direction.Download? && FilesSound(c, s) && s.session.None? && Can(c, s, step)
    ensures step.Begin?
  {
  }
}
