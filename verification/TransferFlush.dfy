/** What the state file holds: who writes it, and that nothing recorded is missing from it once the flush is through. */
module TransferFlush {
  import opened Prelude
  import opened Transfer
  import opened TransferSafety
  import opened TransferResults

  /** The state file changes only in these three ways, and to nothing but what is in memory, or away. */
  lemma WhoWritesDisk(c: Config, s: State, step: Step)
    requires Can(c, s, step) && Do(c, s, step).disk != s.disk
    ensures s.session.Some? && s.session.value.mem.Some?
    ensures var mem := s.session.value.mem.value;
            || (step == MainStep(Conclude(true)) && Do(c, s, step).disk == None)
            || (step == MainStep(Finish(true)) && Do(c, s, step).disk == Some(mem.completed))
            || (step.ChunkStep? && step.act.SaveOk? && Do(c, s, step).disk == Some(mem.completed))
  {
  }

  /** With nothing pending the state file is up to date. */
  ghost predicate UpToDate(s: State) {
    s.session.Some? && s.session.value.mem.Some? && s.disk.Some? && s.session.value.mem.value.pending == [] ==>
      s.disk.value == s.session.value.mem.value.completed
  }

  lemma StepKeepsUpToDate(c: Config, s: State, step: Step)
    requires Can(c, s, step) && UpToDate(s)
    ensures UpToDate(Do(c, s, step))
  {
  }

  /** After a nil return everything recorded is on disk, unless a save failed. */
  ghost predicate NilSaved(s: State) {
    && s.session.Some? && s.session.value.main == Returned(None)
    && s.session.value.mem.Some? && !s.session.value.saveFailed ==>
      s.disk == Some(s.session.value.mem.value.completed)
  }

  lemma FinishSaves(c: Config, s: State)
    requires FilesSound(c, s) && UpToDate(s) && Can(c, s, MainStep(Finish(true))) && s.session.value.mem.Some?
    ensures Do(c, s, MainStep(Finish(true))).disk == Some(s.session.value.mem.value.completed)
  {
  }

  lemma ChunkKeepsNilSaved(c: Config, s: State, i: nat, act: ChunkAct)
    requires Controlled(c, s) && NilSaved(s) && Can(c, s, ChunkStep(i, act))
    ensures NilSaved(Do(c, s, ChunkStep(i, act)))
  {
    if s.session.value.main == Returned(None) {
      assert Finished(s.session.value.ph[i]);
    }
  }

  lemma MainKeepsNilSaved(c: Config, s: State, m: MainAct)
    requires FilesSound(c, s) && UpToDate(s) && NilSaved(s) && Can(c, s, MainStep(m))
    ensures NilSaved(Do(c, s, MainStep(m)))
  {
    if m == Finish(true) && s.session.value.mem.Some? {
      FinishSaves(c, s);
    }
  }

  lemma StepKeepsNilSaved(c: Config, s: State, step: Step)
    requires ValidConfig(c) && FilesSound(c, s) && Controlled(c, s) && UpToDate(s) && NilSaved(s) && Can(c, s, step)
    ensures NilSaved(Do(c, s, step))
  {
    match step
    case ChunkStep(i, act) => ChunkKeepsNilSaved(c, s, i, act);
    case MainStep(m) => MainKeepsNilSaved(c, s, m);
    case _ =>
  }

  lemma {:induction false} PathKeepsSaved(c: Config, s: State, steps: seq<Step>, s': State)
    requires ValidConfig(c) && FilesSound(c, s) && Controlled(c, s) && UpToDate(s) && NilSaved(s)
    requires Path(c, s, steps, s')
    ensures FilesSound(c, s') && UpToDate(s') && NilSaved(s')
    decreases |steps|
  {
    if steps != [] {
      StepKeepsFiles(c, s, steps[0]);
      StepKeepsControl(c, s, steps[0]);
      StepKeepsUpToDate(c, s, steps[0]);
      StepKeepsNilSaved(c, s, steps[0]);
      PathKeepsSaved(c, Do(c, s, steps[0]), steps[1..], s');
    }
  }

  /**
   Over every run, whatever earlier saves did: when processChunks has waited for its goroutines and its flush goes
   through, the state file lists exactly what was recorded, whether it then returns nil or an error. A flush that fails
   leaves the file as it was.
   */
  lemma FlushSavesAll(c: Config, s0: State, steps: seq<Step>, s: State)
    requires ValidConfig(c) && Initial(c, s0) && Path(c, s0, steps, s)
    requires s.session.Some? && s.session.value.main.Finishing? && s.session.value.mem.Some?
    ensures var saved := MainStep(Finish(true));
            && Can(c, s, saved) && Do(c, s, saved).session.value.main.Returned?
            && Do(c, s, saved).disk == Some(s.session.value.mem.value.completed)
            && Do(c, s, saved).session.value.mem == s.session.value.mem
    ensures Do(c, s, MainStep(Finish(false))).disk == s.disk
  {
    PathKeepsSaved(c, s0, steps, s);
    FinishSaves(c, s);
  }

  /** So nil without a failed save means that nothing recorded is missing, and a restart finds exactly that. */
  lemma NilMeansSaved(c: Config, s0: State, steps: seq<Step>, s: State)
    requires ValidConfig(c) && Initial(c, s0) && Path(c, s0, steps, s)
    requires s.session.Some? && s.session.value.main == Returned(None)
    requires s.session.value.mem.Some? && !s.session.value.saveFailed
    ensures s.disk == Some(s.session.value.mem.value.completed)
    ensures Do(c, s, Crash).disk == s.disk
    ensures s.target.Some? ==> Can(c, Do(c, s, Crash), Begin)
    ensures Can(c, Do(c, s, Crash), Begin) ==>
              Do(c, Do(c, s, Crash), Begin).session.value.loaded == s.session.value.mem.value.completed
  {
    PathKeepsSaved(c, s0, steps, s);
  }
}
