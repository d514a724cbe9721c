/** Runs of one process, and what a single resumed run leaves in the target. */
module TransferProcess {
  import opened Files
  import opened Transfer
  import opened TransferSafety
  import opened TransferResults

  /** A run of one process: anything may happen but its death. */
  ghost predicate OneProcess(c: Config, s: State, steps: seq<Step>, s': State) {
    Path(c, s, steps, s') && forall step | step in steps :: !step.Crash?
  }

  lemma {:induction false} JoinRuns(c: Config, s: State, xs: seq<Step>, s1: State, ys: seq<Step>, s2: State)
    requires OneProcess(c, s, xs, s1) && OneProcess(c, s1, ys, s2)
    ensures OneProcess(c, s, xs + ys, s2)
    decreases |xs|
  {
    if xs == [] {
      assert xs + ys == ys;
    } else {
      assert (xs + ys)[1..] == xs[1..] + ys;
      JoinRuns(c, Do(c, s, xs[0]), xs[1..], s1, ys, s2);
    }
  }

  lemma RunStep(c: Config, s: State, step: Step)
    requires Can(c, s, step) && !step.Crash?
    ensures OneProcess(c, s, [step], Do(c, s, step))
  {
    assert [step][1..] == [];
    assert Path(c, Do(c, s, step), [], Do(c, s, step));
  }

  /** A run of one process whose parent context is not cancelled. */
  ghost predicate LiveRun(c: Config, s: State, steps: seq<Step>, s': State) {
    OneProcess(c, s, steps, s') && forall step | step in steps :: !step.CancelParent?
  }

  lemma {:induction false} LiveStays(c: Config, s: State, steps: seq<Step>, s': State)
    requires s.session.Some? && !s.session.value.parentDone && LiveRun(c, s, steps, s')
    ensures s'.session.Some? && !s'.session.value.parentDone
    decreases |steps|
  {
    if steps != [] {
      LiveStays(c, Do(c, s, steps[0]), steps[1..], s');
    }
  }

  /** Nothing in a process but its beginning truncates. */
  lemma {:induction false} ProcessKeepsTail(c: Config, s: State, steps: seq<Step>, s': State)
    requires ValidConfig(c) && s.session.Some? && OneProcess(c, s, steps, s')
    ensures s'.session.Some?
    ensures Tail(Content(s'.target), |c.source|) == Tail(Content(s.target), |c.source|)
    decreases |steps|
  {
    if steps != [] {
      StepKeepsTail(c, s, steps[0]);
      ProcessKeepsTail(c, Do(c, s, steps[0]), steps[1..], s');
    }
  }

  /**
   One session that resumes from a state file, under a live parent: nil leaves the source and then what the target
   held beyond it, in either direction. So the target equals the source exactly when it was no longer.
   */
  lemma ResumedResult(c: Config, s0: State, steps: seq<Step>, s: State)
    requires ValidConfig(c) && Initial(c, s0) && s0.disk.Some? && Can(c, s0, Begin)
    requires OneProcess(c, Do(c, s0, Begin), steps, s)
    requires s.session.Some? && Nil(s.session.value.main) && !s.session.value.parentDone
    ensures var old0 := Content(s0.target);
            && Content(s.target) == c.source + Tail(old0, |c.source|)
            && (Content(s.target) == c.source <==> |old0| <= |c.source|)
  {
    assert ([Begin] + steps)[1..] == steps;
    NilMeansCopied(c, s0, [Begin] + steps, s);
    ProcessKeepsTail(c, Do(c, s0, Begin), steps, s);
  }
}
