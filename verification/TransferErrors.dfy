/** Which error processChunks returns, what an error stops, and how much its channels hold. */
module TransferErrors {
  import opened Prelude
  import opened Transfer
  import opened TransferSafety
  import opened TransferResults
  import opened TransferStore
  import opened TransferProcess

  /** The errors that goroutines put into the channel in this run, in order. */
  function Pushed(c: Config, s: State, steps: seq<Step>): seq<ChunkError>
    decreases |steps|
  {
    if steps == [] || !Can(c, s, steps[0]) then []
    else PushedBy(s, steps[0]) + Pushed(c, Do(c, s, steps[0]), steps[1..])
  }

  function PushedBy(s: State, step: Step): seq<ChunkError> {
    if step.ChunkStep? && step.act.PushError? && s.session.Some? && step.i < |s.session.value.ph|
       && s.session.value.ph[step.i].Failing?
    then [s.session.value.ph[step.i].error] else []
  }

  /** What is in the channel, or what was taken from it, given all that went in. */
  ghost predicate Queue(s: State, log: seq<ChunkError>) {
    && s.session.Some?
    && var ss := s.session.value;
    if ss.main.Returned? && ss.main.error.Some? then log != [] && ss.main.error.value == log[0] else ss.errs == log
  }

  lemma StepKeepsQueue(c: Config, s: State, step: Step, log: seq<ChunkError>)
    requires Can(c, s, step) && !step.Crash? && Queue(s, log)
    ensures Queue(Do(c, s, step), log + PushedBy(s, step))
  {
  }

  lemma {:induction false} RunKeepsQueue(c: Config, s: State, steps: seq<Step>, s': State, log: seq<ChunkError>)
    requires OneProcess(c, s, steps, s') && Queue(s, log)
    ensures Queue(s', log + Pushed(c, s, steps))
    decreases |steps|
  {
    if steps != [] {
      StepKeepsQueue(c, s, steps[0], log);
      RunKeepsQueue(c, Do(c, s, steps[0]), steps[1..], s', log + PushedBy(s, steps[0]));
      assert log + PushedBy(s, steps[0]) + Pushed(c, Do(c, s, steps[0]), steps[1..]) == log + Pushed(c, s, steps);
    }
  }

  /** Returning nil took an empty error channel, and nobody is left to fill it. */
  ghost predicate NilClean(s: State) {
    s.session.Some? && Nil(s.session.value.main) ==> s.session.value.errs == [] && s.session.value.ctxDone
  }

  lemma StepKeepsNilClean(c: Config, s: State, step: Step)
    requires ValidConfig(c) && Controlled(c, s) && NilClean(s) && Can(c, s, step)
    ensures NilClean(Do(c, s, step))
  {
    if step.ChunkStep? && Nil(s.session.value.main) {
      assert Finished(s.session.value.ph[step.i]);
    }
  }

  lemma {:induction false} RunKeepsNilClean(c: Config, s: State, steps: seq<Step>, s': State)
    requires ValidConfig(c) && FilesSound(c, s) && Controlled(c, s) && NilClean(s) && OneProcess(c, s, steps, s')
    ensures NilClean(s')
    decreases |steps|
  {
    if steps != [] {
      StepKeepsFiles(c, s, steps[0]);
      StepKeepsControl(c, s, steps[0]);
      StepKeepsNilClean(c, s, steps[0]);
      RunKeepsNilClean(c, Do(c, s, steps[0]), steps[1..], s');
    }
  }

  /**
   Over every run of one process: the error returned is the first that any goroutine put into the channel, and nil is
   returned only if none did.
   */
  lemma FirstErrorReturned(c: Config, s0: State, steps: seq<Step>, s: State)
    requires ValidConfig(c) && Initial(c, s0) && Can(c, s0, Begin) && OneProcess(c, Do(c, s0, Begin), steps, s)
    requires s.session.Some? && s.session.value.main.Returned?
    ensures var pushed := Pushed(c, Do(c, s0, Begin), steps);
            s.session.value.main.error == if pushed == [] then None else Some(pushed[0])
  {
    RunKeepsQueue(c, Do(c, s0, Begin), steps, s, []);
    assert [] + Pushed(c, Do(c, s0, Begin), steps) == Pushed(c, Do(c, s0, Begin), steps);
    StepKeepsFiles(c, s0, Begin);
    StepKeepsControl(c, s0, Begin);
    RunKeepsNilClean(c, Do(c, s0, Begin), steps, s);
  }

  // ---- an error stops the dispatch

  /** An error waits in the channel, or processChunks has returned. */
  ghost predicate Halted(s: State) {
    s.session.Some? && (s.session.value.errs != [] || Ended(s.session.value.main))
  }

  predicate Unstarted(s: State, i: nat) {
    && s.session.Some? && i < |s.session.value.ph|
    && (s.session.value.ph[i].NotReached? || s.session.value.ph[i].Skipped?)
  }

  lemma StepStartsNothing(c: Config, s: State, step: Step, i: nat)
    requires Can(c, s, step) && !step.Crash? && Halted(s) && Unstarted(s, i)
    ensures Halted(Do(c, s, step)) && Unstarted(Do(c, s, step), i)
  {
  }

  /** Once an error is in the channel, no further chunk is started by this process. */
  lemma {:induction false} NothingStartedAfterError(c: Config, s: State, steps: seq<Step>, s': State, i: nat)
    requires Halted(s) && Unstarted(s, i) && OneProcess(c, s, steps, s')
    ensures Unstarted(s', i)
    decreases |steps|
  {
    if steps != [] {
      StepStartsNothing(c, s, steps[0], i);
      NothingStartedAfterError(c, Do(c, s, steps[0]), steps[1..], s', i);
    }
  }

  /** At the loop with an error waiting, returning it is the only thing processChunks can do. */
  lemma ErrorIsNext(c: Config, s: State, m: MainAct)
    requires s.session.Some? && s.session.value.errs != [] && AtLoop(c, s.session.value)
    ensures Can(c, s, MainStep(m)) <==> m == TakeError
    ensures Do(c, s, MainStep(TakeError)).session.value.main == Returned(Some(s.session.value.errs[0]))
    ensures Do(c, s, MainStep(TakeError)).session.value.ctxDone
  {
  }

  // ---- the channels and the semaphore

  ghost predicate Bounded(c: Config, s: State) {
    s.session.Some? ==>
      && |s.session.value.errs| <= c.batch && |s.session.value.progress| <= c.batch + 1
      && SlotsSound(c, s.session.value)
  }

  lemma StepKeepsBounded(c: Config, s: State, step: Step)
    requires ValidConfig(c) && Controlled(c, s) && Bounded(c, s) && Can(c, s, step)
    ensures Bounded(c, Do(c, s, step))
  {
    StepKeepsSlots(c, s, step);
  }

  lemma {:induction false} PathKeepsBounded(c: Config, s: State, steps: seq<Step>, s': State)
    requires ValidConfig(c) && FilesSound(c, s) && Controlled(c, s) && Bounded(c, s) && Path(c, s, steps, s')
    ensures Bounded(c, s')
    decreases |steps|
  {
    if steps != [] {
      StepKeepsFiles(c, s, steps[0]);
      StepKeepsControl(c, s, steps[0]);
      StepKeepsBounded(c, s, steps[0]);
      PathKeepsBounded(c, Do(c, s, steps[0]), steps[1..], s');
    }
  }

  /** Over every run: the channels hold what they can hold, and at most `batch` goroutines are at work. */
  lemma ChannelsBounded(c: Config, s0: State, steps: seq<Step>, s: State)
    requires ValidConfig(c) && Initial(c, s0) && Path(c, s0, steps, s) && s.session.Some?
    ensures |s.session.value.errs| <= c.batch && |s.session.value.progress| <= c.batch + 1
    ensures CountHolding(s.session.value.ph) <= c.batch
  {
    PathKeepsBounded(c, s0, steps, s);
  }

  // ---- how a goroutine comes to fail

  /**
   The four ways: the context is found done; a hung call ends with it; the last attempt fails; or what is not retried
   fails, in an upload reading the source before any attempt, in a download decoding or writing what was read.
   */
  lemma FailsOnlyIf(c: Config, s: State, i: nat, act: ChunkAct)
    requires Can(c, s, ChunkStep(i, act)) && !s.session.value.ph[i].Failing?
    requires Do(c, s, ChunkStep(i, act)).session.value.ph[i].Failing?
    ensures var ss, p := s.session.value, s.session.value.ph[i];
            var e := Do(c, s, ChunkStep(i, act)).session.value.ph[i].error;
            || (p.Working? && ss.ctxDone && e == ContextError)
            || (p.Hung? && ss.parentDone && e == ContextError)
            || (i in c.mayFail && (if c.direction.Upload? then p.Sending? else p.Working?) && p.attempt >= c.maxRetries)
            || (i in c.mayFail && if c.direction.Upload? then p == Working(0) else p.Sending?)
  {
  }

  /**
   What comes from outside is not restricted: a process can die and its parent be cancelled at any time, a save fail as
   well as succeed, a call hang at any attempt, and a request bring any further part of its chunk to the target.
   */
  lemma OutsideIsFree(c: Config, s: State, i: nat, k: nat)
    requires s.session.Some? && In(c, s.session.value, i)
    ensures Can(c, s, Crash) && Can(c, s, CancelParent)
    ensures var ss, p := s.session.value, s.session.value.ph[i];
            && (p.Saving? && ss.mem.Some? ==> Can(c, s, ChunkStep(i, SaveOk)) && Can(c, s, ChunkStep(i, SaveFails)))
            && (ss.main.Finishing? ==> Can(c, s, MainStep(Finish(true))) && Can(c, s, MainStep(Finish(false))))
            && ((if c.direction.Upload? then p.Sending? else p.Working?) ==> Can(c, s, ChunkStep(i, Hang)))
            && (p.Sending? && s.target.Some? && 0 < k <= c.tiles[i].size - p.landed ==>
                  Can(c, s, ChunkStep(i, Land(k))))
            && (i in c.mayFail && p.Sending? && c.direction.Download? ==>
                  forall e :: Can(c, s, ChunkStep(i, Fatal(e))))
            && ((if c.direction.Upload? then p.Sending? else p.Working?)
                && (p.attempt < c.maxRetries || i in c.mayFail) ==>
                  forall e :: Can(c, s, ChunkStep(i, AttemptFails(e))))
  {
  }
}
