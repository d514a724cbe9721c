/**
 A chunk's call may never come back. While the parent context lives, a response that is lost on a dropped connection is
 waited for without end. Once it is cancelled such a call ends, but a call that processMsg has not taken by then never
 does, since processMsg has returned and the call does not watch the context before it is taken.
 */
module TransferHang {
  import opened Transfer
  import opened TransferSafety
  import opened TransferLiveness
  import opened TransferReturns
  import opened TransferProcess
  import opened TransferCancel
  import opened TransferJam
  import CallFates
  import Rpc
  import RpcReturns

  // ---- both kinds of waiting are final

  /** Waiting for a goroutine whose call will never be taken. */
  ghost predicate Stranded(s: State) {
    && s.session.Some? && s.session.value.main.Joining?
    && exists i :: 0 <= i < |s.session.value.ph| && s.session.value.ph[i].Untaken?
  }

  lemma StepKeepsStranded(c: Config, s: State, step: Step)
    requires Stranded(s) && Can(c, s, step) && !step.Crash?
    ensures Stranded(Do(c, s, step))
  {
    var i :| 0 <= i < |s.session.value.ph| && s.session.value.ph[i].Untaken?;
    assert Do(c, s, step).session.value.ph[i].Untaken?;
  }

  lemma {:induction false} StrandedForever(c: Config, s: State, steps: seq<Step>, s': State)
    requires Stranded(s) && OneProcess(c, s, steps, s')
    ensures Stranded(s') && !HasEnded(s')
    decreases |steps|
  {
    if steps != [] {
      StepKeepsStranded(c, s, steps[0]);
      StrandedForever(c, Do(c, s, steps[0]), steps[1..], s');
    }
  }

  /** Waiting under a live context for a goroutine whose response will never come. */
  ghost predicate Hanging(s: State) {
    && s.session.Some? && s.session.value.main.Joining? && !s.session.value.parentDone
    && exists i :: 0 <= i < |s.session.value.ph| && s.session.value.ph[i].Hung?
  }

  lemma StepKeepsHanging(c: Config, s: State, step: Step)
    requires Hanging(s) && Can(c, s, step) && !step.Crash? && !step.CancelParent?
    ensures Hanging(Do(c, s, step))
  {
    var i :| 0 <= i < |s.session.value.ph| && s.session.value.ph[i].Hung?;
    assert Do(c, s, step).session.value.ph[i].Hung?;
  }

  lemma {:induction false} HangingWhileLive(c: Config, s: State, steps: seq<Step>, s': State)
    requires Hanging(s) && LiveRun(c, s, steps, s')
    ensures Hanging(s') && !HasEnded(s')
    decreases |steps|
  {
    if steps != [] {
      StepKeepsHanging(c, s, steps[0]);
      HangingWhileLive(c, Do(c, s, steps[0]), steps[1..], s');
    }
  }

  // ---- and both can be reached if anything is left to move

  /** Where a goroutine is when it makes its call, past the look at the context. */
  function Calling(c: Config): Phase {
    if c.direction.Upload? then Sending(0, 0) else Working(0)
  }

  lemma MakesCall(c: Config, s: State, i: nat) returns (steps: seq<Step>, s': State)
    requires ValidConfig(c) && Live(c, s) && i < |c.tiles|
    requires s.session.value.ph[i].Queued? && s.session.value.slots == 0
    ensures CalmPath(c, s, steps, s') && Live(c, s')
    ensures s'.session.value.main == s.session.value.main && s'.session.value.ph[i] == Calling(c)
  {
    NoStep(c, s);
    steps, s' := Extend(c, s, [], s, ChunkStep(i, Acquire));
    if c.direction.Upload? {
      steps, s' := Extend(c, s, steps, s', ChunkStep(i, StartSend));
    }
  }

  /** A run to where one goroutine makes its call and everything else waits for it. */
  lemma ReachesCall(c: Config, s0: State) returns (steps: seq<Step>, s': State, i: nat)
    requires ValidConfig(c) && Initial(c, s0) && Can(c, s0, Begin) && Do(c, s0, Begin).target.Some?
    requires !NothingLeft(c, Do(c, s0, Begin).session.value.loaded)
    ensures CalmPath(c, Do(c, s0, Begin), steps, s') && Live(c, s') && s'.session.value.main.Joining?
    ensures i < |c.tiles| && s'.session.value.ph[i] == Calling(c)
  {
    var s := Do(c, s0, Begin);
    i :| 0 <= i < |c.tiles| && c.tiles[i].off !in s.session.value.loaded;
    var s1, rest;
    steps, s1 := OpenAndDispatch(c, s0);
    steps, s1 := Extend(c, s, steps, s1, MainStep(LoopDone));
    rest, s' := MakesCall(c, s1, i);
    PathAppend(c, s, steps, s1, rest, s');
    steps := steps + rest;
  }

  lemma CalmThenLive(c: Config, s: State, steps: seq<Step>, s1: State, step: Step)
    requires CalmPath(c, s, steps, s1) && Can(c, s1, step) && !step.Crash? && !step.CancelParent?
    ensures LiveRun(c, s, steps + [step], Do(c, s1, step))
  {
    var _, _ := TakesStep(c, s, steps, s1, step);
  }

  /**
   The parent is cancelled after a goroutine has looked at its context and before processMsg takes its call. The RPC
   layer has a run to where this call, offered under a done context, never returns.
   */
  lemma CancelCanStrand(c: Config, s0: State) returns (steps: seq<Step>, s': State, i: nat, r: Rpc.State, ch: nat)
    requires ValidConfig(c) && Initial(c, s0) && Can(c, s0, Begin) && Do(c, s0, Begin).target.Some?
    requires !NothingLeft(c, Do(c, s0, Begin).session.value.loaded)
    ensures OneProcess(c, Do(c, s0, Begin), steps, s') && Stranded(s') && s'.session.value.parentDone
    ensures i < |s'.session.value.ph| && s'.session.value.ph[i].Untaken?
    ensures RpcReturns.RunOf(c.batch, r) && r.ctxDone && CallFates.Behind(s'.session.value.ph[i], r, ch)
  {
    var s1;
    steps, s1, i := ReachesCall(c, s0);
    steps, s1 := TakesStep(c, Do(c, s0, Begin), steps, s1, CancelParent);
    steps, s' := TakesStep(c, Do(c, s0, Begin), steps, s1, ChunkStep(i, Stall));
    assert s'.session.value.ph[i].Untaken?;
    r, ch := CallFates.SomeUntaken(c.batch, s'.session.value.ph[i]);
  }

  /**
   The connection drops on which its request is written, and no context is done. The RPC layer has a run to where this
   call, the only one there is, waits for a response that never comes.
   */
  lemma LossCanHang(c: Config, s0: State) returns (steps: seq<Step>, s': State, i: nat, r: Rpc.State, ch: nat)
    requires ValidConfig(c) && Initial(c, s0) && Can(c, s0, Begin) && Do(c, s0, Begin).target.Some?
    requires !NothingLeft(c, Do(c, s0, Begin).session.value.loaded)
    ensures LiveRun(c, Do(c, s0, Begin), steps, s') && Hanging(s')
    ensures i < |s'.session.value.ph| && s'.session.value.ph[i].Hung?
    ensures RpcReturns.RunOf(c.batch, r) && !r.ctxDone && r.calls.Keys == {ch}
    ensures CallFates.Behind(s'.session.value.ph[i], r, ch)
  {
    var s1;
    steps, s1, i := ReachesCall(c, s0);
    CalmThenLive(c, Do(c, s0, Begin), steps, s1, ChunkStep(i, Hang));
    steps, s' := steps + [ChunkStep(i, Hang)], Do(c, s1, ChunkStep(i, Hang));
    assert s'.session.value.ph[i].Hung?;
    r, ch := CallFates.SomeHung(c.batch, s'.session.value.ph[i]);
  }

  // ---- the exact conditions

  /** With nothing left to move no call is made. */
  lemma NoCalls(c: Config, s0: State, steps: seq<Step>, s: State)
    requires ValidConfig(c) && Can(c, s0, Begin) && OneProcess(c, Do(c, s0, Begin), steps, s)
    requires NothingLeft(c, Do(c, s0, Begin).session.value.loaded)
    ensures s.session.Some? && |s.session.value.ph| == |c.tiles|
    ensures forall i | 0 <= i < |s.session.value.ph| ::
              s.session.value.ph[i].NotReached? || s.session.value.ph[i].Skipped?
  {
    var loaded := Do(c, s0, Begin).session.value.loaded;
    ProcessKeepsLoadedSkipped(c, loaded, Do(c, s0, Begin), steps, s);
  }

  /**
   From every state that the process can reach with its parent cancelled, it can return, if and only if nothing was
   left to move and there are no more chunks than `batch`: otherwise a goroutine can be stranded, or the loop jam.
   */
  lemma CancelledReturnsIff(c: Config, s0: State)
    requires ValidConfig(c) && Initial(c, s0) && Can(c, s0, Begin) && Do(c, s0, Begin).target.Some?
    ensures var s := Do(c, s0, Begin);
            (forall steps, s' :: OneProcess(c, s, steps, s') ==> CancelledCanEnd(c, s')) <==>
            NothingLeft(c, s.session.value.loaded) && |c.tiles| <= c.batch
  {
    var s := Do(c, s0, Begin);
    var loaded := s.session.value.loaded;
    TakenReturnsIff(c, s0);
    if !NothingLeft(c, loaded) {
      var steps, s', i, r, ch := CancelCanStrand(c, s0);
      NeverEnds(c, s');
      assert !CancelledCanEnd(c, s');
    } else if |c.tiles| <= c.batch {
      assert !LateCompleted(c, loaded);
      forall steps, s' | OneProcess(c, s, steps, s') ensures CancelledCanEnd(c, s') {
        NoCalls(c, s0, steps, s');
        assert AllTaken(s');
      }
    } else {
      assert c.tiles[c.batch].off in loaded;
      assert LateCompleted(c, loaded);
    }
  }

  lemma NeverEnds(c: Config, s: State)
    requires Stranded(s)
    ensures !CanEnd(c, s)
  {
    if CanEnd(c, s) {
      var steps, s' :| OneProcess(c, s, steps, s') && HasEnded(s');
      StrandedForever(c, s, steps, s');
    }
  }

  ghost predicate CanEndLive(c: Config, s: State) {
    exists steps, s' :: LiveRun(c, s, steps, s') && HasEnded(s')
  }

  lemma StepKeepsLiveOrEnded(c: Config, s: State, step: Step, loaded: set<int>)
    requires ValidConfig(c) && Can(c, s, step) && !step.Crash? && !step.CancelParent?
    requires (Live(c, s) || HasEnded(s)) && LoadedSkipped(c, loaded, s) && NothingLeft(c, loaded)
    ensures Live(c, Do(c, s, step)) || HasEnded(Do(c, s, step))
  {
    if Live(c, s) && Undisturbed(step) {
      StepKeepsLive(c, s, step);
    }
  }

  lemma {:induction false} LiveOrEnded(c: Config, s: State, steps: seq<Step>, s': State, loaded: set<int>)
    requires ValidConfig(c) && LiveRun(c, s, steps, s')
    requires (Live(c, s) || HasEnded(s)) && LoadedSkipped(c, loaded, s) && NothingLeft(c, loaded)
    ensures Live(c, s') || HasEnded(s')
    decreases |steps|
  {
    if steps != [] {
      StepKeepsLiveOrEnded(c, s, steps[0], loaded);
      StepKeepsLoadedSkipped(c, loaded, s, steps[0]);
      LiveOrEnded(c, Do(c, s, steps[0]), steps[1..], s', loaded);
    }
  }

  /**
   The same while the parent context lives: from every state that the process can reach so it can return without being
   cancelled, if and only if nothing was left to move. One lost response is waited for without end.
   */
  lemma LiveReturnsIff(c: Config, s0: State)
    requires ValidConfig(c) && Initial(c, s0) && Can(c, s0, Begin) && Do(c, s0, Begin).target.Some?
    ensures var s := Do(c, s0, Begin);
            (forall steps, s' :: LiveRun(c, s, steps, s') ==> CanEndLive(c, s')) <==>
            NothingLeft(c, s.session.value.loaded)
  {
    var s := Do(c, s0, Begin);
    var loaded := s.session.value.loaded;
    if !NothingLeft(c, loaded) {
      var steps, s', i, r, ch := LossCanHang(c, s0);
      if CanEndLive(c, s') {
        var more, s2 :| LiveRun(c, s', more, s2) && HasEnded(s2);
        HangingWhileLive(c, s', more, s2);
      }
    } else {
      forall steps, s' | LiveRun(c, s, steps, s') ensures CanEndLive(c, s') {
        EndsWithoutCalls(c, s0, steps, s');
      }
    }
  }

  lemma EndsWithoutCalls(c: Config, s0: State, steps: seq<Step>, s: State)
    requires ValidConfig(c) && Initial(c, s0) && Can(c, s0, Begin) && Do(c, s0, Begin).target.Some?
    requires LiveRun(c, Do(c, s0, Begin), steps, s)
    requires NothingLeft(c, Do(c, s0, Begin).session.value.loaded)
    ensures CanEndLive(c, s)
  {
    var s1 := Do(c, s0, Begin);
    var loaded := s1.session.value.loaded;
    BeginIsLive(c, s0);
    BeginIsKept(c, s0);
    ProcessKeepsKept(c, s1, steps, s, loaded);
    LiveOrEnded(c, s1, steps, s, loaded);
    if HasEnded(s) {
      assert LiveRun(c, s, [], s);
    } else {
      assert Doomed(c, loaded) == {};
      AlwaysReturns(c, s);
      var more, s' :| CalmPath(c, s, more, s') && HasReturned(s');
      assert LiveRun(c, s, more, s');
    }
  }
}
