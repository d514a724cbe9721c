/**
 The two ways in which a chunk's call does not come back, as the RPC layer has them: its response was lost, or
 processMsg never takes it. They are what the goroutines of a transfer are left with in the phases Hung and Untaken.
 */
module CallFates {
  import opened Rpc
  import opened RpcAnswers
  import opened RpcRuns
  import opened RpcReturns
  import opened RpcCallers
  import RpcSafety
  import Transfer

  /** How the call stands behind a goroutine in this phase. */
  ghost predicate Behind(p: Transfer.Phase, r: State, ch: nat) {
    match p
    case Hung(_) => PhaseIs(r, ch, Waiting) && !Leads(r, Answered(ch))
    case Untaken(_) => PhaseIs(r, ch, Offering) && !Leads(r, Returned(ch))
    case _ => ch in r.calls
  }

  lemma HungStep(r: State, step: Step, p: Transfer.Phase, ch: nat)
    requires Can(r, step) && p.Hung? && Behind(p, r, ch)
    ensures Behind(p, Do(r, step), ch) || (r.ctxDone && PhaseIs(Do(r, step), ch, GaveUp))
  {
    var r' := Do(r, step);
    if Leads(r', Answered(ch)) {
      OneMore(r, step, Answered(ch));
    }
    if Answered(ch)(r') {
      There(r', Answered(ch));
    }
    if step.MoveStep? {
      RpcSafety.MoveKeepsCalls(r, step.t, step.m);
    }
  }

  /** A hung call stays so until the context is done; then returning is its own next step, with the context's error. */
  lemma {:induction false} HungUntilCancelled(r: State, steps: seq<Step>, r': State, p: Transfer.Phase, ch: nat)
    requires p.Hung? && Behind(p, r, ch) && Path(r, steps, r')
    ensures !r'.ctxDone ==> Behind(p, r', ch)
    ensures r'.ctxDone && PhaseIs(r', ch, Waiting) ==> Can(r', GiveUp(ch))
    decreases |steps|
  {
    if steps != [] {
      HungStep(r, steps[0], p, ch);
      if Behind(p, Do(r, steps[0]), ch) {
        HungUntilCancelled(Do(r, steps[0]), steps[1..], r', p, ch);
      } else {
        StaysDone(Do(r, steps[0]), steps[1..], r');
      }
    }
  }

  lemma {:induction false} StaysDone(r: State, steps: seq<Step>, r': State)
    requires r.ctxDone && Path(r, steps, r')
    ensures r'.ctxDone
    decreases |steps|
  {
    if steps != [] {
      assert Do(r, steps[0]).ctxDone;
      StaysDone(Do(r, steps[0]), steps[1..], r');
    }
  }

  /** A call is untaken for good only once the context is done, unless very many wait. */
  lemma UntakenIsCancelled(batch: nat, r: State, p: Transfer.Phase, ch: nat)
    requires RunOf(batch, r) && |WaitingCalls(r)| <= 2 * batch && p.Untaken? && Behind(p, r, ch)
    ensures r.ctxDone
  {
    if !r.ctxDone {
      FewCallsAreTaken(batch, r, ch);
    }
  }

  /** Under a live context a dropped connection can leave a single call hung. */
  lemma SomeHung(batch: nat, p: Transfer.Phase) returns (r: State, ch: nat)
    requires batch >= 1 && p.Hung?
    ensures RunOf(batch, r) && !r.ctxDone && r.calls.Keys == {ch} && Behind(p, r, ch)
  {
    r, ch := DropCanBereave(batch);
  }

  /** A single call can be offered when processMsg returns. */
  lemma SomeUntaken(batch: nat, p: Transfer.Phase) returns (r: State, ch: nat)
    requires p.Untaken?
    ensures RunOf(batch, r) && r.ctxDone && Behind(p, r, ch)
  {
    var steps;
    steps, r := CancelledCallCanHang(batch);
    ch := 0;
  }
}
