/**
 When a call returns at all, and the two ways in which it never does. A call waits for processMsg to take its
 request without watching the context, so it returns only if processMsg comes back to its select.
 */
module RpcReturns {
  import opened Rpc
  import opened RpcSafety
  import opened RpcAnswers
  import opened RpcRuns

  function Returned(ch: nat): State -> bool {
    (s: State) => ch in s.calls && (s.calls[ch].phase.Got? || s.calls[ch].phase.GaveUp?)
  }

  /** processMsg will never come back to its select: no sender comes, or the caller it waits for has left. */
  ghost predicate Stuck(s: State) {
    Blocked(s) || exists u :: u in s.soup && u.place.Delivering? && PhaseIs(s, u.place.ch, GaveUp)
  }

  // ---- stuck is final

  lemma AbandonedStays(s: State, step: Step, u: Token)
    requires Reachable(s) && Can(s, step)
    requires u in s.soup && u.place.Delivering? && PhaseIs(s, u.place.ch, GaveUp)
    ensures u in Do(s, step).soup && PhaseIs(Do(s, step), u.place.ch, GaveUp)
  {
    Uniqueness(s);
    if u !in Do(s, step).soup {
      GoneToken(s, step, u);
      assert false;
    }
    if step.MoveStep? {
      MoveKeepsCalls(s, step.t, step.m);
    }
  }

  lemma StuckStays(s: State, step: Step)
    requires Reachable(s) && Can(s, step) && Stuck(s)
    ensures Stuck(Do(s, step))
  {
    if Blocked(s) {
      var t :| t in s.soup && t.place.Forwarding?;
      BlockedStays(s, step, t);
    } else {
      var u :| u in s.soup && u.place.Delivering? && PhaseIs(s, u.place.ch, GaveUp);
      AbandonedStays(s, step, u);
    }
  }

  lemma OfferingStays(s: State, step: Step, ch: nat)
    requires Can(s, step) && PhaseIs(s, ch, Offering) && !RouterIdle(s)
    ensures PhaseIs(Do(s, step), ch, Offering)
  {
    if step.MoveStep? {
      MoveKeepsCalls(s, step.t, step.m);
    }
  }

  lemma {:induction false} OfferingForever(s: State, steps: seq<Step>, s': State, ch: nat)
    requires Reachable(s) && (s.stopped || Stuck(s)) && PhaseIs(s, ch, Offering) && Path(s, steps, s')
    ensures PhaseIs(s', ch, Offering)
    decreases |steps|
  {
    if steps != [] {
      if !s.stopped {
        StuckStays(s, steps[0]);
      }
      OfferingStays(s, steps[0], ch);
      ReachableStep(s, steps[0]);
      OfferingForever(Do(s, steps[0]), steps[1..], s', ch);
    }
  }

  // ---- otherwise a call can return

  lemma WaitingReturns(s: State, ch: nat)
    requires PhaseIs(s, ch, Waiting)
    ensures Leads(s, Returned(ch))
    ensures s.ctxDone ==> Can(s, GiveUp(ch)) && Returned(ch)(Do(s, GiveUp(ch)))
  {
    var s1 := Do(s, Cancel);
    There(Do(s1, GiveUp(ch)), Returned(ch));
    OneMore(s1, GiveUp(ch), Returned(ch));
    OneMore(s, Cancel, Returned(ch));
  }

  lemma IdleReturns(s: State, ch: nat)
    requires PhaseIs(s, ch, Offering) && RouterIdle(s)
    ensures Leads(s, Returned(ch))
  {
    WaitingReturns(Do(s, Submit(ch)), ch);
    OneMore(s, Submit(ch), Returned(ch));
  }

  lemma {:induction false} SendThenReturns(s: State, ch: nat, u: Token, way: Way)
    requires Reachable(s) && !s.stopped && PhaseIs(s, ch, Offering)
    requires u in s.soup && u.place.Forwarding? && Usable(s, way, false)
    ensures Leads(s, Returned(ch))
    decreases Work(s, way, false)
  {
    if Work(s, way, false) == 1 {
      var k := TakeFrees(s, u, way, false);
      IdleReturns(Do(s, MoveStep(u, Take(k))), ch);
      OneMore(s, MoveStep(u, Take(k)), Returned(ch));
    } else {
      var step, way' := Approach(s, way, false);
      Uniqueness(s);
      PreparesKeeps(s, step);
      ReachableStep(s, step);
      SendThenReturns(Do(s, step), ch, u, way');
      OneMore(s, step, Returned(ch));
    }
  }

  lemma OfferingReturns(s: State, ch: nat)
    requires Reachable(s) && !s.stopped && !Stuck(s) && PhaseIs(s, ch, Offering)
    ensures Leads(s, Returned(ch))
  {
    if RouterIdle(s) {
      IdleReturns(s, ch);
    } else {
      var u :| u in s.soup && (u.place.Forwarding? || u.place.Delivering?);
      if u.place.Forwarding? {
        var way :| Usable(s, way, false);
        SendThenReturns(s, ch, u, way);
      } else {
        DeliversTo(s, u);
        HandOverFrees(s, u);
        IdleReturns(DeliverDo(s, u), ch);
        OneMore(s, MoveStep(u, Deliver), Returned(ch));
      }
    }
  }

  /**
   Over every run, whether or not the context is done: a call that has not returned can return exactly when its
   request was forwarded already, or processMsg runs and is not stuck. Once forwarded and once the context is
   done, returning is its own next step.
   */
  lemma ReturnsIffTaken(batch: nat, steps: seq<Step>, s: State, ch: nat)
    requires Path(Start(batch), steps, s) && ch in s.calls && !Returned(ch)(s)
    ensures Leads(s, Returned(ch)) <==> PhaseIs(s, ch, Waiting) || (!s.stopped && !Stuck(s))
    ensures PhaseIs(s, ch, Waiting) && s.ctxDone ==> Can(s, GiveUp(ch))
  {
    if PhaseIs(s, ch, Waiting) {
      WaitingReturns(s, ch);
    } else if !s.stopped && !Stuck(s) {
      OfferingReturns(s, ch);
    } else if Leads(s, Returned(ch)) {
      var more, s' :| Path(s, more, s') && Returned(ch)(s');
      OfferingForever(s, more, s', ch);
    }
  }

  /** The condition is not idle: with any pool, a call made when processMsg has stopped is never taken. */
  lemma CancelledCallCanHang(batch: nat) returns (steps: seq<Step>, s: State)
    ensures Path(Start(batch), steps, s) && s.ctxDone && PhaseIs(s, 0, Offering)
    ensures !Leads(s, Returned(0))
  {
    var s0 := Start(batch);
    var s1 := Do(s0, Begin(0, []));
    var s2 := Do(s1, Cancel);
    s := Do(s2, Stop);
    assert Path(s0, [], s0);
    PathSnoc(s0, [], s0, Begin(0, []));
    PathSnoc(s0, [] + [Begin(0, [])], s1, Cancel);
    steps := [] + [Begin(0, [])] + [Cancel] + [Stop];
    PathSnoc(s0, [] + [Begin(0, [])] + [Cancel], s2, Stop);
    ReturnsIffTaken(batch, steps, s, 0);
  }

  // ---- the pool's deadlock

  /**
   A blocked processMsg is final for everybody: whatever happens later, no call is answered any more, and no
   call is taken.
   */
  lemma {:induction false} BlockedForever(s: State, steps: seq<Step>, s': State, ch: nat)
    requires Reachable(s) && Blocked(s) && Path(s, steps, s') && ch in s'.calls
    ensures Blocked(s')
    ensures s'.calls[ch].phase.Got? ==> ch in s.calls && s.calls[ch].phase.Got?
    ensures ch in s.calls && s.calls[ch].phase.Offering? ==> s'.calls[ch].phase.Offering?
    decreases |steps|
  {
    if steps != [] {
      var t :| t in s.soup && t.place.Forwarding?;
      BlockedStays(s, steps[0], t);
      ReachableStep(s, steps[0]);
      BlockedForever(Do(s, steps[0]), steps[1..], s', ch);
      BlockedStep(s, steps[0], t, ch);
    }
  }

  lemma BlockedStep(s: State, step: Step, t: Token, ch: nat)
    requires Reachable(s) && Can(s, step) && t in s.soup && t.place.Forwarding?
    ensures ch in Do(s, step).calls && Do(s, step).calls[ch].phase.Got? ==> ch in s.calls && s.calls[ch].phase.Got?
    ensures ch in s.calls && s.calls[ch].phase.Offering? ==> PhaseIs(Do(s, step), ch, Offering)
  {
    if step.MoveStep? {
      MoveKeepsCalls(s, step.t, step.m);
      if step.m.Deliver? {
        OnlyForwarding(s, t, step.t);
      }
    }
  }

  ghost predicate RunOf(batch: nat, s: State) {
    exists steps :: Path(Start(batch), steps, s)
  }

  lemma RunOn(batch: nat, s: State, step: Step)
    requires RunOf(batch, s) && Can(s, step)
    ensures RunOf(batch, Do(s, step))
  {
    var steps :| Path(Start(batch), steps, s);
    PathSnoc(Start(batch), steps, s, step);
  }
}
