/**
 The exact condition under which processChunks returns on every schedule of an undisturbed run, one without a crash,
 a cancellation or a lost response. TransferJam has the cancelled case.
 */
module TransferReturns {
  import opened Prelude
  import opened Transfer
  import opened TransferSafety
  import opened TransferLiveness

  /** s' is reached from s while nobody disturbs the process. */
  ghost predicate CalmPath(c: Config, s: State, steps: seq<Step>, s': State) {
    Path(c, s, steps, s') && forall step | step in steps :: Undisturbed(step)
  }

  ghost predicate CanReturn(c: Config, s: State) {
    exists steps, s' :: CalmPath(c, s, steps, s') && HasReturned(s')
  }

  lemma {:induction false} PathAppend(c: Config, s: State, xs: seq<Step>, s1: State, ys: seq<Step>, s2: State)
    requires CalmPath(c, s, xs, s1) && CalmPath(c, s1, ys, s2)
    ensures CalmPath(c, s, xs + ys, s2)
    decreases |xs|
  {
    if xs == [] {
      assert xs + ys == ys;
    } else {
      assert (xs + ys)[1..] == xs[1..] + ys;
      PathAppend(c, Do(c, s, xs[0]), xs[1..], s1, ys, s2);
    }
  }

  lemma OneStep(c: Config, s: State, step: Step)
    requires Can(c, s, step) && Undisturbed(step)
    ensures CalmPath(c, s, [step], Do(c, s, step))
  {
    assert [step][1..] == [];
    assert Path(c, Do(c, s, step), [], Do(c, s, step));
  }

  /** The set that decides, and what it is made of, never change. */
  lemma StepKeepsLoaded(c: Config, s: State, step: Step)
    requires Can(c, s, step) && s.session.Some? && Undisturbed(step)
    ensures var s' := Do(c, s, step); s'.session.Some? && s'.session.value.loaded == s.session.value.loaded
  {
  }

  lemma {:induction false} LivePath(c: Config, s: State, steps: seq<Step>, s': State)
    requires ValidConfig(c) && Live(c, s) && CalmPath(c, s, steps, s')
    ensures HasReturned(s') || (Live(c, s') && |steps| + Measure(c, s') <= Measure(c, s))
    ensures s'.session.Some? && s'.session.value.loaded == s.session.value.loaded
    decreases |steps|
  {
    if steps != [] {
      var s1 := Do(c, s, steps[0]);
      StepKeepsLive(c, s, steps[0]);
      MeasureFalls(c, s, steps[0]);
      StepKeepsLoaded(c, s, steps[0]);
      if Live(c, s1) {
        LivePath(c, s1, steps[1..], s');
      } else {
        ReturnedPath(c, s1, steps[1..], s');
      }
    }
  }

  lemma {:induction false} ReturnedPath(c: Config, s: State, steps: seq<Step>, s': State)
    requires HasReturned(s) && CalmPath(c, s, steps, s')
    ensures HasReturned(s') && s'.session.value.loaded == s.session.value.loaded
    decreases |steps|
  {
    if steps != [] {
      StepKeepsLoaded(c, s, steps[0]);
      ReturnedPath(c, Do(c, s, steps[0]), steps[1..], s');
    }
  }

  /**
   Termination: a calm run that has not returned has taken at most Measure(s) steps, so with NeverStuck
   every maximal calm run returns, whatever the scheduler does.
   */
  lemma CalmRunsAreFinite(c: Config, s: State, steps: seq<Step>, s': State)
    requires ValidConfig(c) && Live(c, s) && CalmPath(c, s, steps, s') && !HasReturned(s')
    ensures |steps| <= Measure(c, s)
  {
    LivePath(c, s, steps, s');
  }

  lemma {:induction false} AlwaysReturns(c: Config, s: State)
    requires ValidConfig(c) && Live(c, s) && |Doomed(c, s.session.value.loaded)| <= c.batch
    ensures CanReturn(c, s)
    decreases Measure(c, s)
  {
    var step := NeverStuck(c, s);
    var s1 := Do(c, s, step);
    StepKeepsLive(c, s, step);
    MeasureFalls(c, s, step);
    StepKeepsLoaded(c, s, step);
    OneStep(c, s, step);
    if HasReturned(s1) {
      assert CalmPath(c, s, [step], s1);
    } else {
      AlwaysReturns(c, s1);
      var steps, s2 :| CalmPath(c, s1, steps, s2) && HasReturned(s2);
      PathAppend(c, s, [step], s1, steps, s2);
    }
  }

  // ---- the other side: one failing chunk too many

  /** Waiting for all goroutines, the error channel full, and one more goroutine with an error to send. */
  ghost predicate Wedged(c: Config, s: State) {
    && s.session.Some?
    && var ss := s.session.value;
    && ss.main.Joining? && !ss.ctxDone && |ss.errs| >= c.batch
    && exists i :: 0 <= i < |ss.ph| && ss.ph[i].Failing?
  }

  lemma StepKeepsWedged(c: Config, s: State, step: Step)
    requires Wedged(c, s) && Can(c, s, step) && Undisturbed(step)
    ensures Wedged(c, Do(c, s, step))
  {
    var ss := s.session.value;
    var i :| 0 <= i < |ss.ph| && ss.ph[i].Failing?;
    var s' := Do(c, s, step);
    assert s'.session.value.ph[i].Failing?;
  }

  lemma {:induction false} WedgedForever(c: Config, s: State, steps: seq<Step>, s': State)
    requires Wedged(c, s) && CalmPath(c, s, steps, s')
    ensures Wedged(c, s') && !HasReturned(s')
    decreases |steps|
  {
    if steps != [] {
      StepKeepsWedged(c, s, steps[0]);
      WedgedForever(c, Do(c, s, steps[0]), steps[1..], s');
    }
  }

  /** The loop has gone through the first n chunks and no goroutine has done anything yet. */
  ghost predicate Dispatched(c: Config, s: State, n: nat) {
    && Live(c, s)
    && var ss := s.session.value;
    && ss.main == Looping(n) && n <= |c.tiles| && ss.progress == [] && ss.errs == [] && ss.slots == 0
    && (forall j | 0 <= j < |c.tiles| :: IsCompleted(ss.mem, c.tiles[j].off) <==> c.tiles[j].off in ss.loaded)
    && (forall j | 0 <= j < n :: ss.ph[j] == if c.tiles[j].off in ss.loaded then Skipped else Queued)
  }

  /** A calm path made one step longer. */
  lemma Extend(c: Config, s: State, steps: seq<Step>, s1: State, step: Step)
    returns (longer: seq<Step>, s2: State)
    requires ValidConfig(c) && CalmPath(c, s, steps, s1) && Live(c, s1) && Can(c, s1, step) && Undisturbed(step)
    ensures longer == steps + [step] && s2 == Do(c, s1, step)
    ensures CalmPath(c, s, longer, s2)
    ensures HasReturned(s2) || Live(c, s2)
  {
    longer, s2 := steps + [step], Do(c, s1, step);
    StepKeepsLive(c, s1, step);
    OneStep(c, s1, step);
    PathAppend(c, s, steps, s1, [step], s2);
  }

  lemma NoStep(c: Config, s: State)
    ensures CalmPath(c, s, [], s)
  {
  }

  lemma FindNext(c: Config, s: State, n: nat) returns (steps: seq<Step>, s': State)
    requires ValidConfig(c) && Dispatched(c, s, n) && n < |c.tiles| && c.tiles[n].off in s.session.value.loaded
    ensures CalmPath(c, s, steps, s') && Live(c, s') && s'.target == s.target
    ensures s'.session == Some(s.session.value.(main := Reporting(n)))
  {
    NoStep(c, s);
    steps, s' := Extend(c, s, [], s, MainStep(FindCompleted));
  }

  /** Only chunks and late writes touch the target. */
  lemma QuietStep(c: Config, s: State, step: Step)
    requires Can(c, s, step) && (step.MainStep? || step.Consume?)
    ensures Do(c, s, step).target == s.target
  {
  }

  lemma ReportNext(c: Config, s: State, n: nat) returns (steps: seq<Step>, s': State)
    requires ValidConfig(c) && Live(c, s) && n < |c.tiles|
    requires s.session.value.main == Reporting(n) && s.session.value.progress == []
    ensures CalmPath(c, s, steps, s') && Live(c, s') && s'.target == s.target
    ensures var ss, ss' := s.session.value, s'.session.value;
            ss' == ss.(main := Looping(n + 1), ph := ss.ph[n := Skipped], consumer := ss'.consumer)
  {
    var report := MainStep(ReportSkipped);
    ReportFinds(c, s, n);
    NoStep(c, s);
    var first, s1 := Extend(c, s, [], s, report);
    QuietStep(c, s, report);
    QuietStep(c, s1, Consume);
    steps, s' := Extend(c, s, first, s1, Consume);
  }

  /** The report can be made, and its value is taken from the channel again before the consumer leaves. */
  lemma ReportFinds(c: Config, s: State, n: nat)
    requires ValidConfig(c) && Live(c, s) && n < |c.tiles|
    requires s.session.value.main == Reporting(n) && s.session.value.progress == []
    ensures var report := MainStep(ReportSkipped);
            && Can(c, s, report) && Can(c, Do(c, s, report), Consume)
            && var ss, ss' := s.session.value, Do(c, Do(c, s, report), Consume).session.value;
            ss' == ss.(main := Looping(n + 1), ph := ss.ph[n := Skipped], consumer := ss'.consumer)
  {
    ConfigFacts(c);
    var ss := s.session.value;
    assert ss.ph[n].NotReached?;
    OwedAtLeast(c.tiles, ss.ph, |ss.ph|, n);
  }

  lemma SkipNext(c: Config, s: State, n: nat) returns (steps: seq<Step>, s': State)
    requires ValidConfig(c) && Dispatched(c, s, n) && n < |c.tiles| && c.tiles[n].off in s.session.value.loaded
    ensures CalmPath(c, s, steps, s') && Dispatched(c, s', n + 1) && s'.session.value.loaded == s.session.value.loaded
    ensures s'.target == s.target
  {
    var first, s1 := FindNext(c, s, n);
    var rest;
    rest, s' := ReportNext(c, s1, n);
    PathAppend(c, s, first, s1, rest, s');
    steps := first + rest;
  }

  lemma SpawnNext(c: Config, s: State, n: nat) returns (steps: seq<Step>, s': State)
    requires ValidConfig(c) && Dispatched(c, s, n) && n < |c.tiles| && c.tiles[n].off !in s.session.value.loaded
    ensures CalmPath(c, s, steps, s') && Dispatched(c, s', n + 1) && s'.session.value.loaded == s.session.value.loaded
    ensures s'.target == s.target
  {
    var ss := s.session.value;
    var a := MainStep(Spawn);
    StepKeepsLive(c, s, a);
    OneStep(c, s, a);
    steps, s' := [a], Do(c, s, a);
    assert s'.session.value.ph == ss.ph[n := Queued];
  }

  lemma {:induction false} DispatchAll(c: Config, s: State, n: nat) returns (steps: seq<Step>, s': State)
    requires ValidConfig(c) && Dispatched(c, s, n)
    ensures CalmPath(c, s, steps, s') && Dispatched(c, s', |c.tiles|)
    ensures s'.session.value.loaded == s.session.value.loaded && s'.target == s.target
    decreases |c.tiles| - n
  {
    if n == |c.tiles| {
      steps, s' := [], s;
    } else {
      var first, s1;
      if c.tiles[n].off in s.session.value.loaded {
        first, s1 := SkipNext(c, s, n);
      } else {
        first, s1 := SpawnNext(c, s, n);
      }
      var rest;
      rest, s' := DispatchAll(c, s1, n + 1);
      PathAppend(c, s, first, s1, rest, s');
      steps := first + rest;
    }
  }

  /** Waiting, with the goroutines of `left` still queued and every slot free. */
  ghost predicate Draining(c: Config, s: State, left: set<nat>) {
    && Live(c, s)
    && var ss := s.session.value;
    && ss.main.Joining? && ss.slots == 0
    && (forall i | i in left :: i < |c.tiles| && i in c.mayFail && ss.ph[i].Queued?)
  }

  lemma AcquireOne(c: Config, s: State, left: set<nat>, i: nat) returns (steps: seq<Step>, s': State)
    requires ValidConfig(c) && Draining(c, s, left) && i in left
    ensures CalmPath(c, s, steps, s') && Live(c, s')
    ensures s'.session == Some(s.session.value.(ph := s.session.value.ph[i := Working(0)], slots := 1))
  {
    NoStep(c, s);
    steps, s' := Extend(c, s, [], s, ChunkStep(i, Acquire));
  }

  /** Where a callback can fail for good: an upload at once, a download after its first read. */
  function Fragile(c: Config): Phase {
    if c.direction.Upload? then Working(0) else Sending(0, 0)
  }

  lemma ReadyOne(c: Config, s: State, i: nat) returns (steps: seq<Step>, s': State)
    requires ValidConfig(c) && Live(c, s) && i < |c.tiles| && s.session.value.ph[i] == Working(0)
    ensures CalmPath(c, s, steps, s') && Live(c, s')
    ensures s'.session == Some(s.session.value.(ph := s.session.value.ph[i := Fragile(c)]))
  {
    NoStep(c, s);
    if c.direction.Upload? {
      assert s.session.value.ph[i := Fragile(c)] == s.session.value.ph;
      steps, s' := [], s;
    } else {
      steps, s' := Extend(c, s, [], s, ChunkStep(i, StartSend));
    }
  }

  lemma Overwrite<T>(xs: seq<T>, i: nat, x: T, y: T)
    requires i < |xs|
    ensures xs[i := x][i := y] == xs[i := y]
  {
  }

  lemma BreakOne(c: Config, s: State, i: nat) returns (steps: seq<Step>, s': State)
    requires ValidConfig(c) && Live(c, s) && i < |c.tiles| && i in c.mayFail
    requires s.session.value.ph[i] == Fragile(c)
    ensures CalmPath(c, s, steps, s') && Live(c, s')
    ensures s'.session == Some(s.session.value.(ph := s.session.value.ph[i := Failing(Failure(0))]))
  {
    NoStep(c, s);
    steps, s' := Extend(c, s, [], s, ChunkStep(i, Fatal(Failure(0))));
  }

  lemma RunAndBreak(c: Config, s: State, i: nat) returns (steps: seq<Step>, s': State)
    requires ValidConfig(c) && Live(c, s) && i < |c.tiles| && i in c.mayFail && s.session.value.ph[i] == Working(0)
    ensures CalmPath(c, s, steps, s') && Live(c, s')
    ensures s'.session == Some(s.session.value.(ph := s.session.value.ph[i := Failing(Failure(0))]))
  {
    var first, s1 := ReadyOne(c, s, i);
    var rest;
    rest, s' := BreakOne(c, s1, i);
    Overwrite(s.session.value.ph, i, Fragile(c), Failing(Failure(0)));
    PathAppend(c, s, first, s1, rest, s');
    steps := first + rest;
  }

  /** One queued chunk runs and fails; its error is still to be sent. */
  lemma FailOne(c: Config, s: State, left: set<nat>, i: nat) returns (steps: seq<Step>, s': State)
    requires ValidConfig(c) && Draining(c, s, left) && i in left
    ensures CalmPath(c, s, steps, s') && Live(c, s')
    ensures s'.session == Some(s.session.value.(ph := s.session.value.ph[i := Failing(Failure(0))], slots := 1))
  {
    var first, s1 := AcquireOne(c, s, left, i);
    var rest;
    rest, s' := RunAndBreak(c, s1, i);
    Overwrite(s.session.value.ph, i, Working(0), Failing(Failure(0)));
    PathAppend(c, s, first, s1, rest, s');
    steps := first + rest;
  }

  /** Its error goes into the channel, and its slot is free again. */
  lemma PushOne(c: Config, s: State, left: set<nat>, i: nat) returns (steps: seq<Step>, s': State)
    requires ValidConfig(c) && Live(c, s) && s.session.value.main.Joining? && s.session.value.slots == 1
    requires i < |c.tiles| && s.session.value.ph[i] == Failing(Failure(0)) && |s.session.value.errs| < c.batch
    requires i !in left && forall j | j in left :: j < |c.tiles| && j in c.mayFail && s.session.value.ph[j].Queued?
    ensures CalmPath(c, s, steps, s') && Draining(c, s', left)
    ensures |s'.session.value.errs| == |s.session.value.errs| + 1
  {
    NoStep(c, s);
    steps, s' := Extend(c, s, [], s, ChunkStep(i, PushError));
    var ss, ss' := s.session.value, s'.session.value;
    assert ss'.ph == ss.ph[i := Failed(Failure(0))];
    assert forall j | j in left :: ss'.ph[j] == ss.ph[j];
  }

  /** More failing chunks left than room for their errors: fill the channel, then block. */
  lemma {:induction false} FillAndBlock(c: Config, s: State, left: set<nat>) returns (steps: seq<Step>, s': State)
    requires ValidConfig(c) && Draining(c, s, left) && |s.session.value.errs| <= c.batch
    requires |left| + |s.session.value.errs| > c.batch
    ensures CalmPath(c, s, steps, s') && Wedged(c, s')
    decreases c.batch - |s.session.value.errs|
  {
    var i := SomeMember(left);
    var s1, s2, rest;
    steps, s1 := FailOne(c, s, left, i);
    assert s1.session.value.ph[i] == Failing(Failure(0));
    if |s1.session.value.errs| == c.batch {
      s' := s1;
    } else {
      rest, s2 := PushOne(c, s1, left - {i}, i);
      PathAppend(c, s, steps, s1, rest, s2);
      steps := steps + rest;
      rest, s' := FillAndBlock(c, s2, left - {i});
      PathAppend(c, s, steps, s2, rest, s');
      steps := steps + rest;
    }
  }

  lemma SomeMember(left: set<nat>) returns (i: nat)
    requires |left| > 0
    ensures i in left && |left - {i}| == |left| - 1
  {
    i :| i in left;
  }

  lemma OpenAndDispatch(c: Config, s0: State) returns (steps: seq<Step>, s': State)
    requires ValidConfig(c) && Initial(c, s0) && Can(c, s0, Begin)
    requires Do(c, s0, Begin).target.Some?
    ensures var s := Do(c, s0, Begin);
            && CalmPath(c, s, steps, s') && Dispatched(c, s', |c.tiles|)
            && s'.session.value.loaded == s.session.value.loaded && s'.target == s.target
  {
    var s := Do(c, s0, Begin);
    BeginIsLive(c, s0);
    var a := MainStep(Open);
    StepKeepsLive(c, s, a);
    OneStep(c, s, a);
    var s1 := Do(c, s, a);
    StepKeepsLive(c, s1, Consume);
    OneStep(c, s1, Consume);
    var s2 := Do(c, s1, Consume);
    PathAppend(c, s, [a], s1, [Consume], s2);
    var rest;
    rest, s' := DispatchAll(c, s2, 0);
    PathAppend(c, s, [a] + [Consume], s2, rest, s');
    steps := [a] + [Consume] + rest;
  }

  lemma Wedges(c: Config, s0: State) returns (steps: seq<Step>, s': State)
    requires ValidConfig(c) && Initial(c, s0) && Can(c, s0, Begin) && Do(c, s0, Begin).target.Some?
    requires |Doomed(c, Do(c, s0, Begin).session.value.loaded)| > c.batch
    ensures CalmPath(c, Do(c, s0, Begin), steps, s') && Wedged(c, s')
  {
    var s := Do(c, s0, Begin);
    var left := Doomed(c, s.session.value.loaded);
    var first, s1 := OpenAndDispatch(c, s0);
    var done := MainStep(LoopDone);
    StepKeepsLive(c, s1, done);
    OneStep(c, s1, done);
    var s2 := Do(c, s1, done);
    PathAppend(c, s, first, s1, [done], s2);
    var rest;
    rest, s' := FillAndBlock(c, s2, left);
    PathAppend(c, s, first + [done], s2, rest, s');
    steps := first + [done] + rest;
  }

  /**
   The exact condition. Undisturbed, a transfer can return from every state it can reach undisturbed if and only
   if at most `batch` of the chunks it still has to move can fail. One more, and there is a schedule after
   which it waits forever.
   */
  lemma ReturnsIffFewCanFail(c: Config, s0: State)
    requires ValidConfig(c) && Initial(c, s0) && Can(c, s0, Begin) && Do(c, s0, Begin).target.Some?
    ensures var s := Do(c, s0, Begin);
            (forall steps, s' :: CalmPath(c, s, steps, s') ==> CanReturn(c, s')) <==>
            |Doomed(c, s.session.value.loaded)| <= c.batch
  {
    var s := Do(c, s0, Begin);
    BeginIsLive(c, s0);
    if |Doomed(c, s.session.value.loaded)| <= c.batch {
      forall steps, s' | CalmPath(c, s, steps, s') ensures CanReturn(c, s') {
        LivePath(c, s, steps, s');
        if HasReturned(s') {
          assert CalmPath(c, s', [], s');
        } else {
          AlwaysReturns(c, s');
        }
      }
    } else {
      var steps, s' := Wedges(c, s0);
      assert !CanReturn(c, s') by {
        if CanReturn(c, s') {
          var more, s2 :| CalmPath(c, s', more, s2) && HasReturned(s2);
          WedgedForever(c, s', more, s2);
        }
      }
    }
  }
}
