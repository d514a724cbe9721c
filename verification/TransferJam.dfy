/**
 Does processChunks return once the parent context is cancelled? Two kinds of wait do not watch the context. One is a
 goroutine's call that processMsg has not taken, of which TransferHang speaks. The other is the loop's own send to
 progressChan, whose consumer leaves with the context. The channel has room for `batch` values after the first, so the
 loop jams exactly when it can meet a completed chunk after filling it.
 */
module TransferJam {
  import opened Prelude
  import opened Transfer
  import opened TransferSafety
  import opened TransferResults
  import opened TransferLiveness
  import opened TransferProcess

  /** A chunk completed in an earlier run has at least `batch` chunks before it. */
  ghost predicate LateCompleted(c: Config, loaded: set<int>) {
    exists i :: c.batch <= i < |c.tiles| && c.tiles[i].off in loaded
  }

  /** The loop waits to send to a full channel that nobody reads. */
  ghost predicate Jammed(c: Config, s: State) {
    && s.session.Some?
    && var ss := s.session.value;
    && ss.main.Reporting? && ss.consumer.None? && |ss.progress| > c.batch
  }

  predicate HasEnded(s: State) {
    s.session.Some? && Ended(s.session.value.main)
  }

  ghost predicate CanEnd(c: Config, s: State) {
    exists steps, s' :: OneProcess(c, s, steps, s') && HasEnded(s')
  }

  lemma StepKeepsJammed(c: Config, s: State, step: Step)
    requires Jammed(c, s) && Can(c, s, step) && !step.Crash?
    ensures Jammed(c, Do(c, s, step))
  {
  }

  /** The jam is for good: only the death of the process ends it. */
  lemma {:induction false} JammedForever(c: Config, s: State, steps: seq<Step>, s': State)
    requires Jammed(c, s) && OneProcess(c, s, steps, s')
    ensures Jammed(c, s') && !HasEnded(s')
    decreases |steps|
  {
    if steps != [] {
      StepKeepsJammed(c, s, steps[0]);
      JammedForever(c, Do(c, s, steps[0]), steps[1..], s');
    }
  }

  // ---- how much can be in the channel

  function PaidSet(ph: seq<Phase>): set<nat> {
    set i | 0 <= i < |ph| && Paid(ph[i])
  }

  ghost predicate Roomy(c: Config, ss: Session, loaded: set<int>) {
    && |ss.ph| == |c.tiles| && ss.loaded == loaded
    && |ss.progress| <= |PaidSet(ss.ph)| + (if ss.main.Opening? then 0 else 1)
    && (ss.main.Reporting? ==> ss.main.next < |c.tiles|)
    && (forall i | 0 <= i < |ss.ph| :: ss.ph[i].Saving? ==> ss.mem.Some?)
  }

  lemma PaidGrows(ph: seq<Phase>, i: nat, p: Phase)
    requires i < |ph| && (Paid(ph[i]) ==> Paid(p))
    ensures |PaidSet(ph[i := p])| == |PaidSet(ph)| + if Paid(p) && !Paid(ph[i]) then 1 else 0
  {
    if Paid(p) {
      assert PaidSet(ph[i := p]) == PaidSet(ph) + {i};
    } else {
      assert PaidSet(ph[i := p]) == PaidSet(ph);
    }
  }

  lemma PaidStays(c: Config, target: Option<seq<byte>>, ss: Session, i: nat, act: ChunkAct)
    requires CanChunk(c, target, ss, i, act)
    ensures Paid(ss.ph[i]) ==> Paid(NextPhase(c, ss.mem, i, ss.ph[i], act))
    ensures act.Report? ==> !Paid(ss.ph[i]) && Paid(NextPhase(c, ss.mem, i, ss.ph[i], act))
  {
  }

  lemma ChunkKeepsRoomy(c: Config, target: Option<seq<byte>>, ss: Session, i: nat, act: ChunkAct, loaded: set<int>)
    requires Roomy(c, ss, loaded) && CanChunk(c, target, ss, i, act)
    ensures Roomy(c, ChunkDo(c, ss, i, act), loaded)
  {
    PaidStays(c, target, ss, i, act);
    PaidGrows(ss.ph, i, NextPhase(c, ss.mem, i, ss.ph[i], act));
  }

  lemma MainKeepsRoomy(c: Config, target: Option<seq<byte>>, ss: Session, m: MainAct, loaded: set<int>)
    requires Roomy(c, ss, loaded) && Control(c, ss) && CanMain(c, target, ss, m)
    ensures Roomy(c, MainDo(c, ss, m), loaded)
  {
    if m.Spawn? || m.ReportSkipped? {
      assert ss.ph[ss.main.next].NotReached?;
      PaidGrows(ss.ph, ss.main.next, if m.Spawn? then Queued else Skipped);
    }
  }

  /** What every run of the process keeps. */
  ghost predicate Kept(c: Config, s: State, loaded: set<int>) {
    && FilesSound(c, s) && Controlled(c, s) && s.session.Some? && s.target.Some?
    && Roomy(c, s.session.value, loaded)
  }

  lemma StepKeepsKept(c: Config, s: State, step: Step, loaded: set<int>)
    requires ValidConfig(c) && Kept(c, s, loaded) && Can(c, s, step) && !step.Crash?
    ensures Kept(c, Do(c, s, step), loaded)
  {
    StepKeepsFiles(c, s, step);
    StepKeepsControl(c, s, step);
    match step
    case MainStep(m) => MainKeepsRoomy(c, s.target, s.session.value, m, loaded);
    case ChunkStep(i, act) => ChunkKeepsRoomy(c, s.target, s.session.value, i, act, loaded);
    case _ =>
  }

  lemma {:induction false} ProcessKeepsKept(c: Config, s: State, steps: seq<Step>, s': State, loaded: set<int>)
    requires ValidConfig(c) && Kept(c, s, loaded) && OneProcess(c, s, steps, s')
    ensures Kept(c, s', loaded)
    decreases |steps|
  {
    if steps != [] {
      StepKeepsKept(c, s, steps[0], loaded);
      ProcessKeepsKept(c, Do(c, s, steps[0]), steps[1..], s', loaded);
    }
  }

  lemma BeginIsKept(c: Config, s0: State)
    requires ValidConfig(c) && Initial(c, s0) && Can(c, s0, Begin) && Do(c, s0, Begin).target.Some?
    ensures Kept(c, Do(c, s0, Begin), Do(c, s0, Begin).session.value.loaded)
  {
    StepKeepsFiles(c, s0, Begin);
    StepKeepsControl(c, s0, Begin);
  }

  lemma {:induction false} PaidAtMost(ph: seq<Phase>, n: nat)
    requires n <= |ph| && forall i | n <= i < |ph| :: !Paid(ph[i])
    ensures |PaidSet(ph)| <= n
    decreases n
  {
    if n == 0 {
      assert PaidSet(ph) == {};
    } else {
      var unpaid := ph[n - 1 := NotReached];
      PaidAtMost(unpaid, n - 1);
      PaidGrows(unpaid, n - 1, ph[n - 1]);
      assert unpaid[n - 1 := ph[n - 1]] == ph;
    }
  }

  /** Before chunk n there is at most one value for each chunk, and the first. */
  lemma RoomBefore(c: Config, s: State, loaded: set<int>)
    requires Kept(c, s, loaded) && s.session.value.main.Reporting?
    ensures |s.session.value.progress| <= s.session.value.main.next + 1
    ensures c.tiles[s.session.value.main.next].off in loaded
  {
    var ss := s.session.value;
    var n := ss.main.next;
    assert forall i | n <= i < |ss.ph| :: ss.ph[i].NotReached?;
    PaidAtMost(ss.ph, n);
  }

  // ---- a cancelled process that does not jam can return if all its calls were taken

  /** Every call that was made was taken by processMsg. */
  ghost predicate AllTaken(s: State) {
    s.session.Some? && forall i | 0 <= i < |s.session.value.ph| :: !s.session.value.ph[i].Untaken?
  }

  predicate Stalls(step: Step) {
    step.ChunkStep? && step.act.Stall?
  }

  lemma StepKeepsTaken(c: Config, s: State, step: Step)
    requires AllTaken(s) && Can(c, s, step) && !step.Crash? && !Stalls(step)
    ensures AllTaken(Do(c, s, step))
  {
  }

  ghost predicate Cancelled(c: Config, s: State, loaded: set<int>) {
    && Kept(c, s, loaded) && s.session.value.ctxDone && s.session.value.parentDone
    && AllTaken(s)
  }

  lemma StepKeepsCancelled(c: Config, s: State, step: Step, loaded: set<int>)
    requires ValidConfig(c) && Cancelled(c, s, loaded) && Can(c, s, step) && (step.MainStep? || step.ChunkStep?)
    requires !Stalls(step)
    ensures Cancelled(c, Do(c, s, step), loaded)
  {
    StepKeepsKept(c, s, step, loaded);
    StepKeepsTaken(c, s, step);
  }

  lemma EndsLater(c: Config, s: State, step: Step)
    requires Can(c, s, step) && !step.Crash? && CanEnd(c, Do(c, s, step))
    ensures CanEnd(c, s)
  {
    var steps, s' :| OneProcess(c, Do(c, s, step), steps, s') && HasEnded(s');
    RunStep(c, s, step);
    JoinRuns(c, s, [step], Do(c, s, step), steps, s');
  }

  lemma EndsNow(c: Config, s: State)
    requires HasEnded(s)
    ensures CanEnd(c, s)
  {
    assert OneProcess(c, s, [], s);
  }

  function LoopLeft(c: Config, m: Main): nat {
    match m
    case Opening => 2 * |c.tiles| + 4
    case Looping(n) => if n < |c.tiles| then 2 * (|c.tiles| - n) + 3 else 3
    case Reporting(n) => if n < |c.tiles| then 2 * (|c.tiles| - n) + 2 else 2
    case _ => 0
  }

  /** The loop's next step, and whether it goes on. */
  lemma LoopMoves(c: Config, s: State, loaded: set<int>) returns (m: MainAct)
    requires ValidConfig(c) && Cancelled(c, s, loaded) && !LateCompleted(c, loaded)
    requires s.session.value.main.Opening? || s.session.value.main.Looping? || s.session.value.main.Reporting?
    ensures CanMain(c, s.target, s.session.value, m)
    ensures var main' := MainDo(c, s.session.value, m).main;
            main'.Returned? || LoopLeft(c, main') < LoopLeft(c, s.session.value.main)
  {
    var ss := s.session.value;
    match ss.main
    case Opening =>
      assert PaidSet(ss.ph) == {};
      m := Open;
    case Looping(n) =>
      m := if n >= |c.tiles| then LoopDone
           else if ss.errs != [] then TakeError
           else if IsCompleted(ss.mem, c.tiles[n].off) then FindCompleted
           else Spawn;
    case Reporting(n) =>
      RoomBefore(c, s, loaded);
      m := ReportSkipped;
  }

  function FinishLeft(c: Config, i: nat, p: Phase): nat {
    match p
    case NotReached => 8
    case Queued => 7
    case Working(_) => 6
    case Sending(_, landed) => if i < |c.tiles| && landed < c.tiles[i].size then 5 else 4
    case Hung(_) => 2
    case Acked => 3
    case Reported => 2
    case Saving => 1
    case Failing(_) => 1
    case _ => 0
  }

  lemma ChunkMoves(c: Config, s: State, i: nat, loaded: set<int>) returns (act: ChunkAct)
    requires ValidConfig(c) && Cancelled(c, s, loaded) && i < |c.tiles|
    requires !Finished(s.session.value.ph[i]) && !s.session.value.ph[i].NotReached?
    ensures CanChunk(c, s.target, s.session.value, i, act) && !act.Stall?
    ensures var p := s.session.value.ph[i];
            FinishLeft(c, i, NextPhase(c, s.session.value.mem, i, p, act)) < FinishLeft(c, i, p)
            && !NextPhase(c, s.session.value.mem, i, p, act).NotReached?
  {
    var p := s.session.value.ph[i];
    assert PhaseSound(c, s.target, i, p) && !p.Untaken?;
    match p
    case Queued => act := GiveUp;
    case Working(_) => act := CtxError;
    case Sending(_, landed) => act := if landed < c.tiles[i].size then Land(c.tiles[i].size - landed) else Ack;
    case Hung(_) => act := HangEnds;
    case Acked => act := SkipReport;
    case Reported => act := Record;
    case Saving => act := SaveOk;
    case Failing(_) => act := DropError;
  }

  /** Waiting for the goroutines, of which the first k are through. */
  ghost predicate Drained(c: Config, s: State, loaded: set<int>, k: nat) {
    && Cancelled(c, s, loaded) && s.session.value.main.Joining? && k <= |c.tiles|
    && (forall j | 0 <= j < k :: Finished(s.session.value.ph[j]))
  }

  lemma {:induction false} DrainsOne(c: Config, s: State, loaded: set<int>, k: nat)
    requires ValidConfig(c) && Drained(c, s, loaded, k) && k < |c.tiles|
    ensures CanEnd(c, s)
    decreases |c.tiles| - k, FinishLeft(c, k, s.session.value.ph[k])
  {
    var ss := s.session.value;
    if Finished(ss.ph[k]) {
      Drains(c, s, loaded, k + 1);
    } else {
      assert !ss.ph[k].NotReached?;
      var act := ChunkMoves(c, s, k, loaded);
      var step := ChunkStep(k, act);
      StepKeepsCancelled(c, s, step, loaded);
      var ss' := Do(c, s, step).session.value;
      assert ss'.ph == ss.ph[k := NextPhase(c, ss.mem, k, ss.ph[k], act)] && ss'.main == ss.main;
      DrainsOne(c, Do(c, s, step), loaded, k);
      EndsLater(c, s, step);
    }
  }

  lemma {:induction false} Drains(c: Config, s: State, loaded: set<int>, k: nat)
    requires ValidConfig(c) && Drained(c, s, loaded, k)
    ensures CanEnd(c, s)
    decreases |c.tiles| - k
  {
    if k < |c.tiles| {
      DrainsOne(c, s, loaded, k);
    } else {
      var join := MainStep(Join);
      StepKeepsCancelled(c, s, join, loaded);
      FinishEnds(c, Do(c, s, join));
      EndsLater(c, s, join);
    }
  }

  lemma FinishEnds(c: Config, s: State)
    requires s.session.Some? && s.session.value.main.Finishing?
    ensures CanEnd(c, s)
  {
    var finish := MainStep(Finish(true));
    EndsNow(c, Do(c, s, finish));
    EndsLater(c, s, finish);
  }

  lemma {:induction false} CancelledEnds(c: Config, s: State, loaded: set<int>)
    requires ValidConfig(c) && Cancelled(c, s, loaded) && !LateCompleted(c, loaded)
    ensures CanEnd(c, s)
    decreases LoopLeft(c, s.session.value.main)
  {
    var main := s.session.value.main;
    if Ended(main) {
      EndsNow(c, s);
    } else if main.Joining? {
      Drains(c, s, loaded, 0);
    } else if main.Finishing? {
      FinishEnds(c, s);
    } else {
      var m := LoopMoves(c, s, loaded);
      var step := MainStep(m);
      StepKeepsCancelled(c, s, step, loaded);
      CancelledEnds(c, Do(c, s, step), loaded);
      EndsLater(c, s, step);
    }
  }

  // ---- the run that jams

  /** The loop is at chunk n, nothing was taken from the channel, and nothing else than sends has happened to it. */
  ghost predicate Filling(c: Config, s: State, loaded: set<int>, n: nat) {
    && s.session.Some? && s.target.Some? && n <= |c.tiles|
    && var ss := s.session.value;
    && ss.main == Looping(n) && |ss.ph| == |c.tiles| && ss.errs == [] && ss.consumer.Some? && !ss.ctxDone
    && ss.slots <= n
    && |ss.progress| == 1 + (if n < c.batch then n else c.batch)
    && (forall j | 0 <= j < |c.tiles| :: IsCompleted(ss.mem, c.tiles[j].off) <==> c.tiles[j].off in loaded)
    && (forall j | n <= j < |c.tiles| :: ss.ph[j].NotReached?) && AllTaken(s)
  }

  lemma TakesStep(c: Config, s: State, steps: seq<Step>, s1: State, step: Step) returns (longer: seq<Step>, s2: State)
    requires OneProcess(c, s, steps, s1) && Can(c, s1, step) && !step.Crash?
    ensures longer == steps + [step] && s2 == Do(c, s1, step) && OneProcess(c, s, longer, s2)
  {
    s2 := Do(c, s1, step);
    RunStep(c, s1, step);
    JoinRuns(c, s, steps, s1, [step], s2);
    longer := steps + [step];
  }

  /** A completed chunk puts its value into the channel. */
  lemma SkipFills(c: Config, s: State, loaded: set<int>, n: nat) returns (steps: seq<Step>, s': State)
    requires ValidConfig(c) && Filling(c, s, loaded, n) && n < |c.tiles| && n < c.batch && c.tiles[n].off in loaded
    ensures OneProcess(c, s, steps, s') && Filling(c, s', loaded, n + 1)
  {
    var s1;
    assert OneProcess(c, s, [], s);
    steps, s1 := TakesStep(c, s, [], s, MainStep(FindCompleted));
    steps, s' := TakesStep(c, s, steps, s1, MainStep(ReportSkipped));
    assert s'.session.value.ph == s.session.value.ph[n := Skipped];
  }

  /** A goroutine on its way to its report. */
  ghost predicate Underway(c: Config, s: State, s0: Session, n: nat, p: Phase) {
    && s.session.Some? && s.target.Some? && n < |c.tiles| == |s0.ph|
    && var ss := s.session.value;
    && ss == s0.(main := Looping(n + 1), ph := s0.ph[n := p], slots := s0.slots + if p.Queued? then 0 else 1)
  }

  lemma UnderwayStep(c: Config, s: State, s0: Session, n: nat, p: Phase, act: ChunkAct)
    requires Underway(c, s, s0, n, p) && CanChunk(c, s.target, s.session.value, n, act)
    requires act.Acquire? || act.StartSend? || act.Land? || act.Ack?
    ensures Underway(c, Do(c, s, ChunkStep(n, act)), s0, n, NextPhase(c, s0.mem, n, p, act))
  {
    assert s0.ph[n := p][n := NextPhase(c, s0.mem, n, p, act)] == s0.ph[n := NextPhase(c, s0.mem, n, p, act)];
  }

  lemma GoesUnderway(c: Config, s: State, steps: seq<Step>, s1: State, s0: Session, n: nat, p: Phase, act: ChunkAct)
    returns (longer: seq<Step>, s2: State)
    requires OneProcess(c, s, steps, s1) && Underway(c, s1, s0, n, p)
    requires CanChunk(c, s1.target, s1.session.value, n, act)
    requires act.Acquire? || act.StartSend? || act.Land? || act.Ack?
    ensures OneProcess(c, s, longer, s2) && Underway(c, s2, s0, n, NextPhase(c, s0.mem, n, p, act))
  {
    longer, s2 := TakesStep(c, s, steps, s1, ChunkStep(n, act));
    UnderwayStep(c, s1, s0, n, p, act);
  }

  /** A goroutine that was just spawned moves its chunk, up to the report. */
  lemma MovesToReport(c: Config, s: State, s0: Session, n: nat) returns (steps: seq<Step>, s': State)
    requires ValidConfig(c) && Underway(c, s, s0, n, Queued) && s0.slots < c.batch && !s0.ctxDone
    ensures OneProcess(c, s, steps, s') && Underway(c, s', s0, n, Acked)
  {
    ConfigFacts(c);
    var size := c.tiles[n].size;
    assert OneProcess(c, s, [], s);
    steps, s' := GoesUnderway(c, s, [], s, s0, n, Queued, Acquire);
    steps, s' := GoesUnderway(c, s, steps, s', s0, n, Working(0), StartSend);
    steps, s' := GoesUnderway(c, s, steps, s', s0, n, Sending(0, 0), Land(size));
    steps, s' := GoesUnderway(c, s, steps, s', s0, n, Sending(0, size), Ack);
  }

  /** A chunk to be moved is moved, and its goroutine puts its value into the channel. */
  lemma MoveFills(c: Config, s: State, loaded: set<int>, n: nat) returns (steps: seq<Step>, s': State)
    requires ValidConfig(c) && Filling(c, s, loaded, n) && n < |c.tiles| && n < c.batch && c.tiles[n].off !in loaded
    ensures OneProcess(c, s, steps, s') && Filling(c, s', loaded, n + 1)
  {
    var ss := s.session.value;
    var s1, s2, more;
    assert OneProcess(c, s, [], s);
    steps, s1 := TakesStep(c, s, [], s, MainStep(Spawn));
    assert Underway(c, s1, ss, n, Queued);
    more, s2 := MovesToReport(c, s1, ss, n);
    JoinRuns(c, s, steps, s1, more, s2);
    steps, s' := TakesStep(c, s, steps + more, s2, ChunkStep(n, Report));
    assert s'.session.value.ph == ss.ph[n := Acked][n := Reported];
  }

  /** With the channel full the loop still passes the chunks that are to be moved. */
  lemma PassNext(c: Config, s: State, loaded: set<int>, n: nat) returns (steps: seq<Step>, s': State)
    requires ValidConfig(c) && Filling(c, s, loaded, n) && n < |c.tiles| && n >= c.batch && c.tiles[n].off !in loaded
    ensures OneProcess(c, s, steps, s') && Filling(c, s', loaded, n + 1)
  {
    assert OneProcess(c, s, [], s);
    steps, s' := TakesStep(c, s, [], s, MainStep(Spawn));
    assert s'.session.value.ph == s.session.value.ph[n := Queued];
  }

  /** Up to the first completed chunk that finds the channel full. */
  lemma {:induction false} FillUp(c: Config, s: State, loaded: set<int>, n: nat, late: nat)
    returns (steps: seq<Step>, s': State, m: nat)
    requires ValidConfig(c) && Filling(c, s, loaded, n) && n <= late
    requires c.batch <= late < |c.tiles| && c.tiles[late].off in loaded
    ensures OneProcess(c, s, steps, s') && Filling(c, s', loaded, m)
    ensures c.batch <= m < |c.tiles| && c.tiles[m].off in loaded
    decreases late - n
  {
    if n >= c.batch && c.tiles[n].off in loaded {
      steps, s', m := [], s, n;
    } else {
      var first, s1;
      if n >= c.batch {
        first, s1 := PassNext(c, s, loaded, n);
      } else if c.tiles[n].off in loaded {
        first, s1 := SkipFills(c, s, loaded, n);
      } else {
        first, s1 := MoveFills(c, s, loaded, n);
      }
      var rest;
      rest, s', m := FillUp(c, s1, loaded, n + 1, late);
      JoinRuns(c, s, first, s1, rest, s');
      steps := first + rest;
    }
  }

  /** There the context is cancelled, and the consumer leaves. */
  lemma CancelJams(c: Config, s: State, loaded: set<int>, m: nat) returns (steps: seq<Step>, s': State)
    requires ValidConfig(c) && Filling(c, s, loaded, m) && c.batch <= m < |c.tiles| && c.tiles[m].off in loaded
    ensures OneProcess(c, s, steps, s') && Jammed(c, s') && s'.session.value.parentDone && AllTaken(s')
  {
    var s1, s2;
    assert OneProcess(c, s, [], s);
    steps, s1 := TakesStep(c, s, [], s, MainStep(FindCompleted));
    steps, s2 := TakesStep(c, s, steps, s1, CancelParent);
    steps, s' := TakesStep(c, s, steps, s2, ConsumerStops);
  }

  lemma CancelCanJam(c: Config, s0: State) returns (steps: seq<Step>, s': State)
    requires ValidConfig(c) && Initial(c, s0) && Can(c, s0, Begin) && Do(c, s0, Begin).target.Some?
    requires LateCompleted(c, Do(c, s0, Begin).session.value.loaded)
    ensures OneProcess(c, Do(c, s0, Begin), steps, s') && Jammed(c, s') && s'.session.value.parentDone && AllTaken(s')
  {
    var s := Do(c, s0, Begin);
    var loaded := s.session.value.loaded;
    var late :| c.batch <= late < |c.tiles| && c.tiles[late].off in loaded;
    assert OneProcess(c, s, [], s);
    var first, s1 := TakesStep(c, s, [], s, MainStep(Open));
    var second, s2, m := FillUp(c, s1, loaded, 0, late);
    var third;
    third, s' := CancelJams(c, s2, loaded, m);
    JoinRuns(c, s, first, s1, second, s2);
    JoinRuns(c, s, first + second, s2, third, s');
    steps := first + second + third;
  }

  // ---- the exact conditions

  /**
   Over every run of the process: the loop can jam exactly when a chunk completed in an earlier run has at least
   `batch` chunks before it.
   */
  lemma JamsIffLateCompleted(c: Config, s0: State)
    requires ValidConfig(c) && Initial(c, s0) && Can(c, s0, Begin) && Do(c, s0, Begin).target.Some?
    ensures var s := Do(c, s0, Begin);
            (exists steps, s' :: OneProcess(c, s, steps, s') && Jammed(c, s')) <==>
            LateCompleted(c, s.session.value.loaded)
  {
    var s := Do(c, s0, Begin);
    var loaded := s.session.value.loaded;
    BeginIsKept(c, s0);
    if LateCompleted(c, loaded) {
      var steps, s' := CancelCanJam(c, s0);
      assert OneProcess(c, s, steps, s') && Jammed(c, s');
    } else if steps, s' :| OneProcess(c, s, steps, s') && Jammed(c, s') {
      ProcessKeepsKept(c, s, steps, s', loaded);
      RoomBefore(c, s', loaded);
      assert LateCompleted(c, loaded);
    }
  }

  /**
   And nothing else stands in the way as long as every call that was made was taken: from every state that the
   process can reach so with its parent cancelled, it can return, if and only if no chunk was completed so late.
   */
  lemma TakenReturnsIff(c: Config, s0: State)
    requires ValidConfig(c) && Initial(c, s0) && Can(c, s0, Begin) && Do(c, s0, Begin).target.Some?
    ensures var s := Do(c, s0, Begin);
            (forall steps, s' :: OneProcess(c, s, steps, s') && AllTaken(s') ==> CancelledCanEnd(c, s'))
            <==> !LateCompleted(c, s.session.value.loaded)
  {
    var s := Do(c, s0, Begin);
    var loaded := s.session.value.loaded;
    BeginIsKept(c, s0);
    if LateCompleted(c, loaded) {
      var steps, s' := CancelCanJam(c, s0);
      assert !CanEnd(c, s') by {
        if CanEnd(c, s') {
          var more, s2 :| OneProcess(c, s', more, s2) && HasEnded(s2);
          JammedForever(c, s', more, s2);
        }
      }
      assert !CancelledCanEnd(c, s');
    } else {
      forall steps, s' | OneProcess(c, s, steps, s') && AllTaken(s') ensures CancelledCanEnd(c, s') {
        ProcessKeepsKept(c, s, steps, s', loaded);
        if s'.session.value.parentDone {
          assert s'.session.value.ctxDone by { ProcessKeepsContext(c, s, steps, s'); }
          CancelledEnds(c, s', loaded);
        }
      }
    }
  }

  ghost predicate CancelledCanEnd(c: Config, s: State) {
    s.session.Some? && s.session.value.parentDone ==> CanEnd(c, s)
  }

  lemma {:induction false} ProcessKeepsContext(c: Config, s: State, steps: seq<Step>, s': State)
    requires s.session.Some? && (s.session.value.parentDone ==> s.session.value.ctxDone) && OneProcess(c, s, steps, s')
    ensures s'.session.Some? && (s'.session.value.parentDone ==> s'.session.value.ctxDone)
    decreases |steps|
  {
    if steps != [] {
      ProcessKeepsContext(c, Do(c, s, steps[0]), steps[1..], s');
    }
  }
}
