/**
 Does processChunks return, if nothing crashes, cancels the context or withholds a response? The error channel holds
 `batch` errors and nobody drains it during wg.Wait, so the answer depends on how many chunks can fail: it always
 returns exactly when at most `batch` can. The progress consumer leaves when it has counted every byte, so it must
 never leave too early either.
 */
module TransferLiveness {
  import opened Prelude
  import opened Chunks
  import opened Transfer
  import opened TransferSafety
  import opened TransferResults
  import opened TransferStore

  /** Steps of a process nobody disturbs: no crash, no cancelled parent, no lost response. */
  predicate Undisturbed(step: Step) {
    || step.Consume?
    || (step.MainStep? && !step.m.Conclude?)
    || (step.ChunkStep? && !step.act.Hang?)
  }

  /** The chunk's bytes have been reported to the progress consumer. */
  predicate Paid(p: Phase) {
    p.Reported? || p.Saving? || p.Succeeded? || p.Skipped?
  }

  /** Bytes of the first n chunks not reported yet. */
  function Owed(tiles: seq<Chunk>, ph: seq<Phase>, n: nat): nat
    requires n <= |ph| == |tiles|
  {
    if n == 0 then 0 else Owed(tiles, ph, n - 1) + if Paid(ph[n - 1]) then 0 else tiles[n - 1].size
  }

  lemma {:induction false} OwedUpdate(tiles: seq<Chunk>, ph: seq<Phase>, n: nat, i: nat, p: Phase)
    requires n <= |ph| == |tiles| && i < |ph|
    ensures Owed(tiles, ph[i := p], n) + (if i < n && !Paid(ph[i]) then tiles[i].size else 0)
            == Owed(tiles, ph, n) + (if i < n && !Paid(p) then tiles[i].size else 0)
  {
    if n > 0 {
      OwedUpdate(tiles, ph, n - 1, i, p);
    }
  }

  lemma {:induction false} OwedAtLeast(tiles: seq<Chunk>, ph: seq<Phase>, n: nat, i: nat)
    requires i < n <= |ph| == |tiles| && !Paid(ph[i])
    ensures Owed(tiles, ph, n) >= tiles[i].size
  {
    if i < n - 1 {
      OwedAtLeast(tiles, ph, n - 1, i);
    }
  }

  lemma {:induction false} OwedAtStart(c: Config, ph: seq<Phase>, n: nat)
    requires ValidConfig(c) && n <= |ph| == |c.tiles|
    requires forall i | 0 <= i < |ph| :: ph[i].NotReached?
    ensures Owed(c.tiles, ph, n) == if n == 0 then 0 else c.tiles[n - 1].End()
  {
    ConfigFacts(c);
    if n > 1 {
      OwedAtStart(c, ph, n - 1);
      assert c.tiles[n - 2].End() == c.tiles[n - 1].off;
    }
  }

  /** Conservation: bytes counted, bytes in the channel and bytes still owed make up the file. */
  ghost predicate ProgressSound(c: Config, ss: Session)
    requires |ss.ph| == |c.tiles|
  {
    && (ss.main.Opening? ==> ss.progress == [] && ss.consumer == Some(0))
    && (forall k | 1 <= k < |ss.progress| :: ss.progress[k] > 0)
    && (match ss.consumer
        case Some(sent) =>
          c.quiet ||
          (&& sent + Total(ss.progress) + Owed(c.tiles, ss.ph, |ss.ph|) == |c.source|
           && (sent == |c.source| ==> ss.main.Opening? || ss.progress != []))
        case None => !c.quiet && ss.progress == [] && Owed(c.tiles, ss.ph, |ss.ph|) == 0)
  }

  predicate Bad(p: Phase) {
    p.Failing? || p.Failed?
  }

  /** The chunks that this session may see fail: those that may fail and were not completed before. */
  function Doomed(c: Config, loaded: set<int>): set<nat> {
    set i | 0 <= i < |c.tiles| && i in c.mayFail && c.tiles[i].off !in loaded
  }

  function FailedSet(ph: seq<Phase>): set<nat> {
    set i | 0 <= i < |ph| && ph[i].Failed?
  }

  ghost predicate ErrorsBounded(c: Config, ss: Session)
    requires |ss.ph| == |c.tiles|
  {
    && |ss.errs| <= |FailedSet(ss.ph)|
    && (if ss.mem.Some? then ss.loaded <= ss.mem.value.completed else ss.loaded == {})
    && (forall i | 0 <= i < |ss.ph| ::
          && (Bad(ss.ph[i]) ==> i in c.mayFail)
          && (!ss.ph[i].NotReached? && !ss.ph[i].Skipped? ==> c.tiles[i].off !in ss.loaded))
  }

  predicate PhaseLive(c: Config, p: Phase) {
    && !p.Hung? && !p.Untaken? && !p.Cancelled?
    && (p.Working? || p.Sending? ==> p.attempt <= c.maxRetries)
  }

  ghost predicate LiveSession(c: Config, ss: Session) {
    && !ss.ctxDone && !ss.parentDone && !ss.main.Returned? && !ss.main.Concluded?
    && Control(c, ss) && SlotsSound(c, ss) && ProgressSound(c, ss) && ErrorsBounded(c, ss)
    && (ss.main.Reporting? ==> ss.main.next < |c.tiles|)
    && (forall i | 0 <= i < |ss.ph| :: PhaseLive(c, ss.ph[i]))
    && (forall i | 0 <= i < |ss.ph| :: ss.ph[i].Saving? ==> ss.mem.Some?)
    && (forall i | 0 <= i < |ss.ph| && ss.ph[i].Sending? :: ss.ph[i].landed <= c.tiles[i].size)
  }

  ghost predicate Live(c: Config, s: State) {
    s.session.Some? && s.target.Some? && LiveSession(c, s.session.value)
  }

  predicate HasReturned(s: State) {
    s.session.Some? && s.session.value.main.Returned?
  }

  // ---- a live session stays live until it returns

  lemma ChunkKeepsProgress(c: Config, target: Option<seq<byte>>, ss: Session, i: nat, act: ChunkAct)
    requires CanChunk(c, target, ss, i, act) && !act.Hang? && !ss.ctxDone && !ss.main.Opening?
    requires |ss.ph| == |c.tiles| && ProgressSound(c, ss) && c.tiles[i].size > 0
    ensures ProgressSound(c, ChunkDo(c, ss, i, act))
  {
    if act.Report? {
      ReportKeepsProgress(c, target, ss, i);
    } else {
      var p' := NextPhase(c, ss.mem, i, ss.ph[i], act);
      OwedUpdate(c.tiles, ss.ph, |ss.ph|, i, p');
      assert Paid(ss.ph[i]) == Paid(p');
    }
  }

  lemma ReportKeepsProgress(c: Config, target: Option<seq<byte>>, ss: Session, i: nat)
    requires CanChunk(c, target, ss, i, Report) && !ss.ctxDone && !ss.main.Opening?
    requires |ss.ph| == |c.tiles| && ProgressSound(c, ss) && c.tiles[i].size > 0
    ensures ProgressSound(c, ChunkDo(c, ss, i, Report))
  {
    var size := c.tiles[i].size;
    OwedUpdate(c.tiles, ss.ph, |ss.ph|, i, Reported);
    TotalSnoc(ss.progress, size);
    OwedAtLeast(c.tiles, ss.ph, |ss.ph|, i);
    assert ChunkDo(c, ss, i, Report).progress == ss.progress + [size];
    assert ChunkDo(c, ss, i, Report).ph == ss.ph[i := Reported];
  }

  lemma FailedSetGrows(ph: seq<Phase>, i: nat, p: Phase)
    requires i < |ph| && !ph[i].Failed?
    ensures FailedSet(ph[i := p]) == FailedSet(ph) + if p.Failed? then {i} else {}
    ensures |FailedSet(ph[i := p])| == |FailedSet(ph)| + if p.Failed? then 1 else 0
  {
    assert FailedSet(ph[i := p]) == FailedSet(ph) + if p.Failed? then {i} else {};
  }

  /** What a live phase may turn into. */
  lemma NextPhaseLive(c: Config, target: Option<seq<byte>>, ss: Session, i: nat, act: ChunkAct)
    requires CanChunk(c, target, ss, i, act) && !ss.ctxDone && !ss.parentDone && !act.Hang?
    requires PhaseLive(c, ss.ph[i]) && (Bad(ss.ph[i]) ==> i in c.mayFail)
    ensures var p, p' := ss.ph[i], NextPhase(c, ss.mem, i, ss.ph[i], act);
            && PhaseLive(c, p') && !p'.NotReached? && !p'.Skipped? && !p.NotReached? && !p.Skipped? && !p.Failed?
            && (Bad(p') ==> i in c.mayFail)
            && (p'.Failed? <==> act.PushError?)
            && (p'.Saving? ==> act.Record? && ss.mem.Some?)
            && (p'.Sending? ==> p'.landed <= c.tiles[i].size)
  {
  }

  lemma ChunkKeepsErrors(c: Config, target: Option<seq<byte>>, ss: Session, i: nat, act: ChunkAct)
    requires CanChunk(c, target, ss, i, act) && LiveSession(c, ss) && !act.Hang?
    ensures ErrorsBounded(c, ChunkDo(c, ss, i, act))
  {
    var p' := NextPhase(c, ss.mem, i, ss.ph[i], act);
    NextPhaseLive(c, target, ss, i, act);
    FailedSetGrows(ss.ph, i, p');
    assert |NextErrs(ss.errs, ss.ph[i], act)| <= |ss.errs| + if act.PushError? then 1 else 0;
    ErrorsNext(c, ss, ChunkDo(c, ss, i, act), i, p');
  }

  lemma ErrorsNext(c: Config, ss: Session, ss': Session, i: nat, p: Phase)
    requires |ss.ph| == |c.tiles| && ErrorsBounded(c, ss) && i < |ss.ph| && !ss.ph[i].NotReached? && !ss.ph[i].Skipped?
    requires ss'.ph == ss.ph[i := p] && ss'.loaded == ss.loaded && |ss'.errs| <= |FailedSet(ss'.ph)|
    requires ss.mem.Some? ==> ss'.mem.Some? && ss.mem.value.completed <= ss'.mem.value.completed
    requires (ss.mem.None? ==> ss'.mem.None?) && (Bad(p) ==> i in c.mayFail)
    ensures ErrorsBounded(c, ss')
  {
  }

  lemma ChunkKeepsLive(c: Config, s: State, i: nat, act: ChunkAct)
    requires ValidConfig(c) && Can(c, s, ChunkStep(i, act)) && Live(c, s) && !act.Hang?
    ensures Live(c, Do(c, s, ChunkStep(i, act)))
  {
    ChunkKeepsSession(c, s.target, s.session.value, i, act, ChunkDo(c, s.session.value, i, act));
  }

  lemma ChunkKeepsSession(c: Config, target: Option<seq<byte>>, ss: Session, i: nat, act: ChunkAct, ss': Session)
    requires ValidConfig(c) && CanChunk(c, target, ss, i, act) && LiveSession(c, ss) && !act.Hang?
    requires ss' == ChunkDo(c, ss, i, act)
    ensures LiveSession(c, ss')
  {
    ChunkKeepsControl(c, target, ss, i, act);
    ChunkKeepsSlots(c, target, ss, i, act);
    assert c.tiles[i].size > 0 by { ConfigFacts(c); }
    ChunkKeepsProgress(c, target, ss, i, act);
    ChunkKeepsErrors(c, target, ss, i, act);
    ChunkKeepsPhases(c, target, ss, i, act, ss');
  }

  lemma ChunkKeepsPhases(c: Config, target: Option<seq<byte>>, ss: Session, i: nat, act: ChunkAct, ss': Session)
    requires CanChunk(c, target, ss, i, act) && LiveSession(c, ss) && !act.Hang?
    requires ss' == ChunkDo(c, ss, i, act)
    ensures forall j | 0 <= j < |ss'.ph| :: PhaseLive(c, ss'.ph[j])
    ensures forall j | 0 <= j < |ss'.ph| :: ss'.ph[j].Saving? ==> ss'.mem.Some?
    ensures forall j | 0 <= j < |ss'.ph| && ss'.ph[j].Sending? :: ss'.ph[j].landed <= c.tiles[j].size
  {
    NextPhaseLive(c, target, ss, i, act);
    assert ss.mem.Some? ==> ss'.mem.Some?;
  }

  lemma SkipKeepsProgress(c: Config, ss: Session, n: nat)
    requires ValidConfig(c) && LiveSession(c, ss) && ss.main == Reporting(n)
    ensures ProgressSound(c, MainDo(c, ss, ReportSkipped))
  {
    ConfigFacts(c);
    assert ss.ph[n].NotReached?;
    OwedUpdate(c.tiles, ss.ph, |ss.ph|, n, Skipped);
    TotalSnoc(ss.progress, c.tiles[n].size);
    OwedAtLeast(c.tiles, ss.ph, |ss.ph|, n);
  }

  lemma MainKeepsProgress(c: Config, target: Option<seq<byte>>, ss: Session, m: MainAct)
    requires ValidConfig(c) && CanMain(c, target, ss, m) && LiveSession(c, ss) && !m.Conclude?
    ensures MainDo(c, ss, m).main.Returned? || ProgressSound(c, MainDo(c, ss, m))
  {
    match m
    case Open => TotalSnoc(ss.progress, 0);
    case Spawn => OwedUpdate(c.tiles, ss.ph, |ss.ph|, ss.main.next, Queued);
    case ReportSkipped => SkipKeepsProgress(c, ss, ss.main.next);
    case _ =>
  }

  lemma DispatchKeepsErrors(c: Config, ss: Session, n: nat, p: Phase, ss': Session)
    requires |ss.ph| == |c.tiles| && ErrorsBounded(c, ss) && n < |ss.ph| && ss.ph[n].NotReached?
    requires p.Skipped? || (p.Queued? && c.tiles[n].off !in ss.loaded)
    requires ss'.ph == ss.ph[n := p] && ss'.errs == ss.errs && ss'.mem == ss.mem && ss'.loaded == ss.loaded
    ensures ErrorsBounded(c, ss')
  {
    FailedSetGrows(ss.ph, n, p);
  }

  lemma MainKeepsErrors(c: Config, target: Option<seq<byte>>, ss: Session, m: MainAct)
    requires CanMain(c, target, ss, m) && !m.Conclude?
    requires |ss.ph| == |c.tiles| && Frontier(ss) && ErrorsBounded(c, ss)
    ensures MainDo(c, ss, m).main.Returned? || ErrorsBounded(c, MainDo(c, ss, m))
  {
    if m.Spawn? {
      DispatchKeepsErrors(c, ss, ss.main.next, Queued, MainDo(c, ss, m));
    } else if m.ReportSkipped? {
      DispatchKeepsErrors(c, ss, ss.main.next, Skipped, MainDo(c, ss, m));
    }
  }

  lemma MainKeepsPhases(c: Config, target: Option<seq<byte>>, ss: Session, m: MainAct, ss': Session)
    requires CanMain(c, target, ss, m) && LiveSession(c, ss) && ss' == MainDo(c, ss, m)
    ensures forall j | 0 <= j < |ss'.ph| :: PhaseLive(c, ss'.ph[j])
    ensures forall j | 0 <= j < |ss'.ph| :: ss'.ph[j].Saving? ==> ss'.mem.Some?
    ensures forall j | 0 <= j < |ss'.ph| && ss'.ph[j].Sending? :: ss'.ph[j].landed <= c.tiles[j].size
  {
  }

  lemma MainKeepsLive(c: Config, s: State, m: MainAct)
    requires ValidConfig(c) && Can(c, s, MainStep(m)) && Live(c, s) && !m.Conclude?
    ensures var s' := Do(c, s, MainStep(m)); HasReturned(s') || Live(c, s')
  {
    var ss := s.session.value;
    MainKeepsControl(c, s.target, ss, m);
    MainKeepsSlots(c, s.target, ss, m);
    MainKeepsProgress(c, s.target, ss, m);
    MainKeepsErrors(c, s.target, ss, m);
    MainKeepsPhases(c, s.target, ss, m, MainDo(c, ss, m));
  }

  lemma ConsumeKeepsProgress(c: Config, ss: Session)
    requires |ss.ph| == |c.tiles| && ProgressSound(c, ss) && ss.consumer.Some? && ss.progress != []
    ensures ProgressSound(c, Consumed(c, ss))
  {
    var rest := ss.progress[1..];
    TotalOfNats(ss.progress);
    assert forall k | 0 <= k < |rest| :: rest[k] == ss.progress[k + 1];
    if rest != [] {
      TotalOfNats(rest);
    }
  }

  lemma ConsumeKeepsLive(c: Config, s: State)
    requires ValidConfig(c) && Can(c, s, Consume) && Live(c, s)
    ensures Live(c, Do(c, s, Consume))
  {
    ConsumeKeepsProgress(c, s.session.value);
  }

  lemma StepKeepsLive(c: Config, s: State, step: Step)
    requires ValidConfig(c) && Can(c, s, step) && Live(c, s) && Undisturbed(step)
    ensures HasReturned(Do(c, s, step)) || Live(c, Do(c, s, step))
  {
    match step
    case MainStep(m) => MainKeepsLive(c, s, m);
    case ChunkStep(i, act) => ChunkKeepsLive(c, s, i, act);
    case Consume => ConsumeKeepsLive(c, s);
  }

  lemma NewSessionControl(c: Config, disk: Option<set<int>>)
    ensures Control(c, NewSession(c, disk)) && SlotsSound(c, NewSession(c, disk))
  {
    NobodyHolds(NewSession(c, disk).ph);
  }

  lemma NewSessionProgress(c: Config, disk: Option<set<int>>)
    requires ValidConfig(c)
    ensures ProgressSound(c, NewSession(c, disk)) && ErrorsBounded(c, NewSession(c, disk))
  {
    var ss := NewSession(c, disk);
    OwedAtStart(c, ss.ph, |ss.ph|);
    ConfigFacts(c);
  }

  lemma BeginIsLive(c: Config, s: State)
    requires ValidConfig(c) && Initial(c, s) && Can(c, s, Begin) && Do(c, s, Begin).target.Some?
    ensures Live(c, Do(c, s, Begin))
  {
    NewSessionControl(c, s.disk);
    NewSessionProgress(c, s.disk);
  }

  // ---- a measure that every undisturbed step lowers

  /** Steps one attempt of chunk i can take, at most. */
  function AttemptCost(c: Config, i: nat): nat {
    if i < |c.tiles| then c.tiles[i].size + 2 else 2
  }

  function AttemptsLeft(c: Config, attempt: nat, cost: nat): nat {
    (if attempt <= c.maxRetries then c.maxRetries - attempt else 0) * cost
  }

  function Rank(c: Config, i: nat, p: Phase): nat {
    var w := AttemptCost(c, i);
    match p
    case NotReached => AttemptsLeft(c, 0, w) + w + 6
    case Queued => AttemptsLeft(c, 0, w) + w + 5
    case Working(a) => AttemptsLeft(c, a, w) + w + 4
    case Sending(a, landed) => AttemptsLeft(c, a, w) + 5 + (if landed <= w - 2 then w - 2 - landed else 0)
    case Hung(_) => 2
    case Acked => 4
    case Reported => 2
    case Saving => 1
    case Failing(_) => 1
    case _ => 0
  }

  function RankSum(c: Config, ph: seq<Phase>, n: nat): nat
    requires n <= |ph|
  {
    if n == 0 then 0 else RankSum(c, ph, n - 1) + Rank(c, n - 1, ph[n - 1])
  }

  lemma {:induction false} RankSumUpdate(c: Config, ph: seq<Phase>, n: nat, i: nat, p: Phase)
    requires i < n <= |ph|
    ensures RankSum(c, ph[i := p], n) + Rank(c, i, ph[i]) == RankSum(c, ph, n) + Rank(c, i, p)
  {
    if i < n - 1 {
      RankSumUpdate(c, ph, n - 1, i, p);
    } else {
      RankSumSame(c, ph, n - 1, i, p);
    }
  }

  lemma {:induction false} RankSumSame(c: Config, ph: seq<Phase>, n: nat, i: nat, p: Phase)
    requires n <= i < |ph|
    ensures RankSum(c, ph[i := p], n) == RankSum(c, ph, n)
  {
    if n > 0 {
      RankSumSame(c, ph, n - 1, i, p);
    }
  }

  function MainRank(m: Main): nat {
    match m
    case Opening => 5
    case Looping(_) => 3
    case Reporting(_) => 2
    case Joining => 2
    case Finishing => 1
    case _ => 0
  }

  function Measure(c: Config, s: State): nat {
    match s.session
    case None => 0
    case Some(ss) => MainRank(ss.main) + RankSum(c, ss.ph, |ss.ph|) + |ss.progress|
  }

  lemma NextAttemptCheaper(c: Config, attempt: nat, cost: nat)
    requires attempt < c.maxRetries
    ensures AttemptsLeft(c, attempt, cost) == AttemptsLeft(c, attempt + 1, cost) + cost
  {
    var n: nat := c.maxRetries - attempt;
    TimesMonotone(n, n, cost);
    assert (n - 1) * cost == n * cost - cost;
  }

  lemma ChunkRankFalls(c: Config, target: Option<seq<byte>>, ss: Session, i: nat, act: ChunkAct)
    requires CanChunk(c, target, ss, i, act) && LiveSession(c, ss) && !act.Hang?
    ensures var p, p' := ss.ph[i], NextPhase(c, ss.mem, i, ss.ph[i], act);
            Rank(c, i, p') + (if act.Report? then 1 else 0) < Rank(c, i, p)
  {
    var p := ss.ph[i];
    if act.AttemptFails? && p.attempt < c.maxRetries {
      NextAttemptCheaper(c, p.attempt, AttemptCost(c, i));
    }
  }

  lemma MeasureFalls(c: Config, s: State, step: Step)
    requires ValidConfig(c) && Can(c, s, step) && Live(c, s) && Undisturbed(step)
    ensures Measure(c, Do(c, s, step)) < Measure(c, s)
  {
    var ss := s.session.value;
    match step
    case MainStep(m) =>
      if m.Spawn? || m.ReportSkipped? {
        RankSumUpdate(c, ss.ph, |ss.ph|, ss.main.next, if m.Spawn? then Queued else Skipped);
      }
    case ChunkStep(i, act) =>
      ChunkRankFalls(c, s.target, ss, i, act);
      RankSumUpdate(c, ss.ph, |ss.ph|, i, NextPhase(c, ss.mem, i, ss.ph[i], act));
    case Consume =>
  }

  // ---- some step is always possible

  lemma {:induction false} SomeHolder(ph: seq<Phase>) returns (j: nat)
    requires CountHolding(ph) > 0
    ensures j < |ph| && Holding(ph[j])
  {
    var n := |ph| - 1;
    if Holding(ph[n]) {
      j := n;
    } else {
      j := SomeHolder(ph[..n]);
    }
  }

  /** Room in the progress channel, or a consumer to make room. */
  lemma ProgressMoves(c: Config, s: State, i: nat)
    requires ValidConfig(c) && Live(c, s) && i < |c.tiles| && !Paid(s.session.value.ph[i])
    ensures RoomForProgress(c, s.session.value) || Can(c, s, Consume)
  {
    ConfigFacts(c);
    var ss := s.session.value;
    OwedAtLeast(c.tiles, ss.ph, |ss.ph|, i);
  }

  /** With at most `batch` chunks that can fail, a failing one finds room in the error channel. */
  lemma RoomForError(c: Config, ss: Session, i: nat)
    requires LiveSession(c, ss) && i < |c.tiles| && ss.ph[i].Failing? && |Doomed(c, ss.loaded)| <= c.batch
    ensures |ss.errs| < c.batch
  {
    var bad := FailedSet(ss.ph) + {i};
    assert bad <= Doomed(c, ss.loaded);
    SubsetSize(bad, Doomed(c, ss.loaded));
    assert i !in FailedSet(ss.ph);
  }

  lemma HolderMoves(c: Config, s: State, j: nat) returns (step: Step)
    requires ValidConfig(c) && Live(c, s) && j < |c.tiles| && Holding(s.session.value.ph[j])
    requires |Doomed(c, s.session.value.loaded)| <= c.batch
    ensures Undisturbed(step) && Can(c, s, step)
  {
    var ss := s.session.value;
    assert PhaseLive(c, ss.ph[j]);
    match ss.ph[j] {
      case Working(_) => step := ChunkStep(j, StartSend);
      case Sending(_, landed) => step := ChunkStep(j, if landed == c.tiles[j].size then Ack else Land(1));
      case Acked =>
        ProgressMoves(c, s, j);
        step := if RoomForProgress(c, ss) then ChunkStep(j, Report) else Consume;
      case Reported => step := ChunkStep(j, Record);
      case Saving => step := ChunkStep(j, SaveOk);
      case Failing(_) =>
        RoomForError(c, ss, j);
        step := ChunkStep(j, PushError);
    }
  }

  lemma MainMoves(c: Config, s: State) returns (step: Step)
    requires ValidConfig(c) && Live(c, s)
    requires s.session.value.main.Joining? ==>
               forall i | 0 <= i < |s.session.value.ph| :: Finished(s.session.value.ph[i])
    ensures Undisturbed(step) && Can(c, s, step)
  {
    var ss := s.session.value;
    match ss.main {
      case Opening => step := MainStep(Open);
      case Looping(n) =>
        step := MainStep(if n >= |c.tiles| then LoopDone
                         else if ss.errs != [] then TakeError
                         else if IsCompleted(ss.mem, c.tiles[n].off) then FindCompleted else Spawn);
      case Reporting(n) =>
        ReportingInRange(c, ss);
        ProgressMoves(c, s, n);
        step := if RoomForProgress(c, ss) then MainStep(ReportSkipped) else Consume;
      case Joining => step := MainStep(Join);
      case Finishing => step := MainStep(Finish(true));
    }
  }

  /** The loop never reports a chunk that is not there. */
  lemma ReportingInRange(c: Config, ss: Session)
    requires LiveSession(c, ss) && ss.main.Reporting?
    ensures ss.main.next < |c.tiles|
  {
  }

  /** No state short of returning is stuck. */
  lemma NeverStuck(c: Config, s: State) returns (step: Step)
    requires ValidConfig(c) && Live(c, s) && |Doomed(c, s.session.value.loaded)| <= c.batch
    ensures Undisturbed(step) && Can(c, s, step)
  {
    var ss := s.session.value;
    if ss.main.Joining? && exists i :: 0 <= i < |ss.ph| && !Finished(ss.ph[i]) {
      var i :| 0 <= i < |ss.ph| && !Finished(ss.ph[i]);
      if Holding(ss.ph[i]) {
        step := HolderMoves(c, s, i);
      } else if ss.slots < c.batch {
        step := ChunkStep(i, Acquire);
      } else {
        var j := SomeHolder(ss.ph);
        step := HolderMoves(c, s, j);
      }
    } else {
      step := MainMoves(c, s);
    }
  }

  /**
   The progress bar leaves exactly when it has everything: once started it is gone if and only if every
   chunk has reported its bytes and none of them is left in the channel. So no sender ever waits for it in vain.
   */
  lemma ConsumerLeavesLast(c: Config, s: State)
    requires ValidConfig(c) && Live(c, s) && !c.quiet && !s.session.value.main.Opening?
    ensures var ss := s.session.value;
            ss.consumer.None? <==> ss.progress == [] && forall i | 0 <= i < |ss.ph| :: Paid(ss.ph[i])
  {
    ConfigFacts(c);
    var ss := s.session.value;
    if ss.consumer.None? {
      forall i | 0 <= i < |ss.ph| ensures Paid(ss.ph[i]) {
        if !Paid(ss.ph[i]) {
          OwedAtLeast(c.tiles, ss.ph, |ss.ph|, i);
        }
      }
    } else if forall i | 0 <= i < |ss.ph| :: Paid(ss.ph[i]) {
      NothingOwed(c.tiles, ss.ph, |ss.ph|);
    }
  }

  lemma {:induction false} NothingOwed(tiles: seq<Chunk>, ph: seq<Phase>, n: nat)
    requires n <= |ph| == |tiles| && forall i | 0 <= i < |ph| :: Paid(ph[i])
    ensures Owed(tiles, ph, n) == 0
  {
    if n > 0 {
      NothingOwed(tiles, ph, n - 1);
    }
  }
}
