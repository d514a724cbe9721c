/**
 How much a crash can make the resume store forget: the offsets recorded in memory and not yet on disk,
 with up to `batch` goroutines inside addCompletedOffset at once.
 */
module TransferStore {
  import opened Prelude
  import opened Transfer
  import opened TransferSafety
  import opened TransferResults
  import opened ResumeStore

  function CountHolding(ph: seq<Phase>): nat {
    if ph == [] then 0
    else CountHolding(ph[..|ph| - 1]) + if Holding(ph[|ph| - 1]) then 1 else 0
  }

  lemma {:induction false} CountUpdate(ph: seq<Phase>, i: nat, p: Phase)
    requires i < |ph|
    ensures CountHolding(ph[i := p]) + (if Holding(ph[i]) then 1 else 0) ==
            CountHolding(ph) + if Holding(p) then 1 else 0
  {
    var n := |ph| - 1;
    if i == n {
      assert ph[i := p][..n] == ph[..n];
    } else {
      assert ph[i := p][..n] == ph[..n][i := p];
      CountUpdate(ph[..n], i, p);
    }
  }

  lemma {:induction false} NobodyHolds(ph: seq<Phase>)
    requires forall i | 0 <= i < |ph| :: !Holding(ph[i])
    ensures CountHolding(ph) == 0
  {
    if ph != [] {
      NobodyHolds(ph[..|ph| - 1]);
    }
  }

  /** The semaphore counts the goroutines inside, and never lets in more than `batch`. */
  ghost predicate SlotsSound(c: Config, ss: Session) {
    ss.slots == CountHolding(ss.ph) && ss.slots <= c.batch
  }

  lemma ChunkKeepsSlots(c: Config, target: Option<seq<byte>>, ss: Session, i: nat, act: ChunkAct)
    requires CanChunk(c, target, ss, i, act) && SlotsSound(c, ss)
    ensures SlotsSound(c, ChunkDo(c, ss, i, act))
  {
    CountUpdate(ss.ph, i, NextPhase(c, ss.mem, i, ss.ph[i], act));
  }

  lemma MainKeepsSlots(c: Config, target: Option<seq<byte>>, ss: Session, m: MainAct)
    requires CanMain(c, target, ss, m) && Control(c, ss) && SlotsSound(c, ss)
    ensures SlotsSound(c, MainDo(c, ss, m))
  {
    if m.Spawn? || m.ReportSkipped? {
      CountUpdate(ss.ph, ss.main.next, if m.Spawn? then Queued else Skipped);
    }
  }

  lemma StepKeepsSlots(c: Config, s: State, step: Step)
    requires ValidConfig(c) && Controlled(c, s) && Can(c, s, step)
    requires s.session.Some? ==> SlotsSound(c, s.session.value)
    ensures var s' := Do(c, s, step); s'.session.Some? ==> SlotsSound(c, s'.session.value)
  {
    match step
    case Begin => NobodyHolds(NewSession(c, s.disk).ph);
    case MainStep(m) => MainKeepsSlots(c, s.target, s.session.value, m);
    case ChunkStep(i, act) => ChunkKeepsSlots(c, s.target, s.session.value, i, act);
    case _ =>
  }

  /** The offsets whose goroutine is inside addCompletedOffset and has yet to save, among the first n chunks. */
  ghost function Saving(c: Config, ph: seq<Phase>, n: nat): set<int>
    requires n <= |ph| == |c.tiles|
  {
    set i | 0 <= i < n && ph[i].Saving? :: c.tiles[i].off as int
  }

  lemma CountNext(ph: seq<Phase>, n: nat)
    requires 0 < n <= |ph|
    ensures CountHolding(ph[..n]) == CountHolding(ph[..n - 1]) + if Holding(ph[n - 1]) then 1 else 0
  {
    assert ph[..n][..n - 1] == ph[..n - 1];
  }

  lemma SavingNext(c: Config, ph: seq<Phase>, n: nat)
    requires 0 < n <= |ph| == |c.tiles|
    ensures |Saving(c, ph, n)| <= |Saving(c, ph, n - 1)| + if ph[n - 1].Saving? then 1 else 0
  {
    var last := if ph[n - 1].Saving? then {c.tiles[n - 1].off as int} else {};
    forall x | x in Saving(c, ph, n) ensures x in Saving(c, ph, n - 1) + last {
    }
    SubsetSize(Saving(c, ph, n), Saving(c, ph, n - 1) + last);
  }

  lemma {:induction false} SavingAtMostHolding(c: Config, ph: seq<Phase>, n: nat)
    requires n <= |ph| == |c.tiles|
    ensures |Saving(c, ph, n)| <= CountHolding(ph[..n])
  {
    if n > 0 {
      SavingAtMostHolding(c, ph, n - 1);
      CountNext(ph, n);
      SavingNext(c, ph, n);
    }
  }

  ghost function Unsaved(s: State): set<int>
    requires s.session.Some? && s.session.value.mem.Some? && s.disk.Some?
  {
    s.session.value.mem.value.completed - s.disk.value
  }

  /** The store is in use and no save has failed. */
  predicate Healthy(s: State) {
    s.session.Some? && s.session.value.mem.Some? && s.disk.Some? && !s.session.value.saveFailed
  }

  /**
   Before the batch-th record nothing is saved and everything unsaved is pending; from then on whatever is
   unsaved is one of the first batch-1 records or belongs to a goroutine about to save, and if there is no
   such goroutine, everything is on disk.
   */
  ghost predicate StoreBounded(c: Config, s: State)
    requires c.batch >= 1
  {
    Healthy(s) && |s.session.value.ph| == |c.tiles| ==>
      var ss := s.session.value;
      var pending := ss.mem.value.pending;
      var saving := Saving(c, ss.ph, |ss.ph|);
      if |pending| < c.batch then Unsaved(s) <= Elements(pending) && saving == {}
      else Unsaved(s) <= Elements(pending[..c.batch - 1]) + saving && (saving == {} ==> Unsaved(s) == {})
  }

  lemma RecordKeepsStoreBounded(c: Config, s: State, i: nat)
    requires ValidConfig(c) && Controlled(c, s) && StoreBounded(c, s) && Can(c, s, ChunkStep(i, Record))
    requires Healthy(s)
    ensures StoreBounded(c, Do(c, s, ChunkStep(i, Record)))
  {
    var ss, s' := s.session.value, Do(c, s, ChunkStep(i, Record));
    var ss' := s'.session.value;
    var off := c.tiles[i].off as int;
    var pending, pending' := ss.mem.value.pending, ss'.mem.value.pending;
    assert Unsaved(s') <= Unsaved(s) + {off};
    assert Elements(pending') == Elements(pending) + {off};
    if |pending'| >= c.batch {
      assert off in Saving(c, ss'.ph, |ss'.ph|) by { assert ss'.ph[i].Saving?; }
      assert Saving(c, ss.ph, |ss.ph|) <= Saving(c, ss'.ph, |ss'.ph|);
      assert pending'[..c.batch - 1] == pending[..c.batch - 1];
      if |pending| < c.batch {
        assert pending[..c.batch - 1] == pending;
      }
    } else {
      assert Saving(c, ss'.ph, |ss'.ph|) == Saving(c, ss.ph, |ss.ph|);
    }
  }

  lemma SaveKeepsStoreBounded(c: Config, s: State, i: nat)
    requires ValidConfig(c) && Controlled(c, s) && StoreBounded(c, s) && Can(c, s, ChunkStep(i, SaveOk))
    requires FilesSound(c, s)
    ensures StoreBounded(c, Do(c, s, ChunkStep(i, SaveOk)))
  {
    var s', ss := Do(c, s, ChunkStep(i, SaveOk)), s.session.value;
    if Healthy(s') {
      assert Unsaved(s') == {};
      assert ss.ph[i].Saving? && !Finished(ss.ph[i]);
      assert c.tiles[i].off as int in Saving(c, ss.ph, |ss.ph|);
      var ph' := s'.session.value.ph;
      assert Saving(c, ph', |ph'|) <= Saving(c, ss.ph, |ss.ph|);
    }
  }

  lemma OtherKeepsStoreBounded(c: Config, s: State, i: nat, act: ChunkAct)
    requires ValidConfig(c) && Controlled(c, s) && StoreBounded(c, s) && Can(c, s, ChunkStep(i, act))
    requires !act.Record? && !act.SaveOk? && !act.SaveFails?
    ensures StoreBounded(c, Do(c, s, ChunkStep(i, act)))
  {
    var ss := s.session.value;
    var ph' := ChunkDo(c, ss, i, act).ph;
    assert !ss.ph[i].Saving? && !ph'[i].Saving?;
    assert Saving(c, ph', |ph'|) == Saving(c, ss.ph, |ss.ph|);
  }

  lemma ChunkKeepsStoreBounded(c: Config, s: State, i: nat, act: ChunkAct)
    requires ValidConfig(c) && Controlled(c, s) && FilesSound(c, s) && StoreBounded(c, s)
    requires Can(c, s, ChunkStep(i, act))
    ensures StoreBounded(c, Do(c, s, ChunkStep(i, act)))
  {
    match act
    case Record =>
      if Healthy(s) {
        RecordKeepsStoreBounded(c, s, i);
      }
    case SaveOk => SaveKeepsStoreBounded(c, s, i);
    case SaveFails =>
    case _ => OtherKeepsStoreBounded(c, s, i, act);
  }

  lemma MainKeepsStoreBounded(c: Config, s: State, m: MainAct)
    requires ValidConfig(c) && Controlled(c, s) && FilesSound(c, s) && StoreBounded(c, s) && Can(c, s, MainStep(m))
    ensures StoreBounded(c, Do(c, s, MainStep(m)))
  {
    var s' := Do(c, s, MainStep(m));
    if Healthy(s') {
      var ss, ss' := s.session.value, s'.session.value;
      assert Saving(c, ss'.ph, |ss'.ph|) == Saving(c, ss.ph, |ss.ph|);
    }
  }

  lemma StepKeepsStoreBounded(c: Config, s: State, step: Step)
    requires ValidConfig(c) && Controlled(c, s) && FilesSound(c, s) && StoreBounded(c, s) && Can(c, s, step)
    ensures StoreBounded(c, Do(c, s, step))
  {
    match step
    case MainStep(m) => MainKeepsStoreBounded(c, s, m);
    case ChunkStep(i, act) => ChunkKeepsStoreBounded(c, s, i, act);
    case _ =>
  }

  ghost predicate StoreSound(c: Config, s: State)
    requires c.batch >= 1
  {
    && FilesSound(c, s) && Controlled(c, s) && StoreBounded(c, s)
    && (s.session.Some? ==> SlotsSound(c, s.session.value))
  }

  lemma {:induction false} PathKeepsStoreSound(c: Config, s: State, steps: seq<Step>, s': State)
    requires ValidConfig(c) && StoreSound(c, s) && Path(c, s, steps, s')
    ensures StoreSound(c, s')
    decreases |steps|
  {
    if steps != [] {
      StepKeepsFiles(c, s, steps[0]);
      StepKeepsControl(c, s, steps[0]);
      StepKeepsSlots(c, s, steps[0]);
      StepKeepsStoreBounded(c, s, steps[0]);
      PathKeepsStoreSound(c, Do(c, s, steps[0]), steps[1..], s');
    }
  }

  /**
   As long as saves succeed, at most 2*batch-1 recorded offsets are missing from disk at any moment, and
   fewer than batch when no goroutine is in the middle of recording.
   */
  lemma UnsavedBound(c: Config, s0: State, steps: seq<Step>, s: State)
    requires ValidConfig(c) && Initial(c, s0) && Path(c, s0, steps, s) && Healthy(s)
    ensures |Unsaved(s)| <= 2 * c.batch - 1
    ensures (forall i | 0 <= i < |s.session.value.ph| :: !s.session.value.ph[i].Saving?) ==> |Unsaved(s)| < c.batch
  {
    PathKeepsStoreSound(c, s0, steps, s);
    var ss := s.session.value;
    var pending := ss.mem.value.pending;
    var saving := Saving(c, ss.ph, |ss.ph|);
    SavingAtMostHolding(c, ss.ph, |ss.ph|);
    assert ss.ph[..|ss.ph|] == ss.ph;
    if |pending| < c.batch {
      ElementsBound(pending);
      SubsetSize(Unsaved(s), Elements(pending));
    } else {
      var early := Elements(pending[..c.batch - 1]);
      ElementsBound(pending[..c.batch - 1]);
      SubsetSize(Unsaved(s), early + saving);
      assert |early + saving| <= |early| + |saving|;
      if forall i | 0 <= i < |ss.ph| :: !ss.ph[i].Saving? {
        assert saving == {};
      }
    }
  }
}
