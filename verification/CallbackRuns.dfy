/**
 The two callbacks, each run with its retries as one method, are runs of the transition system: for every outcome of
 the attempts the goroutine of the chunk has a path to the same result with the same bytes in the target.
 */
module CallbackRuns {
  import opened Prelude
  import opened Files
  import opened Transfer
  import Pipeline
  import Callbacks

  // ---- runs of one goroutine

  /** Nothing moves but the goroutine of one chunk, and the parent context may be cancelled. */
  predicate OwnStep(i: nat, step: Step) {
    step == CancelParent || (step.ChunkStep? && step.i == i)
  }

  ghost predicate OwnPath(c: Config, i: nat, s: State, steps: seq<Step>, s': State) {
    Path(c, s, steps, s') && forall step | step in steps :: OwnStep(i, step)
  }

  ghost predicate Leads(c: Config, i: nat, s: State, s': State) {
    exists steps :: OwnPath(c, i, s, steps, s')
  }

  lemma Stay(c: Config, i: nat, s: State)
    ensures Leads(c, i, s, s)
  {
    assert OwnPath(c, i, s, [], s);
  }

  lemma OneMore(c: Config, i: nat, s: State, step: Step, s': State)
    requires Can(c, s, step) && OwnStep(i, step) && Leads(c, i, Do(c, s, step), s')
    ensures Leads(c, i, s, s')
  {
    var rest :| OwnPath(c, i, Do(c, s, step), rest, s');
    assert ([step] + rest)[1..] == rest;
    assert OwnPath(c, i, s, [step] + rest, s');
  }

  // ---- what such a run changes

  /** The goroutine of chunk i is at p, and the target holds these bytes. */
  ghost predicate Stands(c: Config, s: State, i: nat, p: Phase, bytes: seq<byte>) {
    && s.session.Some? && In(c, s.session.value, i) && s.session.value.ph[i] == p && s.target == Some(bytes)
  }

  /** All the rest is as it was, but for the contexts and for requests of this chunk that were given up. */
  ghost predicate RestSame(s: State, s': State, i: nat) {
    && s.session.Some? && s'.session.Some? && s'.disk == s.disk && s'.stale <= s.stale + {i}
    && var ss, ss' := s.session.value, s'.session.value;
    && i < |ss.ph| && i < |ss'.ph|
    && ss' == ss.(ph := ss.ph[i := ss'.ph[i]], ctxDone := ss'.ctxDone, parentDone := ss'.parentDone)
  }

  /** A run of that goroutine to p, with the context as it was. */
  ghost predicate Reaches(c: Config, s: State, s': State, i: nat, p: Phase, bytes: seq<byte>) {
    && Leads(c, i, s, s') && RestSame(s, s', i) && Stands(c, s', i, p, bytes)
    && s'.session.value.ctxDone == s.session.value.ctxDone
  }

  /** A goroutine at its attempts. */
  predicate Trying(p: Phase) {
    p.Working? || p.Sending?
  }

  predicate Tries(act: ChunkAct) {
    act.StartSend? || act.CtxError? || act.Fatal? || act.Land? || act.Ack? || act.AttemptFails?
  }

  lemma TryStep(c: Config, s: State, i: nat, act: ChunkAct)
    requires Can(c, s, ChunkStep(i, act)) && Tries(act) && Trying(s.session.value.ph[i])
    ensures var ss, s' := s.session.value, Do(c, s, ChunkStep(i, act));
            && RestSame(s, s', i) && s'.session.value.ctxDone == ss.ctxDone
            && s'.session.value.ph[i] == NextPhase(c, ss.mem, i, ss.ph[i], act)
            && s'.target == ChunkTarget(c, s.target, ss, i, act)
  {
  }

  // ---- results

  /** What the transition system calls the callback's errors. */
  function ErrorOf(e: Callbacks.Error): ChunkError {
    match e
    case ContextDone => ContextError
    case NoResponse => Failure(0)
    case Refused => Failure(1)
    case ChecksumMismatch => Failure(2)
    case Undecodable => Failure(3)
    case FileError => Failure(4)
  }

  function PhaseOf(err: Option<Callbacks.Error>): Phase {
    if err.None? then Acked else Failing(ErrorOf(err.value))
  }

  predicate Cancels(err: Option<Callbacks.Error>) {
    err == Some(Callbacks.ContextDone)
  }

  /** The run ends with this result and these bytes; the context is done exactly if the result says so. */
  ghost predicate Ends(c: Config, s: State, s': State, i: nat, err: Option<Callbacks.Error>, bytes: seq<byte>) {
    && Leads(c, i, s, s') && RestSame(s, s', i) && Stands(c, s', i, PhaseOf(err), bytes)
    && (s'.session.value.ctxDone <==> Cancels(err))
  }

  /** A chunk whose callback fails with the context alive is one that may. */
  predicate Allowed(c: Config, i: nat, err: Option<Callbacks.Error>) {
    err.Some? && !Cancels(err) ==> i in c.mayFail
  }

  function Part(c: Config, i: nat): seq<byte>
    requires i < |c.tiles| && c.tiles[i].End() <= |c.source|
  {
    c.source[c.tiles[i].off..c.tiles[i].End()]
  }

  /** One step of the goroutine, by its phases. */
  lemma ReachesNext(c: Config, s: State, i: nat, act: ChunkAct, p: Phase, bytes: seq<byte>)
    requires Can(c, s, ChunkStep(i, act)) && Tries(act) && Trying(s.session.value.ph[i])
    requires p == NextPhase(c, s.session.value.mem, i, s.session.value.ph[i], act)
    requires Some(bytes) == ChunkTarget(c, s.target, s.session.value, i, act)
    ensures Reaches(c, s, Do(c, s, ChunkStep(i, act)), i, p, bytes)
  {
    var s' := Do(c, s, ChunkStep(i, act));
    TryStep(c, s, i, act);
    Stay(c, i, s');
    OneMore(c, i, s, ChunkStep(i, act), s');
  }

  /** The context turns out to be done, wherever it was cancelled. */
  lemma EndsCancelled(c: Config, s: State, i: nat, k: nat, bytes: seq<byte>) returns (s': State)
    requires Stands(c, s, i, Working(k), bytes)
    ensures Ends(c, s, s', i, Some(Callbacks.ContextDone), bytes)
  {
    var s1 := Do(c, s, CancelParent);
    s' := Do(c, s1, ChunkStep(i, CtxError));
    ReachesNext(c, s1, i, CtxError, Failing(ContextError), bytes);
    OneMore(c, i, s, CancelParent, s');
  }

  /** The part of a write that reaches the target does so in one step, if it is anything. */
  lemma Lands(c: Config, s: State, i: nat, k: nat, before: seq<byte>, failsAfter: Option<nat>) returns (s': State)
    requires Stands(c, s, i, Sending(k, 0), before) && c.tiles[i].End() <= |c.source|
    ensures var d := Landed(Part(c, i), failsAfter);
            Reaches(c, s, s', i, Sending(k, |d|), WriteAt(before, c.tiles[i].off, d))
  {
    var d, off := Landed(Part(c, i), failsAfter), c.tiles[i].off;
    assert d == c.source[off..off + |d|];
    if d == [] {
      s' := s;
      Stay(c, i, s);
    } else {
      ReachesNext(c, s, i, Land(|d|), Sending(k, |d|), WriteAt(before, off, d));
      s' := Do(c, s, ChunkStep(i, Land(|d|)));
    }
  }

  lemma {:induction false} Together(c: Config, i: nat, s: State, xs: seq<Step>, s1: State, s2: State)
    requires OwnPath(c, i, s, xs, s1) && Leads(c, i, s1, s2)
    ensures Leads(c, i, s, s2)
    decreases |xs|
  {
    if xs != [] {
      Together(c, i, Do(c, s, xs[0]), xs[1..], s1, s2);
      OneMore(c, i, s, xs[0], s2);
    }
  }

  lemma ReachesOn(c: Config, s: State, s1: State, s': State, i: nat, p: Phase, mid: seq<byte>, q: Phase,
                  bytes: seq<byte>)
    requires Reaches(c, s, s1, i, p, mid) && Reaches(c, s1, s', i, q, bytes)
    ensures Reaches(c, s, s', i, q, bytes)
  {
    var xs :| OwnPath(c, i, s, xs, s1);
    Together(c, i, s, xs, s1, s');
  }

  lemma EndsAfter(c: Config, s: State, s1: State, s': State, i: nat, err: Option<Callbacks.Error>, bytes: seq<byte>)
    requires Leads(c, i, s, s1) && RestSame(s, s1, i) && Ends(c, s1, s', i, err, bytes)
    ensures Ends(c, s, s', i, err, bytes)
  {
    var xs :| OwnPath(c, i, s, xs, s1);
    Together(c, i, s, xs, s1, s');
  }

  // ---- upload

  /** Where an attempt with this result leaves the goroutine: at the next one, unless that was the last. */
  function AfterAttempt(c: Config, k: nat, err: Option<Callbacks.Error>): Phase {
    if err.Some? && k < c.maxRetries then Working(k + 1) else PhaseOf(err)
  }

  /** A request of which so much lands, and the end of the attempt. */
  lemma SendFollows(c: Config, s: State, i: nat, k: nat, before: seq<byte>, failsAfter: Option<nat>,
                    err: Option<Callbacks.Error>) returns (s': State)
    requires c.direction.Upload? && Stands(c, s, i, Working(k), before) && !s.session.value.ctxDone
    requires c.tiles[i].End() <= |c.source| && (err.None? ==> failsAfter.None?) && !Cancels(err)
    requires k >= c.maxRetries ==> Allowed(c, i, err)
    ensures Reaches(c, s, s', i, AfterAttempt(c, k, err),
                    WriteAt(before, c.tiles[i].off, Landed(Part(c, i), failsAfter)))
  {
    var d := Landed(Part(c, i), failsAfter);
    var after, p := WriteAt(before, c.tiles[i].off, d), Sending(k, |d|);
    ReachesNext(c, s, i, StartSend, Sending(k, 0), before);
    var s1 := Do(c, s, ChunkStep(i, StartSend));
    var s2 := Lands(c, s1, i, k, before, failsAfter);
    ReachesOn(c, s, s1, s2, i, Sending(k, 0), before, p, after);
    s' := AttemptEnds(c, s2, i, k, |d|, after, err);
    ReachesOn(c, s, s2, s', i, p, after, AfterAttempt(c, k, err), after);
  }

  lemma AttemptEnds(c: Config, s: State, i: nat, k: nat, n: nat, bytes: seq<byte>, err: Option<Callbacks.Error>)
    returns (s': State)
    requires c.direction.Upload? && Stands(c, s, i, Sending(k, n), bytes) && !Cancels(err)
    requires err.None? ==> n == c.tiles[i].size
    requires k >= c.maxRetries ==> Allowed(c, i, err)
    ensures Reaches(c, s, s', i, AfterAttempt(c, k, err), bytes)
  {
    var act := if err.None? then Ack else AttemptFails(ErrorOf(err.value));
    ReachesNext(c, s, i, act, AfterAttempt(c, k, err), bytes);
    s' := Do(c, s, ChunkStep(i, act));
  }

  /** One attempt, whatever its fate. */
  lemma AttemptFollows(c: Config, s: State, i: nat, k: nat, l: Callbacks.Link, before: seq<byte>,
                       fate: Callbacks.WriteFate) returns (s': State)
    requires c.direction.Upload? && Stands(c, s, i, Working(k), before) && !s.session.value.ctxDone
    requires c.tiles[i].End() <= |c.source| && k <= c.maxRetries
    requires k == c.maxRetries ==> Allowed(c, i, Callbacks.AttemptError(l, Part(c, i), fate))
    ensures Reaches(c, s, s', i, AfterAttempt(c, k, Callbacks.AttemptError(l, Part(c, i), fate)),
                    Callbacks.AttemptBytes(l, Part(c, i), before, c.tiles[i].off, fate))
  {
    var arrives := Callbacks.Agree(l, Part(c, i)) && !(fate.Unanswered? && !fate.arrives);
    var failsAfter := if arrives then fate.failsAfter else Some(0);
    s' := SendFollows(c, s, i, k, before, failsAfter, Callbacks.AttemptError(l, Part(c, i), fate));
  }

  /**
   uploadFileChunk from attempt k on: the system can do exactly what the loop does, whatever happens to the
   attempts, with the same bytes in the target and the same result.
   */
  lemma {:induction false} UploadFollows(c: Config, s: State, i: nat, k: nat, l: Callbacks.Link, before: seq<byte>,
                                         w: Callbacks.WriteWorld) returns (s': State)
    requires c.direction.Upload? && Stands(c, s, i, Working(k), before) && c.tiles[i].End() <= |c.source|
    requires k <= c.maxRetries && (s.session.value.ctxDone ==> w.doneBefore(k))
    requires Allowed(c, i, Callbacks.UploadFrom(l, Part(c, i), before, c.tiles[i].off, k, c.maxRetries, w).0)
    ensures var (err, after, _) := Callbacks.UploadFrom(l, Part(c, i), before, c.tiles[i].off, k, c.maxRetries, w);
            Ends(c, s, s', i, err, after)
    decreases c.maxRetries - k
  {
    if w.doneBefore(k) {
      s' := EndsCancelled(c, s, i, k, before);
    } else {
      var err := Callbacks.AttemptError(l, Part(c, i), w.fate(k));
      var after := Callbacks.AttemptBytes(l, Part(c, i), before, c.tiles[i].off, w.fate(k));
      var s1 := AttemptFollows(c, s, i, k, l, before, w.fate(k));
      if err.None? || k == c.maxRetries {
        s' := s1;
      } else {
        if w.doneInBackoff(k) {
          s' := EndsCancelled(c, s1, i, k + 1, after);
        } else {
          s' := UploadFollows(c, s1, i, k + 1, l, after, w);
        }
        var (e, bytes, _) := Callbacks.UploadFrom(l, Part(c, i), before, c.tiles[i].off, k, c.maxRetries, w);
        EndsAfter(c, s, s1, s', i, e, bytes);
      }
    }
  }

  // ---- download

  function ReadErrorOf(r: Result<Pipeline.Packed, Callbacks.Error>): Option<Callbacks.Error> {
    if r.Ok? then None else Some(r.error)
  }

  /** The retry loop around Read, from attempt k on: a usable response lets the goroutine start to write. */
  lemma {:induction false} ReadFollows(c: Config, s: State, i: nat, k: nat, l: Callbacks.Link, before: seq<byte>,
                                       w: Callbacks.ReadWorld) returns (s': State, at: nat)
    requires c.direction.Download? && Stands(c, s, i, Working(k), before)
    requires k <= c.maxRetries && (s.session.value.ctxDone ==> w.doneBefore(k))
    requires Allowed(c, i, ReadErrorOf(Callbacks.ReadFrom(l, k, c.maxRetries, w).0))
    ensures var r := Callbacks.ReadFrom(l, k, c.maxRetries, w).0;
            if r.Err? then Ends(c, s, s', i, Some(r.error), before)
            else Reaches(c, s, s', i, Sending(at, 0), before) && !s.session.value.ctxDone
    decreases c.maxRetries - k
  {
    at := k;
    if w.doneBefore(k) {
      s' := EndsCancelled(c, s, i, k, before);
    } else if Callbacks.Usable(l, w.fate(k)) {
      ReachesNext(c, s, i, StartSend, Sending(k, 0), before);
      s' := Do(c, s, ChunkStep(i, StartSend));
    } else {
      var r := Callbacks.ReadFrom(l, k, c.maxRetries, w).0;
      var s1 := ReadFails(c, s, i, k, before, Callbacks.ReadError(w.fate(k)));
      if k == c.maxRetries {
        s' := s1;
      } else {
        if w.doneInBackoff(k) {
          s' := EndsCancelled(c, s1, i, k + 1, before);
        } else {
          s', at := ReadFollows(c, s1, i, k + 1, l, before, w);
        }
        if r.Ok? {
          ReachesOn(c, s, s1, s', i, Working(k + 1), before, Sending(at, 0), before);
        } else {
          EndsAfter(c, s, s1, s', i, Some(r.error), before);
        }
      }
    }
  }

  lemma ReadFails(c: Config, s: State, i: nat, k: nat, before: seq<byte>, err: Callbacks.Error) returns (s': State)
    requires c.direction.Download? && Stands(c, s, i, Working(k), before) && k <= c.maxRetries
    requires k == c.maxRetries ==> Allowed(c, i, Some(err))
    requires err != Callbacks.ContextDone
    ensures Reaches(c, s, s', i, if k < c.maxRetries then Working(k + 1) else PhaseOf(Some(err)), before)
  {
    var act := AttemptFails(ErrorOf(err));
    ReachesNext(c, s, i, act, if k < c.maxRetries then Working(k + 1) else PhaseOf(Some(err)), before);
    s' := Do(c, s, ChunkStep(i, act));
  }

  /** The callback of downloadFile, in the same sense. */
  lemma DownloadFollows(c: Config, s: State, i: nat, l: Callbacks.Link, before: seq<byte>, w: Callbacks.ReadWorld)
    returns (s': State)
    requires c.direction.Download? && Stands(c, s, i, Working(0), before) && c.tiles[i].End() <= |c.source|
    requires s.session.value.ctxDone ==> w.doneBefore(0)
    requires var r := Callbacks.ReadFrom(l, 0, c.maxRetries, w).0;
             Allowed(c, i, Callbacks.DownloadOf(l, Part(c, i), before, c.tiles[i].off, r, w).0)
    ensures var r := Callbacks.ReadFrom(l, 0, c.maxRetries, w).0;
            var (err, after) := Callbacks.DownloadOf(l, Part(c, i), before, c.tiles[i].off, r, w);
            Ends(c, s, s', i, err, after)
  {
    var r := Callbacks.ReadFrom(l, 0, c.maxRetries, w).0;
    var at;
    s', at := ReadFollows(c, s, i, 0, l, before, w);
    if r.Ok? {
      var s1, err := s', Callbacks.DownloadOf(l, Part(c, i), before, c.tiles[i].off, r, w).0;
      s' := WriteFollows(c, s1, i, at, l, before, w);
      EndsAfter(c, s, s1, s', i, err, Content(s'.target));
    }
  }

  /** With a usable response at hand. */
  lemma WriteFollows(c: Config, s: State, i: nat, at: nat, l: Callbacks.Link, before: seq<byte>, w: Callbacks.ReadWorld)
    returns (s': State)
    requires c.direction.Download? && Stands(c, s, i, Sending(at, 0), before) && c.tiles[i].End() <= |c.source|
    requires !s.session.value.ctxDone
    requires !(Callbacks.Agree(l, Part(c, i)) && w.failsAfter.None?) ==> i in c.mayFail
    ensures if !Callbacks.Agree(l, Part(c, i)) then Ends(c, s, s', i, Some(Callbacks.Undecodable), before)
            else Ends(c, s, s', i, if w.failsAfter.None? then None else Some(Callbacks.FileError),
                      WriteAt(before, c.tiles[i].off, Landed(Part(c, i), w.failsAfter)))
  {
    if !Callbacks.Agree(l, Part(c, i)) {
      var act := Fatal(ErrorOf(Callbacks.Undecodable));
      ReachesNext(c, s, i, act, PhaseOf(Some(Callbacks.Undecodable)), before);
      s' := Do(c, s, ChunkStep(i, act));
    } else {
      var err := if w.failsAfter.None? then None else Some(Callbacks.FileError);
      var act := if err.None? then Ack else Fatal(ErrorOf(Callbacks.FileError));
      var s1 := Lands(c, s, i, at, before, w.failsAfter);
      var after := Content(s1.target);
      ReachesNext(c, s1, i, act, PhaseOf(err), after);
      s' := Do(c, s1, ChunkStep(i, act));
      EndsAfter(c, s, s1, s', i, err, after);
    }
  }
}
