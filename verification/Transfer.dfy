/**
 processChunks of transfer.go with the upload and download callbacks of cp_to_host.go and cp_from_host.go,
 as a transition system: every goroutine, channel operation, write, save and crash is a step of its own, and
 a run is any sequence of steps. What survives a crash is the target file, the state file and, on an
 upload, the writes already on their way to the server.
 */
module Transfer {
  import opened Prelude
  import opened Chunks
  import opened Files

  datatype Direction = Upload | Download

  /** What a chunk's callback can return besides nil. */
  datatype ChunkError = ContextError | Failure(code: int)

  datatype Config = Config(
    source: seq<byte>,
    chunkSize: nat,
    tiles: seq<Chunk>,
    batch: nat,
    maxRetries: nat,
    direction: Direction,
    quiet: bool,
    useSha256: bool,
    hash: seq<byte> -> seq<byte>,
    mayFail: set<nat>)  // the chunks whose callback may return an error while the context is live

  ghost predicate ValidConfig(c: Config) {
    && c.chunkSize > 0 && c.batch >= 1
    && c.tiles == Tiles(0, |c.source|, c.chunkSize)
  }

  /** Where the goroutine of one chunk stands. */
  datatype Phase =
    | NotReached                          // the dispatch loop has not come to it
    | Skipped                             // completed in an earlier run
    | Queued                              // select on the semaphore and ctx.Done
    | Working(attempt: nat)               // top of the retry loop, holding a slot
    | Sending(attempt: nat, landed: nat)  // write under way; so many of its bytes are in the target
    | Hung(attempt: nat)                  // taken by processMsg, and the response will never come
    | Untaken(attempt: nat)               // offered to processMsg, which will never take it
    | Acked                               // write confirmed, about to report progress
    | Reported                            // about to record the offset
    | Saving                              // recorded, and this call has to save
    | Failing(error: ChunkError)          // callback failed: select on errChan and ctx.Done
    | Succeeded
    | Failed(error: ChunkError)
    | Cancelled                           // gave up waiting for a slot

  predicate Finished(p: Phase) {
    p.Skipped? || p.Succeeded? || p.Failed? || p.Cancelled?
  }

  predicate Holding(p: Phase) {
    p.Working? || p.Sending? || p.Hung? || p.Untaken? || p.Acked? || p.Reported? || p.Saving? || p.Failing?
  }

  /** Where processChunks itself, and the code after it, stands. */
  datatype Main =
    | Opening                             // progressChan <- startOffset
    | Looping(next: nat)
    | Reporting(next: nat)                // progressChan <- size of a skipped chunk
    | Joining                             // wg.Wait
    | Finishing                           // flush, then the last look at errChan
    | Returned(error: Option<ChunkError>)
    | Concluded                           // hash verified if asked for, state file deleted

  datatype Memory = Memory(completed: set<int>, pending: seq<int>)

  /** One process: everything here dies with it. `loaded` and `saveFailed` only record history. */
  datatype Session = Session(
    main: Main,
    ph: seq<Phase>,
    errs: seq<ChunkError>,                // errChan
    progress: seq<nat>,                   // progressChan
    consumer: Option<nat>,                // the progress consumer and the bytes it has counted
    mem: Option<Memory>,                  // resumeState, None for nil
    slots: int,                           // entries in the semaphore channel
    ctxDone: bool,
    parentDone: bool,
    loaded: set<int>,
    saveFailed: bool)

  datatype State = State(
    target: Option<seq<byte>>,
    disk: Option<set<int>>,               // what the state file lists; None if there is no usable one
    stale: set<nat>,                      // chunks with abandoned writes still on their way
    session: Option<Session>)

  /** What processChunks and its caller do. */
  datatype MainAct =
    | Open                // progressChan <- startOffset
    | TakeError           // the loop finds an error: cancel and return it
    | Spawn
    | FindCompleted
    | ReportSkipped
    | LoopDone
    | Join
    | Finish(saved: bool)
    | Conclude(removed: bool)

  /** What the goroutine of one chunk does. */
  datatype ChunkAct =
    | Acquire
    | GiveUp
    | StartSend
    | CtxError
    | Fatal(fatal: ChunkError)          // a failure that is not retried
    | Land(k: nat)                      // k more bytes of the write under way reach the target
    | Ack
    | AttemptFails(failure: ChunkError)
    | Hang
    | HangEnds
    | Stall
    | Report
    | SkipReport
    | Record
    | SaveOk
    | SaveFails
    | PushError
    | DropError

  datatype Step =
    | Begin
    | CreateFails
    | Crash
    | CancelParent
    | LandStale(i: nat, a: nat, b: nat)
    | DropStale(i: nat)
    | MainStep(m: MainAct)
    | ChunkStep(i: nat, act: ChunkAct)
    | Consume
    | ConsumerStops

  function Content(target: Option<seq<byte>>): seq<byte> {
    if target.Some? then target.value else []
  }

  /** Some bytes of the source reach the target at their own place. */
  function Written(c: Config, target: Option<seq<byte>>, a: nat, b: nat): Option<seq<byte>> {
    if a <= b <= |c.source| then Some(WriteAt(Content(target), a, c.source[a..b])) else target
  }

  /** The server's create leaves an existing file alone; the download truncates. */
  function FreshTarget(c: Config, target: Option<seq<byte>>): Option<seq<byte>> {
    match c.direction
    case Upload => if target.Some? then target else Some(Zeros(|c.source|))
    case Download => Some([])
  }

  function NewSession(c: Config, disk: Option<set<int>>): Session {
    Session(Opening, seq(|c.tiles|, _ => NotReached), [], [], Some(0),
            (if disk.Some? then Some(Memory(disk.value, [])) else None), 0, false, false,
            (if disk.Some? then disk.value else {}), false)
  }

  function IsCompleted(m: Option<Memory>, off: int): bool {
    m.Some? && off in m.value.completed
  }

  predicate RoomForProgress(c: Config, ss: Session) {
    |ss.progress| < c.batch + 1
  }

  predicate In(c: Config, ss: Session, i: nat) {
    i < |ss.ph| && i < |c.tiles|
  }

  predicate AtLoop(c: Config, ss: Session) {
    ss.main.Looping? && In(c, ss, ss.main.next)
  }

  // ---- processChunks and its caller

  predicate CanMain(c: Config, target: Option<seq<byte>>, ss: Session, m: MainAct) {
    match m
    case Open => ss.main.Opening? && RoomForProgress(c, ss)
    case TakeError => AtLoop(c, ss) && ss.errs != []
    case Spawn => AtLoop(c, ss) && ss.errs == [] && !IsCompleted(ss.mem, c.tiles[ss.main.next].off)
    case FindCompleted => AtLoop(c, ss) && ss.errs == [] && IsCompleted(ss.mem, c.tiles[ss.main.next].off)
    case ReportSkipped => ss.main.Reporting? && In(c, ss, ss.main.next) && RoomForProgress(c, ss)
    case LoopDone => ss.main.Looping? && ss.main.next >= |c.tiles|
    case Join => ss.main.Joining? && forall i | 0 <= i < |ss.ph| :: Finished(ss.ph[i])
    case Finish(_) => ss.main.Finishing?
    case Conclude(_) =>
      // the server hashes its file on request, and a request made under a done context gets no response
      && ss.main == Returned(None)
      && (c.useSha256 ==> !ss.parentDone && target.Some? && c.hash(target.value) == c.hash(c.source))
  }

  /** processChunks returns, and its deferred cancel runs. */
  function Return(ss: Session, e: Option<ChunkError>): Session {
    ss.(main := Returned(e), ctxDone := true)
  }

  predicate HasPending(ss: Session) {
    ss.mem.Some? && ss.mem.value.pending != []
  }

  function MainDo(c: Config, ss: Session, m: MainAct): Session {
    match m
    case Open => ss.(main := Looping(0), progress := ss.progress + [0])
    case TakeError => if ss.errs == [] then ss else Return(ss.(errs := ss.errs[1..]), Some(ss.errs[0]))
    case Spawn =>
      if !AtLoop(c, ss) then ss
      else ss.(main := Looping(ss.main.next + 1), ph := ss.ph[ss.main.next := Queued])
    case FindCompleted => if !AtLoop(c, ss) then ss else ss.(main := Reporting(ss.main.next))
    case ReportSkipped =>
      if !(ss.main.Reporting? && In(c, ss, ss.main.next)) then ss
      else ss.(main := Looping(ss.main.next + 1),
               ph := ss.ph[ss.main.next := Skipped],
               progress := ss.progress + [c.tiles[ss.main.next].size])
    case LoopDone => ss.(main := Joining)
    case Join => ss.(main := Finishing)
    case Finish(saved) =>
      var ss' := ss.(saveFailed := ss.saveFailed || (HasPending(ss) && !saved));
      if ss.errs == [] then Return(ss', None) else Return(ss'.(errs := ss.errs[1..]), Some(ss.errs[0]))
    case Conclude(_) => ss.(main := Concluded)
  }

  function MainDisk(disk: Option<set<int>>, ss: Session, m: MainAct): Option<set<int>> {
    match m
    case Finish(saved) => if HasPending(ss) && saved then Some(ss.mem.value.completed) else disk
    case Conclude(removed) => if removed && ss.mem.Some? then None else disk
    case _ => disk
  }

  // ---- the goroutine of one chunk

  predicate CanChunk(c: Config, target: Option<seq<byte>>, ss: Session, i: nat, act: ChunkAct) {
    In(c, ss, i) &&
    var p := ss.ph[i];
    match act
    case Acquire => p.Queued? && ss.slots < c.batch
    case GiveUp => p.Queued? && ss.ctxDone
    case StartSend => p.Working? && !ss.ctxDone
    case CtxError => p.Working? && ss.ctxDone
    case Fatal(_) =>
      // an upload fails so on reading its source, a download on decoding or writing what it read
      i in c.mayFail && (match c.direction case Upload => p == Working(0) case Download => p.Sending?)
    case Land(k) => p.Sending? && target.Some? && 0 < k && p.landed + k <= c.tiles[i].size
    case Ack => p.Sending? && p.landed == c.tiles[i].size
    case AttemptFails(_) =>
      && (match c.direction case Upload => p.Sending? case Download => p.Working?)
      && (p.attempt >= c.maxRetries ==> i in c.mayFail)
    case Hang => (match c.direction case Upload => p.Sending? case Download => p.Working?)
    case HangEnds => p.Hung? && ss.parentDone
    case Stall =>
      // the request is not made yet, and processMsg returns with the parent context
      ss.parentDone && (match c.direction case Upload => p.Sending? && p.landed == 0 case Download => p.Working?)
    case Report => p.Acked? && RoomForProgress(c, ss)
    case SkipReport => p.Acked? && ss.ctxDone
    case Record => p.Reported?
    case SaveOk => p.Saving? && ss.mem.Some?
    case SaveFails => p.Saving? && ss.mem.Some?
    case PushError => p.Failing? && |ss.errs| < c.batch
    case DropError => p.Failing? && ss.ctxDone
  }

  /** addCompletedOffset up to the point where it may have to save. */
  function NextMem(c: Config, mem: Option<Memory>, i: nat, act: ChunkAct): Option<Memory> {
    if act.Record? && mem.Some? && i < |c.tiles| then
      Some(Memory(mem.value.completed + {c.tiles[i].off}, mem.value.pending + [c.tiles[i].off as int]))
    else mem
  }

  predicate MustSave(c: Config, mem: Option<Memory>) {
    mem.Some? && |mem.value.pending| >= c.batch
  }

  function NextPhase(c: Config, mem: Option<Memory>, i: nat, p: Phase, act: ChunkAct): Phase {
    match act
    case Acquire => Working(0)
    case GiveUp => Cancelled
    case StartSend => if p.Working? then Sending(p.attempt, 0) else p
    case CtxError => Failing(ContextError)
    case Fatal(e) => Failing(e)
    case Land(k) => if p.Sending? then Sending(p.attempt, p.landed + k) else p
    case Ack => Acked
    case AttemptFails(e) =>
      if !(p.Working? || p.Sending?) then p
      else if p.attempt < c.maxRetries then Working(p.attempt + 1) else Failing(e)
    case Hang => if p.Working? || p.Sending? then Hung(p.attempt) else p
    case HangEnds => Failing(ContextError)
    case Stall => if p.Working? || p.Sending? then Untaken(p.attempt) else p
    case Report => Reported
    case SkipReport => Reported
    case Record => if MustSave(c, NextMem(c, mem, i, act)) then Saving else Succeeded
    case SaveOk => Succeeded
    case SaveFails => Succeeded
    case PushError => if p.Failing? then Failed(p.error) else p
    case DropError => if p.Failing? then Failed(p.error) else p
  }

  /** A goroutine that ends while holding a slot gives it back. */
  function NextSlots(slots: int, p: Phase, p': Phase): int {
    if !Holding(p) && Holding(p') then slots + 1
    else if Holding(p) && !Holding(p') then slots - 1
    else slots
  }

  function NextErrs(errs: seq<ChunkError>, p: Phase, act: ChunkAct): seq<ChunkError> {
    if act.PushError? && p.Failing? then errs + [p.error] else errs
  }

  function NextProgress(c: Config, progress: seq<nat>, i: nat, act: ChunkAct): seq<nat> {
    if act.Report? && i < |c.tiles| then progress + [c.tiles[i].size] else progress
  }

  function ChunkDo(c: Config, ss: Session, i: nat, act: ChunkAct): Session {
    if !In(c, ss, i) then ss
    else
      var p, p' := ss.ph[i], NextPhase(c, ss.mem, i, ss.ph[i], act);
      ss.(ph := ss.ph[i := p'],
          slots := NextSlots(ss.slots, p, p'),
          errs := NextErrs(ss.errs, p, act),
          progress := NextProgress(c, ss.progress, i, act),
          mem := NextMem(c, ss.mem, i, act),
          saveFailed := ss.saveFailed || act.SaveFails?)
  }

  function ChunkTarget(c: Config, target: Option<seq<byte>>, ss: Session, i: nat, act: ChunkAct): Option<seq<byte>> {
    if act.Land? && In(c, ss, i) && ss.ph[i].Sending? then
      var from := c.tiles[i].off + ss.ph[i].landed;
      Written(c, target, from, from + act.k)
    else target
  }

  function ChunkDisk(disk: Option<set<int>>, ss: Session, act: ChunkAct): Option<set<int>> {
    if act.SaveOk? && ss.mem.Some? then Some(ss.mem.value.completed) else disk
  }

  /** An upload attempt that is given up may still have its request under way. */
  function ChunkStale(c: Config, stale: set<nat>, i: nat, act: ChunkAct): set<nat> {
    if c.direction.Upload? && (act.AttemptFails? || act.Hang?) then stale + {i} else stale
  }

  // ---- the consumer, and everything together

  function Consumed(c: Config, ss: Session): Session {
    if ss.consumer.None? || ss.progress == [] then ss
    else
      var sent := ss.consumer.value + ss.progress[0];
      ss.(progress := ss.progress[1..],
          consumer := if !c.quiet && sent == |c.source| then None else Some(sent))
  }

  /** The writes a dying process leaves behind. */
  function Abandoned(c: Config, ss: Session): set<nat> {
    match c.direction
    case Upload => set i | 0 <= i < |ss.ph| && ss.ph[i].Sending?
    case Download => {}
  }

  predicate Can(c: Config, s: State, step: Step) {
    match step
    case Begin => s.session.None? && (c.direction.Download? && s.disk.Some? ==> s.target.Some?)
    case CreateFails => s.session.None? && c.direction.Upload? && s.disk.None? && s.target.None?
    case Crash => s.session.Some?
    case CancelParent => s.session.Some?
    case LandStale(i, a, b) =>
      && i in s.stale && i < |c.tiles| && s.target.Some?
      && c.tiles[i].off <= a <= b <= c.tiles[i].End()
    case DropStale(i) => i in s.stale
    case MainStep(m) => s.session.Some? && CanMain(c, s.target, s.session.value, m)
    case ChunkStep(i, act) => s.session.Some? && CanChunk(c, s.target, s.session.value, i, act)
    case Consume => s.session.Some? && s.session.value.consumer.Some? && s.session.value.progress != []
    case ConsumerStops => s.session.Some? && s.session.value.consumer.Some? && s.session.value.ctxDone
  }

  function Do(c: Config, s: State, step: Step): State
    requires Can(c, s, step)
  {
    match step
    case Begin =>
      s.(session := Some(NewSession(c, s.disk)),
         target := if s.disk.Some? then s.target else FreshTarget(c, s.target))
    case CreateFails => s.(target := Some([]))
    case Crash => s.(session := None, stale := s.stale + Abandoned(c, s.session.value))
    case CancelParent => s.(session := Some(s.session.value.(ctxDone := true, parentDone := true)))
    case LandStale(i, a, b) => s.(target := Written(c, s.target, a, b))
    case DropStale(i) => s.(stale := s.stale - {i})
    case MainStep(m) =>
      s.(session := Some(MainDo(c, s.session.value, m)), disk := MainDisk(s.disk, s.session.value, m))
    case ChunkStep(i, act) =>
      var ss := s.session.value;
      State(ChunkTarget(c, s.target, ss, i, act), ChunkDisk(s.disk, ss, act), ChunkStale(c, s.stale, i, act),
            Some(ChunkDo(c, ss, i, act)))
    case Consume => s.(session := Some(Consumed(c, s.session.value)))
    case ConsumerStops => s.(session := Some(s.session.value.(consumer := None)))
  }

  /** s' is reached from s by the given steps. */
  ghost predicate Path(c: Config, s: State, steps: seq<Step>, s': State)
    decreases |steps|
  {
    if steps == [] then s == s'
    else Can(c, s, steps[0]) && Path(c, Do(c, s, steps[0]), steps[1..], s')
  }
}
