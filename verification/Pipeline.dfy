/** The rotation pipeline of one writer session as a step machine (src/table.rs).

    A step is one lock-held region, one channel operation, one update of the progress slot, one
    storage operation or one local decision of a task. `Next` is total: a step whose guard is
    false leaves the state alone, so every sequence of steps is a run and every interleaving of
    the producer, a flusher, the ticker, the three stages and the lease heartbeat is covered. */
module Pipeline {
  import opened Base
  import opened Naming
  import opened Values
  import opened Progress
  import opened Writer

  // ---------------------------------------------------------------------
  // state
  // ---------------------------------------------------------------------

  /** rotation_queue_depth, staging_error_after_attempts, staging_compression. */
  datatype Settings = Settings(depth: nat, after: nat, compressed: bool) {
    function Capacity(): nat {
      if depth == 0 then 1 else depth
    }
  }

  type Worker = st: Stage | st != Whole witness Render

  /** Where a stage task is. `n` counts the failed attempts on the file in hand. */
  datatype Pc =
    | Idle
    | Gate(x: Sealed)
    | Top(x: Sealed, n: nat)
    | Running(x: Sealed, n: nat)
    | Passing(x: Sealed, n: nat)
    | Dying(x: Sealed, n: nat, err: Error)
    | Sending(x: Sealed)
    | Recorded(x: Sealed)
    | Announced(x: Sealed)
    | Stopping
    | Exited
  {
    predicate Live() { !Stopping? && !Exited? }

    function Held(): seq<Sealed> {
      if Idle? || Stopping? || Exited? then [] else [x]
    }
  }

  /** `Another` is any other call of `flush` under way beside the one followed here. */
  datatype Actor = Producer | Flusher | Ticker | Another

  /** How far the holder of `seal_lock` has come. */
  datatype Phase = Checking | Reserving | AwaitRoom | Permitted | Cleared(agedOnly: bool) | Cut(x: Sealed)

  datatype Sealing = Free | Holding(who: Actor, phase: Phase) {
    function Permits(): nat {
      if Holding? && (phase.Permitted? || phase.Cleared? || phase.Cut?) then 1 else 0
    }

    /** A file cut out of the buffer and not yet in the channel. */
    function Hand(): seq<Sealed> {
      if Holding? && phase.Cut? then [phase.x] else []
    }

    function Promised(): nat {
      if Holding? && phase.Cleared? then 1 else 0
    }
  }

  /** A call of `append`; `before` is the writer state the moment before the batch was buffered. */
  datatype Append =
    | AIdle
    | AEntering(b: Batch)
    | ATrying(b: Batch, before: WState, now: int)
    | AWaiting(b: Batch, before: WState, now: int)
    | AInSeal(b: Batch, before: WState, now: int)
    | ABacking(b: Batch, before: WState, now: int, err: Error)
  {
    predicate Pending() { !AIdle? && !AEntering? }
  }

  /** A call of `flush`; `mark` is the number of batches accepted when it was made, `upto` the
      number of files that hold them. */
  datatype Flush =
    | FIdle
    | FTrying(mark: nat)
    | FWaiting(mark: nat)
    | FInSeal(mark: nat)
    | FReadLast(mark: nat)
    | FAwaiting(mark: nat, target: int, upto: nat)
    | FReading(mark: nat, upto: nat)

  datatype State = State(
    cfg: Settings,
    epoch0: nat,              // session epoch chosen at open
    base: Option<int>,        // staged offset at open
    w: WState,
    slot: Slot,
    fenced: bool,
    orderFatal: bool,
    serialFatal: bool,
    sealing: Sealing,
    append: Append,
    flush: Flush,
    q1: seq<Sealed>,          // seal -> render
    q2: seq<Sealed>,          // render -> gzip
    q3: seq<Sealed>,          // gzip -> put
    render: Pc,
    gzip: Pc,
    put: Pc,
    prev: Option<StagedFile>, // last file the put stage made durable
    // history
    accepted: seq<Batch>,     // batches taken and not handed back, in append order
    cut: seq<Sealed>,         // files cut out of the buffer
    stored: seq<Sealed>,      // objects on storage
    announced: nat,           // files handed to the notify queue
    done: nat)                // files published as durable

  function Init(cfg: Settings, epoch: nat, staged: Option<int>): State {
    State(cfg, epoch, staged, WState([], 0, 0, None, epoch, 0, staged, None, None), Slot(None, None),
          false, false, false, Free, AIdle, FIdle, [], [], [], Idle, Idle, Idle, None, [], [], [], 0, 0)
  }

  // ---------------------------------------------------------------------
  // health
  // ---------------------------------------------------------------------

  /** fatal_state: the order violation first, then the fence, the contract violation, and last a
      permanent stage failure read from the slot. */
  function Fatal(s: State): Option<Error> {
    if s.orderFatal then Some(StagingOrderViolation)
    else if s.fenced then Some(WriterFenced)
    else if s.serialFatal then Some(SerialContractViolation)
    else
      match StallError(s.slot, I64_MAX, s.cfg.after)
      case Some(e) => if e.RotationFailed? then Some(e) else None
      case None => None
  }

  // ---------------------------------------------------------------------
  // append
  // ---------------------------------------------------------------------

  function DoAppendBegin(s: State, b: Batch): State {
    if s.append.AIdle? && Fatal(s).None? && ValidRange(b) then s.(append := AEntering(b)) else s
  }

  /** The locked region: refuse a rewind or buffer the batch; `rotate` is the threshold verdict. */
  function DoAppendPush(s: State, rotate: bool, now: int): State {
    if !s.append.AEntering? then s
    else
      var b := s.append.b;
      if !MovesForward(s.w, b) then s.(append := AIdle)
      else s.(w := Push(s.w, b, now), accepted := s.accepted + [b],
              append := if rotate then ATrying(b, s.w, now) else AIdle)
  }

  function DoAppendTryLock(s: State): State {
    if !s.append.ATrying? then s
    else
      var ATrying(b, before, now) := s.append;
      if s.sealing.Free? then s.(append := AInSeal(b, before, now), sealing := Holding(Producer, Checking))
      else s.(append := AWaiting(b, before, now))
  }

  function DoAppendGetLock(s: State): State {
    if !s.append.AWaiting? || !s.sealing.Free? then s
    else s.(append := AInSeal(s.append.b, s.append.before, s.append.now), sealing := Holding(Producer, Checking))
  }

  function DoAppendStall(s: State): State {
    var e := StallError(s.slot, I64_MAX, s.cfg.after);
    if !s.append.AWaiting? || e.None? then s
    else s.(append := ABacking(s.append.b, s.append.before, s.append.now, e.value))
  }

  function DoAppendUnbuffer(s: State): State {
    if !s.append.ABacking? then s
    else
      var (w, taken) := Unbuffer(s.w, s.append.b.start, s.append.b.end, s.append.before.maxEnd);
      s.(w := w, append := AIdle,
         accepted := if taken && s.accepted != [] then s.accepted[..|s.accepted| - 1] else s.accepted)
  }

  // ---------------------------------------------------------------------
  // seal_and_send, from the seal lock on
  // ---------------------------------------------------------------------

  /** The lock is released and the caller gets `r`. */
  function Finish(s: State, r: Result<Option<int>, Error>): State {
    if s.sealing.Free? then s
    else
      var t := s.(sealing := Free);
      match s.sealing.who
      case Ticker => t
      case Another => t
      case Producer =>
        if !s.append.AInSeal? then t
        else if r.Err? then t.(append := ABacking(s.append.b, s.append.before, s.append.now, r.error))
        else t.(append := AIdle)
      case Flusher =>
        if !s.flush.FInSeal? then t
        else if r.Err? then t.(flush := FIdle)
        else if r.value.Some? then t.(flush := FAwaiting(s.flush.mark, r.value.value, |s.cut|))
        else t.(flush := FReadLast(s.flush.mark))
  }

  function DoSealCheck(s: State): State {
    if !(s.sealing.Holding? && s.sealing.phase.Checking?) then s
    else if Sealable(s.w, false, false) then s.(sealing := Holding(s.sealing.who, Reserving))
    else Finish(s, Ok(None))
  }

  predicate Room(s: State) {
    |s.q1| + s.sealing.Permits() < s.cfg.Capacity()
  }

  /** A closed channel is a gone render stage: the fatal state names the cause when there is one. */
  function DoSealReserve(s: State): State {
    if !(s.sealing.Holding? && (s.sealing.phase.Reserving? || s.sealing.phase.AwaitRoom?)) then s
    else if s.render.Exited? then
      match Fatal(s)
      case Some(e) => Finish(s, Err(e))
      case None =>
        var (slot, e) := PipelineGoneUpdate(s.slot);
        Finish(s.(slot := slot), Err(e))
    else if Room(s) then s.(sealing := Holding(s.sealing.who, Permitted))
    else s.(sealing := Holding(s.sealing.who, AwaitRoom))
  }

  function DoSealStall(s: State): State {
    var e := StallError(s.slot, I64_MAX, s.cfg.after);
    if !(s.sealing.Holding? && s.sealing.phase.AwaitRoom?) || e.None? then s
    else Finish(s, Err(e.value))
  }

  function DoSealHealth(s: State): State {
    if !(s.sealing.Holding? && s.sealing.phase.Permitted?) then s
    else
      match Fatal(s)
      case Some(e) => Finish(s, Err(e))
      case None => s.(sealing := Holding(s.sealing.who, Cleared(false)))
  }

  function DoSealCut(s: State, aged: bool): State {
    if !(s.sealing.Holding? && s.sealing.phase.Cleared?) then s
    else if !Sealable(s.w, s.sealing.phase.agedOnly, aged) then Finish(s, Ok(None))
    else
      var (w, r) := Seal(s.w, s.cfg.compressed);
      match r
      case Err(e) => Finish(s.(w := w), Err(e))
      case Ok(x) => s.(w := w, cut := s.cut + [x], sealing := Holding(s.sealing.who, Cut(x)))
  }

  function DoSealSend(s: State): State {
    if !(s.sealing.Holding? && s.sealing.phase.Cut?) then s
    else
      var x := s.sealing.phase.x;
      Finish(s.(q1 := s.q1 + [x]), Ok(Some(x.file.Serial())))
  }

  /** seal_if_aged_nonblocking: skip the tick unless lock and room are there at once. */
  function DoTickStart(s: State): State {
    if Fatal(s).None? && s.sealing.Free? && !s.render.Exited? && Room(s)
    then s.(sealing := Holding(Ticker, Cleared(true)))
    else s
  }

  // ---------------------------------------------------------------------
  // flush
  // ---------------------------------------------------------------------

  /** Batches whose `append` has returned. */
  function Settled(s: State): nat {
    if s.append.Pending() && s.accepted != [] then |s.accepted| - 1 else |s.accepted|
  }

  function DoFlushBegin(s: State): State {
    if s.flush.FIdle? && Fatal(s).None? then s.(flush := FTrying(Settled(s))) else s
  }

  function DoFlushTryLock(s: State): State {
    if !s.flush.FTrying? then s
    else if s.sealing.Free? then s.(flush := FInSeal(s.flush.mark), sealing := Holding(Flusher, Checking))
    else s.(flush := FWaiting(s.flush.mark))
  }

  function DoFlushGetLock(s: State): State {
    if !s.flush.FWaiting? || !s.sealing.Free? then s
    else s.(flush := FInSeal(s.flush.mark), sealing := Holding(Flusher, Checking))
  }

  function DoFlushStall(s: State): State {
    if s.flush.FWaiting? && StallError(s.slot, I64_MAX, s.cfg.after).Some? then s.(flush := FIdle) else s
  }

  function DoFlushReadLast(s: State): State {
    if !s.flush.FReadLast? then s
    else
      match s.w.lastSealed
      case Some(t) => s.(flush := FAwaiting(s.flush.mark, t, |s.cut|))
      case None => s.(flush := FReading(s.flush.mark, 0))
  }

  /** await_durable: durability is looked at before the failing entry. */
  function DoFlushWake(s: State): State {
    if !s.flush.FAwaiting? then s
    else if s.slot.DurableThrough(s.flush.target) then s.(flush := FReading(s.flush.mark, s.flush.upto))
    else if StallError(s.slot, s.flush.target, s.cfg.after).Some? then s.(flush := FIdle)
    else s
  }

  /** Another call of `flush` gets the seal lock; what it waits for afterwards touches nothing. */
  function DoAnotherLock(s: State): State {
    if s.sealing.Free? then s.(sealing := Holding(Another, Checking)) else s
  }

  function DoFlushReturn(s: State): State {
    if s.flush.FReading? then s.(flush := FIdle) else s
  }

  // ---------------------------------------------------------------------
  // the stages
  // ---------------------------------------------------------------------

  function At(s: State, st: Worker): Pc {
    match st
    case Render => s.render
    case Gzip => s.gzip
    case Put => s.put
  }

  function With(s: State, st: Worker, pc: Pc): State {
    match st
    case Render => s.(render := pc)
    case Gzip => s.(gzip := pc)
    case Put => s.(put := pc)
  }

  function Inbox(s: State, st: Worker): seq<Sealed> {
    match st
    case Render => s.q1
    case Gzip => s.q2
    case Put => s.q3
  }

  /** The task feeding `st` has exited, which closes the channel. */
  predicate Closed(s: State, st: Worker) {
    match st
    case Render => false
    case Gzip => s.render.Exited?
    case Put => s.gzip.Exited?
  }

  function DoStageRecv(s: State, st: Worker): State {
    var inbox := Inbox(s, st);
    if !At(s, st).Idle? then s
    else if inbox == [] then (if Closed(s, st) then With(s, st, Exited) else s)
    else
      var x := inbox[0];
      match st
      case Render => s.(q1 := s.q1[1..], render := Top(x, 0))
      case Gzip => s.(q2 := s.q2[1..], gzip := if x.file.compressed then Top(x, 0) else Sending(x))
      case Put => s.(q3 := s.q3[1..], put := Gate(x))
  }

  /** fenced_exit, taken: publish and stop. */
  function FencedExit(s: State, st: Worker): State {
    With(s.(slot := PublishTerminal(s.slot, Fenced, Whole, None)), st, Stopping)
  }

  function DoStageTop(s: State, st: Worker): State {
    var pc := At(s, st);
    if !pc.Top? then s
    else if s.fenced then FencedExit(s, st)
    else With(s, st, Running(pc.x, pc.n))
  }

  /** A put overwrites the same key with the same bytes, so a second landing changes nothing. */
  function Store(s: State, x: Sealed): State {
    if s.stored != [] && s.stored[|s.stored| - 1] == x then s else s.(stored := s.stored + [x])
  }

  /** One attempt. A put may land although its answer is an error. */
  datatype Outcome = Good | Bad(err: Error, landed: bool)

  function DoStageRun(s: State, st: Worker, o: Outcome): State {
    var pc := At(s, st);
    if !pc.Running? then s
    else
      var t := if st == Put && (o.Good? || o.landed) then Store(s, pc.x) else s;
      match o
      case Good => With(t, st, if pc.n > 0 then Passing(pc.x, pc.n) else Sending(pc.x))
      case Bad(err, _) =>
        With(t.(slot := ReportFailure(t.slot, pc.x.file.Serial(), st, pc.n + 1, err)), st,
             if IsPermanent(err) then Dying(pc.x, pc.n + 1, err) else Top(pc.x, pc.n + 1))
  }

  function DoStageClear(s: State, st: Worker): State {
    var pc := At(s, st);
    if !pc.Passing? then s
    else With(s.(slot := ClearFailure(s.slot, pc.x.file.Serial())), st, Sending(pc.x))
  }

  function DoStageDie(s: State, st: Worker): State {
    var pc := At(s, st);
    if !pc.Dying? then s
    else With(s.(slot := PublishTerminal(s.slot, Rotation, st, Some(CloneError(pc.err)))), st, Stopping)
  }

  function DoStageSend(s: State, st: Worker): State {
    var pc := At(s, st);
    if !pc.Sending? then s
    else
      match st
      case Render =>
        if s.gzip.Exited? then s.(render := Exited)
        else if s.q2 == [] then s.(q2 := [pc.x], render := Idle)
        else s
      case Gzip =>
        if s.put.Exited? then s.(gzip := Exited)
        else if s.q3 == [] then s.(q3 := [pc.x], gzip := Idle)
        else s
      case Put => s
  }

  function DoStageExit(s: State, st: Worker): State {
    if At(s, st).Stopping? then With(s, st, Exited) else s
  }

  /** check_order: seqs are dense within an epoch, and a later epoch starts at 0. */
  predicate CheckOrder(prev: Option<StagedFile>, next: StagedFile) {
    match prev
    case None => true
    case Some(p) =>
      if next.epoch == p.epoch then next.num == (p.num + 1) % (U32_MAX + 1)
      else next.epoch > p.epoch && next.num == 0
  }

  function DoPutGate(s: State): State {
    if !s.put.Gate? then s
    else if s.fenced then FencedExit(s, Put)
    else if !CheckOrder(s.prev, s.put.x.file) then
      s.(orderFatal := true, slot := PublishTerminal(s.slot, OrderViolation, Whole, None), put := Stopping)
    else s.(put := Top(s.put.x, 0))
  }

  /** The put returned: record the offset, unless the writer was fenced meanwhile. */
  function DoPutLanded(s: State): State {
    if !s.put.Sending? then s
    else if s.fenced then FencedExit(s, Put)
    else s.(w := RecordDurable(s.w, s.put.x.file.end), put := Recorded(s.put.x))
  }

  function DoPutAnnounce(s: State): State {
    if !s.put.Recorded? then s
    else s.(announced := s.announced + 1, prev := Some(s.put.x.file), put := Announced(s.put.x))
  }

  function DoPutLand(s: State): State {
    if !s.put.Announced? then s
    else s.(slot := Land(s.slot, s.put.x.file.Serial()), done := s.done + 1, put := Idle)
  }

  // ---------------------------------------------------------------------
  // runs
  // ---------------------------------------------------------------------

  datatype Step =
    | AppendBegin(b: Batch) | AppendPush(rotate: bool, now: int) | AppendTryLock | AppendGetLock
    | AppendStall | AppendUnbuffer
    | FlushBegin | FlushTryLock | FlushGetLock | FlushStall | FlushReadLast | FlushWake | FlushReturn
    | AnotherLock
    | SealCheck | SealReserve | SealStall | SealHealth | SealCut(aged: bool) | SealSend | TickStart
    | StageRecv(st: Worker) | StageTop(st: Worker) | StageRun(st: Worker, o: Outcome) | StageClear(st: Worker)
    | StageDie(st: Worker) | StageSend(st: Worker) | StageExit(st: Worker)
    | PutGate | PutLanded | PutAnnounce | PutLand
    | Fence | SerialViolation

  function Next(s: State, step: Step): State {
    match step
    case AppendBegin(b) => DoAppendBegin(s, b)
    case AppendPush(rotate, now) => DoAppendPush(s, rotate, now)
    case AppendTryLock => DoAppendTryLock(s)
    case AppendGetLock => DoAppendGetLock(s)
    case AppendStall => DoAppendStall(s)
    case AppendUnbuffer => DoAppendUnbuffer(s)
    case FlushBegin => DoFlushBegin(s)
    case FlushTryLock => DoFlushTryLock(s)
    case FlushGetLock => DoFlushGetLock(s)
    case FlushStall => DoFlushStall(s)
    case FlushReadLast => DoFlushReadLast(s)
    case FlushWake => DoFlushWake(s)
    case FlushReturn => DoFlushReturn(s)
    case AnotherLock => DoAnotherLock(s)
    case SealCheck => DoSealCheck(s)
    case SealReserve => DoSealReserve(s)
    case SealStall => DoSealStall(s)
    case SealHealth => DoSealHealth(s)
    case SealCut(aged) => DoSealCut(s, aged)
    case SealSend => DoSealSend(s)
    case TickStart => DoTickStart(s)
    case StageRecv(st) => DoStageRecv(s, st)
    case StageTop(st) => DoStageTop(s, st)
    case StageRun(st, o) => DoStageRun(s, st, o)
    case StageClear(st) => DoStageClear(s, st)
    case StageDie(st) => DoStageDie(s, st)
    case StageSend(st) => DoStageSend(s, st)
    case StageExit(st) => DoStageExit(s, st)
    case PutGate => DoPutGate(s)
    case PutLanded => DoPutLanded(s)
    case PutAnnounce => DoPutAnnounce(s)
    case PutLand => DoPutLand(s)
    case Fence => s.(fenced := true)
    case SerialViolation => s.(serialFatal := true)
  }

  function Run(s: State, steps: seq<Step>): State {
    if steps == [] then s else Next(Run(s, steps[..|steps| - 1]), steps[|steps| - 1])
  }

  // ---------------------------------------------------------------------
  // what the callers are told
  // ---------------------------------------------------------------------

  /** The error with which the holder of the seal lock leaves `seal_and_send` in this step. */
  function SealError(s: State, step: Step): Option<Error> {
    if s.sealing.Free? then None
    else
      var phase := s.sealing.phase;
      match step
      case SealReserve =>
        if (phase.Reserving? || phase.AwaitRoom?) && s.render.Exited?
        then Some(if Fatal(s).Some? then Fatal(s).value else PipelineGoneUpdate(s.slot).1)
        else None
      case SealStall => if phase.AwaitRoom? then StallError(s.slot, I64_MAX, s.cfg.after) else None
      case SealHealth => if phase.Permitted? then Fatal(s) else None
      case SealCut(aged) =>
        if phase.Cleared? && Sealable(s.w, phase.agedOnly, aged) && Seal(s.w, s.cfg.compressed).1.Err?
        then Some(Seal(s.w, s.cfg.compressed).1.error)
        else None
      case _ => None
  }

  /** What `append` returns, if it returns in this step. */
  function AppendReturns(s: State, step: Step): Option<Result<(), Error>> {
    match step
    case AppendBegin(b) =>
      if !s.append.AIdle? then None
      else if Fatal(s).Some? then Some(Err(Fatal(s).value))
      else if !ValidRange(b) then Some(Err(Error.Config))
      else None
    case AppendPush(rotate, _) =>
      if !s.append.AEntering? then None
      else if !MovesForward(s.w, s.append.b) then Some(Err(Error.Config))
      else if rotate then None
      else Some(Ok(()))
    case AppendUnbuffer =>
      if !s.append.ABacking? then None
      else if Unbuffer(s.w, s.append.b.start, s.append.b.end, s.append.before.maxEnd).1 || !s.append.err.StagingStalled?
      then Some(Err(s.append.err))
      else Some(Ok(()))
    case _ => if s.append.AInSeal? && Next(s, step).append.AIdle? then Some(Ok(())) else None
  }

  /** What `flush` returns, if it returns in this step. */
  function FlushReturns(s: State, step: Step): Option<Result<Option<int>, Error>> {
    match step
    case FlushBegin => if s.flush.FIdle? && Fatal(s).Some? then Some(Err(Fatal(s).value)) else None
    case FlushStall =>
      var e := StallError(s.slot, I64_MAX, s.cfg.after);
      if s.flush.FWaiting? && e.Some? then Some(Err(e.value)) else None
    case FlushWake =>
      if !s.flush.FAwaiting? || s.slot.DurableThrough(s.flush.target) then None
      else
        var e := StallError(s.slot, s.flush.target, s.cfg.after);
        if e.Some? then Some(Err(e.value)) else None
    case FlushReturn => if s.flush.FReading? then Some(Ok(s.w.staged)) else None
    case _ => if s.flush.FInSeal? && SealError(s, step).Some? then Some(Err(SealError(s, step).value)) else None
  }
}
