/** The pipeline never wedges: from any state without a fence or a permanent failure, attempts that
    succeed carry every sealed file to storage, and every waiting flush can return. */
module PipelineProgress {
  import opened Base
  import opened Naming
  import opened Values
  import opened Progress
  import opened Writer
  import opened Pipeline
  import opened PipelineInvariant
  import PipelineStages
  import E = PipelineEffects
  import T = PipelineTheorems
  import V = PipelineVerdicts

  /** The steps a file still has before it, by where it is. */
  function PutSteps(pc: Pc): nat {
    match pc
    case Gate(_) => 7
    case Top(_, _) => 6
    case Running(_, _) => 5
    case Passing(_, _) => 4
    case Sending(_) => 3
    case Recorded(_) => 2
    case Announced(_) => 1
    case Idle => 0
    case Dying(_, _, _) => 0
    case Stopping => 0
    case Exited => 0
  }

  function WorkSteps(pc: Pc): nat {
    match pc
    case Top(_, _) => 4
    case Running(_, _) => 3
    case Passing(_, _) => 2
    case Sending(_) => 1
    case Gate(_) => 0
    case Recorded(_) => 0
    case Announced(_) => 0
    case Idle => 0
    case Dying(_, _, _) => 0
    case Stopping => 0
    case Exited => 0
  }

  /** A file in a stage is behind the 8 steps of the next channel, and so on upstream. */
  function StepsLeft(s: State): nat {
    PutSteps(s.put) + 8 * |s.q3| +
    (if WorkSteps(s.gzip) > 0 then 8 + WorkSteps(s.gzip) else 0) + 13 * |s.q2| +
    (if WorkSteps(s.render) > 0 then 13 + WorkSteps(s.render) else 0) + 18 * |s.q1| +
    19 * |s.sealing.Hand()|
  }

  /** The step of the file that is furthest down the pipeline. */
  function Foremost(s: State): Step {
    if !s.put.Idle? then
      if s.put.Gate? then PutGate
      else if s.put.Sending? then PutLanded
      else if s.put.Recorded? then PutAnnounce
      else if s.put.Announced? then PutLand
      else OfStage(s.put, Put)
    else if s.q3 != [] then StageRecv(Put)
    else if !s.gzip.Idle? then OfStage(s.gzip, Gzip)
    else if s.q2 != [] then StageRecv(Gzip)
    else if !s.render.Idle? then OfStage(s.render, Render)
    else if s.q1 != [] then StageRecv(Render)
    else SealSend
  }

  /** The step of a stage that is at work; its attempt succeeds. */
  function OfStage(pc: Pc, st: Worker): Step {
    if pc.Top? then StageTop(st)
    else if pc.Running? then StageRun(st, Good)
    else if pc.Passing? then StageClear(st)
    else StageSend(st)
  }

  /** One step on: the same files, one step fewer before them, and whoever waited still waits. */
  predicate OneFewer(s: State, t: State) {
    && V.AllGoing(t) && t.cut == s.cut && StepsLeft(t) < StepsLeft(s)
    && (s.flush.FAwaiting? ==> t.flush == s.flush)
  }

  lemma PutWorks(s: State)
    requires V.AllGoing(s) && (s.put.Top? || s.put.Running? || s.put.Passing?)
    ensures OneFewer(s, Next(s, Foremost(s)))
  {
    hide ClearFailure, Store;
    if s.put.Running? { V.StoreSameStages(s, s.put); StoreKeepsRest(s, s.put.x); }
  }

  lemma PutMoves(s: State)
    requires V.AllGoing(s) && !s.put.Idle? && (s.put.Gate? ==> CheckOrder(s.prev, s.put.x.file))
    ensures OneFewer(s, Next(s, Foremost(s)))
  {
    if s.put.Top? || s.put.Running? || s.put.Passing? {
      PutWorks(s);
    } else {
      hide CheckOrder, Land, RecordDurable;
    }
  }

  lemma StoreKeepsRest(s: State, x: Sealed)
    ensures var t := Store(s, x);
            && t.cut == s.cut && t.flush == s.flush && t.q1 == s.q1 && t.q2 == s.q2 && t.q3 == s.q3
            && t.sealing == s.sealing
  {
  }

  lemma GzipMoves(s: State)
    requires V.AllGoing(s) && PlainPc(s.gzip) && s.put.Idle? && s.q3 == [] && !s.gzip.Idle?
    ensures OneFewer(s, Next(s, Foremost(s)))
  {
    hide ClearFailure;
  }

  lemma RenderMoves(s: State)
    requires V.AllGoing(s) && PlainPc(s.render) && s.put.Idle? && s.q3 == [] && s.gzip.Idle? && s.q2 == []
    requires !s.render.Idle?
    ensures OneFewer(s, Next(s, Foremost(s)))
  {
    hide ClearFailure;
  }

  lemma ChannelsMove(s: State)
    requires V.AllGoing(s) && s.put.Idle?
    requires s.q3 != [] || (s.gzip.Idle? && (s.q2 != [] || (s.render.Idle? && s.q1 != [])))
    ensures OneFewer(s, Next(s, Foremost(s)))
  {
  }

  lemma HandMoves(s: State)
    requires V.AllGoing(s) && s.put.Idle? && s.q3 == [] && s.gzip.Idle? && s.q2 == [] && s.render.Idle? && s.q1 == []
    requires s.sealing.Hand() != [] && (s.flush.FAwaiting? ==> !s.sealing.who.Flusher?)
    ensures OneFewer(s, Next(s, Foremost(s)))
  {
  }

  /** While a file is in flight its foremost step can be taken. */
  lemma ForemostMoves(s: State)
    requires Inv(s) && V.AllGoing(s) && T.InFlight(s) != []
    ensures Inv(Next(s, Foremost(s))) && OneFewer(s, Next(s, Foremost(s)))
  {
    FlusherWaits(s);
    if s.put.Gate? {
      PipelineStages.OrderHolds(s);
    }
    T.StepKeepsInv(s, Foremost(s));
    hide Caps, Locks, HandIsLast, Files, Chain, Stored, Staged, Durable, History, Keys, Terminal, SlotTrue, Appending,
      Flushing, Bound, Next, OneFewer, CheckOrder, Foremost;
    if !s.put.Idle? {
      PutMoves(s);
    } else if s.q3 != [] || (s.gzip.Idle? && (s.q2 != [] || (s.render.Idle? && s.q1 != []))) {
      ChannelsMove(s);
    } else if !s.gzip.Idle? {
      GzipMoves(s);
    } else if !s.render.Idle? {
      RenderMoves(s);
    } else {
      HandMoves(s);
    }
  }

  lemma FlusherWaits(s: State)
    requires Inv(s)
    ensures s.flush.FAwaiting? && s.sealing.Holding? ==> !s.sealing.who.Flusher?
  {
    hide Caps, HandIsLast, Files, Chain, Stored, Staged, Durable, History, Keys, Terminal, SlotTrue, Appending,
      Flushing, Bound;
  }

  lemma {:induction false} Drained(s: State) returns (steps: seq<Step>)
    requires Inv(s) && V.AllGoing(s)
    ensures var t := Run(s, steps);
            && Inv(t) && V.AllGoing(t) && t.cut == s.cut && T.InFlight(t) == []
            && (s.flush.FAwaiting? ==> t.flush == s.flush)
    decreases StepsLeft(s)
  {
    hide Inv, V.AllGoing, T.InFlight, Next, StepsLeft;
    if T.InFlight(s) == [] {
      steps := [];
    } else {
      ForemostMoves(s);
      var rest := Drained(Next(s, Foremost(s)));
      steps := [Foremost(s)] + rest;
      RunFront(s, Foremost(s), rest);
    }
  }

  lemma {:induction false} RunFront(s: State, step: Step, rest: seq<Step>)
    ensures Run(s, [step] + rest) == Run(Next(s, step), rest)
  {
    hide Next;
    if rest == [] {
      assert ([step] + rest)[..0] == [];
      assert Run(s, []) == s;
    } else {
      var n := |rest| - 1;
      assert ([step] + rest)[..n + 1] == [step] + rest[..n];
      RunFront(s, step, rest[..n]);
    }
  }

  lemma NothingInFlight(s: State)
    requires Inv(s) && V.AllGoing(s) && T.InFlight(s) == []
    ensures s.done == |s.cut| && s.stored == s.cut && s.announced == |s.cut|
    ensures s.slot.durable == if s.cut == [] then None else Some(s.cut[|s.cut| - 1].file.Serial())
  {
    hide Caps, Locks, HandIsLast, Files, Staged, History, Keys, Terminal, SlotTrue, Appending, Flushing, Bound;
    T.LineIsInFlight(s);
    assert s.cut[..|s.cut|] == s.cut;
    assert s.put.Held() == [];
  }

  /** From any state a writer can be in without a fence or a permanent failure, and with any number of
      failed attempts behind it, there are steps that make every sealed file durable and announced. */
  lemma PipelineDrains(s: State) returns (steps: seq<Step>)
    requires T.Reachable(s) && V.AllGoing(s)
    ensures var t := Run(s, steps);
            && t.cut == s.cut && t.stored == t.cut && t.done == |t.cut| && t.announced == |t.cut|
            && (s.flush.FAwaiting? ==> t.flush == s.flush && t.slot.DurableThrough(t.flush.target))
  {
    hide Inv, T.Reachable, Run, V.AllGoing, T.InFlight, Slot.DurableThrough;
    T.ReachableInv(s);
    steps := Drained(s);
    NothingInFlight(Run(s, steps));
    TargetReached(Run(s, steps));
  }

  lemma TargetReached(s: State)
    requires Inv(s) && s.slot.durable == if s.cut == [] then None else Some(s.cut[|s.cut| - 1].file.Serial())
    ensures s.flush.FAwaiting? ==> s.slot.DurableThrough(s.flush.target)
  {
    hide Caps, Locks, HandIsLast, Files, Chain, Stored, Staged, Durable, History, Terminal, SlotTrue, Appending, Bound;
  }

  /** A flush that waits returns Ok after these steps and two of its own. */
  lemma FlushCanReturn(s: State) returns (steps: seq<Step>)
    requires T.Reachable(s) && V.AllGoing(s) && s.flush.FAwaiting?
    ensures var t := Next(Run(s, steps), FlushWake);
            t.flush.FReading? && FlushReturns(t, FlushReturn) == Some(Ok(t.w.staged))
  {
    hide T.Reachable, V.AllGoing, Run;
    steps := PipelineDrains(s);
  }

  // ---------------------------------------------------------------------
  // appends
  // ---------------------------------------------------------------------

  /** A call of append gets past its checks exactly if the writer is healthy and the range is one. */
  lemma AppendChecks(s: State, b: Batch)
    requires s.append.AIdle?
    ensures Next(s, AppendBegin(b)).append ==
              if Fatal(s).None? && 0 <= b.start <= b.end <= I64_MAX then AEntering(b) else AIdle
    ensures AppendReturns(s, AppendBegin(b)) ==
              if Fatal(s).Some? then Some(Err(Fatal(s).value))
              else if 0 <= b.start <= b.end <= I64_MAX then None
              else Some(Err(Error.Config))
  {
    hide Fatal;
  }

  /** Then its batch is taken exactly if it starts after the last batch taken, and otherwise the call is
      refused and the writer is as before. */
  lemma AppendTakes(s: State, rotate: bool, now: int)
    requires T.Reachable(s) && s.append.AEntering?
    ensures var b, t := s.append.b, Next(s, AppendPush(rotate, now));
            if s.accepted == [] || s.accepted[|s.accepted| - 1].end < b.start
            then t.accepted == s.accepted + [b] && t.w.buffered == s.w.buffered + [b] &&
                 AppendReturns(s, AppendPush(rotate, now)) == (if rotate then None else Some(Ok(())))
            else t == s.(append := AIdle) && AppendReturns(s, AppendPush(rotate, now)) == Some(Err(Error.Config))
  {
    hide T.Reachable, MovesForward, Fatal, Unbuffer, ValidRange;
    TakenIfForward(s);
  }

  lemma TakenIfForward(s: State)
    requires T.Reachable(s) && s.append.AEntering?
    ensures MovesForward(s.w, s.append.b) <==>
              s.accepted == [] || s.accepted[|s.accepted| - 1].end < s.append.b.start
  {
    T.ReachableInv(s);
    T.AcceptedFacts(s);
    hide Inv, T.Reachable, Flat, Forward, WellCut;
  }

  // ---------------------------------------------------------------------
  // the counters of the buffer
  // ---------------------------------------------------------------------

  function Bytes(bs: seq<Batch>): nat {
    if bs == [] then 0 else Bytes(bs[..|bs| - 1]) + bs[|bs| - 1].bytes
  }

  function Rows(bs: seq<Batch>): nat {
    if bs == [] then 0 else Rows(bs[..|bs| - 1]) + |bs[|bs| - 1].rows|
  }

  predicate Counted(w: WState) {
    w.bytes == Bytes(w.buffered) && w.rows == Rows(w.buffered)
  }

  lemma PushCounts(w: WState, b: Batch, now: int)
    requires Counted(w)
    ensures Counted(Push(w, b, now))
  {
    assert (w.buffered + [b])[..|w.buffered|] == w.buffered;
  }

  lemma {:induction false} RemoveCounts(bs: seq<Batch>, i: nat)
    requires i < |bs|
    ensures Bytes(bs) == Bytes(bs[..i] + bs[i + 1..]) + bs[i].bytes
    ensures Rows(bs) == Rows(bs[..i] + bs[i + 1..]) + |bs[i].rows|
  {
    var n := |bs| - 1;
    if i == n {
      assert bs[..i] + bs[i + 1..] == bs[..n];
    } else {
      RemoveCounts(bs[..n], i);
      var left := bs[..i] + bs[i + 1..];
      assert left[..|left| - 1] == bs[..n][..i] + bs[..n][i + 1..];
    }
  }

  lemma UnbufferCounts(w: WState, start: int, end: int, prev: Option<int>)
    requires Counted(w)
    ensures Counted(Unbuffer(w, start, end, prev).0)
  {
    var i := LastPosition(w.buffered, start, end);
    if i >= 0 {
      RemoveCounts(w.buffered, i);
    }
  }

  lemma SealCounts(w: WState, compressed: bool)
    requires Counted(w) && w.buffered != []
    ensures Counted(Seal(w, compressed).0)
  {
  }

  lemma AppendCounts(s: State, step: Step)
    requires E.OfAppend(step) && Counted(s.w)
    ensures Counted(Next(s, step).w)
  {
    hide Fatal, StallError, Push, Unbuffer, MovesForward, ValidRange, Counted;
    if step.AppendPush? && s.append.AEntering? {
      PushCounts(s.w, s.append.b, step.now);
    }
    if s.append.ABacking? {
      UnbufferCounts(s.w, s.append.b.start, s.append.b.end, s.append.before.maxEnd);
    }
  }

  lemma FlushCounts(s: State, step: Step)
    requires E.OfFlush(step) && Counted(s.w)
    ensures Counted(Next(s, step).w)
  {
    hide Fatal, StallError, Settled, Room, Counted;
  }

  /** Buffer, files cut and settings are as they were. */
  predicate SameFiles(s: State, t: State) {
    t.w == s.w && t.cut == s.cut && t.cfg == s.cfg
  }

  lemma FinishKeepsBuffer(s: State, r: Result<Option<int>, Error>)
    ensures SameFiles(s, Finish(s, r))
  {
  }

  lemma CutCounts(s: State, aged: bool)
    requires Counted(s.w)
    ensures Counted(DoSealCut(s, aged).w)
  {
    hide Finish, Seal, Counted;
    forall t: State, r ensures SameFiles(t, Finish(t, r)) {
      FinishKeepsBuffer(t, r);
    }
    if s.sealing.Holding? && s.sealing.phase.Cleared? && Sealable(s.w, s.sealing.phase.agedOnly, aged) {
      SealCounts(s.w, s.cfg.compressed);
      var (w, r) := Seal(s.w, s.cfg.compressed);
      assert r.Err? ==> Finish(s.(w := w), Err(r.error)).w == w;
    }
  }

  lemma SealKeepsBuffer(s: State, step: Step)
    requires E.UnderLock(step) && !step.SealCut?
    ensures SameFiles(s, Next(s, step))
  {
    hide Fatal, Finish;
    forall t: State, r ensures SameFiles(t, Finish(t, r)) {
      FinishKeepsBuffer(t, r);
    }
  }

  lemma SealStepCounts(s: State, step: Step)
    requires E.UnderLock(step) && Counted(s.w)
    ensures Counted(Next(s, step).w)
  {
    if step.SealCut? {
      hide DoSealCut, Counted;
      CutCounts(s, step.aged);
    } else {
      hide Next, Counted;
      SealKeepsBuffer(s, step);
    }
  }

  lemma AttemptKeepsBuffer(s: State, st: Worker, o: Outcome)
    ensures SameFiles(s, DoStageRun(s, st, o))
  {
    hide ReportFailure;
  }

  lemma MoveKeepsBuffer(s: State, st: Worker)
    ensures SameFiles(s, DoStageRecv(s, st)) && SameFiles(s, DoStageSend(s, st))
  {
  }

  lemma WorkerKeepsBuffer(s: State, st: Worker)
    ensures SameFiles(s, DoStageTop(s, st)) && SameFiles(s, DoStageClear(s, st))
    ensures SameFiles(s, DoStageDie(s, st)) && SameFiles(s, DoStageExit(s, st))
  {
    hide PublishTerminal, ClearFailure;
  }

  lemma StageCounts(s: State, step: Step)
    requires !E.OfAppend(step) && !E.OfFlush(step) && !E.UnderLock(step) && Counted(s.w)
    ensures Counted(Next(s, step).w)
  {
    hide DoStageRecv, DoStageTop, DoStageClear, DoStageDie, DoStageSend, DoStageExit, DoStageRun;
    if step.StageRun? {
      AttemptKeepsBuffer(s, step.st, step.o);
    } else if V.OfWorker(step) {
      MoveKeepsBuffer(s, step.st);
      WorkerKeepsBuffer(s, step.st);
    } else {
      hide PublishTerminal, Land, CheckOrder;
    }
  }

  /** The byte and row counters the rotation threshold looks at are those of the buffered batches. */
  lemma {:induction false} CountersAreSums(cfg: Settings, epoch: nat, staged: Option<int>, steps: seq<Step>)
    ensures var w := Run(Init(cfg, epoch, staged), steps).w;
            w.bytes == Bytes(w.buffered) && w.rows == Rows(w.buffered)
  {
    hide Next;
    if steps != [] {
      var n := |steps| - 1;
      CountersAreSums(cfg, epoch, staged, steps[..n]);
      var s := Run(Init(cfg, epoch, staged), steps[..n]);
      if E.OfAppend(steps[n]) {
        AppendCounts(s, steps[n]);
      } else if E.OfFlush(steps[n]) {
        FlushCounts(s, steps[n]);
      } else if E.UnderLock(steps[n]) {
        SealStepCounts(s, steps[n]);
      } else {
        StageCounts(s, steps[n]);
      }
    }
  }

  // ---------------------------------------------------------------------
  // what a file is
  // ---------------------------------------------------------------------

  /** No file is cut, or one is, with the whole buffer and the configured compression. */
  ghost predicate CutsAtMostOne(s: State, t: State) {
    && t.cfg == s.cfg
    && (t.cut == s.cut ||
         (t.w.buffered == [] && exists x ::
           t.cut == s.cut + [x] && x.batches == s.w.buffered && x.file.compressed == s.cfg.compressed))
  }

  lemma AppendCutsNothing(s: State, step: Step)
    requires E.OfAppend(step)
    ensures CutsAtMostOne(s, Next(s, step))
  {
    hide Fatal, StallError, Push, Unbuffer, MovesForward, ValidRange;
  }

  lemma FlushCutsNothing(s: State, step: Step)
    requires E.OfFlush(step)
    ensures CutsAtMostOne(s, Next(s, step))
  {
    hide Fatal, StallError, Settled, Room;
  }

  lemma CutCutsOne(s: State, aged: bool)
    ensures CutsAtMostOne(s, DoSealCut(s, aged))
  {
    hide Finish;
    forall t: State, r ensures SameFiles(t, Finish(t, r)) {
      FinishKeepsBuffer(t, r);
    }
    if s.sealing.Holding? && s.sealing.phase.Cleared? && Sealable(s.w, s.sealing.phase.agedOnly, aged) {
      var (w, r) := Seal(s.w, s.cfg.compressed);
      if r.Err? {
        assert SameFiles(s.(w := w), Finish(s.(w := w), Err(r.error)));
      }
    }
  }

  lemma StageCutsNothing(s: State, step: Step)
    requires !E.OfAppend(step) && !E.OfFlush(step) && !E.UnderLock(step)
    ensures CutsAtMostOne(s, Next(s, step))
  {
    hide DoStageRecv, DoStageTop, DoStageClear, DoStageDie, DoStageSend, DoStageExit, DoStageRun;
    if step.StageRun? {
      AttemptKeepsBuffer(s, step.st, step.o);
    } else if V.OfWorker(step) {
      MoveKeepsBuffer(s, step.st);
      WorkerKeepsBuffer(s, step.st);
    } else {
      hide PublishTerminal, Land, CheckOrder;
    }
  }

  /** A step cuts at most one file, which holds the whole buffer and is compressed as configured. */
  lemma StepCutsAtMostOne(s: State, step: Step)
    ensures CutsAtMostOne(s, Next(s, step))
  {
    hide Next, CutsAtMostOne;
    if E.OfAppend(step) {
      AppendCutsNothing(s, step);
    } else if E.OfFlush(step) {
      FlushCutsNothing(s, step);
    } else if step.SealCut? {
      CutCutsOne(s, step.aged);
      assert Next(s, step) == DoSealCut(s, step.aged) by { CutStep(s, step); }
    } else if E.UnderLock(step) {
      SealKeepsBuffer(s, step);
      SameCutsNothing(s, Next(s, step));
    } else {
      StageCutsNothing(s, step);
    }
  }

  lemma CutStep(s: State, step: Step)
    requires step.SealCut?
    ensures Next(s, step) == DoSealCut(s, step.aged)
  {
    hide DoSealCut;
  }

  lemma SameCutsNothing(s: State, t: State)
    requires SameFiles(s, t)
    ensures CutsAtMostOne(s, t)
  {
  }

  /** Every file of a writer is compressed exactly if so configured. */
  lemma {:induction false} FilesAreAsConfigured(cfg: Settings, epoch: nat, staged: Option<int>, steps: seq<Step>)
    ensures var t := Run(Init(cfg, epoch, staged), steps);
            t.cfg == cfg && forall i :: 0 <= i < |t.cut| ==> t.cut[i].file.compressed == cfg.compressed
  {
    hide Next;
    if steps != [] {
      var n := |steps| - 1;
      FilesAreAsConfigured(cfg, epoch, staged, steps[..n]);
      StepCutsAtMostOne(Run(Init(cfg, epoch, staged), steps[..n]), steps[n]);
    }
  }

  // ---------------------------------------------------------------------
  // room
  // ---------------------------------------------------------------------

  /** A sealer goes on exactly if the channel to the render stage has a free place, and waits only
      while max(1, rotation_queue_depth) files are in it. */
  lemma SealerWaitsOnlyWhenFull(s: State)
    requires T.Reachable(s) && s.sealing.Holding? && !s.render.Exited?
    requires s.sealing.phase.Reserving? || s.sealing.phase.AwaitRoom?
    ensures var t := Next(s, SealReserve);
            var full := |s.q1| == if s.cfg.depth == 0 then 1 else s.cfg.depth;
            t == s.(sealing := Holding(s.sealing.who, if full then AwaitRoom else Permitted))
  {
    T.ReachableInv(s);
    hide T.Reachable, Locks, HandIsLast, Files, Chain, Stored, Staged, Durable, History, Keys, Terminal, SlotTrue,
      Appending, Flushing, Bound;
  }

  // ---------------------------------------------------------------------
  // the order of puts
  // ---------------------------------------------------------------------

  /** check_order takes a file after another exactly if it is the next of the same epoch, or the first
      of a later one. */
  lemma OrderIsExact(p: StagedFile, f: StagedFile)
    requires p.Encodable() && f.Encodable()
    ensures CheckOrder(Some(p), f) <==>
              (f.epoch == p.epoch && f.Serial() == p.Serial() + 1) || (f.epoch > p.epoch && f.num == 0)
  {
  }
}
