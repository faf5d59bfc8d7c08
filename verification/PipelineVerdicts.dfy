/** What callers are told, exactly: stalls, fences, permanent failures, and when a stage stops. */
module PipelineVerdicts {
  import opened Base
  import opened Naming
  import opened Values
  import opened Progress
  import opened Writer
  import opened Pipeline
  import opened PipelineInvariant
  import opened PipelineEffects
  import PipelineStages
  import T = PipelineTheorems

  // ---------------------------------------------------------------------
  // a stall is told
  // ---------------------------------------------------------------------

  /** Stage `st` is at file `x` after `n` failed attempts. */
  predicate AtFile(s: State, st: Worker, x: Sealed, n: nat) {
    At(s, st) == Top(x, n) || At(s, st) == Running(x, n) || At(s, st) == Passing(x, n)
  }

  /** The slot records a failure of `x` in stage `st`. */
  predicate OnRecord(s: State, st: Worker, x: Sealed) {
    s.slot.failing.Some? &&
    var f := s.slot.failing.value;
    f.kind.StageFailure? && f.stage == st && f.serial == x.file.Serial()
  }

  lemma RecordFacts(s: State, st: Worker, x: Sealed, n: nat)
    requires Inv(s) && AtFile(s, st, x, n) && OnRecord(s, st, x)
    ensures var f := s.slot.failing.value; f.attempts == n && !f.permanent && f.cause.None?
    ensures 0 <= x.file.Serial() <= I64_MAX
  {
    hide Caps, Locks, HandIsLast, Chain, Stored, Staged, Durable, History, Appending, Flushing, Bound, Terminal;
    PipelineStages.HeldKnown(s, st);
    assert x in s.cut;
  }

  /** What the slot answers to a caller whose file is `x` or a later one. */
  lemma SlotAnswers(s: State, st: Worker, x: Sealed, n: nat, target: int)
    requires Inv(s) && AtFile(s, st, x, n) && OnRecord(s, st, x)
    ensures x.file.Serial() <= I64_MAX
    ensures x.file.Serial() <= target ==>
              StallError(s.slot, target, s.cfg.after) == if n >= s.cfg.after then Some(StagingStalled(n)) else None
  {
    RecordFacts(s, st, x, n);
    hide Inv;
  }

  /** Once a file on record has failed its stage the configured number of times, a flush that waits for
      it or a later file is told so at its next look at the slot; before that it is told nothing. */
  lemma FlushIsToldOfStall(s: State, st: Worker, x: Sealed, n: nat)
    requires T.Reachable(s) && AtFile(s, st, x, n) && OnRecord(s, st, x)
    requires s.flush.FAwaiting? && x.file.Serial() <= s.flush.target
    requires s.slot.durable.None? || s.slot.durable.value < s.flush.target
    ensures FlushReturns(s, FlushWake) == if n >= s.cfg.after then Some(Err(StagingStalled(n))) else None
    ensures Next(s, FlushWake).flush == if n >= s.cfg.after then FIdle else s.flush
  {
    hide Inv, T.Reachable, AtFile, OnRecord, StallError;
    T.ReachableInv(s);
    SlotAnswers(s, st, x, n, s.flush.target);
  }

  /** The same of a flush that waits for the seal lock. */
  lemma LockWaiterIsToldOfStall(s: State, st: Worker, x: Sealed, n: nat)
    requires T.Reachable(s) && AtFile(s, st, x, n) && OnRecord(s, st, x) && s.flush.FWaiting?
    ensures FlushReturns(s, FlushStall) == if n >= s.cfg.after then Some(Err(StagingStalled(n))) else None
    ensures Next(s, FlushStall).flush == if n >= s.cfg.after then FIdle else s.flush
  {
    hide Inv, T.Reachable, AtFile, OnRecord, StallError;
    T.ReachableInv(s);
    SlotAnswers(s, st, x, n, I64_MAX);
  }

  /** The same of an append that waits for the seal lock: it backs out with that error. */
  lemma AppendIsToldOfStall(s: State, st: Worker, x: Sealed, n: nat)
    requires T.Reachable(s) && AtFile(s, st, x, n) && OnRecord(s, st, x) && s.append.AWaiting?
    ensures Next(s, AppendStall).append ==
              if n >= s.cfg.after then ABacking(s.append.b, s.append.before, s.append.now, StagingStalled(n))
              else s.append
  {
    hide Inv, T.Reachable, AtFile, OnRecord, StallError;
    T.ReachableInv(s);
    SlotAnswers(s, st, x, n, I64_MAX);
  }

  /** The same of whoever holds the seal lock and waits for room in the channel: it lets go with that
      error, and an append that does backs out. */
  lemma SealerIsToldOfStall(s: State, st: Worker, x: Sealed, n: nat)
    requires T.Reachable(s) && AtFile(s, st, x, n) && OnRecord(s, st, x)
    requires s.sealing.Holding? && s.sealing.phase.AwaitRoom?
    ensures SealError(s, SealStall) == if n >= s.cfg.after then Some(StagingStalled(n)) else None
    ensures n < s.cfg.after ==> Next(s, SealStall) == s
    ensures n >= s.cfg.after ==>
              && Next(s, SealStall).sealing.Free?
              && (s.append.AInSeal? && s.sealing.who.Producer? ==>
                   Next(s, SealStall).append ==
                     ABacking(s.append.b, s.append.before, s.append.now, StagingStalled(n)))
  {
    hide Inv, T.Reachable, AtFile, OnRecord, StallError;
    T.ReachableInv(s);
    SlotAnswers(s, st, x, n, I64_MAX);
  }

  /** A failed attempt is on record at once, unless an earlier file is: from then on `StallIsTold`. */
  lemma FailedAttemptIsRecorded(s: State, st: Worker, x: Sealed, n: nat, err: Error, landed: bool)
    requires At(s, st) == Running(x, n) && !err.Schema? && !err.UnsupportedType?
    requires s.slot.failing.Some? ==>
               !s.slot.failing.value.kind.IsTerminal() && s.slot.failing.value.serial >= x.file.Serial()
    ensures var t := Next(s, StageRun(st, Bad(err, landed)));
            AtFile(t, st, x, n + 1) && OnRecord(t, st, x)
  {
  }

  /** An entry stays on record until its own file fails again, passes or lands, an earlier file fails,
      or a terminal entry replaces it. */
  lemma EntryLeavesOnly(s: State, step: Step)
    requires s.slot.failing.Some? && !s.slot.Stopped()
    ensures var f, t := s.slot.failing.value, Next(s, step);
            || t.slot.failing == s.slot.failing
            || t.slot.Stopped()
            || (t.slot.failing.Some? && t.slot.failing.value.serial <= f.serial && step.StageRun?)
            || (t.slot.failing.None? && step.StageClear? && At(s, step.st).Passing? &&
                 At(s, step.st).x.file.Serial() == f.serial)
            || (t.slot.failing.None? && step.PutLand? && s.put.Announced? && f.serial <= s.put.x.file.Serial())
  {
    hide Next;
    if !T.TouchesSlot(step) {
      T.OtherStepsKeepSlot(s, step);
    } else {
      TouchingSteps(s, step);
    }
  }

  lemma TouchingSteps(s: State, step: Step)
    requires s.slot.failing.Some? && !s.slot.Stopped() && T.TouchesSlot(step)
    ensures var f, t := s.slot.failing.value, Next(s, step);
            || t.slot.failing == s.slot.failing
            || t.slot.Stopped()
            || (t.slot.failing.Some? && t.slot.failing.value.serial <= f.serial && step.StageRun?)
            || (t.slot.failing.None? && step.StageClear? && At(s, step.st).Passing? &&
                 At(s, step.st).x.file.Serial() == f.serial)
            || (t.slot.failing.None? && step.PutLand? && s.put.Announced? && f.serial <= s.put.x.file.Serial())
  {
    hide Next;
    if step.SealReserve? {
      ReserveKeepsOrStops(s);
    } else if step.StageRun? {
      AttemptKeepsEntry(s, step.st, step.o);
    } else if OfWorker(step) {
      WorkerKeepsOrStops(s, step);
    } else {
      PutKeepsOrStops(s, step);
    }
  }

  lemma WorkerKeepsOrStops(s: State, step: Step)
    requires s.slot.failing.Some? && !s.slot.Stopped()
    requires step.StageTop? || step.StageClear? || step.StageDie?
    ensures var f, t := s.slot.failing.value, Next(s, step);
            || t.slot.failing == s.slot.failing
            || t.slot.Stopped()
            || (t.slot.failing.None? && step.StageClear? && At(s, step.st).Passing? &&
                 At(s, step.st).x.file.Serial() == f.serial)
  {
    hide DoStageTop, DoStageClear, DoStageDie, At;
    if step.StageTop? {
      TopKeepsOrStops(s, step.st);
    } else if step.StageDie? {
      DieKeepsOrStops(s, step.st);
    } else {
      ClearTakesOwn(s, step.st);
    }
  }

  lemma TopKeepsOrStops(s: State, st: Worker)
    ensures DoStageTop(s, st).slot.failing == s.slot.failing || DoStageTop(s, st).slot.Stopped()
  {
  }

  lemma DieKeepsOrStops(s: State, st: Worker)
    ensures DoStageDie(s, st).slot.failing == s.slot.failing || DoStageDie(s, st).slot.Stopped()
  {
  }

  lemma ClearTakesOwn(s: State, st: Worker)
    requires s.slot.failing.Some? && !s.slot.Stopped()
    ensures var t := DoStageClear(s, st);
            || t.slot.failing == s.slot.failing
            || (t.slot.failing.None? && At(s, st).Passing? && At(s, st).x.file.Serial() == s.slot.failing.value.serial)
  {
  }

  lemma PutKeepsOrStops(s: State, step: Step)
    requires s.slot.failing.Some? && (step.PutGate? || step.PutLanded? || step.PutLand?)
    ensures var f, t := s.slot.failing.value, Next(s, step);
            || t.slot.failing == s.slot.failing
            || t.slot.Stopped()
            || (t.slot.failing.None? && step.PutLand? && s.put.Announced? && f.serial <= s.put.x.file.Serial())
  {
    hide Fatal, CheckOrder;
  }

  lemma ReserveKeepsOrStops(s: State)
    ensures var t := Next(s, SealReserve); t.slot.failing == s.slot.failing || t.slot.Stopped()
  {
    forall t: State, r ensures Finish(t, r).slot == t.slot {
      T.FinishKeepsSlot(t, r);
    }
    hide Fatal, Finish;
  }

  lemma AttemptKeepsEntry(s: State, st: Worker, o: Outcome)
    requires s.slot.failing.Some? && !s.slot.Stopped()
    ensures var t := Next(s, StageRun(st, o));
            t.slot.failing.Some? && t.slot.failing.value.serial <= s.slot.failing.value.serial
  {
    hide Store;
    if At(s, st).Running? { StoreKeepsSlot(s, At(s, st).x); }
  }

  lemma StoreKeepsSlot(s: State, x: Sealed)
    ensures Store(s, x).slot == s.slot
  {
  }

  // ---------------------------------------------------------------------
  // what stopped the writer
  // ---------------------------------------------------------------------

  /** The error every new call gets, and in which order: the fence, then the violated contract, then
      the permanent failure on record. Without any of them calls go on. */
  lemma FatalIsExact(s: State)
    requires T.Reachable(s)
    ensures s.fenced ==> Fatal(s) == Some(WriterFenced)
    ensures !s.fenced && s.serialFatal ==> Fatal(s) == Some(SerialContractViolation)
    ensures !s.fenced && !s.serialFatal ==>
              && (Fatal(s).None? <==> s.slot.failing.None? || !s.slot.failing.value.permanent)
              && (Fatal(s).Some? ==>
                   Fatal(s).value.RotationFailed? && Fatal(s).value.stage == s.slot.failing.value.stage)
  {
    hide Inv, T.Reachable, Fatal;
    T.ReachableInv(s);
    PermanentFacts(s);
    FatalOf(s);
  }

  lemma FatalOf(s: State)
    requires s.slot.failing.Some? ==> Lasting(s.slot.failing.value, s.fenced)
    requires !s.orderFatal
    ensures s.fenced ==> Fatal(s) == Some(WriterFenced)
    ensures !s.fenced && s.serialFatal ==> Fatal(s) == Some(SerialContractViolation)
    ensures !s.fenced && !s.serialFatal ==>
              && (Fatal(s).None? <==> s.slot.failing.None? || !s.slot.failing.value.permanent)
              && (Fatal(s).Some? ==>
                   Fatal(s).value.RotationFailed? && Fatal(s).value.stage == s.slot.failing.value.stage)
  {
  }

  /** What an entry of the slot can be. */
  predicate Lasting(f: Failing, fenced: bool) {
    if f.kind.IsTerminal() then f.serial == I64_MIN && f.permanent && (f.kind.Rotation? || (f.kind.Fenced? && fenced))
    else f.kind.StageFailure? && f.serial <= I64_MAX && (f.cause.Some? <==> f.permanent)
  }

  lemma PermanentFacts(s: State)
    requires Inv(s)
    ensures !s.orderFatal && (s.slot.failing.Some? ==> Lasting(s.slot.failing.value, s.fenced))
  {
    hide Caps, Locks, HandIsLast, Chain, Stored, Staged, Durable, History, Appending, Flushing, Bound;
    if s.slot.failing.Some? && !s.slot.Stopped() {
      T.NamedStage(s);
      PipelineStages.HeldKnown(s, s.slot.failing.value.stage);
    }
  }

  // ---------------------------------------------------------------------
  // a permanent failure is told
  // ---------------------------------------------------------------------

  /** The terminal entry of a stage that failed for good. */
  predicate DiedOf(slot: Slot, st: Worker, err: Error) {
    slot.failing == Some(Failing(I64_MIN, st, 0, true, Some(err), Rotation))
  }

  /** An attempt that fails for good stops its stage, and the first such failure is the one on record
      for ever. */
  lemma PermanentFailureStays(s: State, st: Worker, x: Sealed, n: nat, err: Error, landed: bool, steps: seq<Step>)
    requires T.Reachable(s) && At(s, st) == Running(x, n) && !s.slot.Stopped()
    requires err == Error.Schema || err == UnsupportedType
    ensures var t := Run(Next(Next(s, StageRun(st, Bad(err, landed))), StageDie(st)), steps); DiedOf(t.slot, st, err)
    ensures At(Next(Next(s, StageRun(st, Bad(err, landed))), StageDie(st)), st).Stopping?
  {
    hide T.Reachable, Inv, Next, Run, At;
    AttemptDies(s, st, x, n, err, landed);
    var a := Next(s, StageRun(st, Bad(err, landed)));
    DyingStops(a, st, x, n + 1, err);
    T.ReachableInv(s);
    T.StepKeepsInv(s, StageRun(st, Bad(err, landed)));
    T.StepKeepsInv(a, StageDie(st));
    EntryStays(Next(a, StageDie(st)), steps);
  }

  lemma AttemptDies(s: State, st: Worker, x: Sealed, n: nat, err: Error, landed: bool)
    requires At(s, st) == Running(x, n) && !s.slot.Stopped() && (err == Error.Schema || err == UnsupportedType)
    ensures var t := Next(s, StageRun(st, Bad(err, landed))); At(t, st) == Dying(x, n + 1, err) && !t.slot.Stopped()
  {
  }

  lemma DyingStops(s: State, st: Worker, x: Sealed, n: nat, err: Error)
    requires At(s, st) == Dying(x, n, err) && !s.slot.Stopped() && (err == Error.Schema || err == UnsupportedType)
    ensures var t := Next(s, StageDie(st)); DiedOf(t.slot, st, err) && At(t, st).Stopping?
  {
  }

  lemma {:induction false} EntryStays(s: State, steps: seq<Step>)
    requires Inv(s) && s.slot.Stopped()
    ensures Inv(Run(s, steps)) && Run(s, steps).slot.failing == s.slot.failing
  {
    hide Inv, Next;
    if steps != [] {
      var n := |steps| - 1;
      EntryStays(s, steps[..n]);
      T.StepKeepsInv(Run(s, steps[..n]), steps[n]);
      T.TerminalEntryStaysStep(Run(s, steps[..n]), steps[n]);
    }
  }

  /** Who is told what of it: a flush whose file is not durable, whatever file it waits for, an append
      that waits, and, unless the writer is fenced or in violation, every new call. */
  lemma PermanentFailureIsTold(s: State, st: Worker, err: Error)
    requires DiedOf(s.slot, st, err) && !s.orderFatal
    ensures s.flush.FAwaiting? && s.flush.target >= 0 && !s.slot.DurableThrough(s.flush.target) ==>
              FlushReturns(s, FlushWake) == Some(Err(RotationFailed(st, err)))
    ensures s.flush.FWaiting? ==> FlushReturns(s, FlushStall) == Some(Err(RotationFailed(st, err)))
    ensures s.append.AWaiting? ==>
              Next(s, AppendStall).append ==
                ABacking(s.append.b, s.append.before, s.append.now, RotationFailed(st, err))
    ensures !s.fenced && !s.serialFatal ==> Fatal(s) == Some(RotationFailed(st, err))
  {
  }

  // ---------------------------------------------------------------------
  // a fence is told
  // ---------------------------------------------------------------------

  /** The terminal entry of a fenced stage. */
  predicate FencedEntry(slot: Slot) {
    slot.failing == Some(Failing(I64_MIN, Whole, 0, true, None, Fenced))
  }

  /** A stage of a fenced writer makes no further attempt: it stops, and unless a permanent failure
      was first, the fence is on record for ever. */
  lemma FenceStops(s: State, st: Worker, x: Sealed, n: nat, steps: seq<Step>)
    requires T.Reachable(s) && s.fenced && At(s, st) == Top(x, n)
    ensures At(Next(s, StageTop(st)), st).Stopping?
    ensures !s.slot.Stopped() ==> FencedEntry(Run(Next(s, StageTop(st)), steps).slot)
  {
    hide T.Reachable, Inv, Next, Run;
    FencedTop(s, st, x, n);
    T.ReachableInv(s);
    T.StepKeepsInv(s, StageTop(st));
    if !s.slot.Stopped() {
      EntryStays(Next(s, StageTop(st)), steps);
    }
  }

  lemma FencedTop(s: State, st: Worker, x: Sealed, n: nat)
    requires s.fenced && At(s, st) == Top(x, n)
    ensures At(Next(s, StageTop(st)), st).Stopping?
    ensures !s.slot.Stopped() ==> FencedEntry(Next(s, StageTop(st)).slot)
  {
  }

  /** Who is told of it: every waiting caller, and every new call. */
  lemma FenceIsTold(s: State)
    requires FencedEntry(s.slot) && s.fenced && !s.orderFatal
    ensures s.flush.FAwaiting? && s.flush.target >= 0 && !s.slot.DurableThrough(s.flush.target) ==>
              FlushReturns(s, FlushWake) == Some(Err(WriterFenced))
    ensures s.flush.FWaiting? ==> FlushReturns(s, FlushStall) == Some(Err(WriterFenced))
    ensures s.append.AWaiting? ==>
              Next(s, AppendStall).append == ABacking(s.append.b, s.append.before, s.append.now, WriterFenced)
    ensures Fatal(s) == Some(WriterFenced)
  {
  }

  function One(b: bool): nat {
    if b then 1 else 0
  }

  /** What a fenced writer may still do: finish the attempt, the bookkeeping, the cut and the append
      it is in the middle of. */
  predicate Bounds(s: State, t: State) {
    && t.fenced
    && |t.stored| + One(t.put.Running?) <= |s.stored| + One(s.put.Running?)
    && t.announced + One(t.put.Recorded?) <= s.announced + One(s.put.Recorded?)
    && |t.cut| + t.sealing.Promised() <= |s.cut| + s.sealing.Promised()
    && |t.accepted| + One(t.append.AEntering?) <= |s.accepted| + One(s.append.AEntering?)
  }

  lemma FencedIsFatal(s: State)
    requires s.fenced
    ensures Fatal(s).Some?
  {
  }

  lemma AppendWithinBounds(s: State, step: Step)
    requires s.fenced && OfAppend(step)
    ensures Bounds(s, Next(s, step))
  {
    FencedIsFatal(s);
    hide Fatal, Push, Unbuffer, MovesForward, StallError, ValidRange;
  }

  lemma FlushWithinBounds(s: State, step: Step)
    requires s.fenced && OfFlush(step)
    ensures Bounds(s, Next(s, step))
  {
    FencedIsFatal(s);
    hide Fatal, StallError, Settled, Room;
  }

  /** Letting go of the lock touches none of it. */
  predicate Released(s: State, t: State) {
    && t.fenced == s.fenced && t.stored == s.stored && t.put == s.put && t.announced == s.announced
    && t.cut == s.cut && t.accepted == s.accepted && t.sealing.Promised() <= s.sealing.Promised()
    && (t.append.AEntering? ==> s.append.AEntering?)
  }

  lemma FinishReleases(s: State, r: Result<Option<int>, Error>)
    ensures Released(s, Finish(s, r)) && Finish(s, r).sealing.Promised() == 0
  {
  }

  lemma CutWithinBounds(s: State, aged: bool)
    requires s.fenced
    ensures Bounds(s, DoSealCut(s, aged)) && Bounds(s, DoSealSend(s))
  {
    hide Finish, Sealable, Seal;
    forall t: State, r ensures Released(t, Finish(t, r)) && Finish(t, r).sealing.Promised() == 0 {
      FinishReleases(t, r);
    }
  }

  lemma SealWithinBounds(s: State, step: Step)
    requires s.fenced && UnderLock(step)
    ensures Bounds(s, Next(s, step))
  {
    hide DoSealCut, DoSealSend;
    if step.SealCut? || step.SealSend? {
      CutWithinBounds(s, if step.SealCut? then step.aged else false);
    } else {
      WaitWithinBounds(s, step);
    }
  }

  lemma WaitWithinBounds(s: State, step: Step)
    requires s.fenced && (step.SealCheck? || step.SealReserve? || step.SealStall? || step.SealHealth?)
    ensures Bounds(s, Next(s, step))
  {
    FencedIsFatal(s);
    hide Fatal, Finish, StallError, PipelineGoneUpdate;
    forall t: State, r ensures Released(t, Finish(t, r)) && Finish(t, r).sealing.Promised() == 0 {
      FinishReleases(t, r);
    }
  }

  lemma AttemptWithinBounds(s: State, st: Worker, o: Outcome)
    requires s.fenced
    ensures Bounds(s, DoStageRun(s, st, o))
  {
    hide ReportFailure, ClearFailure;
  }

  lemma MoveWithinBounds(s: State, st: Worker)
    requires s.fenced
    ensures Bounds(s, DoStageRecv(s, st)) && Bounds(s, DoStageSend(s, st))
  {
  }

  lemma TopWithinBounds(s: State, st: Worker)
    requires s.fenced
    ensures Bounds(s, DoStageTop(s, st)) && Bounds(s, DoStageClear(s, st))
  {
    hide PublishTerminal, ClearFailure;
  }

  lemma EndWithinBounds(s: State, st: Worker)
    requires s.fenced
    ensures Bounds(s, DoStageDie(s, st)) && Bounds(s, DoStageExit(s, st))
  {
    hide PublishTerminal;
  }

  lemma WorkerWithinBounds(s: State, step: Step)
    requires s.fenced && OfWorker(step)
    ensures Bounds(s, Next(s, step))
  {
    hide DoStageRecv, DoStageSend, DoStageTop, DoStageClear, DoStageDie, DoStageExit, Bounds;
    MoveWithinBounds(s, step.st);
    TopWithinBounds(s, step.st);
    EndWithinBounds(s, step.st);
  }

  lemma PutWithinBounds(s: State, step: Step)
    requires s.fenced
    requires step.PutGate? || step.PutLanded? || step.PutAnnounce? || step.PutLand? || step.SerialViolation?
    ensures Bounds(s, Next(s, step))
  {
    hide PublishTerminal, Land, CheckOrder, RecordDurable;
  }

  lemma StepWithinBounds(s: State, step: Step)
    requires s.fenced
    ensures Bounds(s, Next(s, step))
  {
    hide Next, Bounds;
    if OfAppend(step) {
      AppendWithinBounds(s, step);
    } else if OfFlush(step) {
      FlushWithinBounds(s, step);
    } else if UnderLock(step) {
      SealWithinBounds(s, step);
    } else if step.StageRun? {
      AttemptWithinBounds(s, step.st, step.o);
      assert Next(s, step) == DoStageRun(s, step.st, step.o) by { RunIsStageRun(s, step); }
    } else if OfWorker(step) {
      WorkerWithinBounds(s, step);
    } else {
      PutWithinBounds(s, step);
    }
  }

  lemma RunIsStageRun(s: State, step: Step)
    requires step.StageRun?
    ensures Next(s, step) == DoStageRun(s, step.st, step.o)
  {
    hide DoStageRun;
  }

  /** After a fence, however long the tasks go on: at most the one put under way lands, at most the one
      file past its bookkeeping is announced, at most the one file being cut is cut, and at most the
      one append past its checks is accepted. */
  lemma {:induction false} FencedWriterStops(s: State, steps: seq<Step>)
    requires s.fenced
    ensures var t := Run(s, steps);
            && t.fenced
            && |t.stored| + One(t.put.Running?) <= |s.stored| + One(s.put.Running?)
            && t.announced + One(t.put.Recorded?) <= s.announced + One(s.put.Recorded?)
            && |t.cut| + t.sealing.Promised() <= |s.cut| + s.sealing.Promised()
            && |t.accepted| + One(t.append.AEntering?) <= |s.accepted| + One(s.append.AEntering?)
  {
    hide Next;
    if steps != [] {
      var n := |steps| - 1;
      FencedWriterStops(s, steps[..n]);
      StepWithinBounds(Run(s, steps[..n]), steps[n]);
    }
  }

  // ---------------------------------------------------------------------
  // what stops a stage
  // ---------------------------------------------------------------------

  /** Neither a fence nor an attempt that fails for good. */
  predicate Harmless(step: Step) {
    !step.Fence? && (step.StageRun? && step.o.Bad? ==> !step.o.err.Schema? && !step.o.err.UnsupportedType?)
  }

  predicate Going(pc: Pc) {
    pc.Live() && !pc.Dying?
  }

  predicate AllGoing(s: State) {
    !s.fenced && Going(s.render) && Going(s.gzip) && Going(s.put)
  }

  predicate SameStages(s: State, t: State) {
    t.fenced == s.fenced && t.render == s.render && t.gzip == s.gzip && t.put == s.put
  }

  lemma FinishSameStages(s: State, r: Result<Option<int>, Error>)
    ensures SameStages(s, Finish(s, r))
  {
  }

  lemma AppendSameStages(s: State, step: Step)
    requires OfAppend(step)
    ensures SameStages(s, Next(s, step))
  {
    hide Fatal, Push, Unbuffer, MovesForward, StallError, ValidRange;
  }

  lemma FlushSameStages(s: State, step: Step)
    requires OfFlush(step) && !step.Fence?
    ensures SameStages(s, Next(s, step))
  {
    hide Fatal, StallError, Settled, Room;
  }

  lemma SealKeepsGoing(s: State, step: Step)
    requires AllGoing(s) && UnderLock(step)
    ensures AllGoing(Next(s, step))
  {
    if step.SealCut? || step.SealSend? {
      CutKeepsGoing(s, if step.SealCut? then step.aged else false);
    } else {
      WaitKeepsGoing(s, step);
    }
  }

  lemma CutKeepsGoing(s: State, aged: bool)
    requires AllGoing(s)
    ensures AllGoing(DoSealCut(s, aged)) && AllGoing(DoSealSend(s))
  {
    hide Fatal, Finish, Sealable, Seal;
    forall t: State, r ensures SameStages(t, Finish(t, r)) {
      FinishSameStages(t, r);
    }
  }

  lemma WaitKeepsGoing(s: State, step: Step)
    requires AllGoing(s) && (step.SealCheck? || step.SealReserve? || step.SealStall? || step.SealHealth?)
    ensures AllGoing(Next(s, step))
  {
    hide Fatal, Finish, StallError, PipelineGoneUpdate;
    forall t: State, r ensures SameStages(t, Finish(t, r)) {
      FinishSameStages(t, r);
    }
  }

  lemma AttemptKeepsGoing(s: State, st: Worker, o: Outcome)
    requires AllGoing(s) && Harmless(StageRun(st, o))
    ensures AllGoing(DoStageRun(s, st, o))
  {
    hide ReportFailure, Store;
    StoreSameStages(s, At(s, st));
  }

  lemma StoreSameStages(s: State, pc: Pc)
    ensures pc.Running? ==> SameStages(s, Store(s, pc.x))
  {
  }

  predicate OfWorker(step: Step) {
    step.StageRecv? || step.StageTop? || step.StageClear? || step.StageDie? || step.StageSend? || step.StageExit?
  }

  lemma MoveKeepsGoing(s: State, st: Worker)
    requires AllGoing(s)
    ensures AllGoing(DoStageRecv(s, st)) && AllGoing(DoStageSend(s, st))
  {
  }

  lemma TopKeepsGoing(s: State, st: Worker)
    requires AllGoing(s)
    ensures AllGoing(DoStageTop(s, st)) && AllGoing(DoStageClear(s, st))
    ensures DoStageDie(s, st) == s == DoStageExit(s, st)
  {
    hide PublishTerminal, ClearFailure;
  }

  lemma WorkerKeepsGoing(s: State, step: Step)
    requires AllGoing(s) && OfWorker(step)
    ensures AllGoing(Next(s, step))
  {
    hide DoStageRecv, DoStageSend, DoStageTop, DoStageClear, DoStageDie, DoStageExit, AllGoing;
    MoveKeepsGoing(s, step.st);
    TopKeepsGoing(s, step.st);
  }

  lemma PutKeepsGoing(s: State, step: Step)
    requires AllGoing(s) && (s.put.Gate? ==> CheckOrder(s.prev, s.put.x.file))
    requires step.PutGate? || step.PutLanded? || step.PutAnnounce? || step.PutLand? || step.SerialViolation?
    ensures AllGoing(Next(s, step))
  {
    hide PublishTerminal, Land, CheckOrder, RecordDurable;
  }

  /** In a run without a fence in which no attempt fails with Schema or UnsupportedType no stage ever
      stops, however often attempts fail otherwise. */
  lemma {:induction false} NoStageStops(cfg: Settings, epoch: nat, staged: Option<int>, steps: seq<Step>)
    requires forall i :: 0 <= i < |steps| ==> Harmless(steps[i])
    ensures var t := Run(Init(cfg, epoch, staged), steps);
            !t.fenced && Going(t.render) && Going(t.gzip) && Going(t.put)
  {
    hide Next, Inv, T.Reachable;
    if steps != [] {
      var n := |steps| - 1;
      NoStageStops(cfg, epoch, staged, steps[..n]);
      var t := Run(Init(cfg, epoch, staged), steps[..n]);
      assert T.Reachable(t) by { IsReachable(cfg, epoch, staged, steps[..n]); }
      GoingStep(t, steps[n]);
    }
  }

  lemma IsReachable(cfg: Settings, epoch: nat, staged: Option<int>, steps: seq<Step>)
    ensures T.Reachable(Run(Init(cfg, epoch, staged), steps))
  {
    hide Run, Init;
  }

  lemma GoingStep(s: State, step: Step)
    requires T.Reachable(s) && AllGoing(s) && Harmless(step)
    ensures AllGoing(Next(s, step))
  {
    hide Next, Inv, T.Reachable, AllGoing, CheckOrder;
    if s.put.Gate? {
      T.TripwireQuiet(s);
    }
    if OfAppend(step) {
      AppendSameStages(s, step);
      GoingFrame(s, Next(s, step));
    } else if OfFlush(step) {
      FlushSameStages(s, step);
      GoingFrame(s, Next(s, step));
    } else if UnderLock(step) {
      SealKeepsGoing(s, step);
    } else if step.StageRun? {
      AttemptKeepsGoing(s, step.st, step.o);
      RunIsStageRun(s, step);
    } else if OfWorker(step) {
      WorkerKeepsGoing(s, step);
    } else {
      PutKeepsGoing(s, step);
    }
  }

  lemma GoingFrame(s: State, t: State)
    requires AllGoing(s) && SameStages(s, t)
    ensures AllGoing(t)
  {
  }
}
