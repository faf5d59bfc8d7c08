/** What one step of the pipeline can do to storage, to the announcements and to the accepted
    batches: the view the session protocol has of a live writer. */
module PipelineEffects {
  import opened Base
  import opened Values
  import opened Progress
  import opened Writer
  import opened Pipeline
  import opened PipelineInvariant
  import PipelineStages

  /** The settings of a session and its number line never change; nothing leaves storage. */
  predicate Outside(s: State, t: State) {
    && t.cfg == s.cfg && t.epoch0 == s.epoch0 && t.base == s.base
    && t.serialFatal == s.serialFatal
    && (t.stored == s.stored || (|t.stored| == |s.stored| + 1 && s.stored <= t.stored))
    && (t.announced == s.announced || (t.announced == s.announced + 1 && t.put.Announced?))
  }

  /** A batch enters `accepted` from the call that offered it, and only the last one can leave. */
  predicate Calls(s: State, t: State, step: Step) {
    || (t.accepted == s.accepted &&
         (t.append.AEntering? ==> t.append == s.append || (step.AppendBegin? && t.append.b == step.b)))
    || (!t.append.AEntering? && s.append.AEntering? && t.accepted == s.accepted + [s.append.b])
    || (!t.append.AEntering? && s.accepted != [] && t.accepted == s.accepted[..|s.accepted| - 1])
  }

  /** Nothing a session would notice, except perhaps that a call moved on. */
  predicate Quiet(s: State, t: State) {
    && t.cfg == s.cfg && t.epoch0 == s.epoch0 && t.base == s.base && t.serialFatal == s.serialFatal
    && t.stored == s.stored && t.announced == s.announced && t.accepted == s.accepted
    && (t.append == s.append || !t.append.AEntering?)
  }

  lemma QuietEffects(s: State, t: State, step: Step)
    requires Quiet(s, t)
    ensures Outside(s, t) && Calls(s, t, step)
  {
  }

  lemma FinishIsQuiet(s: State, r: Result<Option<int>, Error>)
    ensures Quiet(s, Finish(s, r))
  {
  }

  lemma CheckAndSendAreQuiet(s: State)
    ensures Quiet(s, DoSealCheck(s)) && Quiet(s, DoSealSend(s))
  {
    forall t: State, r ensures Quiet(t, Finish(t, r)) { FinishIsQuiet(t, r); }
    hide Finish, Sealable;
  }

  lemma ReserveIsQuiet(s: State)
    ensures Quiet(s, DoSealReserve(s))
  {
    forall t: State, r ensures Quiet(t, Finish(t, r)) { FinishIsQuiet(t, r); }
    hide Finish, Fatal, PipelineGoneUpdate;
  }

  lemma StallAndHealthAreQuiet(s: State)
    ensures Quiet(s, DoSealStall(s)) && Quiet(s, DoSealHealth(s))
  {
    forall r ensures Quiet(s, Finish(s, r)) { FinishIsQuiet(s, r); }
    hide Finish, StallError, Fatal;
  }

  lemma CutIsQuiet(s: State, aged: bool)
    ensures Quiet(s, DoSealCut(s, aged))
  {
    forall t: State, r ensures Quiet(t, Finish(t, r)) { FinishIsQuiet(t, r); }
    hide Finish, Seal, Sealable;
  }

  predicate UnderLock(step: Step) {
    step.SealCheck? || step.SealReserve? || step.SealStall? || step.SealHealth? || step.SealCut? || step.SealSend?
  }

  lemma SealIsQuiet(s: State, step: Step)
    requires UnderLock(step)
    ensures Quiet(s, Next(s, step))
  {
    hide DoSealCheck, DoSealReserve, DoSealStall, DoSealHealth, DoSealCut, DoSealSend, Quiet;
    CheckAndSendAreQuiet(s);
    ReserveIsQuiet(s);
    StallAndHealthAreQuiet(s);
    if step.SealCut? { CutIsQuiet(s, step.aged); }
  }

  lemma FlushCallsAreQuiet(s: State)
    ensures Quiet(s, DoFlushBegin(s)) && Quiet(s, DoFlushTryLock(s)) && Quiet(s, DoFlushGetLock(s))
    ensures Quiet(s, DoAnotherLock(s))
  {
    hide Fatal, Settled;
  }

  lemma FlushWaitsAreQuiet(s: State)
    ensures Quiet(s, DoFlushStall(s)) && Quiet(s, DoFlushReadLast(s)) && Quiet(s, DoFlushReturn(s))
  {
    hide StallError;
  }

  lemma WakeIsQuiet(s: State)
    ensures Quiet(s, DoFlushWake(s)) && Quiet(s, DoTickStart(s)) && Quiet(s, s.(fenced := true))
  {
    hide StallError, Fatal, Room;
  }

  predicate OfFlush(step: Step) {
    step.FlushBegin? || step.FlushTryLock? || step.FlushGetLock? || step.FlushStall? || step.FlushReadLast? ||
    step.FlushWake? || step.FlushReturn? || step.AnotherLock? || step.TickStart? || step.Fence?
  }

  lemma FlushIsQuiet(s: State, step: Step)
    requires OfFlush(step)
    ensures Quiet(s, Next(s, step))
  {
    hide DoFlushBegin, DoFlushTryLock, DoFlushGetLock, DoFlushStall, DoFlushReadLast, DoFlushWake, DoFlushReturn,
      DoAnotherLock, DoTickStart, Quiet;
    FlushCallsAreQuiet(s);
    FlushWaitsAreQuiet(s);
    WakeIsQuiet(s);
  }

  lemma BeginEffects(s: State, b: Batch)
    ensures Outside(s, DoAppendBegin(s, b)) && Calls(s, DoAppendBegin(s, b), AppendBegin(b))
  {
    hide Fatal, ValidRange;
  }

  lemma PushEffects(s: State, rotate: bool, now: int, step: Step)
    ensures Outside(s, DoAppendPush(s, rotate, now)) && Calls(s, DoAppendPush(s, rotate, now), step)
  {
    hide Push, MovesForward;
  }

  lemma LockIsQuiet(s: State)
    ensures Quiet(s, DoAppendTryLock(s)) && Quiet(s, DoAppendGetLock(s)) && Quiet(s, DoAppendStall(s))
  {
    hide StallError;
  }

  lemma UnbufferEffects(s: State, step: Step)
    ensures Outside(s, DoAppendUnbuffer(s)) && Calls(s, DoAppendUnbuffer(s), step)
  {
    hide Unbuffer;
  }

  predicate OfAppend(step: Step) {
    step.AppendBegin? || step.AppendPush? || step.AppendTryLock? || step.AppendGetLock? || step.AppendStall? ||
    step.AppendUnbuffer?
  }

  lemma AppendEffects(s: State, step: Step)
    requires OfAppend(step)
    ensures Outside(s, Next(s, step)) && Calls(s, Next(s, step), step)
  {
    hide DoAppendBegin, DoAppendPush, DoAppendTryLock, DoAppendGetLock, DoAppendStall, DoAppendUnbuffer, Quiet,
      Outside, Calls;
    match step
    case AppendBegin(b) => BeginEffects(s, b);
    case AppendPush(rotate, now) => PushEffects(s, rotate, now, step);
    case AppendTryLock => LockIsQuiet(s); QuietEffects(s, Next(s, step), step);
    case AppendGetLock => LockIsQuiet(s); QuietEffects(s, Next(s, step), step);
    case AppendStall => LockIsQuiet(s); QuietEffects(s, Next(s, step), step);
    case AppendUnbuffer => UnbufferEffects(s, step);
  }

  /** The call in progress is not the stages' to change. */
  predicate Silent(s: State, t: State) {
    Quiet(s, t) && t.append == s.append
  }

  lemma RecvIsSilent(s: State, st: Worker)
    ensures Silent(s, DoStageRecv(s, st))
  {
  }

  lemma SendIsSilent(s: State, st: Worker)
    ensures Silent(s, DoStageSend(s, st))
  {
  }

  lemma AttemptsAreSilent(s: State, st: Worker)
    ensures Silent(s, DoStageTop(s, st)) && Silent(s, DoStageClear(s, st))
    ensures Silent(s, DoStageDie(s, st)) && Silent(s, DoStageExit(s, st))
  {
    hide PublishTerminal, ClearFailure;
  }

  lemma RunTouches(s: State, st: Worker, o: Outcome)
    ensures var t := DoStageRun(s, st, o);
            && t == s.(stored := t.stored, slot := t.slot, render := t.render, gzip := t.gzip, put := t.put)
            && (t.stored == s.stored || (|t.stored| == |s.stored| + 1 && s.stored <= t.stored))
  {
    hide ReportFailure, IsPermanent, ClearFailure, Store;
    if At(s, st).Running? {
      StoreTouches(s, At(s, st).x);
    }
  }

  lemma StoreTouches(s: State, x: Sealed)
    ensures var t := Store(s, x);
            && t == s.(stored := t.stored)
            && (t.stored == s.stored || (|t.stored| == |s.stored| + 1 && s.stored <= t.stored))
  {
  }

  lemma RunEffects(s: State, st: Worker, o: Outcome, step: Step)
    ensures Outside(s, DoStageRun(s, st, o)) && Calls(s, DoStageRun(s, st, o), step)
    ensures DoStageRun(s, st, o).append == s.append
  {
    hide DoStageRun;
    RunTouches(s, st, o);
  }

  predicate OfStage(step: Step) {
    step.StageRecv? || step.StageTop? || step.StageRun? || step.StageClear? || step.StageDie? || step.StageSend? ||
    step.StageExit?
  }

  lemma StageEffects(s: State, step: Step)
    requires OfStage(step)
    ensures Outside(s, Next(s, step)) && Calls(s, Next(s, step), step) && Next(s, step).append == s.append
  {
    hide DoStageRecv, DoStageTop, DoStageRun, DoStageClear, DoStageDie, DoStageSend, DoStageExit, Quiet, Outside,
      Calls;
    if step.StageRun? {
      RunEffects(s, step.st, step.o, step);
    } else {
      RecvIsSilent(s, step.st);
      SendIsSilent(s, step.st);
      AttemptsAreSilent(s, step.st);
      QuietEffects(s, Next(s, step), step);
    }
  }

  lemma PutIsQuiet(s: State)
    ensures Quiet(s, DoPutGate(s)) && Quiet(s, DoPutLanded(s)) && Quiet(s, DoPutLand(s))
  {
    hide CheckOrder, PublishTerminal, RecordDurable, Land;
  }

  lemma AnnounceEffects(s: State, step: Step)
    ensures Outside(s, DoPutAnnounce(s)) && Calls(s, DoPutAnnounce(s), step)
  {
  }

  predicate OfPut(step: Step) {
    step.PutGate? || step.PutLanded? || step.PutAnnounce? || step.PutLand?
  }

  lemma PutEffects(s: State, step: Step)
    requires OfPut(step)
    ensures Outside(s, Next(s, step)) && Calls(s, Next(s, step), step)
  {
    hide DoPutGate, DoPutLanded, DoPutAnnounce, DoPutLand, Quiet, Outside, Calls;
    if step.PutAnnounce? {
      AnnounceEffects(s, step);
    } else {
      PutIsQuiet(s);
      QuietEffects(s, Next(s, step), step);
    }
  }

  lemma StepEffects(s: State, step: Step)
    requires !step.SerialViolation?
    ensures Outside(s, Next(s, step)) && Calls(s, Next(s, step), step)
  {
    hide Outside, Calls, Next, Quiet;
    if UnderLock(step) {
      SealIsQuiet(s, step);
      QuietEffects(s, Next(s, step), step);
    } else if OfAppend(step) {
      AppendEffects(s, step);
    } else if OfPut(step) {
      PutEffects(s, step);
    } else if OfStage(step) {
      StageEffects(s, step);
    } else {
      FlushIsQuiet(s, step);
      QuietEffects(s, Next(s, step), step);
    }
  }

  /** The file being announced is the next one on storage. */
  lemma AnnouncedIsNext(s: State)
    requires Inv(s) && s.put.Announced?
    ensures 0 < s.announced <= |s.stored| && s.put.x == s.stored[s.announced - 1]
  {
    PipelineStages.PutHoldsNext(s.cut, s.done, s.put, s.q3, s.gzip, s.q2, s.render, s.q1, s.sealing.Hand());
  }
}
