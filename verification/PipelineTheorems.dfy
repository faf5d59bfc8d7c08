/** What holds in every state every interleaving of the rotation pipeline can reach. */
module PipelineTheorems {
  import opened Base
  import opened Naming
  import opened Values
  import opened Progress
  import opened Writer
  import opened Pipeline
  import opened PipelineInvariant
  import opened PipelineEffects
  import PipelineSteps
  import PipelineStages

  lemma StepKeepsInv(s: State, step: Step)
    requires Inv(s)
    ensures Inv(Next(s, step))
  {
    hide Inv;
    hide DoAppendBegin, DoAppendPush, DoAppendTryLock, DoAppendGetLock, DoAppendStall, DoAppendUnbuffer, DoFlushBegin,
      DoFlushTryLock, DoFlushGetLock, DoFlushStall, DoFlushReadLast, DoFlushWake, DoFlushReturn, DoAnotherLock,
      DoSealCheck, DoSealReserve, DoSealStall, DoSealHealth, DoSealCut, DoSealSend, DoTickStart, DoStageRecv,
      DoStageTop, DoStageRun, DoStageClear, DoStageDie, DoStageSend, DoStageExit, DoPutGate, DoPutLanded,
      DoPutAnnounce, DoPutLand;
    match step
    case AppendBegin(b) => PipelineSteps.KeepAppendBegin(s, b);
    case AppendPush(rotate, now) => PipelineSteps.KeepAppendPush(s, rotate, now);
    case AppendTryLock => PipelineSteps.KeepAppendTryLock(s);
    case AppendGetLock => PipelineSteps.KeepAppendGetLock(s);
    case AppendStall => PipelineSteps.KeepAppendStall(s);
    case AppendUnbuffer => PipelineSteps.KeepAppendUnbuffer(s);
    case FlushBegin => PipelineSteps.KeepFlushBegin(s);
    case FlushTryLock => PipelineSteps.KeepFlushTryLock(s);
    case FlushGetLock => PipelineSteps.KeepFlushGetLock(s);
    case FlushStall => PipelineSteps.KeepFlushStall(s);
    case FlushReadLast => PipelineSteps.KeepFlushReadLast(s);
    case FlushWake => PipelineSteps.KeepFlushWake(s);
    case FlushReturn => PipelineSteps.KeepFlushReturn(s);
    case AnotherLock => PipelineSteps.KeepAnotherLock(s);
    case SealCheck => PipelineSteps.KeepSealCheck(s);
    case SealReserve => PipelineSteps.KeepSealReserve(s);
    case SealStall => PipelineSteps.KeepSealStall(s);
    case SealHealth => PipelineSteps.KeepSealHealth(s);
    case SealCut(aged) => PipelineSteps.KeepSealCut(s, aged);
    case SealSend => PipelineSteps.KeepSealSend(s);
    case TickStart => PipelineSteps.KeepTickStart(s);
    case StageRecv(st) => PipelineStages.KeepStageRecv(s, st);
    case StageTop(st) => PipelineStages.KeepStageTop(s, st);
    case StageRun(st, o) => PipelineStages.KeepStageRun(s, st, o);
    case StageClear(st) => PipelineStages.KeepStageClear(s, st);
    case StageDie(st) => PipelineStages.KeepStageDie(s, st);
    case StageSend(st) => PipelineStages.KeepStageSend(s, st);
    case StageExit(st) => PipelineStages.KeepStageExit(s, st);
    case PutGate => PipelineStages.KeepPutGate(s);
    case PutLanded => PipelineStages.KeepPutLanded(s);
    case PutAnnounce => PipelineStages.KeepPutAnnounce(s);
    case PutLand => PipelineStages.KeepPutLand(s);
    case Fence => PipelineStages.KeepFence(s);
    case SerialViolation => PipelineStages.KeepSerialViolation(s);
  }

  /** A state some run of some session reaches. */
  ghost predicate Reachable(s: State) {
    exists cfg, epoch, staged, steps :: s == Run(Init(cfg, epoch, staged), steps)
  }

  lemma {:induction false} RunKeepsInv(cfg: Settings, epoch: nat, staged: Option<int>, steps: seq<Step>)
    ensures Inv(Run(Init(cfg, epoch, staged), steps))
  {
    hide Inv, Next;
    if steps == [] {
      PipelineSteps.InitInv(cfg, epoch, staged);
    } else {
      RunKeepsInv(cfg, epoch, staged, steps[..|steps| - 1]);
      StepKeepsInv(Run(Init(cfg, epoch, staged), steps[..|steps| - 1]), steps[|steps| - 1]);
    }
  }

  lemma ReachableInv(s: State)
    requires Reachable(s)
    ensures Inv(s)
  {
    hide Inv;
    var cfg, epoch, staged, steps :| s == Run(Init(cfg, epoch, staged), steps);
    RunKeepsInv(cfg, epoch, staged, steps);
  }

  // ---------------------------------------------------------------------
  // conservation
  // ---------------------------------------------------------------------

  lemma {:induction false} FlatConcat(xs: seq<Sealed>, ys: seq<Sealed>)
    ensures Flat(xs + ys) == Flat(xs) + Flat(ys)
  {
    if ys == [] {
      assert xs + ys == xs;
    } else {
      var n := |ys| - 1;
      FlatConcat(xs, ys[..n]);
      assert (xs + ys)[..|xs + ys| - 1] == xs + ys[..n];
    }
  }

  /** Files sealed and not yet durable, oldest first: the put stage's file, the channel before it,
      and so on up to the file in the sealer's hand. */
  function InFlight(s: State): seq<Sealed> {
    s.put.Held() + s.q3 + s.gzip.Held() + s.q2 + s.render.Held() + s.q1 + s.sealing.Hand()
  }

  /** While no stage has stopped nothing accepted is anywhere but in a durable file, in flight or
      in the buffer, once and in append order. */
  lemma NothingLost(s: State)
    requires Reachable(s) && AllLive(s)
    ensures s.done <= |s.cut|
    ensures s.cut == s.cut[..s.done] + InFlight(s)
    ensures Flat(s.cut[..s.done]) + Flat(InFlight(s)) + s.w.buffered == s.accepted
  {
    ReachableInv(s);
    LineIsInFlight(s);
    FlatConcat(s.cut[..s.done], InFlight(s));
    AcceptedSplit(s);
  }

  lemma LineIsInFlight(s: State)
    requires Chain(s.cut, s.done, s.put, s.q3, s.gzip, s.q2, s.render, s.q1, s.sealing.Hand()) && AllLive(s)
    ensures s.done <= |s.cut| && s.cut == s.cut[..s.done] + InFlight(s)
  {
    assert s.cut == s.cut[..s.done] + s.cut[s.done..];
  }

  lemma AcceptedSplit(s: State)
    requires History(s.cut, s.w.buffered, s.w.oldest, s.w.maxEnd, s.accepted)
    ensures Flat(s.cut) + s.w.buffered == s.accepted
  {
  }

  /** With fences, permanent failures and retries in any order, storage holds a prefix of the
      sealed files, at most one beyond the ones published durable, and their numbers are dense. */
  lemma StorageIsPrefix(s: State)
    requires Reachable(s)
    ensures s.stored <= s.cut && s.done <= |s.stored| <= s.done + 1
    ensures forall i, j :: 0 <= i < j < |s.cut| ==> s.cut[j].file.Serial() == s.cut[i].file.Serial() + (j - i)
    ensures forall i :: 0 <= i < |s.cut| ==> s.cut[i].file.Encodable() && s.cut[i].file.epoch >= s.epoch0
  {
    ReachableInv(s);
    StoredFacts(s);
    KeysFacts(s);
  }

  lemma StoredFacts(s: State)
    requires Stored(s.cut, s.stored, s.done, s.announced, s.prev, s.put)
    ensures s.stored <= s.cut && s.done <= |s.stored| <= s.done + 1
    ensures s.announced <= |s.stored| <= s.announced + 1
  {
  }

  lemma KeysFacts(s: State)
    requires Keys(s.cut, s.epoch0, s.w.epoch, s.w.next, s.w.lastSealed)
    ensures forall i, j :: 0 <= i < j < |s.cut| ==> s.cut[j].file.Serial() == s.cut[i].file.Serial() + (j - i)
    ensures forall i :: 0 <= i < |s.cut| ==> s.cut[i].file.Encodable() && s.cut[i].file.epoch >= s.epoch0
  {
    forall i | 0 <= i < |s.cut| ensures s.cut[i].file.epoch >= s.epoch0 {
      var f := s.cut[i].file;
      assert f.epoch * SEQ_SPAN + f.num == s.epoch0 * SEQ_SPAN + i;
      assert f.num < SEQ_SPAN;
    }
  }

  /** Offsets of accepted batches move forward, so no offset is sealed twice or sealed and buffered. */
  lemma AcceptedOnce(s: State)
    requires Reachable(s)
    ensures Flat(s.cut) + s.w.buffered == s.accepted && Forward(s.accepted)
    ensures forall i :: 0 <= i < |s.cut| ==> WellCut(s.cut[i])
  {
    ReachableInv(s);
    AcceptedFacts(s);
  }

  lemma AcceptedFacts(s: State)
    requires History(s.cut, s.w.buffered, s.w.oldest, s.w.maxEnd, s.accepted)
    ensures Flat(s.cut) + s.w.buffered == s.accepted && Forward(s.accepted)
    ensures forall i :: 0 <= i < |s.cut| ==> WellCut(s.cut[i])
    ensures s.w.maxEnd == LastEnd(s.accepted)
  {
  }

  // ---------------------------------------------------------------------
  // no lost wake-up
  // ---------------------------------------------------------------------

  /** A stage that is gone has left a terminal entry, every new call is refused, and the entry is
      a fence or a permanent failure: `PipelineGone` and the order violation cannot occur. */
  lemma GoneStageIsAnnounced(s: State)
    requires Reachable(s)
    ensures !AllLive(s) ==> s.slot.Stopped()
    ensures s.slot.Stopped() ==> Fatal(s).Some?
    ensures s.slot.Stopped() ==> s.slot.failing.value.kind.Fenced? || s.slot.failing.value.kind.Rotation?
    ensures !s.orderFatal
  {
    ReachableInv(s);
    TerminalFacts(s);
  }

  lemma TerminalFacts(s: State)
    requires Terminal(s.orderFatal, s.fenced, s.slot.failing, AllLive(s))
    ensures !AllLive(s) ==> s.slot.Stopped()
    ensures s.slot.Stopped() ==> Fatal(s).Some?
    ensures s.slot.Stopped() ==> s.slot.failing.value.kind.Fenced? || s.slot.failing.value.kind.Rotation?
    ensures s.slot.Stopped() ==> s.slot.failing.value.serial == I64_MIN && s.slot.failing.value.permanent
    ensures !s.orderFatal
  {
  }

  /** No caller is ever told that the pipeline is gone without a cause: a stopped stage has always
      named one first. */
  lemma GoneAlwaysHasACause(s: State, step: Step)
    requires Reachable(s)
    ensures SealError(s, step) != Some(WriterClosed)
    ensures forall target: int :: StallError(s.slot, target, s.cfg.after) != Some(WriterClosed)
    ensures Fatal(s) != Some(WriterClosed)
  {
    ReachableInv(s);
    CausesNamed(s);
    if s.render.Exited? { GoneIsNamed(s); }
    hide Inv, Reachable, Fatal, StallError, Sealable, PipelineGoneUpdate, AllLive;
  }

  lemma CausesNamed(s: State)
    requires Inv(s)
    ensures forall target: int :: StallError(s.slot, target, s.cfg.after) != Some(WriterClosed)
    ensures Fatal(s) != Some(WriterClosed)
  {
    TerminalFacts(s);
    hide Inv;
  }

  lemma GoneIsNamed(s: State)
    requires Inv(s) && s.render.Exited?
    ensures Fatal(s).Some?
  {
    TerminalFacts(s);
    hide Inv, Fatal;
  }

  /** The file at the put stage's gate always follows the last durable one: the tripwire is quiet. */
  lemma TripwireQuiet(s: State)
    requires Reachable(s) && s.put.Gate?
    ensures CheckOrder(s.prev, s.put.x.file)
  {
    ReachableInv(s);
    PipelineStages.OrderHolds(s);
  }

  lemma InvTerminal(s: State)
    requires Inv(s)
    ensures s.slot.Stopped() ==> s.slot.failing.value.serial == I64_MIN
  {
    TerminalFacts(s);
  }

  lemma TerminalEntryStaysStep(s: State, step: Step)
    requires Inv(s) && s.slot.Stopped()
    ensures Next(s, step).slot.failing == s.slot.failing
  {
    hide Inv, Next;
    InvTerminal(s);
    if !TouchesSlot(step) {
      OtherStepsKeepSlot(s, step);
    } else {
      match step
      case StageTop(st) => StopsKeepStoppedSlot(s, st);
      case StageRun(st, o) => RunKeepsStoppedSlot(s, st, o);
      case StageClear(st) =>
        PassingSerial(s, st);
        ClearKeepsStoppedSlot(s, st);
      case StageDie(st) => StopsKeepStoppedSlot(s, st);
      case SealReserve => ReserveKeepsStoppedSlot(s);
      case PutGate => PutKeepsStoppedSlot(s);
      case PutLanded => PutKeepsStoppedSlot(s);
      case PutLand => LandKeepsStoppedSlot(s);
    }
  }

  predicate TouchesSlot(step: Step) {
    step.StageTop? || step.StageRun? || step.StageClear? || step.StageDie? ||
    step.PutGate? || step.PutLanded? || step.PutLand? || step.SealReserve?
  }

  lemma FinishKeepsSlot(s: State, r: Result<Option<int>, Error>)
    ensures Finish(s, r).slot == s.slot
  {
  }

  lemma OtherStepsKeepSlot(s: State, step: Step)
    requires !TouchesSlot(step)
    ensures Next(s, step).slot == s.slot
  {
    hide Next;
    if OfAppend(step) || OfFlush(step) {
      CallsKeepSlot(s, step);
    } else if UnderLock(step) {
      SealKeepsSlot(s, step);
    } else {
      PassingKeepsSlot(s, step);
    }
  }

  lemma CallsKeepSlot(s: State, step: Step)
    requires OfAppend(step) || OfFlush(step)
    ensures Next(s, step).slot == s.slot
  {
    hide Push, Unbuffer, StallError, Fatal, MovesForward, Settled;
  }

  lemma SealKeepsSlot(s: State, step: Step)
    requires UnderLock(step) && !step.SealReserve?
    ensures Next(s, step).slot == s.slot
  {
    hide Seal, Sealable, StallError, Fatal, Finish;
    forall t: State, r ensures Finish(t, r).slot == t.slot {
      FinishKeepsSlot(t, r);
    }
  }

  lemma PassingKeepsSlot(s: State, step: Step)
    requires !OfAppend(step) && !OfFlush(step) && !UnderLock(step) && !TouchesSlot(step)
    ensures Next(s, step).slot == s.slot
  {
  }

  lemma StopsKeepStoppedSlot(s: State, st: Worker)
    requires s.slot.Stopped()
    ensures Next(s, StageTop(st)).slot == s.slot && Next(s, StageDie(st)).slot == s.slot
  {
  }

  lemma RunKeepsStoppedSlot(s: State, st: Worker, o: Outcome)
    requires s.slot.Stopped()
    ensures Next(s, StageRun(st, o)).slot == s.slot
  {
  }

  lemma PassingSerial(s: State, st: Worker)
    requires Inv(s)
    ensures At(s, st).Passing? ==> At(s, st).x.file.Serial() >= 0
  {
    if At(s, st).Passing? {
      PipelineStages.HeldKnown(s, st);
    }
  }

  lemma ClearKeepsStoppedSlot(s: State, st: Worker)
    requires s.slot.Stopped() && s.slot.failing.value.serial == I64_MIN
    requires At(s, st).Passing? ==> At(s, st).x.file.Serial() >= 0
    ensures Next(s, StageClear(st)).slot == s.slot
  {
  }

  lemma PutKeepsStoppedSlot(s: State)
    requires s.slot.Stopped()
    ensures Next(s, PutGate).slot == s.slot && Next(s, PutLanded).slot == s.slot
  {
    hide CheckOrder, RecordDurable;
  }

  lemma LandKeepsStoppedSlot(s: State)
    requires s.slot.Stopped()
    ensures Next(s, PutLand).slot.failing == s.slot.failing
  {
  }

  lemma ReserveKeepsStoppedSlot(s: State)
    requires s.slot.Stopped()
    ensures Next(s, SealReserve).slot == s.slot
  {
    hide Fatal, Finish;
    forall t: State, r ensures Finish(t, r).slot == t.slot { FinishKeepsSlot(t, r); }
  }

  /** The first terminal entry outlives every continuation of the run. */
  lemma {:induction false} TerminalEntryStays(s: State, steps: seq<Step>)
    requires Inv(s) && s.slot.Stopped()
    ensures Inv(Run(s, steps)) && Run(s, steps).slot.failing == s.slot.failing
  {
    hide Inv, Next;
    if steps != [] {
      var t := Run(s, steps[..|steps| - 1]);
      TerminalEntryStays(s, steps[..|steps| - 1]);
      StepKeepsInv(t, steps[|steps| - 1]);
      TerminalEntryStaysStep(t, steps[|steps| - 1]);
    }
  }

  /** A flush that waits is durable already, or owed an error, or waits for a file that a living
      pipeline still holds. */
  lemma NoLostWakeUp(s: State)
    requires Reachable(s) && s.flush.FAwaiting?
    ensures || s.slot.DurableThrough(s.flush.target)
            || StallError(s.slot, s.flush.target, s.cfg.after).Some?
            || (AllLive(s) && exists x :: x in InFlight(s) && x.file.Serial() == s.flush.target)
  {
    hide Inv, Reachable;
    ReachableInv(s);
    WaitFacts(s);
    hide StallError, AllLive, Fatal;
    if AllLive(s) && s.flush.upto > s.done {
      var x := s.cut[s.flush.upto - 1];
      assert x == InFlight(s)[s.flush.upto - 1 - s.done];
    }
  }

  lemma WaitFacts(s: State)
    requires Inv(s) && s.flush.FAwaiting?
    ensures !AllLive(s) ==> StallError(s.slot, s.flush.target, s.cfg.after).Some?
    ensures 0 < s.flush.upto <= |s.cut| && s.cut[s.flush.upto - 1].file.Serial() == s.flush.target
    ensures s.flush.upto <= s.done ==> s.slot.DurableThrough(s.flush.target)
    ensures AllLive(s) ==> s.done <= |s.cut| && s.cut == s.cut[..s.done] + InFlight(s)
  {
    TerminalFacts(s);
    TargetAboveMinimum(s);
    AwaitedFile(s);
    if AllLive(s) {
      LineIsInFlight(s);
    }
  }

  lemma TargetAboveMinimum(s: State)
    requires s.flush.FAwaiting? && Flushing(s.flush, Settled(s), s.sealing.Hand(), s.cut, s.done)
    requires Keys(s.cut, s.epoch0, s.w.epoch, s.w.next, s.w.lastSealed)
    ensures s.flush.target >= 0
  {
  }

  lemma AwaitedFile(s: State)
    requires s.flush.FAwaiting? && Flushing(s.flush, Settled(s), s.sealing.Hand(), s.cut, s.done)
    requires Keys(s.cut, s.epoch0, s.w.epoch, s.w.next, s.w.lastSealed) && Durable(s.cut, s.done, s.slot.durable)
    ensures 0 < s.flush.upto <= |s.cut| && s.cut[s.flush.upto - 1].file.Serial() == s.flush.target
    ensures s.flush.upto <= s.done ==> s.slot.DurableThrough(s.flush.target)
  {
  }

  // ---------------------------------------------------------------------
  // flush is honest
  // ---------------------------------------------------------------------

  /** `Ok` from `flush`: every batch accepted before the call is in a durable file, and the staged
      offset returned is at or past its end. */
  lemma FlushOkIsHonest(s: State)
    requires Reachable(s) && s.flush.FReading?
    ensures FlushReturns(s, FlushReturn) == Some(Ok(s.w.staged))
    ensures s.flush.upto <= s.done <= |s.cut| && s.flush.mark <= |Flat(s.cut[..s.flush.upto])|
    ensures Flat(s.cut[..s.flush.upto]) <= s.accepted
    ensures forall i :: 0 <= i < s.flush.mark ==> s.w.staged.Some? && s.w.staged.value >= s.accepted[i].end
  {
    ReachableInv(s);
    ReadingFacts(s);
    AcceptedFacts(s);
    StagedFacts(s);
    hide Inv, Flat, StagedAfter, Forward, WellCut;
    FlatPrefix(s.cut, s.flush.upto);
    forall i | 0 <= i < s.flush.mark ensures s.w.staged.Some? && s.w.staged.value >= s.accepted[i].end {
      EndIsStaged(s, s.flush.upto, i);
    }
  }

  /** A batch inside the first `upto` recorded files ends at or before the staged offset. */
  lemma EndIsStaged(s: State, upto: nat, i: nat)
    requires History(s.cut, s.w.buffered, s.w.oldest, s.w.maxEnd, s.accepted)
    requires Staged(s.base, s.cut, RecordedCount(s.done, s.put), s.w.staged)
    requires upto <= RecordedCount(s.done, s.put) <= |s.cut| && i < |Flat(s.cut[..upto])|
    ensures i < |s.accepted| && s.w.staged.Some? && s.w.staged.value >= s.accepted[i].end
  {
    FlatPrefix(s.cut, upto);
    var k := CoveringFile(s.cut[..upto], i);
    hide Flat, StagedAfter, Forward, WellCut;
    assert s.accepted[i] == Flat(s.cut)[i] == Flat(s.cut[..upto])[i];
    assert s.cut[k] == s.cut[..upto][k];
    FileEndCovers(s, k, s.accepted[i]);
    StagedCovers(s.base, s.cut, RecordedCount(s.done, s.put), k);
  }

  lemma ReadingFacts(s: State)
    requires s.flush.FReading? && Flushing(s.flush, Settled(s), s.sealing.Hand(), s.cut, s.done)
    requires Durable(s.cut, s.done, s.slot.durable)
    ensures s.flush.upto <= s.done <= |s.cut| && s.flush.mark <= |Flat(s.cut[..s.flush.upto])|
  {
  }

  lemma StagedFacts(s: State)
    requires Staged(s.base, s.cut, RecordedCount(s.done, s.put), s.w.staged)
    ensures RecordedCount(s.done, s.put) <= |s.cut|
    ensures s.w.staged == StagedAfter(s.base, s.cut[..RecordedCount(s.done, s.put)])
  {
  }

  /** The file a flattened batch lies in. */
  lemma {:induction false} CoveringFile(xs: seq<Sealed>, i: nat) returns (k: nat)
    requires i < |Flat(xs)|
    ensures k < |xs| && Flat(xs)[i] in xs[k].batches
  {
    var n := |xs| - 1;
    if i < |Flat(xs[..n])| {
      k := CoveringFile(xs[..n], i);
    } else {
      k := n;
    }
  }

  /** A file ends no earlier than any of its batches. */
  lemma FileEndCovers(s: State, k: nat, b: Batch)
    requires History(s.cut, s.w.buffered, s.w.oldest, s.w.maxEnd, s.accepted)
    requires k < |s.cut| && b in s.cut[k].batches
    ensures b.end <= s.cut[k].file.end
  {
    hide History, Flat, Forward;
    AcceptedFacts(s);
    var x := s.cut[k];
    var i :| 0 <= i < |x.batches| && x.batches[i] == b;
    FileInAccepted(s.cut, s.w.buffered, s.accepted, k);
    BatchEnds(s.accepted, |Flat(s.cut[..k])|, x.batches, i);
  }

  lemma FileInAccepted(cut: seq<Sealed>, buffered: seq<Batch>, accepted: seq<Batch>, k: nat)
    requires Flat(cut) + buffered == accepted && k < |cut|
    ensures var base := |Flat(cut[..k])|;
            base + |cut[k].batches| <= |accepted| && accepted[base..base + |cut[k].batches|] == cut[k].batches
  {
    BatchPosition(cut, k);
    FlatPrefix(cut, k + 1);
    hide Flat;
    var base, all := |Flat(cut[..k])|, Flat(cut[..k + 1]);
    assert all[base..] == cut[k].batches;
    assert accepted[..|all|] == all;
  }

  lemma BatchEnds(accepted: seq<Batch>, base: nat, batches: seq<Batch>, i: nat)
    requires Forward(accepted) && base + |batches| <= |accepted| && accepted[base..base + |batches|] == batches
    requires i < |batches|
    ensures batches[i].end <= batches[|batches| - 1].end
  {
    var j := |batches| - 1;
    assert batches[i] == accepted[base + i] && batches[j] == accepted[base + j];
  }

  lemma BatchPosition(cut: seq<Sealed>, k: nat)
    requires k < |cut|
    ensures Flat(cut[..k + 1]) == Flat(cut[..k]) + cut[k].batches
  {
    assert cut[..k + 1] == cut[..k] + [cut[k]];
    FlatSnoc(cut[..k], cut[k]);
  }

  /** The staged offset is at or past the end of every recorded file. */
  lemma {:induction false} StagedCovers(base: Option<int>, cut: seq<Sealed>, n: nat, k: nat)
    requires k < n <= |cut|
    ensures var p := StagedAfter(base, cut[..n]); p.Some? && p.value >= cut[k].file.end
  {
    StagedAfterSnoc(base, cut, n - 1);
    if k < n - 1 {
      StagedCovers(base, cut, n - 1, k);
    }
  }

  /** Some file that is not durable, at or before `target`, has failed the stage it is in `n` times
      in a row, and `n` is at least the configured number. */
  ghost predicate Stuck(s: State, target: int, n: nat) {
    exists st: Worker, i: nat ::
      && s.done <= i < |s.cut| && s.cut[i].file.Serial() <= target
      && (At(s, st).Top? || At(s, st).Running? || At(s, st).Passing?)
      && At(s, st).x == s.cut[i] && At(s, st).n == n && n >= s.cfg.after
  }

  lemma StalledMeansStuck(s: State, target: int, n: nat)
    requires Inv(s) && StallError(s.slot, target, s.cfg.after) == Some(StagingStalled(n))
    ensures Stuck(s, target, n)
  {
    hide Caps, Locks, HandIsLast, Files, Chain, Stored, Staged, Durable, History, Keys, Appending, Flushing, Bound;
    TerminalFacts(s);
    var f := s.slot.failing.value;
    NamedStage(s);
    var st: Worker := f.stage;
    HeldInFlight(s, st);
    LineIsInFlight(s);
    var j :| 0 <= j < |InFlight(s)| && InFlight(s)[j] == At(s, st).x;
    assert s.cut[s.done + j] == At(s, st).x;
  }

  lemma NamedStage(s: State)
    requires s.slot.failing.Some? && !s.slot.Stopped() && SlotTrue(s.slot.failing, s.render, s.gzip, s.put)
    ensures s.slot.failing.value.stage != Whole
    ensures Retrying(At(s, s.slot.failing.value.stage), s.slot.failing.value)
  {
  }

  lemma HeldInFlight(s: State, st: Worker)
    requires At(s, st).Held() != []
    ensures At(s, st).x in InFlight(s)
  {
    assert At(s, st).x in At(s, st).Held();
  }

  lemma FatalIsNotAStall(s: State)
    ensures Fatal(s).Some? ==> !Fatal(s).value.StagingStalled?
  {
  }

  /** `StagingStalled` from `flush` names a real stall at or before what it waited for. */
  lemma FlushStallIsHonest(s: State, step: Step, n: nat)
    requires Reachable(s) && FlushReturns(s, step) == Some(Err(StagingStalled(n)))
    ensures Stuck(s, if step.FlushWake? then s.flush.target else I64_MAX, n)
  {
    ReachableInv(s);
    FatalIsNotAStall(s);
    hide Inv, Fatal, Stuck, StallError;
    StallWitness(s, step, n);
    StalledMeansStuck(s, if step.FlushWake? then s.flush.target else I64_MAX, n);
  }

  /** Only a look at the slot produces `StagingStalled`. */
  lemma StallWitness(s: State, step: Step, n: nat)
    requires Inv(s) && FlushReturns(s, step) == Some(Err(StagingStalled(n)))
    requires Fatal(s).Some? ==> !Fatal(s).value.StagingStalled?
    ensures var target := if step.FlushWake? then s.flush.target else I64_MAX;
            StallError(s.slot, target, s.cfg.after) == Some(StagingStalled(n))
  {
    hide Inv, Fatal, StallError, SealError;
    SealErrorIsStall(s, step, n);
  }

  /** Leaving `seal_and_send` with a stall comes from the slot; a render stage that is gone, or a
      writer found unhealthy, is never reported as a stall. */
  lemma SealErrorIsStall(s: State, step: Step, n: nat)
    requires Inv(s)
    ensures SealError(s, step) == Some(StagingStalled(n)) ==>
              step.SealStall? && StallError(s.slot, I64_MAX, s.cfg.after) == Some(StagingStalled(n))
  {
    FatalIsNotAStall(s);
    TerminalFacts(s);
    hide Inv, Fatal, StallError, Sealable;
  }

  // ---------------------------------------------------------------------
  // append is all or nothing
  // ---------------------------------------------------------------------

  /** How a call whose hand-over failed ends. Refused: the buffer, its counters, its age and the
      offset mark are those of the moment before the call, and the batch is nowhere. Taken by
      another sealer: the batch is in a sealed file, and a stall is not reported. */
  lemma RefusedAppendLeavesNoTrace(s: State)
    requires Reachable(s) && s.append.ABacking?
    ensures var t := Next(s, AppendUnbuffer);
            var r := AppendReturns(s, AppendUnbuffer);
            var b := s.append.b;
            if s.w.buffered != [] then
              r == Some(Err(s.append.err)) && BufferOf(t.w) == BufferOf(s.append.before) &&
              t.accepted + [b] == s.accepted && b !in t.w.buffered && b !in Flat(t.cut)
            else
              r == Some(if s.append.err.StagingStalled? then Ok(()) else Err(s.append.err)) &&
              t.accepted == s.accepted && b in Flat(t.cut) && t.w == s.w
  {
    ReachableInv(s);
    PipelineSteps.UnbufferRestores(s.append, s.accepted, s.w);
    AcceptedFacts(s);
    PendingLast(s);
    LastIsNowhereElse(s.accepted, Flat(s.cut), s.w.buffered, s.append.b);
    UnbufferStep(s);
    hide Inv, Unbuffer, Flat, Forward, Push, Next, AppendReturns;
  }

  lemma UnbufferStep(s: State)
    requires s.append.ABacking? && s.accepted != []
    ensures var (w, taken) := Unbuffer(s.w, s.append.b.start, s.append.b.end, s.append.before.maxEnd);
            var t := Next(s, AppendUnbuffer);
            && t.w == w && t.cut == s.cut
            && t.accepted == (if taken then s.accepted[..|s.accepted| - 1] else s.accepted)
            && AppendReturns(s, AppendUnbuffer) ==
                 Some(if taken || !s.append.err.StagingStalled? then Err(s.append.err) else Ok(()))
  {
    hide Unbuffer;
  }

  /** In a forward-moving history the last batch occurs once, at the end of buffer or files. */
  lemma LastIsNowhereElse(accepted: seq<Batch>, filed: seq<Batch>, buffered: seq<Batch>, b: Batch)
    requires Forward(accepted) && filed + buffered == accepted
    requires accepted != [] && accepted[|accepted| - 1] == b
    ensures accepted[..|accepted| - 1] + [b] == accepted
    ensures buffered != [] ==> b !in filed && b !in buffered[..|buffered| - 1]
    ensures buffered == [] ==> b in filed
  {
    var n := |accepted| - 1;
    assert forall i :: 0 <= i < n ==> accepted[i] != b by {
      assert forall i :: 0 <= i < n ==> accepted[i].end < accepted[n].start <= accepted[n].end;
    }
    assert forall i :: 0 <= i < |filed| ==> filed[i] == accepted[i];
    assert forall i :: 0 <= i < |buffered| ==> buffered[i] == accepted[|filed| + i];
  }

  lemma PendingLast(s: State)
    requires s.append.Pending() && Appending(s.append, s.accepted, BufferOf(s.w))
    ensures s.accepted != [] && s.accepted[|s.accepted| - 1] == s.append.b
    ensures s.w.buffered != [] ==> s.append.before.buffered == s.w.buffered[..|s.w.buffered| - 1]
  {
  }

  /** `append` gives up with `StagingStalled` only on a real stall. */
  lemma AppendStallIsHonest(s: State, step: Step, n: nat)
    requires Reachable(s) && !s.append.ABacking?
    requires Next(s, step).append.ABacking? && Next(s, step).append.err == StagingStalled(n)
    ensures Stuck(s, I64_MAX, n)
  {
    ReachableInv(s);
    GivesUpOnStall(s, step, n);
    StalledMeansStuck(s, I64_MAX, n);
  }

  lemma GivesUpOnStall(s: State, step: Step, n: nat)
    requires Inv(s) && !s.append.ABacking?
    requires Next(s, step).append.ABacking? && Next(s, step).append.err == StagingStalled(n)
    ensures StallError(s.slot, I64_MAX, s.cfg.after) == Some(StagingStalled(n))
  {
    SealErrorIsStall(s, step, n);
    hide Inv, Next;
    if step.AppendStall? {
      StallBacks(s);
    } else {
      BacksWithSealError(s, step);
    }
  }

  lemma StallBacks(s: State)
    ensures !s.append.ABacking? && DoAppendStall(s).append.ABacking? ==>
              Some(DoAppendStall(s).append.err) == StallError(s.slot, I64_MAX, s.cfg.after)
    ensures Next(s, AppendStall) == DoAppendStall(s)
  {
    hide StallError;
  }

  lemma FinishBacks(s: State, r: Result<Option<int>, Error>)
    ensures Finish(s, r).append == s.append || !Finish(s, r).append.ABacking? || (r.Err? &&
        Finish(s, r).append.err == r.error)
  {
  }

  lemma OthersDoNotBack(s: State, step: Step)
    requires !UnderLock(step) && !step.AppendStall? && !s.append.ABacking?
    ensures !Next(s, step).append.ABacking?
  {
    if OfStage(step) {
      StageEffects(s, step);
      return;
    }
    hide Fatal, StallError, Push, Unbuffer, MovesForward, Settled, PublishTerminal, ReportFailure, ClearFailure,
      Land, RecordDurable, CheckOrder, Sealable, Seal;
  }

  /** Apart from the wait for the lock, only the way out of `seal_and_send` makes an append back out. */
  lemma BacksWithSealError(s: State, step: Step)
    requires !s.append.ABacking? && Next(s, step).append.ABacking? && !step.AppendStall?
    ensures SealError(s, step) == Some(Next(s, step).append.err)
  {
    if !UnderLock(step) {
      OthersDoNotBack(s, step);
    } else {
      hide Fatal, StallError, Sealable, Finish, Seal;
      forall t: State, r
        ensures Finish(t, r).append == t.append || !Finish(t, r).append.ABacking? || (r.Err? &&
            Finish(t, r).append.err == r.error)
      {
        FinishBacks(t, r);
      }
    }
  }

  // ---------------------------------------------------------------------
  // backpressure
  // ---------------------------------------------------------------------

  /** At most max(1, rotation_queue_depth) + 5 sealed files are not yet durable; with the buffer
      being filled that is the documented 6 + depth files per writer (and 7 for depth 0). */
  lemma BackpressureBound(s: State)
    requires Reachable(s)
    ensures |s.cut| - s.done <= (if s.cfg.depth == 0 then 1 else s.cfg.depth) + 5
  {
    ReachableInv(s);
    BoundFacts(s);
  }

  lemma BoundFacts(s: State)
    requires Bound(s.cfg.Capacity(), |s.cut|, s.done, s.sealing.Promised())
    ensures |s.cut| - s.done <= (if s.cfg.depth == 0 then 1 else s.cfg.depth) + 5
  {
  }
}
