/** Every step of the rotation pipeline keeps the invariant. A proof hides the parts of the
    invariant whose arguments the step leaves alone, and names a lemma for each part it touches. */
module PipelineSteps {
  import opened Base
  import opened Naming
  import opened Values
  import opened Progress
  import opened Writer
  import opened Pipeline
  import opened PipelineInvariant

  lemma InitInv(cfg: Settings, epoch: nat, staged: Option<int>)
    ensures Inv(Init(cfg, epoch, staged))
  {
  }

  // ---------------------------------------------------------------------
  // append
  // ---------------------------------------------------------------------

  lemma KeepAppendBegin(s: State, b: Batch)
    requires Inv(s)
    ensures Inv(DoAppendBegin(s, b))
  {
    hide Caps, Locks, HandIsLast, Files, Chain, Stored, Staged, Durable, History, Keys, Terminal, SlotTrue, Flushing,
      Bound, StallError;
  }

  lemma ForwardSnoc(bs: seq<Batch>, b: Batch)
    requires Forward(bs) && ValidRange(b)
    requires LastEnd(bs).Some? ==> LastEnd(bs).value < b.start
    ensures Forward(bs + [b])
  {
    var cs := bs + [b];
    forall i, j | 0 <= i < j < |cs| ensures cs[i].end < cs[j].start {
      if j == |bs| && i < |bs| - 1 {
        assert bs[i].end < bs[|bs| - 1].start <= bs[|bs| - 1].end;
      }
    }
  }

  lemma PushHistory(cut: seq<Sealed>, w: WState, b: Batch, now: int, accepted: seq<Batch>)
    requires History(cut, w.buffered, w.oldest, w.maxEnd, accepted)
    requires ValidRange(b) && MovesForward(w, b)
    ensures var t := Push(w, b, now); History(cut, t.buffered, t.oldest, t.maxEnd, accepted + [b])
  {
    ForwardSnoc(accepted, b);
    assert Flat(cut) + (w.buffered + [b]) == accepted + [b];
  }

  lemma PushAppending(cut: seq<Sealed>, append: Append, accepted: seq<Batch>, w: WState, now: int)
    requires append.AEntering? && Appending(append, accepted, BufferOf(w))
    requires History(cut, w.buffered, w.oldest, w.maxEnd, accepted)
    ensures ValidRange(append.b)
    ensures Appending(ATrying(append.b, w, now), accepted + [append.b], BufferOf(Push(w, append.b, now)))
  {
    assert (accepted + [append.b])[..|accepted|] == accepted;
  }

  lemma AppendingIdle(accepted: seq<Batch>, buffer: Buffer)
    ensures Appending(AIdle, accepted, buffer)
  {
  }

  lemma FlushingSettled(flush: Flush, settled: nat, more: nat, hand: seq<Sealed>, cut: seq<Sealed>, done: nat)
    requires Flushing(flush, settled, hand, cut, done) && settled <= more
    ensures Flushing(flush, more, hand, cut, done)
  {
  }

  lemma KeepAppendPush(s: State, rotate: bool, now: int)
    requires Inv(s)
    ensures Inv(DoAppendPush(s, rotate, now))
  {
    hide Caps, Locks, HandIsLast, Files, Chain, Stored, Staged, Durable, History, Keys, Terminal, SlotTrue,
      Appending, Flushing, Bound, Push;
    AppendingIdle(s.accepted, BufferOf(s.w));
    if s.append.AEntering? && MovesForward(s.w, s.append.b) {
      var b := s.append.b;
      PushAppending(s.cut, s.append, s.accepted, s.w, now);
      PushHistory(s.cut, s.w, b, now, s.accepted);
      AppendingIdle(s.accepted + [b], BufferOf(Push(s.w, b, now)));
      FlushingSettled(s.flush, Settled(s), Settled(s) + 1, s.sealing.Hand(), s.cut, s.done);
      PushKeepsRest(s.w, b, now);
    }
  }

  lemma PushKeepsRest(w: WState, b: Batch, now: int)
    ensures var t := Push(w, b, now);
            t.epoch == w.epoch && t.next == w.next && t.lastSealed == w.lastSealed && t.staged == w.staged
  {
  }

  lemma TakeLock(s: State, who: Actor)
    requires Locks(s.sealing, s.append.AInSeal?, s.flush.FInSeal?) && s.sealing.Free? && !who.Ticker?
    ensures Locks(Holding(who, Checking), who.Producer?, who.Flusher?)
    ensures !s.append.AInSeal? && !s.flush.FInSeal?
  {
  }

  /** A pending append moves between its waiting points without touching anything else. */
  lemma AppendingMoves(append: Append, accepted: seq<Batch>, buffer: Buffer, err: Error)
    requires append.Pending() && Appending(append, accepted, buffer)
    ensures Appending(AWaiting(append.b, append.before, append.now), accepted, buffer)
    ensures Appending(AInSeal(append.b, append.before, append.now), accepted, buffer)
    ensures Appending(ABacking(append.b, append.before, append.now, err), accepted, buffer)
  {
  }

  lemma KeepAppendTryLock(s: State)
    requires Inv(s)
    ensures Inv(DoAppendTryLock(s))
  {
    hide Caps, Locks, HandIsLast, Files, Chain, Stored, Staged, Durable, History, Keys, Terminal, SlotTrue,
      Appending, Flushing, Bound;
    if s.append.Pending() {
      AppendingMoves(s.append, s.accepted, BufferOf(s.w), Error.Config);
    }
    if s.sealing.Free? {
      TakeLock(s, Producer);
    }
  }

  lemma KeepAppendGetLock(s: State)
    requires Inv(s)
    ensures Inv(DoAppendGetLock(s))
  {
    hide Caps, Locks, HandIsLast, Files, Chain, Stored, Staged, Durable, History, Keys, Terminal, SlotTrue,
      Appending, Flushing, Bound;
    if s.append.Pending() {
      AppendingMoves(s.append, s.accepted, BufferOf(s.w), Error.Config);
    }
    if s.sealing.Free? {
      TakeLock(s, Producer);
    }
  }

  lemma KeepAppendStall(s: State)
    requires Inv(s)
    ensures Inv(DoAppendStall(s))
  {
    hide Caps, Locks, HandIsLast, Files, Chain, Stored, Staged, Durable, History, Keys, Terminal, SlotTrue,
      Appending, Flushing, Bound, StallError;
    var e := StallError(s.slot, I64_MAX, s.cfg.after);
    if s.append.AWaiting? && e.Some? {
      AppendingMoves(s.append, s.accepted, BufferOf(s.w), e.value);
    }
  }

  /** Taking the batch back restores the buffer of the moment before the call. */
  lemma UnbufferRestores(append: Append, accepted: seq<Batch>, w: WState)
    requires append.ABacking? && Appending(append, accepted, BufferOf(w))
    ensures var (t, taken) := Unbuffer(w, append.b.start, append.b.end, append.before.maxEnd);
            && (taken <==> w.buffered != [])
            && (taken ==> BufferOf(t) == BufferOf(append.before))
            && (!taken ==> t == w)
            && t.epoch == w.epoch && t.next == w.next && t.lastSealed == w.lastSealed && t.staged == w.staged
  {
    if w.buffered != [] {
      var n := |append.before.buffered|;
      assert w.buffered[..n] + w.buffered[n + 1..] == append.before.buffered;
    }
  }

  lemma UnbufferHistory(cut: seq<Sealed>, w: WState, append: Append, accepted: seq<Batch>)
    requires append.ABacking? && Appending(append, accepted, BufferOf(w)) && w.buffered != []
    requires History(cut, w.buffered, w.oldest, w.maxEnd, accepted)
    ensures var p := append.before; History(cut, p.buffered, p.oldest, p.maxEnd, accepted[..|accepted| - 1])
  {
    var p := append.before;
    assert w.buffered == p.buffered + [append.b];
    assert (Flat(cut) + p.buffered) + [append.b] == accepted;
  }

  lemma KeepAppendUnbuffer(s: State)
    requires Inv(s)
    ensures Inv(DoAppendUnbuffer(s))
  {
    hide Caps, Locks, HandIsLast, Files, Chain, Stored, Staged, Durable, History, Keys, Terminal, SlotTrue,
      Appending, Flushing, Bound, Unbuffer;
    if s.append.ABacking? {
      UnbufferRestores(s.append, s.accepted, s.w);
      AppendingIdle(s.accepted, BufferOf(s.w));
      PendingNonempty(s.append, s.accepted, BufferOf(s.w));
      if s.w.buffered != [] {
        UnbufferHistory(s.cut, s.w, s.append, s.accepted);
        AppendingIdle(s.accepted[..|s.accepted| - 1], BufferOf(s.append.before));
      }
      FlushingSettled(s.flush, Settled(s), Settled(s) + 1, s.sealing.Hand(), s.cut, s.done);
    }
  }

  lemma PendingNonempty(append: Append, accepted: seq<Batch>, buffer: Buffer)
    requires append.Pending() && Appending(append, accepted, buffer)
    ensures accepted != []
  {
  }

  // ---------------------------------------------------------------------
  // flush
  // ---------------------------------------------------------------------

  lemma KeepFlushBegin(s: State)
    requires Inv(s)
    ensures Inv(DoFlushBegin(s))
  {
    hide Caps, Locks, HandIsLast, Files, Chain, Stored, Staged, Durable, History, Keys, Terminal, SlotTrue,
      Appending, Bound, StallError;
  }

  lemma KeepFlushTryLock(s: State)
    requires Inv(s)
    ensures Inv(DoFlushTryLock(s))
  {
    hide Caps, Locks, HandIsLast, Files, Chain, Stored, Staged, Durable, History, Keys, Terminal, SlotTrue,
      Appending, Bound;
    if s.sealing.Free? {
      TakeLock(s, Flusher);
    }
  }

  lemma KeepAnotherLock(s: State)
    requires Inv(s)
    ensures Inv(DoAnotherLock(s))
  {
    hide Caps, Locks, HandIsLast, Files, Chain, Stored, Staged, Durable, History, Keys, Terminal, SlotTrue,
      Appending, Bound;
    if s.sealing.Free? {
      TakeLock(s, Another);
    }
  }

  lemma KeepFlushGetLock(s: State)
    requires Inv(s)
    ensures Inv(DoFlushGetLock(s))
  {
    hide Caps, Locks, HandIsLast, Files, Chain, Stored, Staged, Durable, History, Keys, Terminal, SlotTrue,
      Appending, Bound;
    if s.sealing.Free? {
      TakeLock(s, Flusher);
    }
  }

  lemma KeepFlushStall(s: State)
    requires Inv(s)
    ensures Inv(DoFlushStall(s))
  {
    hide Caps, Locks, HandIsLast, Files, Chain, Stored, Staged, Durable, History, Keys, Terminal, SlotTrue,
      Appending, Bound, StallError;
  }

  /** The newest file holds every batch accepted before the flush was called. */
  lemma FlushTargets(flush: Flush, settled: nat, hand: seq<Sealed>, cut: seq<Sealed>, done: nat,
                     epoch0: nat, epoch: nat, next: nat, lastSealed: Option<int>)
    requires flush.FReadLast? && Flushing(flush, settled, hand, cut, done)
    requires Keys(cut, epoch0, epoch, next, lastSealed)
    ensures lastSealed.Some? ==> Flushing(FAwaiting(flush.mark, lastSealed.value, |cut|), settled, hand, cut, done)
    ensures lastSealed.None? ==> Flushing(FReading(flush.mark, 0), settled, hand, cut, done)
  {
    assert cut[..|cut|] == cut;
    assert cut[..0] == [];
  }

  lemma KeepFlushReadLast(s: State)
    requires Inv(s)
    ensures Inv(DoFlushReadLast(s))
  {
    hide Caps, Locks, HandIsLast, Files, Chain, Stored, Staged, Durable, History, Keys, Terminal, SlotTrue,
      Appending, Flushing, Bound;
    if s.flush.FReadLast? {
      FlushTargets(s.flush, Settled(s), s.sealing.Hand(), s.cut, s.done, s.epoch0, s.w.epoch, s.w.next, s.w.lastSealed);
    }
  }

  /** A durable serial number covers every file up to the one that carries it. */
  lemma DurableCovers(cut: seq<Sealed>, done: nat, slot: Slot, target: int, upto: nat,
                      epoch0: nat, epoch: nat, next: nat, lastSealed: Option<int>)
    requires Keys(cut, epoch0, epoch, next, lastSealed) && Durable(cut, done, slot.durable)
    requires 0 < upto <= |cut| && target == cut[upto - 1].file.Serial()
    requires slot.DurableThrough(target)
    ensures upto <= done
  {
  }

  lemma FlushingIdle(settled: nat, hand: seq<Sealed>, cut: seq<Sealed>, done: nat)
    ensures Flushing(FIdle, settled, hand, cut, done)
  {
  }

  lemma AwaitFacts(flush: Flush, settled: nat, hand: seq<Sealed>, cut: seq<Sealed>, done: nat)
    requires flush.FAwaiting? && Flushing(flush, settled, hand, cut, done)
    ensures 0 < flush.upto <= |cut| && flush.target == cut[flush.upto - 1].file.Serial()
    ensures flush.upto <= done ==> Flushing(FReading(flush.mark, flush.upto), settled, hand, cut, done)
  {
  }

  lemma KeepFlushWake(s: State)
    requires Inv(s)
    ensures Inv(DoFlushWake(s))
  {
    hide Caps, Locks, HandIsLast, Files, Chain, Stored, Staged, Durable, History, Keys, Terminal, SlotTrue,
      Appending, Flushing, Bound, StallError;
    FlushingIdle(Settled(s), s.sealing.Hand(), s.cut, s.done);
    if s.flush.FAwaiting? {
      AwaitFacts(s.flush, Settled(s), s.sealing.Hand(), s.cut, s.done);
      if s.slot.DurableThrough(s.flush.target) {
        DurableCovers(s.cut, s.done, s.slot, s.flush.target, s.flush.upto, s.epoch0, s.w.epoch, s.w.next,
                      s.w.lastSealed);
      }
    }
  }

  lemma KeepFlushReturn(s: State)
    requires Inv(s)
    ensures Inv(DoFlushReturn(s))
  {
    hide Caps, Locks, HandIsLast, Files, Chain, Stored, Staged, Durable, History, Keys, Terminal, SlotTrue,
      Appending, Flushing, Bound;
    FlushingIdle(Settled(s), s.sealing.Hand(), s.cut, s.done);
  }

  // ---------------------------------------------------------------------
  // seal_and_send
  // ---------------------------------------------------------------------

  lemma FinishAppending(append: Append, accepted: seq<Batch>, buffer: Buffer, err: Error)
    requires append.AInSeal? && Appending(append, accepted, buffer)
    ensures Appending(ABacking(append.b, append.before, append.now, err), accepted, buffer)
    ensures Appending(AIdle, accepted, buffer)
  {
  }

  /** Where a flush goes when the lock is released: with a file it is the newest one, without a
      file the buffer was empty. */
  lemma FinishFlushing(flush: Flush, settled: nat, hand: seq<Sealed>, cut: seq<Sealed>, done: nat)
    requires flush.FInSeal? && Flushing(flush, settled, hand, cut, done)
    requires settled <= |Flat(cut)|
    ensures Flushing(FReadLast(flush.mark), settled, [], cut, done)
    ensures cut != [] ==> Flushing(FAwaiting(flush.mark, cut[|cut| - 1].file.Serial(), |cut|), settled, [], cut, done)
  {
    assert cut[..|cut|] == cut;
  }

  lemma EmptyBufferAllCut(s: State)
    requires History(s.cut, s.w.buffered, s.w.oldest, s.w.maxEnd, s.accepted)
    requires s.w.buffered == []
    ensures Settled(s) <= |Flat(s.cut)|
  {
    assert Flat(s.cut) == s.accepted;
  }

  /** Releasing the lock without having cut a file. */
  lemma KeepFinish(s: State, r: Result<Option<int>, Error>)
    requires Inv(s) && s.sealing.Holding? && !s.sealing.phase.Cut?
    requires r.Ok? ==> r.value.None? && s.w.buffered == []
    ensures Inv(Finish(s, r))
  {
    hide HandIsLast, Files, Chain, Stored, Staged, Durable, History, Keys, Terminal, SlotTrue, Appending, Flushing;
    FlushingIdle(Settled(s), [], s.cut, s.done);
    if r.Ok? {
      EmptyBufferAllCut(s);
      FlushingSettled(s.flush, Settled(s), |s.accepted|, [], s.cut, s.done);
    }
    if s.append.AInSeal? {
      FinishAppending(s.append, s.accepted, BufferOf(s.w), if r.Err? then r.error else Error.Config);
      FlushingSettled(s.flush, Settled(s), |s.accepted|, [], s.cut, s.done);
    }
    if s.flush.FInSeal? && r.Ok? {
      FinishFlushing(s.flush, Settled(s), [], s.cut, s.done);
    }
  }

  lemma KeepSealCheck(s: State)
    requires Inv(s)
    ensures Inv(DoSealCheck(s))
  {
    hide HandIsLast, Files, Chain, Stored, Staged, Durable, History, Keys, Terminal, SlotTrue, Appending, Flushing,
      Bound, Finish;
    if s.sealing.Holding? && s.sealing.phase.Checking? && !Sealable(s.w, false, false) {
      KeepFinish(s, Ok(None));
    }
  }

  lemma GoneIsFatal(s: State)
    requires Terminal(s.orderFatal, s.fenced, s.slot.failing, AllLive(s)) && !AllLive(s)
    ensures Fatal(s).Some? && s.slot.Stopped()
  {
  }

  lemma PhaseLocks(s: State, phase: Phase)
    requires Locks(s.sealing, s.append.AInSeal?, s.flush.FInSeal?) && s.sealing.Holding?
    requires !s.sealing.phase.Cleared? && !s.sealing.phase.Cut? && phase != Cleared(true)
    ensures Locks(Holding(s.sealing.who, phase), s.append.AInSeal?, s.flush.FInSeal?)
  {
  }

  lemma KeepSealReserve(s: State)
    requires Inv(s)
    ensures Inv(DoSealReserve(s))
  {
    hide Locks, HandIsLast, Files, Chain, Stored, Staged, Durable, History, Keys, Terminal, SlotTrue, Appending,
      Flushing, Bound, Finish, Fatal;
    if s.sealing.Holding? && (s.sealing.phase.Reserving? || s.sealing.phase.AwaitRoom?) {
      PhaseLocks(s, Permitted);
      PhaseLocks(s, AwaitRoom);
      if s.render.Exited? {
        GoneIsFatal(s);
        KeepFinish(s, Err(Fatal(s).value));
      }
    }
  }

  lemma KeepSealStall(s: State)
    requires Inv(s)
    ensures Inv(DoSealStall(s))
  {
    hide Caps, Locks, HandIsLast, Files, Chain, Stored, Staged, Durable, History, Keys, Terminal, SlotTrue,
      Appending, Flushing, Bound, Finish, StallError;
    var e := StallError(s.slot, I64_MAX, s.cfg.after);
    if s.sealing.Holding? && s.sealing.phase.AwaitRoom? && e.Some? {
      KeepFinish(s, Err(e.value));
    }
  }

  /** With every stage alive the pipeline holds at most one file per stage and channel slot. */
  lemma LineBound(s: State)
    requires Chain(s.cut, s.done, s.put, s.q3, s.gzip, s.q2, s.render, s.q1, s.sealing.Hand())
    requires Caps(s.cfg.Capacity(), s.q1, s.q2, s.q3, s.sealing.Permits())
    requires AllLive(s)
    ensures |s.cut| - s.done <= |s.q1| + 5 + |s.sealing.Hand()|
  {
  }

  lemma HealthyIsLive(s: State)
    requires Terminal(s.orderFatal, s.fenced, s.slot.failing, AllLive(s)) && Fatal(s).None?
    ensures AllLive(s)
  {
  }

  lemma KeepSealHealth(s: State)
    requires Inv(s)
    ensures Inv(DoSealHealth(s))
  {
    hide HandIsLast, Files, Chain, Stored, Staged, Durable, History, Keys, Terminal, SlotTrue, Appending, Flushing,
      Finish, Fatal;
    if s.sealing.Holding? && s.sealing.phase.Permitted? {
      if Fatal(s).Some? {
        KeepFinish(s, Err(Fatal(s).value));
      } else {
        HealthyIsLive(s);
        LineBound(s);
      }
    }
  }

  lemma KeepTickStart(s: State)
    requires Inv(s)
    ensures Inv(DoTickStart(s))
  {
    hide HandIsLast, Files, Chain, Stored, Staged, Durable, History, Keys, Terminal, SlotTrue, Appending, Flushing,
      Fatal;
    if Fatal(s).None? && s.sealing.Free? {
      HealthyIsLive(s);
      LineBound(s);
    }
  }

  // ---------------------------------------------------------------------
  // cutting a file
  // ---------------------------------------------------------------------

  lemma SuffixForward(xs: seq<Batch>, bs: seq<Batch>)
    requires Forward(xs + bs)
    ensures Forward(bs)
  {
    var all := xs + bs;
    forall i | 0 <= i < |bs| ensures ValidRange(bs[i]) {
      assert all[|xs| + i] == bs[i];
    }
    forall i, j | 0 <= i < j < |bs| ensures bs[i].end < bs[j].start {
      assert all[|xs| + i] == bs[i] && all[|xs| + j] == bs[j];
    }
  }

  /** In a forward-moving buffer the offset range is first start to last end. */
  lemma ForwardSpan(bs: seq<Batch>)
    requires Forward(bs) && bs != []
    ensures MinStart(bs) == bs[0].start && MaxEnd(bs) == bs[|bs| - 1].end
    ensures 0 <= MinStart(bs) && MaxEnd(bs) <= I64_MAX && MinStart(bs) <= MaxEnd(bs)
  {
    var i, j := SpanCovers(bs);
    assert forall k :: 0 < k < |bs| ==> bs[0].start < bs[k].start;
    assert forall k :: 0 <= k < |bs| - 1 ==> bs[k].end < bs[|bs| - 1].end;
  }

  lemma CutHistory(cut: seq<Sealed>, w: WState, accepted: seq<Batch>, compressed: bool)
    requires History(cut, w.buffered, w.oldest, w.maxEnd, accepted) && w.buffered != []
    requires Seal(w, compressed).1.Ok?
    ensures var (t, r) := Seal(w, compressed); History(cut + [r.value], t.buffered, t.oldest, t.maxEnd, accepted)
  {
    var x := Seal(w, compressed).1.value;
    FlatSnoc(cut, x);
    SuffixForward(Flat(cut), w.buffered);
    ForwardSpan(w.buffered);
    assert Flat(cut + [x]) + [] == accepted;
  }

  lemma CutKeys(cut: seq<Sealed>, w: WState, epoch0: nat, compressed: bool)
    requires Keys(cut, epoch0, w.epoch, w.next, w.lastSealed) && w.buffered != []
    requires Forward(w.buffered)
    ensures var (t, r) := Seal(w, compressed);
            && (r.Ok? ==> Keys(cut + [r.value], epoch0, t.epoch, t.next, t.lastSealed))
            && (r.Err? ==> Keys(cut, epoch0, t.epoch, t.next, t.lastSealed))
  {
    ForwardSpan(w.buffered);
  }

  lemma BufferForward(cut: seq<Sealed>, w: WState, accepted: seq<Batch>)
    requires History(cut, w.buffered, w.oldest, w.maxEnd, accepted)
    ensures Forward(w.buffered)
  {
    SuffixForward(Flat(cut), w.buffered);
  }

  lemma CutChain(cut: seq<Sealed>, x: Sealed, done: nat, put: Pc, q3: seq<Sealed>, gzip: Pc, q2: seq<Sealed>,
      render: Pc, q1: seq<Sealed>)
    requires Chain(cut, done, put, q3, gzip, q2, render, q1, [])
    ensures Chain(cut + [x], done, put, q3, gzip, q2, render, q1, [x])
  {
    ChunkGrows(Line1(put, q3), cut, done, x);
    ChunkGrows(Line2(put, q3, gzip, q2), cut, done, x);
    ChunkTakesLast(Line3(put, q3, gzip, q2, render, q1, []), cut, done, x);
    assert Line3(put, q3, gzip, q2, render, q1, [x]) == Line3(put, q3, gzip, q2, render, q1, []) + [x];
  }

  lemma ChunkGrows(line: seq<Sealed>, cut: seq<Sealed>, d: nat, x: Sealed)
    ensures Chunk(line, cut, d) ==> Chunk(line, cut + [x], d)
  {
    if Chunk(line, cut, d) {
      assert (cut + [x])[d..d + |line|] == cut[d..d + |line|];
    }
  }

  lemma ChunkTakesLast(line: seq<Sealed>, cut: seq<Sealed>, d: nat, x: Sealed)
    ensures Chunk(line, cut, d) && d + |line| == |cut| ==>
              Chunk(line + [x], cut + [x], d) && d + |line + [x]| == |cut + [x]|
  {
    if Chunk(line, cut, d) && d + |line| == |cut| {
      assert (cut + [x])[d..] == cut[d..] + [x];
    }
  }

  lemma CutStored(cut: seq<Sealed>, x: Sealed, stored: seq<Sealed>, done: nat, announced: nat,
      prev: Option<StagedFile>, put: Pc)
    requires Stored(cut, stored, done, announced, prev, put)
    requires done <= |cut| && (put.Announced? ==> done < |cut|)
    ensures Stored(cut + [x], stored, done, announced, prev, put)
  {
    assert (cut + [x])[..|stored|] == cut[..|stored|];
  }

  lemma CutStaged(base: Option<int>, cut: seq<Sealed>, x: Sealed, recorded: nat, staged: Option<int>)
    requires Staged(base, cut, recorded, staged)
    ensures Staged(base, cut + [x], recorded, staged)
  {
    assert (cut + [x])[..recorded] == cut[..recorded];
  }

  lemma CutFlushing(flush: Flush, settled: nat, cut: seq<Sealed>, x: Sealed, done: nat)
    requires Flushing(flush, settled, [], cut, done)
    requires settled <= |Flat(cut + [x])|
    ensures Flushing(flush, settled, [x], cut + [x], done)
  {
    FlatSnoc(cut, x);
    if flush.FAwaiting? || flush.FReading? {
      assert (cut + [x])[..flush.upto] == cut[..flush.upto];
    }
  }

  lemma CutAppending(append: Append, accepted: seq<Batch>, w: WState, compressed: bool)
    requires Appending(append, accepted, BufferOf(w)) && w.buffered != []
    ensures Seal(w, compressed).1.Ok? ==> Appending(append, accepted, BufferOf(Seal(w, compressed).0))
    ensures Seal(w, compressed).1.Err? ==> BufferOf(Seal(w, compressed).0) == BufferOf(w)
    ensures Seal(w, compressed).0.staged == w.staged
  {
  }

  lemma SmallParts(s: State, x: Sealed)
    requires Files(s.cut, s.q1, s.q2, s.q3, s.render, s.gzip, s.put)
    requires Durable(s.cut, s.done, s.slot.durable)
    ensures Files(s.cut + [x], s.q1, s.q2, s.q3, s.render, s.gzip, s.put)
    ensures Durable(s.cut + [x], s.done, s.slot.durable)
    ensures s.done <= |s.cut|
  {
  }

  lemma AnnouncedInCut(cut: seq<Sealed>, stored: seq<Sealed>, done: nat, announced: nat, prev: Option<StagedFile>,
      put: Pc)
    requires Stored(cut, stored, done, announced, prev, put)
    ensures put.Announced? ==> done < |cut|
  {
  }

  lemma CutSettled(s: State, cut: seq<Sealed>, w: WState)
    requires History(cut, w.buffered, w.oldest, w.maxEnd, s.accepted) && w.buffered == []
    ensures Settled(s) <= |Flat(cut)|
  {
    assert Flat(cut) == s.accepted;
  }

  /** The parts of the state after the cut. */
  lemma CutState(s: State)
    requires Inv(s) && s.sealing.Holding? && s.sealing.phase.Cleared? && s.w.buffered != []
    requires Seal(s.w, s.cfg.compressed).1.Ok?
    ensures var (w, r) := Seal(s.w, s.cfg.compressed);
            Inv(s.(w := w, cut := s.cut + [r.value], sealing := Holding(s.sealing.who, Cut(r.value))))
  {
    hide Files, Chain, Stored, Staged, Durable, History, Keys, Terminal, SlotTrue, Appending, Flushing, Seal;
    var (w, r) := Seal(s.w, s.cfg.compressed);
    var x := r.value;
    BufferForward(s.cut, s.w, s.accepted);
    CutHistory(s.cut, s.w, s.accepted, s.cfg.compressed);
    CutKeys(s.cut, s.w, s.epoch0, s.cfg.compressed);
    CutChain(s.cut, x, s.done, s.put, s.q3, s.gzip, s.q2, s.render, s.q1);
    SmallParts(s, x);
    AnnouncedInCut(s.cut, s.stored, s.done, s.announced, s.prev, s.put);
    CutStored(s.cut, x, s.stored, s.done, s.announced, s.prev, s.put);
    CutStaged(s.base, s.cut, x, RecordedCount(s.done, s.put), s.w.staged);
    CutAppending(s.append, s.accepted, s.w, s.cfg.compressed);
    CutSettled(s, s.cut + [x], w);
    CutFlushing(s.flush, Settled(s), s.cut, x, s.done);
  }

  lemma KeepSealCut(s: State, aged: bool)
    requires Inv(s)
    ensures Inv(DoSealCut(s, aged))
  {
    hide Caps, HandIsLast, Files, Chain, Stored, Staged, Durable, History, Keys, Terminal, SlotTrue, Appending,
      Flushing, Bound, Seal, Finish;
    if s.sealing.Holding? && s.sealing.phase.Cleared? {
      if !Sealable(s.w, s.sealing.phase.agedOnly, aged) {
        KeepFinishTick(s);
      } else {
        var (w, r) := Seal(s.w, s.cfg.compressed);
        if r.Ok? {
          CutState(s);
        } else {
          BufferForward(s.cut, s.w, s.accepted);
          CutKeys(s.cut, s.w, s.epoch0, s.cfg.compressed);
          CutAppending(s.append, s.accepted, s.w, s.cfg.compressed);
          KeepFinish(s.(w := w), Err(r.error));
        }
      }
    }
  }

  /** Nothing to cut: a ticker just lets go, anyone else found the buffer empty. */
  lemma KeepFinishTick(s: State)
    requires Inv(s) && s.sealing.Holding? && s.sealing.phase.Cleared?
    requires s.sealing.phase.agedOnly || s.w.buffered == []
    ensures Inv(Finish(s, Ok(None)))
  {
    hide HandIsLast, Files, Chain, Stored, Staged, Durable, History, Keys, Terminal, SlotTrue, Appending, Flushing;
    if !s.sealing.who.Ticker? {
      KeepFinish(s, Ok(None));
    }
  }

  lemma SendChain(cut: seq<Sealed>, x: Sealed, done: nat, put: Pc, q3: seq<Sealed>, gzip: Pc, q2: seq<Sealed>,
      render: Pc, q1: seq<Sealed>)
    requires Chain(cut, done, put, q3, gzip, q2, render, q1, [x])
    ensures Chain(cut, done, put, q3, gzip, q2, render, q1 + [x], [])
  {
    assert Line3(put, q3, gzip, q2, render, q1 + [x], []) == Line3(put, q3, gzip, q2, render, q1, [x]);
  }

  lemma HandInFiles(s: State)
    requires s.sealing.Holding? && s.sealing.phase.Cut? && HandIsLast(s.cut, s.sealing.Hand())
    requires Files(s.cut, s.q1, s.q2, s.q3, s.render, s.gzip, s.put)
    ensures s.cut != [] && s.cut[|s.cut| - 1] == s.sealing.phase.x
    ensures Files(s.cut, s.q1 + [s.sealing.phase.x], s.q2, s.q3, s.render, s.gzip, s.put)
  {
    assert s.sealing.Hand() == [s.sealing.phase.x];
  }

  /** While a file is in the sealer's hand nobody else has cut one. */
  lemma SendFlushing(flush: Flush, settled: nat, hand: seq<Sealed>, cut: seq<Sealed>, done: nat)
    requires Flushing(flush, settled, hand, cut, done) && hand != [] && cut != []
    ensures !flush.FInSeal? ==> Flushing(flush, settled, [], cut, done)
    ensures flush.FInSeal? ==>
              Flushing(FAwaiting(flush.mark, cut[|cut| - 1].file.Serial(), |cut|), settled, [], cut, done)
  {
    assert cut[..|cut|] == cut;
  }

  predicate Handing(s: State) {
    s.sealing.Holding? && s.sealing.phase.Cut?
  }

  /** What sending the file in hand does to the parts it touches, whoever holds it. */
  lemma SendParts(s: State)
    requires Inv(s) && Handing(s)
    ensures var x := s.sealing.phase.x;
            && s.sealing.Hand() == [x]
            && Chain(s.cut, s.done, s.put, s.q3, s.gzip, s.q2, s.render, s.q1 + [x], [])
            && s.cut != [] && s.cut[|s.cut| - 1] == x && HandIsLast(s.cut, [])
            && Files(s.cut, s.q1 + [x], s.q2, s.q3, s.render, s.gzip, s.put)
            && (!s.flush.FInSeal? ==> Flushing(s.flush, Settled(s), [], s.cut, s.done))
            && (s.flush.FInSeal? ==>
                 Flushing(FAwaiting(s.flush.mark, x.file.Serial(), |s.cut|), Settled(s), [], s.cut, s.done))
  {
    hide HandIsLast, Files, Chain, Stored, Staged, Durable, History, Keys, Terminal, SlotTrue, Appending, Flushing,
      Caps, Locks, Bound;
    var x := s.sealing.phase.x;
    assert s.sealing.Hand() == [x];
    SendChain(s.cut, x, s.done, s.put, s.q3, s.gzip, s.q2, s.render, s.q1);
    HandInFiles(s);
    SendFlushing(s.flush, Settled(s), [x], s.cut, s.done);
    HandIsLastEmpty(s.cut);
  }

  lemma KeepSendOther(s: State)
    requires Inv(s) && Handing(s) && !s.sealing.who.Producer?
    ensures Inv(DoSealSend(s))
  {
    SendParts(s);
    hide HandIsLast, Files, Chain, Stored, Staged, Durable, History, Keys, Terminal, SlotTrue, Appending, Flushing,
      PlainPc;
  }

  lemma KeepSendProducer(s: State)
    requires Inv(s) && Handing(s) && s.sealing.who.Producer?
    ensures Inv(DoSealSend(s))
  {
    SendParts(s);
    hide HandIsLast, Files, Chain, Stored, Staged, Durable, History, Keys, Terminal, SlotTrue, Appending, Flushing,
      PlainPc;
    FinishAppending(s.append, s.accepted, BufferOf(s.w), Error.Config);
    FlushingSettled(s.flush, Settled(s), |s.accepted|, [], s.cut, s.done);
  }

  lemma KeepSealSend(s: State)
    requires Inv(s)
    ensures Inv(DoSealSend(s))
  {
    hide Inv;
    if Handing(s) {
      if s.sealing.who.Producer? {
        KeepSendProducer(s);
      } else {
        KeepSendOther(s);
      }
    }
  }

  lemma HandIsLastEmpty(cut: seq<Sealed>)
    ensures HandIsLast(cut, [])
  {
  }
}
