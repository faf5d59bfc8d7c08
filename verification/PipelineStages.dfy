/** The stage tasks keep the invariant of the rotation pipeline. */
module PipelineStages {
  import opened Base
  import opened Naming
  import opened Progress
  import opened Writer
  import opened Pipeline
  import opened PipelineInvariant

  // ---------------------------------------------------------------------
  // moving files along the line
  // ---------------------------------------------------------------------

  lemma ChunkPrefix(a: seq<Sealed>, b: seq<Sealed>, cut: seq<Sealed>, d: nat)
    requires Chunk(a + b, cut, d)
    ensures Chunk(a, cut, d)
  {
    assert a == (a + b)[..|a|];
    assert cut[d..d + |a + b|][..|a|] == cut[d..d + |a|];
  }

  /** A stage that goes on with the same file, or stops, leaves the line in order. */
  lemma ChainPc(cut: seq<Sealed>, done: nat, put: Pc, q3: seq<Sealed>, gzip: Pc, q2: seq<Sealed>,
                render: Pc, q1: seq<Sealed>, hand: seq<Sealed>, put': Pc, gzip': Pc, render': Pc)
    requires Chain(cut, done, put, q3, gzip, q2, render, q1, hand)
    requires put'.Live() ==> put.Live() && put'.Held() == put.Held()
    requires gzip'.Live() ==> gzip.Live() && gzip'.Held() == gzip.Held()
    requires render'.Live() ==> render.Live() && render'.Held() == render.Held()
    ensures Chain(cut, done, put', q3, gzip', q2, render', q1, hand)
  {
    hide Chunk;
    if put'.Live() {
      assert Line1(put', q3) == Line1(put, q3);
      if gzip'.Live() {
        assert Line2(put', q3, gzip', q2) == Line2(put, q3, gzip, q2);
        if render'.Live() {
          assert Line3(put', q3, gzip', q2, render', q1, hand) == Line3(put, q3, gzip, q2, render, q1, hand);
        }
      }
    }
  }

  lemma FilesPc(cut: seq<Sealed>, q1: seq<Sealed>, q2: seq<Sealed>, q3: seq<Sealed>, render: Pc, gzip: Pc, put: Pc,
                render': Pc, gzip': Pc, put': Pc)
    requires Files(cut, q1, q2, q3, render, gzip, put)
    requires render'.Held() == render.Held() || render'.Held() == []
    requires gzip'.Held() == gzip.Held() || gzip'.Held() == []
    requires put'.Held() == put.Held() || put'.Held() == []
    ensures Files(cut, q1, q2, q3, render', gzip', put')
  {
  }

  lemma ChainRecvRender(cut: seq<Sealed>, done: nat, put: Pc, q3: seq<Sealed>, gzip: Pc, q2: seq<Sealed>,
                        q1: seq<Sealed>, hand: seq<Sealed>, pc: Pc)
    requires q1 != [] && pc.Held() == [q1[0]]
    requires Chain(cut, done, put, q3, gzip, q2, Idle, q1, hand)
    ensures Chain(cut, done, put, q3, gzip, q2, pc, q1[1..], hand)
  {
    assert Line3(put, q3, gzip, q2, pc, q1[1..], hand) == Line3(put, q3, gzip, q2, Idle, q1, hand);
  }

  lemma ChainRecvGzip(cut: seq<Sealed>, done: nat, put: Pc, q3: seq<Sealed>, q2: seq<Sealed>, render: Pc,
                      q1: seq<Sealed>, hand: seq<Sealed>, pc: Pc)
    requires q2 != [] && pc.Held() == [q2[0]]
    requires Chain(cut, done, put, q3, Idle, q2, render, q1, hand)
    ensures Chain(cut, done, put, q3, pc, q2[1..], render, q1, hand)
  {
    assert Line2(put, q3, pc, q2[1..]) == Line2(put, q3, Idle, q2);
  }

  lemma ChainRecvPut(cut: seq<Sealed>, done: nat, q3: seq<Sealed>, gzip: Pc, q2: seq<Sealed>, render: Pc,
                     q1: seq<Sealed>, hand: seq<Sealed>, pc: Pc)
    requires q3 != [] && pc.Held() == [q3[0]]
    requires Chain(cut, done, Idle, q3, gzip, q2, render, q1, hand)
    ensures Chain(cut, done, pc, q3[1..], gzip, q2, render, q1, hand)
  {
    hide Chunk;
    assert Line1(pc, q3[1..]) == Line1(Idle, q3);
  }

  lemma ChainSendRender(cut: seq<Sealed>, done: nat, put: Pc, q3: seq<Sealed>, gzip: Pc, x: Sealed,
                        q1: seq<Sealed>, hand: seq<Sealed>)
    requires Chain(cut, done, put, q3, gzip, [], Sending(x), q1, hand)
    ensures Chain(cut, done, put, q3, gzip, [x], Idle, q1, hand)
  {
    var a, b := Line2(put, q3, gzip, [x]), q1 + hand;
    assert Line3(put, q3, gzip, [], Sending(x), q1, hand) == a + b == Line3(put, q3, gzip, [x], Idle, q1, hand);
    if put.Live() && gzip.Live() {
      ChunkPrefix(a, b, cut, done);
    }
  }

  lemma ChainSendGzip(cut: seq<Sealed>, done: nat, put: Pc, x: Sealed, q2: seq<Sealed>, render: Pc,
                      q1: seq<Sealed>, hand: seq<Sealed>)
    requires Chain(cut, done, put, [], Sending(x), q2, render, q1, hand)
    ensures Chain(cut, done, put, [x], Idle, q2, render, q1, hand)
  {
    var a := Line1(put, [x]);
    assert Line2(put, [], Sending(x), q2) == a + q2 == Line2(put, [x], Idle, q2);
    if put.Live() {
      ChunkPrefix(a, q2, cut, done);
    }
  }

  /** The file in the put stage's hands is the next one after the durable files. */
  lemma PutHoldsNext(cut: seq<Sealed>, done: nat, put: Pc, q3: seq<Sealed>, gzip: Pc, q2: seq<Sealed>,
                     render: Pc, q1: seq<Sealed>, hand: seq<Sealed>)
    requires Chain(cut, done, put, q3, gzip, q2, render, q1, hand)
    requires put.Held() != []
    ensures done < |cut| && cut[done] == put.x
  {
    assert Line1(put, q3)[0] == put.x;
  }

  lemma ChainLand(cut: seq<Sealed>, done: nat, put: Pc, q3: seq<Sealed>, gzip: Pc, q2: seq<Sealed>,
                  render: Pc, q1: seq<Sealed>, hand: seq<Sealed>)
    requires Chain(cut, done, put, q3, gzip, q2, render, q1, hand)
    requires put.Held() != []
    ensures Chain(cut, done + 1, Idle, q3, gzip, q2, render, q1, hand)
  {
    hide Chunk;
    var x := put.x;
    ChunkDropsFirst(x, Line1(Idle, q3), cut, done);
    ChunkDropsFirst(x, Line2(Idle, q3, gzip, q2), cut, done);
    ChunkDropsFirst(x, Line3(Idle, q3, gzip, q2, render, q1, hand), cut, done);
    LineSplit(put, q3, gzip, q2, render, q1, hand);
    PutHoldsNext(cut, done, put, q3, gzip, q2, render, q1, hand);
  }

  lemma LineSplit(put: Pc, q3: seq<Sealed>, gzip: Pc, q2: seq<Sealed>, render: Pc, q1: seq<Sealed>, hand: seq<Sealed>)
    requires put.Held() != []
    ensures Line1(put, q3) == [put.x] + Line1(Idle, q3)
    ensures Line2(put, q3, gzip, q2) == [put.x] + Line2(Idle, q3, gzip, q2)
    ensures Line3(put, q3, gzip, q2, render, q1, hand) == [put.x] + Line3(Idle, q3, gzip, q2, render, q1, hand)
  {
  }

  lemma ChunkDropsFirst(x: Sealed, rest: seq<Sealed>, cut: seq<Sealed>, d: nat)
    ensures Chunk([x] + rest, cut, d) ==> Chunk(rest, cut, d + 1)
  {
    if Chunk([x] + rest, cut, d) {
      assert ([x] + rest)[1..] == rest;
      assert cut[d..d + |[x] + rest|][1..] == cut[d + 1..d + 1 + |rest|];
    }
  }

  // ---------------------------------------------------------------------
  // the slot
  // ---------------------------------------------------------------------

  /** A stage that stops publishes first, so the slot is stopped with a reportable cause. */
  lemma PublishedSlot(s: State, kind: FailKind, stage: Stage, cause: Option<Error>)
    requires Terminal(s.orderFatal, s.fenced, s.slot.failing, AllLive(s))
    requires kind.Rotation? || (kind.Fenced? && s.fenced)
    ensures var p := PublishTerminal(s.slot, kind, stage, cause);
            && Terminal(s.orderFatal, s.fenced, p.failing, false)
            && p.Stopped() && p.durable == s.slot.durable
  {
  }

  lemma StoppedSlotTrue(failing: Option<Failing>, render: Pc, gzip: Pc, put: Pc)
    requires IsStopped(failing)
    ensures SlotTrue(failing, render, gzip, put)
  {
  }

  /** With another stage gone the slot is stopped already. */
  lemma GoneIsStopped(s: State)
    requires Terminal(s.orderFatal, s.fenced, s.slot.failing, AllLive(s)) && !AllLive(s)
    ensures s.slot.Stopped() && Terminal(s.orderFatal, s.fenced, s.slot.failing, false)
  {
  }

  lemma SlotTrueTop(s: State, st: Worker)
    requires At(s, st).Top? && SlotTrue(s.slot.failing, s.render, s.gzip, s.put)
    ensures var t := With(s, st, Running(At(s, st).x, At(s, st).n)); SlotTrue(t.slot.failing, t.render, t.gzip, t.put)
  {
  }

  /** A stage without failed attempts is not the one the slot names. */
  lemma SlotTrueFresh(s: State, st: Worker, pc: Pc)
    requires SlotTrue(s.slot.failing, s.render, s.gzip, s.put)
    requires var p := At(s, st);
             p.Idle? || p.Gate? || p.Sending? || p.Recorded? || p.Announced? || (p.Running? && p.n == 0)
    ensures var t := With(s, st, pc); SlotTrue(t.slot.failing, t.render, t.gzip, t.put)
  {
  }

  lemma SlotTrueGood(s: State, st: Worker)
    requires At(s, st).Running? && At(s, st).n > 0 && SlotTrue(s.slot.failing, s.render, s.gzip, s.put)
    ensures var t := With(s, st, Passing(At(s, st).x, At(s, st).n)); SlotTrue(t.slot.failing, t.render, t.gzip, t.put)
  {
  }

  lemma SlotTrueBad(s: State, st: Worker, err: Error)
    requires At(s, st).Running? && SlotTrue(s.slot.failing, s.render, s.gzip, s.put)
    ensures var pc := At(s, st);
            var t := With(s.(slot := ReportFailure(s.slot, pc.x.file.Serial(), st, pc.n + 1, err)), st,
                          if IsPermanent(err) then Dying(pc.x, pc.n + 1, err) else Top(pc.x, pc.n + 1));
            SlotTrue(t.slot.failing, t.render, t.gzip, t.put)
  {
  }

  lemma ReportKeepsTerminal(s: State, serial: int, st: Stage, n: nat, err: Error)
    requires Terminal(s.orderFatal, s.fenced, s.slot.failing, AllLive(s))
    ensures var p := ReportFailure(s.slot, serial, st, n, err);
            Terminal(s.orderFatal, s.fenced, p.failing, AllLive(s)) && p.durable == s.slot.durable
  {
  }

  lemma SlotTrueClear(s: State, st: Worker)
    requires At(s, st).Passing? && SlotTrue(s.slot.failing, s.render, s.gzip, s.put)
    ensures var t := With(s.(slot := ClearFailure(s.slot, At(s, st).x.file.Serial())), st, Sending(At(s, st).x));
            SlotTrue(t.slot.failing, t.render, t.gzip, t.put)
  {
  }

  /** `clear_failure` cannot erase a terminal entry: file serials are never negative. */
  lemma ClearKeepsTerminal(s: State, serial: int)
    requires Terminal(s.orderFatal, s.fenced, s.slot.failing, AllLive(s)) && serial >= 0
    ensures var p := ClearFailure(s.slot, serial);
            Terminal(s.orderFatal, s.fenced, p.failing, AllLive(s)) && p.durable == s.slot.durable
  {
  }

  lemma LandSlot(s: State, serial: int)
    requires Terminal(s.orderFatal, s.fenced, s.slot.failing, AllLive(s))
    requires SlotTrue(s.slot.failing, s.render, s.gzip, s.put) && s.put.Announced?
    ensures var p := Land(s.slot, serial);
            && Terminal(s.orderFatal, s.fenced, p.failing, AllLive(s))
            && SlotTrue(p.failing, s.render, s.gzip, Idle)
            && p.durable == Some(serial)
  {
  }

  // ---------------------------------------------------------------------
  // facts about the file in hand
  // ---------------------------------------------------------------------

  lemma HeldKnown(s: State, st: Worker)
    requires Files(s.cut, s.q1, s.q2, s.q3, s.render, s.gzip, s.put) && At(s, st).Held() != []
    requires Keys(s.cut, s.epoch0, s.w.epoch, s.w.next, s.w.lastSealed)
    ensures At(s, st).x in s.cut && At(s, st).x.file.Serial() >= 0
  {
    assert At(s, st).x in At(s, st).Held();
  }

  /** Where the put stage may stand without having touched storage or the bookkeeping. */
  lemma StoredPc(cut: seq<Sealed>, stored: seq<Sealed>, done: nat, announced: nat, prev: Option<StagedFile>,
      put: Pc, put': Pc)
    requires Stored(cut, stored, done, announced, prev, put) && !put.Announced?
    requires !put'.Announced?
    requires put'.Idle? || put'.Gate? ==> put.Idle? || put.Gate?
    requires put'.Passing? || put'.Sending? || put'.Recorded? ==> put.Passing? || put.Sending? || put.Recorded?
    ensures Stored(cut, stored, done, announced, prev, put')
  {
  }

  lemma BoundLand(cap: nat, cut: nat, done: nat, promised: nat)
    requires Bound(cap, cut, done, promised)
    ensures Bound(cap, cut, done + 1, promised)
  {
  }

  lemma FlushingLand(flush: Flush, settled: nat, hand: seq<Sealed>, cut: seq<Sealed>, done: nat)
    requires Flushing(flush, settled, hand, cut, done)
    ensures Flushing(flush, settled, hand, cut, done + 1)
  {
  }

  // ---------------------------------------------------------------------
  // the steps
  // ---------------------------------------------------------------------

  /** A stage goes on to `pc`, with the same file or stopped; the slot is `slot`. */
  lemma Moves(s: State, st: Worker, pc: Pc, slot: Slot)
    requires Inv(s) && (st != Put ==> PlainPc(pc))
    requires pc.Live() ==> At(s, st).Live() && pc.Held() == At(s, st).Held()
    requires pc.Held() == At(s, st).Held() || pc.Held() == []
    requires slot.durable == s.slot.durable
    requires var t := With(s.(slot := slot), st, pc);
             && Terminal(t.orderFatal, t.fenced, t.slot.failing, AllLive(t))
             && SlotTrue(t.slot.failing, t.render, t.gzip, t.put)
             && Stored(t.cut, t.stored, t.done, t.announced, t.prev, t.put)
             && RecordedCount(t.done, t.put) == RecordedCount(s.done, s.put)
    ensures Inv(With(s.(slot := slot), st, pc))
  {
    hide Caps, Locks, HandIsLast, Files, Chain, Stored, Staged, Durable, History, Keys, Terminal, SlotTrue,
      Appending, Flushing, Bound;
    var t := With(s.(slot := slot), st, pc);
    ChainPc(s.cut, s.done, s.put, s.q3, s.gzip, s.q2, s.render, s.q1, s.sealing.Hand(), t.put, t.gzip, t.render);
    FilesPc(s.cut, s.q1, s.q2, s.q3, s.render, s.gzip, s.put, t.render, t.gzip, t.put);
  }

  lemma PutStoredPc(s: State, pc: Pc)
    requires Stored(s.cut, s.stored, s.done, s.announced, s.prev, s.put) && !s.put.Announced? && !s.put.Recorded?
    ensures pc.Stopping? || pc.Exited? ==> Stored(s.cut, s.stored, s.done, s.announced, s.prev, pc)
    ensures pc.Top? || pc.Running? || pc.Dying? ==> Stored(s.cut, s.stored, s.done, s.announced, s.prev, pc)
    ensures s.put.Passing? && pc.Sending? ==> Stored(s.cut, s.stored, s.done, s.announced, s.prev, pc)
  {
  }

  /** Stopping: the terminal entry is published before the task is gone. */
  lemma Stops(s: State, st: Worker, kind: FailKind, stage: Stage, cause: Option<Error>)
    requires Inv(s) && At(s, st).Live() && !At(s, st).Announced? && !At(s, st).Recorded?
    requires kind.Rotation? || (kind.Fenced? && s.fenced)
    ensures Inv(With(s.(slot := PublishTerminal(s.slot, kind, stage, cause)), st, Stopping))
  {
    hide Caps, Locks, HandIsLast, Files, Chain, Stored, Staged, Durable, History, Keys, Terminal, SlotTrue,
      Appending, Flushing, Bound, PublishTerminal;
    var p := PublishTerminal(s.slot, kind, stage, cause);
    var t := With(s.(slot := p), st, Stopping);
    PublishedSlot(s, kind, stage, cause);
    StoppedSlotTrue(p.failing, t.render, t.gzip, t.put);
    if st == Put {
      PutStoredPc(s, Stopping);
    }
    Moves(s, st, Stopping, p);
  }

  lemma KeepStageTop(s: State, st: Worker)
    requires Inv(s)
    ensures Inv(DoStageTop(s, st))
  {
    hide Caps, Locks, HandIsLast, Files, Chain, Stored, Staged, Durable, History, Keys, Terminal, SlotTrue,
      Appending, Flushing, Bound, PublishTerminal;
    var pc := At(s, st);
    if pc.Top? {
      if s.fenced {
        Stops(s, st, Fenced, Whole, None);
      } else {
        SlotTrueTop(s, st);
        if st == Put {
          PutStoredPc(s, Running(pc.x, pc.n));
        }
        Moves(s, st, Running(pc.x, pc.n), s.slot);
      }
    }
  }

  /** Storage after a put landed: the files up to and including the one in hand, once each. */
  lemma StoreNext(s: State)
    requires Inv(s) && s.put.Running?
    ensures var t := Store(s, s.put.x);
            t.stored == s.cut[..s.done + 1] && s.done < |s.cut|
    ensures var t := Store(s, s.put.x);
            t == s.(stored := s.cut[..s.done + 1])
  {
    hide Caps, Locks, HandIsLast, Files, Chain, Staged, Durable, History, Keys, Terminal, SlotTrue, Appending,
      Flushing, Bound;
    PutHoldsNext(s.cut, s.done, s.put, s.q3, s.gzip, s.q2, s.render, s.q1, s.sealing.Hand());
    if 0 < |s.stored| == s.done {
      DistinctFiles(s, s.done - 1, s.done);
    }
    assert s.cut[..s.done + 1] == s.cut[..s.done] + [s.cut[s.done]];
  }

  lemma DistinctFiles(s: State, i: nat, j: nat)
    requires Keys(s.cut, s.epoch0, s.w.epoch, s.w.next, s.w.lastSealed) && i < j < |s.cut|
    ensures s.cut[i] != s.cut[j] && s.cut[i].file.Serial() < s.cut[j].file.Serial()
  {
  }

  lemma KeepStore(s: State)
    requires Inv(s) && s.put.Running?
    ensures Inv(Store(s, s.put.x)) && |Store(s, s.put.x).stored| == s.done + 1
  {
    hide Caps, Locks, HandIsLast, Files, Chain, Staged, Durable, History, Keys, Terminal, SlotTrue, Appending,
      Flushing, Bound, Store;
    StoreNext(s);
  }

  lemma StoredAfterGood(s: State, pc: Pc)
    requires Stored(s.cut, s.stored, s.done, s.announced, s.prev, s.put) && s.put.Running? && |s.stored| == s.done + 1
    requires pc.Passing? || pc.Sending?
    ensures Stored(s.cut, s.stored, s.done, s.announced, s.prev, pc)
  {
  }

  lemma KeepGood(s: State, st: Worker)
    requires Inv(s) && At(s, st).Running? && (st == Put ==> |s.stored| == s.done + 1)
    ensures var pc := At(s, st); Inv(With(s, st, if pc.n > 0 then Passing(pc.x, pc.n) else Sending(pc.x)))
  {
    hide Caps, Locks, HandIsLast, Files, Chain, Stored, Staged, Durable, History, Keys, Terminal, SlotTrue,
      Appending, Flushing, Bound;
    var pc := At(s, st);
    var next := if pc.n > 0 then Passing(pc.x, pc.n) else Sending(pc.x);
    if pc.n > 0 {
      SlotTrueGood(s, st);
    } else {
      SlotTrueFresh(s, st, next);
    }
    if st == Put {
      StoredAfterGood(s, next);
    }
    Moves(s, st, next, s.slot);
  }

  lemma KeepBad(s: State, st: Worker, err: Error)
    requires Inv(s) && At(s, st).Running?
    ensures var pc := At(s, st);
            Inv(With(s.(slot := ReportFailure(s.slot, pc.x.file.Serial(), st, pc.n + 1, err)), st,
                     if IsPermanent(err) then Dying(pc.x, pc.n + 1, err) else Top(pc.x, pc.n + 1)))
  {
    hide Caps, Locks, HandIsLast, Files, Chain, Stored, Staged, Durable, History, Keys, Terminal, SlotTrue,
      Appending, Flushing, Bound, ReportFailure;
    var pc := At(s, st);
    var next := if IsPermanent(err) then Dying(pc.x, pc.n + 1, err) else Top(pc.x, pc.n + 1);
    SlotTrueBad(s, st, err);
    ReportKeepsTerminal(s, pc.x.file.Serial(), st, pc.n + 1, err);
    if st == Put {
      PutStoredPc(s, next);
    }
    Moves(s, st, next, ReportFailure(s.slot, pc.x.file.Serial(), st, pc.n + 1, err));
  }

  lemma KeepStageRun(s: State, st: Worker, o: Outcome)
    requires Inv(s)
    ensures Inv(DoStageRun(s, st, o))
  {
    hide Inv, Store, ReportFailure, With;
    if At(s, st).Running? {
      var lands := st == Put && (o.Good? || o.landed);
      var t := if lands then Store(s, At(s, st).x) else s;
      if lands {
        KeepStore(s);
        StoreTouchesNothingElse(s, s.put.x);
      }
      if o.Good? {
        KeepGood(t, st);
      } else {
        KeepBad(t, st, o.err);
      }
    }
  }

  lemma StoreTouchesNothingElse(s: State, x: Sealed)
    ensures var t := Store(s, x); t == s.(stored := t.stored)
  {
  }

  lemma KeepStageClear(s: State, st: Worker)
    requires Inv(s)
    ensures Inv(DoStageClear(s, st))
  {
    hide Caps, Locks, HandIsLast, Files, Chain, Stored, Staged, Durable, History, Keys, Terminal, SlotTrue,
      Appending, Flushing, Bound, ClearFailure;
    var pc := At(s, st);
    if pc.Passing? {
      HeldKnown(s, st);
      SlotTrueClear(s, st);
      ClearKeepsTerminal(s, pc.x.file.Serial());
      if st == Put {
        PutStoredPc(s, Sending(pc.x));
      }
      Moves(s, st, Sending(pc.x), ClearFailure(s.slot, pc.x.file.Serial()));
    }
  }

  lemma KeepStageDie(s: State, st: Worker)
    requires Inv(s)
    ensures Inv(DoStageDie(s, st))
  {
    hide Caps, Locks, HandIsLast, Files, Chain, Stored, Staged, Durable, History, Keys, Terminal, SlotTrue,
      Appending, Flushing, Bound, PublishTerminal;
    if At(s, st).Dying? {
      Stops(s, st, Rotation, st, Some(CloneError(At(s, st).err)));
    }
  }

  /** A task may go away without a word once another stage has stopped. */
  lemma Leaves(s: State, st: Worker)
    requires Inv(s) && !AllLive(s) && !At(s, st).Announced? && !At(s, st).Recorded?
    ensures Inv(With(s, st, Exited))
  {
    hide Caps, Locks, HandIsLast, Files, Chain, Stored, Staged, Durable, History, Keys, Terminal, SlotTrue,
      Appending, Flushing, Bound;
    var t := With(s, st, Exited);
    GoneIsStopped(s);
    StoppedSlotTrue(s.slot.failing, t.render, t.gzip, t.put);
    if st == Put {
      PutStoredPc(s, Exited);
    }
    Moves(s, st, Exited, s.slot);
  }

  lemma KeepStageExit(s: State, st: Worker)
    requires Inv(s)
    ensures Inv(DoStageExit(s, st))
  {
    if At(s, st).Stopping? {
      Leaves(s, st);
    }
  }

  lemma FilesRecv(s: State, st: Worker, pc: Pc)
    requires Files(s.cut, s.q1, s.q2, s.q3, s.render, s.gzip, s.put)
    requires Inbox(s, st) != [] && pc.Held() == [Inbox(s, st)[0]]
    ensures st == Render ==> Files(s.cut, s.q1[1..], s.q2, s.q3, pc, s.gzip, s.put)
    ensures st == Gzip ==> Files(s.cut, s.q1, s.q2[1..], s.q3, s.render, pc, s.put)
    ensures st == Put ==> Files(s.cut, s.q1, s.q2, s.q3[1..], s.render, s.gzip, pc)
  {
  }

  lemma KeepRecvRender(s: State)
    requires Inv(s) && s.render.Idle? && s.q1 != []
    ensures Inv(s.(q1 := s.q1[1..], render := Top(s.q1[0], 0)))
  {
    hide Locks, HandIsLast, Files, Chain, Stored, Staged, Durable, History, Keys, Terminal, SlotTrue, Appending,
      Flushing;
    var pc := Top(s.q1[0], 0);
    ChainRecvRender(s.cut, s.done, s.put, s.q3, s.gzip, s.q2, s.q1, s.sealing.Hand(), pc);
    FilesRecv(s, Render, pc);
    SlotTrueFresh(s, Render, pc);
  }

  lemma KeepRecvGzip(s: State, pc: Pc)
    requires Inv(s) && s.gzip.Idle? && s.q2 != [] && (pc == Top(s.q2[0], 0) || pc == Sending(s.q2[0]))
    ensures Inv(s.(q2 := s.q2[1..], gzip := pc))
  {
    hide Locks, HandIsLast, Files, Chain, Stored, Staged, Durable, History, Keys, Terminal, SlotTrue, Appending,
      Flushing;
    ChainRecvGzip(s.cut, s.done, s.put, s.q3, s.q2, s.render, s.q1, s.sealing.Hand(), pc);
    FilesRecv(s, Gzip, pc);
    SlotTrueFresh(s, Gzip, pc);
  }

  lemma KeepRecvPut(s: State)
    requires Inv(s) && s.put.Idle? && s.q3 != []
    ensures Inv(s.(q3 := s.q3[1..], put := Gate(s.q3[0])))
  {
    hide Locks, HandIsLast, Files, Chain, Stored, Staged, Durable, History, Keys, Terminal, SlotTrue, Appending,
      Flushing;
    var pc := Gate(s.q3[0]);
    ChainRecvPut(s.cut, s.done, s.q3, s.gzip, s.q2, s.render, s.q1, s.sealing.Hand(), pc);
    FilesRecv(s, Put, pc);
    SlotTrueFresh(s, Put, pc);
    StoredPc(s.cut, s.stored, s.done, s.announced, s.prev, s.put, pc);
  }

  lemma KeepStageRecv(s: State, st: Worker)
    requires Inv(s)
    ensures Inv(DoStageRecv(s, st))
  {
    hide Inv;
    if At(s, st).Idle? {
      if Inbox(s, st) == [] {
        if Closed(s, st) {
          Leaves(s, st);
        }
      } else {
        match st
        case Render => KeepRecvRender(s);
        case Gzip => KeepRecvGzip(s, if s.q2[0].file.compressed then Top(s.q2[0], 0) else Sending(s.q2[0]));
        case Put => KeepRecvPut(s);
      }
    }
  }

  lemma FilesSend(s: State, st: Worker)
    requires Files(s.cut, s.q1, s.q2, s.q3, s.render, s.gzip, s.put) && At(s, st).Sending?
    ensures st == Render ==> Files(s.cut, s.q1, [At(s, st).x], s.q3, Idle, s.gzip, s.put)
    ensures st == Gzip ==> Files(s.cut, s.q1, s.q2, [At(s, st).x], s.render, Idle, s.put)
  {
  }

  lemma KeepSendRender(s: State)
    requires Inv(s) && s.render.Sending? && s.q2 == []
    ensures Inv(s.(q2 := [s.render.x], render := Idle))
  {
    hide Locks, HandIsLast, Files, Chain, Stored, Staged, Durable, History, Keys, Terminal, SlotTrue, Appending,
      Flushing, Bound;
    ChainSendRender(s.cut, s.done, s.put, s.q3, s.gzip, s.render.x, s.q1, s.sealing.Hand());
    FilesSend(s, Render);
    SlotTrueFresh(s, Render, Idle);
  }

  lemma KeepSendGzip(s: State)
    requires Inv(s) && s.gzip.Sending? && s.q3 == []
    ensures Inv(s.(q3 := [s.gzip.x], gzip := Idle))
  {
    hide Locks, HandIsLast, Files, Chain, Stored, Staged, Durable, History, Keys, Terminal, SlotTrue, Appending,
      Flushing, Bound;
    ChainSendGzip(s.cut, s.done, s.put, s.gzip.x, s.q2, s.render, s.q1, s.sealing.Hand());
    FilesSend(s, Gzip);
    SlotTrueFresh(s, Gzip, Idle);
  }

  lemma KeepStageSend(s: State, st: Worker)
    requires Inv(s)
    ensures Inv(DoStageSend(s, st))
  {
    hide Inv;
    if At(s, st).Sending? {
      match st
      case Render =>
        if s.gzip.Exited? { Leaves(s, st); } else if s.q2 == [] { KeepSendRender(s); }
      case Gzip =>
        if s.put.Exited? { Leaves(s, st); } else if s.q3 == [] { KeepSendGzip(s); }
      case Put =>
    }
  }

  // ---------------------------------------------------------------------
  // the put stage's gate and bookkeeping
  // ---------------------------------------------------------------------

  lemma PrevIsLastDurable(cut: seq<Sealed>, stored: seq<Sealed>, done: nat, announced: nat,
      prev: Option<StagedFile>, put: Pc)
    requires Stored(cut, stored, done, announced, prev, put) && done <= |cut| && put.Gate?
    ensures prev == if done == 0 then None else Some(cut[done - 1].file)
  {
  }

  /** The order tripwire never fires: the file at the gate follows the last durable one. */
  lemma OrderHolds(s: State)
    requires Inv(s) && s.put.Gate?
    ensures CheckOrder(s.prev, s.put.x.file)
  {
    hide Caps, Locks, HandIsLast, Files, Chain, Stored, Staged, Durable, History, Terminal, SlotTrue, Appending,
      Flushing, Bound;
    PutHoldsNext(s.cut, s.done, s.put, s.q3, s.gzip, s.q2, s.render, s.q1, s.sealing.Hand());
    PrevIsLastDurable(s.cut, s.stored, s.done, s.announced, s.prev, s.put);
  }

  lemma KeepPutGate(s: State)
    requires Inv(s)
    ensures Inv(DoPutGate(s))
  {
    hide Caps, Locks, HandIsLast, Files, Chain, Stored, Staged, Durable, History, Keys, Terminal, SlotTrue,
      Appending, Flushing, Bound, PublishTerminal, CheckOrder;
    if s.put.Gate? {
      if s.fenced {
        Stops(s, Put, Fenced, Whole, None);
      } else {
        OrderHolds(s);
        SlotTrueFresh(s, Put, Top(s.put.x, 0));
        PutStoredPc(s, Top(s.put.x, 0));
        Moves(s, Put, Top(s.put.x, 0), s.slot);
      }
    }
  }

  lemma StagedNext(base: Option<int>, cut: seq<Sealed>, n: nat, w: WState)
    requires Staged(base, cut, n, w.staged) && n < |cut|
    ensures Staged(base, cut, n + 1, RecordDurable(w, cut[n].file.end).staged)
  {
    StagedAfterSnoc(base, cut, n);
  }

  lemma RecordTouches(w: WState, end: int)
    ensures var t := RecordDurable(w, end); t == w.(staged := t.staged)
  {
  }

  lemma KeepPutLanded(s: State)
    requires Inv(s)
    ensures Inv(DoPutLanded(s))
  {
    hide Caps, Locks, HandIsLast, Files, Chain, Stored, Staged, Durable, History, Keys, Terminal, SlotTrue,
      Appending, Flushing, Bound, PublishTerminal, RecordDurable;
    if s.put.Sending? {
      if s.fenced {
        Stops(s, Put, Fenced, Whole, None);
      } else {
        var pc := Recorded(s.put.x);
        var hand := s.sealing.Hand();
        PutHoldsNext(s.cut, s.done, s.put, s.q3, s.gzip, s.q2, s.render, s.q1, hand);
        StagedNext(s.base, s.cut, s.done, s.w);
        RecordTouches(s.w, s.put.x.file.end);
        ChainPc(s.cut, s.done, s.put, s.q3, s.gzip, s.q2, s.render, s.q1, hand, pc, s.gzip, s.render);
        FilesPc(s.cut, s.q1, s.q2, s.q3, s.render, s.gzip, s.put, s.render, s.gzip, pc);
        StoredPc(s.cut, s.stored, s.done, s.announced, s.prev, s.put, pc);
        SlotTrueFresh(s, Put, pc);
      }
    }
  }

  lemma StoredAnnounced(cut: seq<Sealed>, stored: seq<Sealed>, done: nat, announced: nat, prev: Option<StagedFile>,
      put: Pc)
    requires Stored(cut, stored, done, announced, prev, put) && put.Recorded?
    requires done < |cut| && cut[done] == put.x
    ensures Stored(cut, stored, done, announced + 1, Some(put.x.file), Announced(put.x))
  {
  }

  lemma KeepPutAnnounce(s: State)
    requires Inv(s)
    ensures Inv(DoPutAnnounce(s))
  {
    hide Caps, Locks, HandIsLast, Files, Chain, Stored, Staged, Durable, History, Keys, Terminal, SlotTrue,
      Appending, Flushing, Bound;
    if s.put.Recorded? {
      var pc := Announced(s.put.x);
      var hand := s.sealing.Hand();
      PutHoldsNext(s.cut, s.done, s.put, s.q3, s.gzip, s.q2, s.render, s.q1, hand);
      ChainPc(s.cut, s.done, s.put, s.q3, s.gzip, s.q2, s.render, s.q1, hand, pc, s.gzip, s.render);
      FilesPc(s.cut, s.q1, s.q2, s.q3, s.render, s.gzip, s.put, s.render, s.gzip, pc);
      StoredAnnounced(s.cut, s.stored, s.done, s.announced, s.prev, s.put);
      SlotTrueFresh(s, Put, pc);
    }
  }

  lemma StoredLanded(cut: seq<Sealed>, stored: seq<Sealed>, done: nat, announced: nat, prev: Option<StagedFile>,
      put: Pc)
    requires Stored(cut, stored, done, announced, prev, put) && put.Announced?
    ensures Stored(cut, stored, done + 1, announced, prev, Idle)
  {
  }

  lemma DurableLanded(cut: seq<Sealed>, done: nat)
    requires done < |cut|
    ensures Durable(cut, done + 1, Some(cut[done].file.Serial()))
  {
  }

  lemma KeepPutLand(s: State)
    requires Inv(s)
    ensures Inv(DoPutLand(s))
  {
    hide Caps, Locks, HandIsLast, Files, Chain, Stored, Staged, Durable, History, Keys, Terminal, SlotTrue,
      Appending, Flushing, Bound, Land;
    if s.put.Announced? {
      var hand := s.sealing.Hand();
      PutHoldsNext(s.cut, s.done, s.put, s.q3, s.gzip, s.q2, s.render, s.q1, hand);
      ChainLand(s.cut, s.done, s.put, s.q3, s.gzip, s.q2, s.render, s.q1, hand);
      FilesPc(s.cut, s.q1, s.q2, s.q3, s.render, s.gzip, s.put, s.render, s.gzip, Idle);
      StoredLanded(s.cut, s.stored, s.done, s.announced, s.prev, s.put);
      DurableLanded(s.cut, s.done);
      LandSlot(s, s.put.x.file.Serial());
      BoundLand(s.cfg.Capacity(), |s.cut|, s.done, s.sealing.Promised());
      FlushingLand(s.flush, Settled(s), hand, s.cut, s.done);
    }
  }

  lemma KeepFence(s: State)
    requires Inv(s)
    ensures Inv(s.(fenced := true))
  {
    hide Caps, Locks, HandIsLast, Files, Chain, Stored, Staged, Durable, History, Keys, SlotTrue, Appending,
      Flushing, Bound;
  }

  lemma KeepSerialViolation(s: State)
    requires Inv(s)
    ensures Inv(s.(serialFatal := true))
  {
    hide Caps, Locks, HandIsLast, Files, Chain, Stored, Staged, Durable, History, Keys, Terminal, SlotTrue,
      Appending, Flushing, Bound;
  }
}
