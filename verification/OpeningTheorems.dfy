/** What an opening decides: when it succeeds, what it enqueues again, and how session epochs rise
    through state.json alone. */
module OpeningTheorems {
  import opened Base
  import opened Naming
  import opened Values
  import opened Writer
  import opened Recovery
  import opened Sessions
  import opened SessionsInvariant
  import P = Pipeline
  import E = PipelineEffects
  import opened Progress
  import S = SessionsSteps
  import T = SessionsTheorems

  // ---------------------------------------------------------------------
  // success
  // ---------------------------------------------------------------------

  /** An opening of any stream goes through exactly if the clock fits the 43 bits and neither the
      newest object nor the watermark nor state.json holds the last epoch. */
  lemma OpeningGoesThrough(log: seq<Row>, w: World, now: nat)
    requires T.Reached(log, w) && w.session.Asked?
    ensures var newest := NewestEpoch(FilesOf(w.store));
            Next(w, DecideEpoch(now)).session.Decided? <==>
              && now <= MAX_EPOCH_MS
              && forall e: nat :: InUse(e, newest, w.session.watermark, w.session.state) ==> e < MAX_EPOCH_MS
  {
    hide Inv, T.Reached, InUse, Decide, FilesOf, OthersOk;
    T.ReachedInv(log, w);
    hide Fed, StoreOk, ServerOk, GcOk, QueueOk, RecordsOk, SessionOk, Drains, StreamOk, Objects, WellFormed;
    Parts(w);
    S.ListingWellFormed(w.ever, w.store, w.gone, |w.finished|);
    S.SessionParts(w, OwnedBy(w), Drains(w.places, OwnedBy(w)));
    Encoded(w.ever, |w.finished|, w.session.watermark);
    EncodableListing(FilesOf(w.store));
    OpeningSucceeds(FilesOf(w.store), w.session.watermark, w.session.state, now);
  }

  lemma Encoded(ever: seq<Sealed>, terminal: nat, watermark: Option<int>)
    requires WatermarkOk(ever, terminal, watermark)
    ensures EncodedWatermark(watermark)
  {
  }

  lemma EncodableListing(fs: seq<StagedFile>)
    requires WellFormed(fs)
    ensures forall i :: 0 <= i < |fs| ==> fs[i].epoch <= MAX_EPOCH_MS && fs[i].num <= MAX_SEQ
  {
  }

  // ---------------------------------------------------------------------
  // backfill
  // ---------------------------------------------------------------------

  /** Asked of a server that knows its watermark, an opening enqueues exactly the objects that are not
      terminal yet, in order. */
  lemma BackfillIsExact(log: seq<Row>, w: World, now: nat)
    requires T.Reached(log, w) && w.session.Reading?
    ensures var t := Next(Next(w, Ask(true)), DecideEpoch(now));
            t.session.Decided? ==>
              |w.finished| <= |w.ever| && t.session.o.backfill == FilesOf(w.ever[|w.finished|..])
  {
    hide Inv, T.Reached, OthersOk, Next;
    AskedAndDecided(w, now);
    T.ReachedInv(log, w);
    hide Fed, StoreOk, ServerOk, GcOk, QueueOk, RecordsOk, SessionOk, Drains, StreamOk, Objects, WellFormed, Above,
      FilesOf;
    Parts(w);
    T.ServerFacts(w);
    S.ListingWellFormed(w.ever, w.store, w.gone, |w.finished|);
    T.WatermarkCovers(w);
    AboveIsTheRest(w.ever, FilesOf(w.store), w.gone, |w.finished|, Watermark(w));
  }

  lemma AskedAndDecided(w: World, now: nat)
    requires w.session.Reading?
    ensures var t := Next(Next(w, Ask(true)), DecideEpoch(now));
            t.session.Decided? ==> t.session.o.backfill == Above(FilesOf(w.store), Watermark(w))
  {
    hide Above, ResumeOffset, NextEpoch, Anchor, MergeResume, AllEncodable, FilesOf, Watermark;
  }

  lemma AboveIsTheRest(ever: seq<Sealed>, fs: seq<StagedFile>, gone: nat, n: nat, watermark: Option<int>)
    requires WellFormed(fs) && gone <= n <= |ever| && gone + |fs| == |ever|
    requires forall i :: 0 <= i < |fs| ==> fs[i] == ever[gone + i].file
    requires watermark.None? <==> n == 0
    requires forall i :: 0 <= i < |ever| && watermark.Some? ==> (ever[i].file.Serial() <= watermark.value <==> i < n)
    ensures Above(fs, watermark) == FilesOf(ever[n..])
  {
    hide WellFormed, Above;
    var k := AboveIsSuffix(fs, watermark);
    if watermark.Some? {
      assert k > 0 ==> !AboveWatermark(fs[k - 1], watermark) && ever[gone + k - 1].file.Serial() <= watermark.value;
      assert k < |fs| ==> AboveWatermark(fs[k], watermark) && ever[gone + k].file.Serial() > watermark.value;
    } else {
      assert k > 0 ==> AboveWatermark(fs[k - 1], watermark);
    }
    assert gone + k == n;
    assert FilesOf(ever[n..]) == fs[k..];
  }

  // ---------------------------------------------------------------------
  // epochs through state.json alone
  // ---------------------------------------------------------------------

  predicate AtLeast(state: Option<StateFile>, e: nat) {
    state.Some? && state.value.maxEpoch >= e
  }

  /** Everything that is or may become the recorded epoch is at least `e`, and so is the epoch of
      the session. */
  predicate Risen(w: World, e: nat) {
    && AtLeast(w.state, e)
    && (forall i :: 0 <= i < |w.writes| ==> w.writes[i].epoch >= e)
    && match w.session
       case Closed => true
       case Reading(state) => AtLeast(state, e)
       case Asked(state, _) => AtLeast(state, e)
       case Decided(o) => o.epoch > e && o.newState.maxEpoch >= e
       case Notifying(o, _) => o.epoch >= e
       case Live(p, _, _) => p.w.epoch >= e
  }

  lemma WriterEpochGrows(p: P.State, step: P.Step)
    ensures P.Next(p, step).w.epoch >= p.w.epoch
  {
    if step.SealCut? {
      CutEpochGrows(p, step.aged);
    } else {
      OtherStepsKeepEpoch(p, step);
    }
  }

  lemma CutEpochGrows(p: P.State, aged: bool)
    ensures P.DoSealCut(p, aged).w.epoch >= p.w.epoch
  {
    hide P.Fatal;
  }

  lemma FinishKeepsEpoch(p: P.State, r: Result<Option<int>, Error>)
    ensures P.Finish(p, r).w == p.w
  {
  }

  lemma OtherStepsKeepEpoch(p: P.State, step: P.Step)
    requires !step.SealCut?
    ensures P.Next(p, step).w.epoch == p.w.epoch
  {
    hide P.Next;
    if E.OfAppend(step) {
      AppendKeepsEpoch(p, step);
    } else if E.OfFlush(step) {
      FlushKeepsEpoch(p, step);
    } else if E.UnderLock(step) {
      SealKeepsEpoch(p, step);
    } else {
      StagesKeepEpoch(p, step);
    }
  }

  lemma AppendKeepsEpoch(p: P.State, step: P.Step)
    requires E.OfAppend(step)
    ensures P.Next(p, step).w.epoch == p.w.epoch
  {
    hide P.Fatal, MovesForward, LastPosition, StallError;
  }

  lemma FlushKeepsEpoch(p: P.State, step: P.Step)
    requires E.OfFlush(step)
    ensures P.Next(p, step).w.epoch == p.w.epoch
  {
    hide P.Fatal, P.Settled, StallError, P.Room;
  }

  lemma SealKeepsEpoch(p: P.State, step: P.Step)
    requires E.UnderLock(step) && !step.SealCut?
    ensures P.Next(p, step).w.epoch == p.w.epoch
  {
    hide P.Fatal, P.Finish;
    forall t: P.State, r ensures P.Finish(t, r).w == t.w {
      FinishKeepsEpoch(t, r);
    }
  }

  lemma StagesKeepEpoch(p: P.State, step: P.Step)
    requires !E.OfAppend(step) && !E.OfFlush(step) && !E.UnderLock(step)
    ensures P.Next(p, step).w.epoch == p.w.epoch
  {
    if step.StageRun? {
      AttemptKeepsEpoch(p, step.st, step.o);
    } else {
      hide PublishTerminal, ReportFailure, ClearFailure, Land, P.CheckOrder, P.Store;
    }
  }

  lemma AttemptKeepsEpoch(p: P.State, st: P.Worker, o: P.Outcome)
    ensures P.DoStageRun(p, st, o).w == p.w
  {
    hide ReportFailure;
  }

  lemma OpeningKeepsRisen(w: World, known: bool, now: nat, e: nat)
    requires Risen(w, e)
    ensures Risen(DoReadState(w), e) && Risen(DoAsk(w, known), e) && Risen(DoWriteState(w), e)
    ensures Risen(DoBackfill(w), e) && Risen(DoEnd(w), e) && Risen(DoCrash(w), e)
  {
    hide Watermark;
  }

  lemma DecideKeepsRisen(w: World, now: nat, e: nat)
    requires Risen(w, e)
    ensures Risen(DoDecide(w, now), e)
  {
    if w.session.Asked? && EncodedWatermark(w.session.watermark) {
      OpeningSucceeds(FilesOf(w.store), w.session.watermark, w.session.state, now);
      assert InUse(w.session.state.value.maxEpoch, NewestEpoch(FilesOf(w.store)), w.session.watermark, w.session.state);
      hide Decide, FilesOf;
    }
  }

  lemma WriterKeepsRisen(w: World, step: P.Step, e: nat)
    requires Risen(w, e)
    ensures Risen(DoWriter(w, step), e)
  {
    hide P.Next, Feeds;
    if w.session.Live? {
      WriterEpochGrows(w.session.p, step);
    }
  }

  lemma RecordsKeepRisen(w: World, heartbeat: bool, i: nat, landed: bool, answered: bool, e: nat)
    requires Risen(w, e)
    ensures Risen(DoPersistRead(w, heartbeat), e) && Risen(DoPersistWrite(w, i, landed, answered), e)
  {
    var t := DoPersistWrite(w, i, landed, answered);
    assert forall k :: 0 <= k < |t.writes| ==> t.writes[k] == w.writes[if i < |w.writes| && k >= i then k + 1 else k];
  }

  lemma FinishKeepsRisen(w: World, i: nat, skip: bool, e: nat)
    requires Risen(w, e)
    ensures Risen(DoFinish(w, i, skip), e)
  {
    hide Lookup;
  }

  lemma MoveKeepsRisen(w: World, k: nat, e: nat)
    requires Risen(w, e)
    ensures Risen(DoMove(w, k), e) && Risen(DoDie(w, k), e)
  {
  }

  lemma ElsewhereKeepsRisen(w: World, k: nat, answered: bool, e: nat)
    requires Risen(w, e)
    ensures Risen(DoSubmitElsewhere(w, k, answered), e)
  {
    hide Gate, Confirm;
  }

  lemma SubmitKeepsRisen(w: World, answered: bool, e: nat)
    requires Risen(w, e)
    ensures Risen(DoSubmit(w, answered), e)
  {
    hide Gate, Confirm, P.Next;
    if w.session.Live? {
      OtherStepsKeepEpoch(w.session.p, P.SerialViolation);
    }
  }

  lemma GcKeepsRisen(w: World, asOf: nat, now: nat, keep: Retention, i: nat, ok: bool, e: nat)
    requires Risen(w, e)
    ensures Risen(DoGcStart(w, asOf, now, keep), e) && Risen(DoGcDelete(w, i, ok), e)
  {
    hide GcTargets, FilesOf, Without;
  }

  lemma EventKeepsRisen(w: World, event: Event, e: nat)
    requires Risen(w, e)
    ensures Risen(Next(w, event), e)
  {
    hide Risen, DoReadState, DoAsk, DoDecide, DoWriteState, DoBackfill, DoWriter, DoSubmit, DoFinish, DoPersistRead,
      DoPersistWrite, DoGcStart, DoGcDelete, DoEnd, DoCrash, DoMove, DoSubmitElsewhere, DoDie;
    match event
    case ReadState => OpeningKeepsRisen(w, true, 0, e);
    case Ask(known) => OpeningKeepsRisen(w, known, 0, e);
    case DecideEpoch(now) => DecideKeepsRisen(w, now, e);
    case WriteState => OpeningKeepsRisen(w, true, 0, e);
    case Backfill => OpeningKeepsRisen(w, true, 0, e);
    case WriterStep(step) => WriterKeepsRisen(w, step, e);
    case Submit(answered) => SubmitKeepsRisen(w, answered, e);
    case Finish(i, skip) => FinishKeepsRisen(w, i, skip, e);
    case PersistRead(heartbeat) => RecordsKeepRisen(w, heartbeat, 0, false, false, e);
    case PersistWrite(i, landed, answered) => RecordsKeepRisen(w, false, i, landed, answered, e);
    case GcStart(asOf, now, keep) => GcKeepsRisen(w, asOf, now, keep, 0, true, e);
    case GcDelete(i, ok) => GcKeepsRisen(w, 0, 0, Retention(0, 0), i, ok, e);
    case EndSession => OpeningKeepsRisen(w, true, 0, e);
    case Crash => OpeningKeepsRisen(w, true, 0, e);
    case Move(k) => MoveKeepsRisen(w, k, e);
    case SubmitElsewhere(k, answered) => ElsewhereKeepsRisen(w, k, answered, e);
    case Die(k) => MoveKeepsRisen(w, k, e);
  }

  lemma {:induction false} RunKeepsRisen(w: World, events: seq<Event>, e: nat)
    requires Risen(w, e)
    ensures Risen(Run(w, events), e)
  {
    hide Risen, Next;
    if events != [] {
      RunKeepsRisen(w, events[..|events| - 1], e);
      EventKeepsRisen(Run(w, events[..|events| - 1]), events[|events| - 1], e);
    }
  }

  /** The opening records its epoch before anything uses it. No later opening of any run chooses that
      epoch or one below it again, even if nothing is left in storage and the server names no watermark,
      exactly if no write of an earlier session that carries a lower epoch is still on its way. */
  lemma EpochsKeepRising(log: seq<Row>, w: World)
    requires T.Reached(log, w) && w.session.Decided?
    ensures AtLeast(Next(w, WriteState).state, w.session.o.epoch)
    ensures (forall events :: var u := Run(Next(w, WriteState), events);
               u.session.Decided? ==> u.session.o.epoch > w.session.o.epoch)
            <==> (forall i :: 0 <= i < |w.writes| ==> w.writes[i].epoch >= w.session.o.epoch)
  {
    hide Risen, Run, Next;
    DecidedRecords(log, w);
    if i :| 0 <= i < |w.writes| && w.writes[i].epoch < w.session.o.epoch {
      LateWriteLowers(log, w, i);
    } else {
      StartsRisen(w);
      forall events ensures var u := Run(Next(w, WriteState), events);
                            u.session.Decided? ==> u.session.o.epoch > w.session.o.epoch {
        RunKeepsRisen(Next(w, WriteState), events, w.session.o.epoch);
        RisenFacts(Run(Next(w, WriteState), events), w.session.o.epoch);
      }
    }
  }

  lemma DecidedRecords(log: seq<Row>, w: World)
    requires T.Reached(log, w) && w.session.Decided?
    ensures w.session.o.newState.maxEpoch == w.session.o.epoch
    ensures AtLeast(Next(w, WriteState).state, w.session.o.epoch)
    ensures w.session.o.epoch <= MAX_EPOCH_MS && EpochAbove(w.ever, w.session.o.epoch)
    ensures WellFormed(FilesOf(w.store)) && forall x :: x in w.store ==> x in w.ever
  {
    hide Inv, T.Reached, OthersOk, FilesOf, WellFormed;
    T.ReachedInv(log, w);
    hide Fed, ServerOk, GcOk, QueueOk, RecordsOk, SessionOk, Drains, Objects, EpochAbove, Files;
    Parts(w);
    S.ListingWellFormed(w.ever, w.store, w.gone, |w.finished|);
    S.SessionParts(w, OwnedBy(w), Drains(w.places, OwnedBy(w)));
  }

  lemma StartsRisen(w: World)
    requires w.session.Decided? && w.session.o.newState.maxEpoch == w.session.o.epoch
    requires forall i :: 0 <= i < |w.writes| ==> w.writes[i].epoch >= w.session.o.epoch
    ensures Risen(Next(w, WriteState), w.session.o.epoch)
  {
  }

  lemma RisenFacts(w: World, e: nat)
    requires Risen(w, e)
    ensures AtLeast(w.state, e) && (w.session.Decided? ==> w.session.o.epoch > e)
  {
  }

  /** The late write lands, the process dies, and the next opening asks a server without a watermark
      while the clock is behind. */
  function Late(i: nat): seq<Event> {
    [PersistWrite(i, true, true), Crash, ReadState, Ask(false), DecideEpoch(0)]
  }

  lemma RunFive(w: World, a: Event, b: Event, c: Event, d: Event, e: Event)
    ensures Run(w, [a, b, c, d, e]) == Next(Next(Next(Next(Next(w, a), b), c), d), e)
  {
    hide Next;
    assert [a, b, c, d, e] == [] + [a] + [b] + [c] + [d] + [e];
    T.RunSplit(w, [], a);
    T.RunSplit(w, [] + [a], b);
    T.RunSplit(w, [] + [a] + [b], c);
    T.RunSplit(w, [] + [a] + [b] + [c], d);
    T.RunSplit(w, [] + [a] + [b] + [c] + [d], e);
  }

  lemma LateSteps(w: World, i: nat)
    requires w.session.Decided? && i < |w.writes|
    ensures var v := Next(Next(w, WriteState), PersistWrite(i, true, true));
            var t := Next(Next(Next(v, Crash), ReadState), Ask(false));
            && t.store == w.store
            && t.session == Asked(Some(StateFile(w.writes[i].resume, w.writes[i].epoch)), None)
  {
  }

  lemma LateWriteLowers(log: seq<Row>, w: World, i: nat)
    requires T.Reached(log, w) && w.session.Decided? && i < |w.writes| && w.writes[i].epoch < w.session.o.epoch
    ensures var u := Run(Next(w, WriteState), Late(i));
            u.session.Decided? && u.session.o.epoch <= w.session.o.epoch
  {
    hide T.Reached, Run, Next, FilesOf, WellFormed, EpochAbove, Decide, InUse;
    DecidedRecords(log, w);
    var v := Next(w, WriteState);
    RunFive(v, PersistWrite(i, true, true), Crash, ReadState, Ask(false), DecideEpoch(0));
    LateSteps(w, i);
    var t := Next(Next(Next(Next(v, PersistWrite(i, true, true)), Crash), ReadState), Ask(false));
    EncodableListing(FilesOf(w.store));
    var state := Some(StateFile(w.writes[i].resume, w.writes[i].epoch));
    OpeningSucceeds(FilesOf(w.store), None, state, 0);
    InUseIsLower(w.ever, w.store, state, w.session.o.epoch);
    DecidesOn(t, state);
  }

  lemma InUseIsLower(ever: seq<Sealed>, store: seq<Sealed>, state: Option<StateFile>, epoch: nat)
    requires EpochAbove(ever, epoch) && (forall x :: x in store ==> x in ever)
    requires state.Some? ==> state.value.maxEpoch < epoch
    ensures forall e: nat :: InUse(e, NewestEpoch(FilesOf(store)), None, state) ==> e < epoch
  {
    if store != [] {
      assert store[|store| - 1] in ever;
    }
  }

  lemma DecidesOn(t: World, state: Option<StateFile>)
    requires t.session == Asked(state, None)
    ensures var r := Decide(FilesOf(t.store), None, state, 0);
            Next(t, DecideEpoch(0)).session == if r.Ok? then Decided(r.value) else Closed
  {
    hide Decide, FilesOf;
  }
}
