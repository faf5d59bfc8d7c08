/** The resume position recorded in state.json over time. It never leads the server
    (`SessionsTheorems.StateNeverLeads`); whether it can move back depends on the order in which the
    state writes in flight land. */
module StateRecord {
  import opened Base
  import opened Naming
  import opened Values
  import opened Writer
  import opened Recovery
  import opened Sessions
  import opened SessionsInvariant
  import P = Pipeline
  import I = PipelineInvariant
  import S = SessionsSteps

  predicate AtMost(a: Option<int>, b: Option<int>) {
    a.Some? ==> b.Some? && a.value <= b.value
  }

  function Higher(a: Option<int>, b: Option<int>): Option<int> {
    if a.Some? && b.Some? then Some(Max(a.value, b.value)) else if a.Some? then a else b
  }

  // ---------------------------------------------------------------------
  // two writes in flight
  // ---------------------------------------------------------------------

  /** Two state writes of a live session in flight, the later one landing first: the record moves
      back exactly if the earlier one is lower. */
  lemma OvertakingMovesBack(w: World, i: nat, j: nat, first: bool, second: bool)
    requires w.session.Live? && !w.session.p.fenced && i < j < |w.writes|
    ensures var t := Next(w, PersistWrite(j, true, first));
            var u := Next(t, PersistWrite(i, true, second));
            && Recorded(t.state) == w.writes[j].resume && Recorded(u.state) == w.writes[i].resume
            && (AtMost(Recorded(t.state), Recorded(u.state)) <==> AtMost(w.writes[j].resume, w.writes[i].resume))
  {
    hide P.Next;
    var t := Next(w, PersistWrite(j, true, first));
    assert t.writes[i] == w.writes[i];
  }

  // ---------------------------------------------------------------------
  // the record catches up
  // ---------------------------------------------------------------------

  /** A refresh that nothing gets in the way of records the newest confirmed offset if it is ahead of
      what this writer has recorded; otherwise, without a heartbeat due, it writes nothing. */
  lemma RecordCatchesUp(w: World, c: int)
    requires w.session.Live? && !w.session.p.fenced && w.writes == [] && ConfirmedEnd(w.confirmed) == Some(c)
    ensures var t := Next(Next(w, PersistRead(false)), PersistWrite(0, true, true));
            if w.session.persisted.None? || w.session.persisted.value < c
            then t.state == Some(StateFile(Some(c), w.session.p.w.epoch)) && t.session.Live? &&
                 t.session.persisted == Some(c) && t.writes == []
            else Next(w, PersistRead(false)) == w
  {
    hide P.Next;
  }

  // ---------------------------------------------------------------------
  // writes that land in order
  // ---------------------------------------------------------------------

  /** No state write lands before an earlier and lower one, and an opening reads state.json only when
      no state write of an earlier session is still on its way. */
  predicate Orderly(w: World, e: Event) {
    match e
    case PersistWrite(i, landed, _) =>
      landed && i < |w.writes| ==> forall j :: 0 <= j < i ==> AtMost(w.writes[i].resume, w.writes[j].resume)
    case ReadState => w.session.Closed? ==> w.writes == []
    case _ => true
  }

  predicate OrderlyThroughout(w: World, events: seq<Event>) {
    events == [] ||
    (OrderlyThroughout(w, events[..|events| - 1]) && Orderly(Run(w, events[..|events| - 1]), events[|events| - 1]))
  }

  /** A board shows an accepted object. */
  ghost predicate ConfirmedOk(ever: seq<Sealed>, owned: nat, confirmed: Option<(int, int)>) {
    confirmed.Some? ==>
      exists k :: 0 <= k < owned && k < |ever| && confirmed.value == (ever[k].file.Serial(), ever[k].file.end)
  }

  /** The writes in flight rise from what is recorded to at most `top`. */
  predicate Rising(recorded: Option<int>, writes: seq<StateWrite>) {
    && (forall i :: 0 <= i < |writes| ==> AtMost(recorded, writes[i].resume))
    && (forall i, j :: 0 <= i < j < |writes| ==> AtMost(writes[i].resume, writes[j].resume))
  }

  predicate Bounded(persisted: Option<int>, writes: seq<StateWrite>, top: Option<int>, opens: nat) {
    forall i :: 0 <= i < |writes| ==>
      writes[i].owner == opens && AtMost(persisted, writes[i].resume) && AtMost(writes[i].resume, top)
  }

  predicate RecordOk(session: Session, opens: nat, writes: seq<StateWrite>, state: Option<StateFile>,
      confirmed: Option<(int, int)>) {
    && Rising(Recorded(state), writes)
    && match session
       case Closed => true
       case Reading(read) => writes == [] && Recorded(read) == Recorded(state)
       case Asked(read, _) => writes == [] && Recorded(read) == Recorded(state)
       case Decided(o) => writes == [] && o.newState.resume == Recorded(state)
       case Notifying(o, _) => writes == [] && o.newState.resume == Recorded(state)
       case Live(_, _, persisted) =>
         var top := Higher(persisted, ConfirmedEnd(confirmed));
         AtMost(Recorded(state), top) && Bounded(persisted, writes, top, opens)
  }

  ghost predicate Recording(w: World) {
    && ConfirmedOk(w.ever, OwnedBy(w), w.confirmed)
    && (forall k :: 0 <= k < |w.others| ==> ConfirmedOk(w.ever, OwnedBy(w), w.others[k].confirmed))
    && RecordOk(w.session, w.opens, w.writes, w.state, w.confirmed)
  }

  /** A step that leaves the record alone. */
  predicate Untouched(w: World, t: World) {
    && t.state == w.state && t.writes == w.writes && t.opens == w.opens && t.confirmed == w.confirmed
    && t.others == w.others && w.ever <= t.ever && OwnedBy(w) <= OwnedBy(t)
    && (t.session == w.session ||
         (w.session.Live? && t.session.Live? && t.session.persisted == w.session.persisted) ||
         (w.session.Notifying? && t.session.Notifying? && t.session.o == w.session.o))
  }

  lemma UntouchedKeeps(w: World, t: World)
    requires Recording(w) && Untouched(w, t)
    ensures Recording(t) && t.state == w.state
  {
    hide Rising, Bounded;
    forall k | 0 <= k < |t.others| ensures ConfirmedOk(t.ever, OwnedBy(t), t.others[k].confirmed) {
      assert ConfirmedOk(w.ever, OwnedBy(w), w.others[k].confirmed);
    }
  }

  lemma ConfirmMoves(ever: seq<Sealed>, owned: nat, confirmed: Option<(int, int)>, place: nat)
    requires Objects(ever) && ConfirmedOk(ever, owned, confirmed) && place < |ever| && owned <= |ever|
    ensures var b := if place < owned then owned else place + 1;
            var c := Confirm(confirmed, ever[place].file);
            ConfirmedOk(ever, b, c) && AtMost(ConfirmedEnd(confirmed), ConfirmedEnd(c))
  {
    hide I.WellCut;
    if confirmed.Some? {
      var k :| 0 <= k < owned && k < |ever| && confirmed.value == (ever[k].file.Serial(), ever[k].file.end);
      assert ever[place].file.Serial() >= ever[k].file.Serial() ==> place >= k;
    }
    var f := ever[place].file;
    assert (f.Serial(), f.end) == (ever[place].file.Serial(), ever[place].file.end);
  }

  lemma RecordConfirmed(session: Session, opens: nat, writes: seq<StateWrite>, state: Option<StateFile>,
                        a: Option<(int, int)>, b: Option<(int, int)>)
    requires RecordOk(session, opens, writes, state, a) && AtMost(ConfirmedEnd(a), ConfirmedEnd(b))
    ensures RecordOk(session, opens, writes, state, b)
  {
    hide Rising;
  }

  lemma ConfirmedMore(ever: seq<Sealed>, a: nat, b: nat, confirmed: Option<(int, int)>)
    requires ConfirmedOk(ever, a, confirmed) && a <= b
    ensures ConfirmedOk(ever, b, confirmed)
  {
  }

  lemma BoardsMore(w: World, b: nat)
    requires OwnedBy(w) <= b
    requires forall k :: 0 <= k < |w.others| ==> ConfirmedOk(w.ever, OwnedBy(w), w.others[k].confirmed)
    ensures forall k :: 0 <= k < |w.others| ==> ConfirmedOk(w.ever, b, w.others[k].confirmed)
  {
    forall k | 0 <= k < |w.others| ensures ConfirmedOk(w.ever, b, w.others[k].confirmed) {
      ConfirmedMore(w.ever, OwnedBy(w), b, w.others[k].confirmed);
    }
  }

  lemma SubmitKeeps(w: World, answered: bool)
    requires Inv(w) && Recording(w)
    ensures var t := DoSubmit(w, answered); Recording(t) && t.state == w.state
  {
    hide Inv, StreamOk, Objects, Fed, StoreOk, ServerOk, GcOk, QueueOk, RecordsOk, SessionOk, Drains, Gate, Owned,
      DoSubmit, Confirm, RecordOk, ConfirmedOk;
    Parts(w);
    S.QueueEmpty(w);
    if w.queue == [] {
      S.NothingToSubmit(w, answered);
    } else {
      S.GateVerdict(w, w.places[0]);
      S.SubmitShape(w, answered, w.places[0]);
      BoardsMore(w, OwnedBy(DoSubmit(w, answered)));
      ConfirmMoves(w.ever, OwnedBy(w), w.confirmed, w.places[0]);
      var c := Confirm(w.confirmed, w.ever[w.places[0]].file);
      RecordConfirmed(w.session, w.opens, w.writes, w.state, w.confirmed, c);
      if !answered {
        ConfirmedMore(w.ever, OwnedBy(w), OwnedBy(DoSubmit(w, answered)), w.confirmed);
      }
    }
  }

  lemma SubmitElsewhereKeeps(w: World, k: nat, answered: bool)
    requires Inv(w) && OthersOk(w) && Recording(w)
    ensures var t := DoSubmitElsewhere(w, k, answered); Recording(t) && t.state == w.state
  {
    hide Inv, StreamOk, Objects, Fed, StoreOk, ServerOk, GcOk, QueueOk, RecordsOk, SessionOk, Drains, Gate, Owned,
      DoSubmitElsewhere, Confirm, RecordOk, ConfirmedOk, OthersOk;
    Parts(w);
    if k >= |w.others| || w.others[k].queue == [] {
      S.NothingElsewhere(w, k, answered);
    } else {
      S.HeadElsewhere(w, k);
      var place := w.others[k].places[0];
      S.GateVerdict(w, place);
      S.ElsewhereShape(w, k, answered, place);
      BoardsMore(w, OwnedBy(DoSubmitElsewhere(w, k, answered)));
      ConfirmedMore(w.ever, OwnedBy(w), OwnedBy(DoSubmitElsewhere(w, k, answered)), w.confirmed);
      ConfirmMoves(w.ever, OwnedBy(w), w.others[k].confirmed, place);
    }
  }

  lemma MoveKeeps(w: World, k: nat)
    requires Recording(w)
    ensures Recording(DoMove(w, k)) && DoMove(w, k).state == w.state
    ensures Recording(DoDie(w, k)) && DoDie(w, k).state == w.state
  {
    hide Rising, Bounded;
    var t := DoDie(w, k);
    forall i | 0 <= i < |t.others| ensures ConfirmedOk(t.ever, OwnedBy(t), t.others[i].confirmed) {
      assert t.others[i] == w.others[if k < |w.others| && i >= k then i + 1 else i];
    }
  }

  lemma PersistReadKeeps(w: World, heartbeat: bool)
    requires Recording(w)
    ensures var t := DoPersistRead(w, heartbeat); Recording(t) && t.state == w.state
  {
    hide ConfirmedOk;
  }

  lemma PersistWriteKeeps(w: World, i: nat, landed: bool, answered: bool)
    requires Recording(w) && Orderly(w, PersistWrite(i, landed, answered))
    ensures var t := DoPersistWrite(w, i, landed, answered);
            Recording(t) && AtMost(Recorded(w.state), Recorded(t.state))
  {
    hide ConfirmedOk;
    if i < |w.writes| && w.session.Live? {
      var persisted := w.session.persisted;
      LandedStaysBounded(Recorded(w.state), persisted, ConfirmedEnd(w.confirmed), w.writes, i, w.opens);
      hide Rising, Bounded, Higher;
    } else if i < |w.writes| {
      LandedKeepsRising(Recorded(w.state), w.writes, i);
      hide Rising, Bounded;
    }
  }

  lemma LandedKeepsRising(recorded: Option<int>, writes: seq<StateWrite>, i: nat)
    requires i < |writes| && Rising(recorded, writes)
    ensures var left := writes[..i] + writes[i + 1..];
            && Rising(recorded, left) && AtMost(recorded, writes[i].resume)
            && ((forall j :: 0 <= j < i ==> AtMost(writes[i].resume, writes[j].resume)) ==>
                 Rising(writes[i].resume, left))
  {
    var left := writes[..i] + writes[i + 1..];
    assert forall k :: 0 <= k < |left| ==> left[k] == writes[if k < i then k else k + 1];
  }

  lemma LandedStaysBounded(recorded: Option<int>, persisted: Option<int>, confirmed: Option<int>,
                           writes: seq<StateWrite>, i: nat, opens: nat)
    requires i < |writes| && Rising(recorded, writes)
    requires Bounded(persisted, writes, Higher(persisted, confirmed), opens)
    ensures var r, left := writes[i].resume, writes[..i] + writes[i + 1..];
            && Rising(recorded, left) && AtMost(recorded, r)
            && Bounded(persisted, left, Higher(persisted, confirmed), opens)
            && AtMost(r, Higher(persisted, confirmed)) && AtMost(r, Higher(r, confirmed)) && writes[i].owner == opens
            && ((forall j :: 0 <= j < i ==> AtMost(r, writes[j].resume)) ==>
                 Rising(r, left) && Bounded(r, left, Higher(r, confirmed), opens))
  {
    var left := writes[..i] + writes[i + 1..];
    LandedKeepsRising(recorded, writes, i);
    assert forall k :: 0 <= k < |left| ==> left[k] == writes[if k < i then k else k + 1];
  }

  lemma DecideKeeps(w: World, now: nat)
    requires Recording(w)
    ensures Recording(DoDecide(w, now)) && DoDecide(w, now).state == w.state
  {
    hide PlanOf, NextEpoch, Anchor, MergeResume, FilesOf, ConfirmedOk;
  }

  lemma OpeningKeeps(w: World)
    requires Recording(w)
    ensures var t := DoWriteState(w); Recording(t) && AtMost(Recorded(w.state), Recorded(t.state))
    ensures var t := DoBackfill(w); Recording(t) && t.state == w.state
  {
    hide P.Init, ConfirmedOk;
  }

  lemma WriterUntouched(w: World, step: P.Step)
    ensures Untouched(w, DoWriter(w, step))
  {
    hide P.Next, Feeds;
  }

  lemma FinishUntouched(w: World, i: nat, skip: bool)
    ensures Untouched(w, DoFinish(w, i, skip))
  {
    hide Lookup;
  }

  lemma GcUntouched(w: World, asOf: nat, now: nat, keep: Retention, i: nat, ok: bool)
    ensures Untouched(w, DoGcStart(w, asOf, now, keep)) && Untouched(w, DoGcDelete(w, i, ok))
  {
    hide GcTargets, Without, FilesOf;
  }

  lemma EndKeeps(w: World, known: bool)
    requires Recording(w)
    ensures Recording(DoCrash(w)) && Recording(DoEnd(w)) && DoCrash(w).state == DoEnd(w).state == w.state
    ensures Recording(DoAsk(w, known)) && DoAsk(w, known).state == w.state
    ensures Orderly(w, ReadState) ==> Recording(DoReadState(w)) && DoReadState(w).state == w.state
  {
    hide Watermark, Rising, Bounded;
  }

  lemma EventKeepsRecord(w: World, e: Event)
    requires Inv(w) && OthersOk(w) && Recording(w) && Orderly(w, e)
    ensures Recording(Next(w, e)) && AtMost(Recorded(w.state), Recorded(Next(w, e).state))
  {
    hide Inv, OthersOk, Recording, DoReadState, DoAsk, DoDecide, DoWriteState, DoBackfill, DoWriter, DoSubmit, DoFinish,
      DoPersistRead, DoPersistWrite, DoGcStart, DoGcDelete, DoEnd, DoCrash, DoMove, DoSubmitElsewhere, DoDie, Untouched;
    match e
    case ReadState => EndKeeps(w, true);
    case Ask(known) => EndKeeps(w, known);
    case DecideEpoch(now) => DecideKeeps(w, now);
    case WriteState => OpeningKeeps(w);
    case Backfill => OpeningKeeps(w);
    case WriterStep(step) => WriterUntouched(w, step); UntouchedKeeps(w, Next(w, e));
    case Submit(answered) => SubmitKeeps(w, answered);
    case Finish(i, skip) => FinishUntouched(w, i, skip); UntouchedKeeps(w, Next(w, e));
    case PersistRead(heartbeat) => PersistReadKeeps(w, heartbeat);
    case PersistWrite(i, landed, answered) => PersistWriteKeeps(w, i, landed, answered);
    case GcStart(asOf, now, keep) => GcUntouched(w, asOf, now, keep, 0, true); UntouchedKeeps(w, Next(w, e));
    case GcDelete(i, ok) => GcUntouched(w, 0, 0, Retention(0, 0), i, ok); UntouchedKeeps(w, Next(w, e));
    case EndSession => EndKeeps(w, true);
    case Crash => EndKeeps(w, true);
    case Move(k) => MoveKeeps(w, k);
    case SubmitElsewhere(k, answered) => SubmitElsewhereKeeps(w, k, answered);
    case Die(k) => MoveKeeps(w, k);
  }

  lemma {:induction false} RecordRun(w: World, events: seq<Event>)
    requires Inv(w) && OthersOk(w) && Recording(w) && OrderlyThroughout(w, events)
    ensures Inv(Run(w, events)) && OthersOk(Run(w, events)) && Recording(Run(w, events))
    ensures AtMost(Recorded(w.state), Recorded(Run(w, events).state))
  {
    hide Inv, OthersOk, Recording, Next, Orderly, Recorded;
    if events != [] {
      var t := Run(w, events[..|events| - 1]);
      RecordRun(w, events[..|events| - 1]);
      S.EventKeepsInv(t, events[|events| - 1]);
      EventKeepsRecord(t, events[|events| - 1]);
    }
  }

  /** A state of a stream whose state writes have landed in order. */
  ghost predicate ReachedOrderly(w: World) {
    exists cfg: P.Settings, ident: WriterIdentity, log: seq<Row>, events: seq<Event> ::
      ident.Valid() && OrderlyThroughout(Fresh(cfg, ident, log), events) && w == Run(Fresh(cfg, ident, log), events)
  }

  lemma ReachedRecording(w: World)
    requires ReachedOrderly(w)
    ensures Inv(w) && OthersOk(w) && Recording(w)
  {
    hide Inv, OthersOk, OrderlyThroughout, Run;
    var cfg: P.Settings, ident: WriterIdentity, log: seq<Row>, events: seq<Event> :|
      ident.Valid() && OrderlyThroughout(Fresh(cfg, ident, log), events) && w == Run(Fresh(cfg, ident, log), events);
    S.FreshInv(cfg, ident, log);
    RecordRun(Fresh(cfg, ident, log), events);
  }

  /** With any number of state writes in flight, if they land in order and none of an ended session
      is on its way when the next one reads the record, the recorded position never decreases, over
      any number of sessions, processes and crashes. */
  lemma RecordNeverMovesBack(w: World, events: seq<Event>)
    requires ReachedOrderly(w) && OrderlyThroughout(w, events)
    ensures AtMost(Recorded(w.state), Recorded(Run(w, events).state))
  {
    hide Inv, OthersOk, OrderlyThroughout, Recorded, Run, ReachedOrderly, Recording;
    ReachedRecording(w);
    RecordRun(w, events);
  }
}
