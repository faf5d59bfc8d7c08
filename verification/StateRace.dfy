/** Two runs in which a state write lands late: of two of one session the later one first, and one of
    an earlier session after the next has written. */
module StateRace {
  import opened Base
  import opened Naming
  import opened Values
  import opened Writer
  import opened Recovery
  import opened Sessions
  import opened SessionsInvariant
  import opened StateRecord
  import P = Pipeline
  import S = SessionsSteps
  import T = SessionsTheorems
  import O = OpeningTheorems

  // ---------------------------------------------------------------------
  // the pipeline: one file from append to announcement
  // ---------------------------------------------------------------------

  const ONE_AT_A_TIME: P.Settings := P.Settings(1, 1, false)

  function OneRow(row: Row): Batch {
    Batch([row], 0, 0, 0)
  }

  lemma RunTwo(s: P.State, a: P.Step, b: P.Step)
    ensures P.Run(s, [a, b]) == P.Next(P.Next(s, a), b)
  {
    hide P.Next;
    assert [a, b][..1] == [a] && [a][..0] == [];
    assert P.Run(s, [a]) == P.Next(s, a);
  }

  lemma {:induction false} RunJoin(s: P.State, a: seq<P.Step>, b: seq<P.Step>)
    ensures P.Run(s, a + b) == P.Run(P.Run(s, a), b)
  {
    hide P.Next;
    if b == [] {
      assert a + b == a;
    } else {
      var n := |b| - 1;
      assert (a + b)[..|a + b| - 1] == a + b[..n];
      RunJoin(s, a, b[..n]);
    }
  }

  lemma RunFour(s: P.State, a: P.Step, b: P.Step, c: P.Step, d: P.Step)
    ensures P.Run(s, [a, b, c, d]) == P.Next(P.Next(P.Next(P.Next(s, a), b), c), d)
  {
    hide P.Next, P.Run;
    assert [a, b, c, d] == [a, b] + [c, d];
    RunJoin(s, [a, b], [c, d]);
    RunTwo(s, a, b);
    RunTwo(P.Run(s, [a, b]), c, d);
  }

  /** Nothing is under way but this much. */
  predicate Quiet(s: P.State) {
    && !s.fenced && !s.orderFatal && !s.serialFatal && s.slot.failing.None? && s.sealing.Free?
    && s.cfg == ONE_AT_A_TIME && s.append.AIdle?
    && s.render.Idle? && s.gzip.Idle? && s.put.Idle?
  }

  const SEALING: seq<P.Step> := [P.AppendPush(false, 0), P.TickStart, P.SealCut(true), P.SealSend]
  const RENDERING: seq<P.Step> := 
    [P.StageRecv(Render), P.StageTop(Render), P.StageRun(Render, P.Good), P.StageSend(Render)]
  const PASSING: seq<P.Step> := [P.StageRecv(Gzip), P.StageSend(Gzip), P.StageRecv(Put), P.PutGate]
  const PUTTING: seq<P.Step> := [P.StageTop(Put), P.StageRun(Put, P.Good), P.PutLanded, P.PutAnnounce]

  /** The batch is buffered and cut into a file by the ticker. */
  lemma Sealed1(row: Row)
    ensures var s := P.Init(ONE_AT_A_TIME, 0, None);
            var t := P.Run(s.(append := P.AEntering(OneRow(row))), SEALING);
            && Quiet(t) && |t.q1| == 1 && !t.q1[0].file.compressed && t.q2 == [] && t.q3 == []
            && t.prev.None? && t.announced == 0
  {
    var s0 := P.Init(ONE_AT_A_TIME, 0, None).(append := P.AEntering(OneRow(row)));
    RunFour(s0, SEALING[0], SEALING[1], SEALING[2], SEALING[3]);
    var s1 := P.Next(s0, SEALING[0]);
    var b := OneRow(row);
    assert s1 == s0.(w := Push(s0.w, b, 0), accepted := [b], append := P.AIdle);
    var s2 := P.Next(s1, SEALING[1]);
    assert s2 == s1.(sealing := P.Holding(P.Ticker, P.Cleared(true)));
    CutOne(s2, b);
  }

  lemma CutOne(s: P.State, b: Batch)
    requires Quiet(s.(sealing := P.Free)) && s.sealing == P.Holding(P.Ticker, P.Cleared(true))
    requires s.w.buffered == [b] && s.w.oldest.Some? && s.w.epoch == 0 && s.w.next == 0
    requires s.q1 == [] && s.q2 == [] && s.q3 == [] && s.prev.None? && s.announced == 0
    ensures var t := P.Next(P.Next(s, P.SealCut(true)), P.SealSend);
            && Quiet(t) && |t.q1| == 1 && !t.q1[0].file.compressed && t.q2 == [] && t.q3 == []
            && t.prev.None? && t.announced == 0
  {
    CutFirst(s, b);
    SendFirst(P.Next(s, P.SealCut(true)));
  }

  lemma CutFirst(s: P.State, b: Batch)
    requires s.sealing == P.Holding(P.Ticker, P.Cleared(true)) && !s.cfg.compressed
    requires s.w.buffered == [b] && s.w.oldest.Some? && s.w.epoch == 0 && s.w.next == 0
    ensures var t := P.Next(s, P.SealCut(true));
            && t.sealing.Holding? && t.sealing.phase.Cut? && !t.sealing.phase.x.file.compressed
            && t == s.(w := t.w, cut := t.cut, sealing := P.Holding(P.Ticker, P.Cut(t.sealing.phase.x)))
  {
  }

  lemma SendFirst(s: P.State)
    requires s.sealing.Holding? && s.sealing.who.Ticker? && s.sealing.phase.Cut?
    ensures P.Next(s, P.SealSend) == s.(q1 := s.q1 + [s.sealing.phase.x], sealing := P.Free)
  {
  }

  lemma Rendered1(s: P.State)
    requires Quiet(s) && |s.q1| == 1 && s.q2 == []
    ensures var t := P.Run(s, RENDERING);
            Quiet(t) && t.q2 == [s.q1[0]] && t.q3 == s.q3 && t.prev == s.prev && t.announced == s.announced
  {
    RunFour(s, RENDERING[0], RENDERING[1], RENDERING[2], RENDERING[3]);
    var x := s.q1[0];
    var s1 := P.Next(s, RENDERING[0]);
    assert s1 == s.(q1 := s.q1[1..], render := P.Top(x, 0));
    var s2 := P.Next(s1, RENDERING[1]);
    assert s2 == s1.(render := P.Running(x, 0));
    var s3 := P.Next(s2, RENDERING[2]);
    assert s3 == s1.(render := P.Sending(x));
  }

  lemma Passed1(s: P.State)
    requires Quiet(s) && |s.q2| == 1 && !s.q2[0].file.compressed && s.q3 == [] && s.prev.None?
    ensures var t := P.Run(s, PASSING);
            Quiet(t.(put := P.Idle)) && t.put == P.Top(s.q2[0], 0) && t.announced == s.announced
  {
    RunFour(s, PASSING[0], PASSING[1], PASSING[2], PASSING[3]);
    var x := s.q2[0];
    var s1 := P.Next(s, PASSING[0]);
    assert s1 == s.(q2 := s.q2[1..], gzip := P.Sending(x));
    var s2 := P.Next(s1, PASSING[1]);
    assert s2 == s.(q2 := s.q2[1..], q3 := [x]);
    var s3 := P.Next(s2, PASSING[2]);
    assert s3 == s.(q2 := s.q2[1..], q3 := [x][1..], put := P.Gate(x));
  }

  lemma Put1(s: P.State, x: Sealed)
    requires !s.fenced && s.put == P.Top(x, 0)
    ensures var t := P.Run(s, PUTTING); !t.fenced && t.announced == s.announced + 1
  {
    hide P.Next, P.Run;
    RunFour(s, P.StageTop(Put), P.StageRun(Put, P.Good), P.PutLanded, P.PutAnnounce);
    PutAttempt(s, x);
    PutRecorded(P.Next(P.Next(s, P.StageTop(Put)), P.StageRun(Put, P.Good)), x);
  }

  lemma PutAttempt(s: P.State, x: Sealed)
    requires !s.fenced && s.put == P.Top(x, 0)
    ensures var t := P.Next(P.Next(s, P.StageTop(Put)), P.StageRun(Put, P.Good));
            !t.fenced && t.put == P.Sending(x) && t.announced == s.announced
  {
    hide P.Next, P.Store;
    PutTop(s, x);
    PutRun(s.(put := P.Running(x, 0)), x);
    StoreKeeps(s.(put := P.Running(x, 0)), x);
  }

  lemma PutTop(s: P.State, x: Sealed)
    requires !s.fenced && s.put == P.Top(x, 0)
    ensures P.Next(s, P.StageTop(Put)) == s.(put := P.Running(x, 0))
  {
  }

  lemma PutRun(s: P.State, x: Sealed)
    requires s.put == P.Running(x, 0)
    ensures P.Next(s, P.StageRun(Put, P.Good)) == P.Store(s, x).(put := P.Sending(x))
  {
    hide P.Store;
  }

  lemma StoreKeeps(s: P.State, x: Sealed)
    ensures P.Store(s, x).fenced == s.fenced && P.Store(s, x).announced == s.announced
  {
  }

  lemma PutRecorded(s: P.State, x: Sealed)
    requires !s.fenced && s.put == P.Sending(x)
    ensures var t := P.Next(P.Next(s, P.PutLanded), P.PutAnnounce); !t.fenced && t.announced == s.announced + 1
  {
    var t := P.Next(s, P.PutLanded);
    assert t == s.(w := RecordDurable(s.w, x.file.end), put := P.Recorded(x));
  }

  const REST: seq<P.Step> := SEALING + RENDERING + PASSING + PUTTING

  lemma OneAnnounced(row: Row)
    ensures var s := P.Init(ONE_AT_A_TIME, 0, None).(append := P.AEntering(OneRow(row)));
            P.Run(s, REST).announced == 1 && !P.Run(s, REST).fenced
  {
    hide P.Run, Quiet, SEALING, RENDERING, PASSING, PUTTING;
    var s := P.Init(ONE_AT_A_TIME, 0, None).(append := P.AEntering(OneRow(row)));
    RunJoin(s, SEALING + RENDERING + PASSING, PUTTING);
    RunJoin(s, SEALING + RENDERING, PASSING);
    RunJoin(s, SEALING, RENDERING);
    Sealed1(row);
    Rendered1(P.Run(s, SEALING));
    Passed1(P.Run(P.Run(s, SEALING), RENDERING));
    var t := P.Run(P.Run(P.Run(s, SEALING), RENDERING), PASSING);
    Put1(t, t.put.x);
  }

  // ---------------------------------------------------------------------
  // the stream around it
  // ---------------------------------------------------------------------

  function Steps(steps: seq<P.Step>): seq<Event> {
    if steps == [] then [] else Steps(steps[..|steps| - 1]) + [WriterStep(steps[|steps| - 1])]
  }

  /** What a quiet step of the writer leaves as it is. */
  predicate SameRecord(w: World, t: World) {
    && t.session.Live? && w.session.Live? && t.session.resume == w.session.resume
    && t.session.persisted == w.session.persisted && t.writes == w.writes && t.confirmed == w.confirmed
    && t.before == w.before && t.pending == w.pending && t.finished == w.finished
  }

  predicate Inner(steps: seq<P.Step>) {
    forall i :: 0 <= i < |steps| ==> !steps[i].AppendBegin? && !steps[i].SerialViolation?
  }

  lemma {:induction false} WriterGoesOn(w: World, steps: seq<P.Step>)
    requires w.session.Live? && Inner(steps)
    ensures var t := Run(w, Steps(steps)); SameRecord(w, t) && t.session.p == P.Run(w.session.p, steps)
  {
    hide P.Next;
    if steps != [] {
      var n := |steps| - 1;
      WriterGoesOn(w, steps[..n]);
      T.RunSplit(w, Steps(steps[..n]), WriterStep(steps[n]));
    }
  }

  const OPENING: seq<Event> := [ReadState, Ask(false), DecideEpoch(0), WriteState, Backfill]

  lemma Opened(ident: WriterIdentity, log: seq<Row>)
    ensures var w := Run(Fresh(ONE_AT_A_TIME, ident, log), OPENING);
            && w.session == Live(P.Init(ONE_AT_A_TIME, 0, None), None, None) && w.writes == [] && w.confirmed.None?
            && w.before == 0 && w.pending == [] && w.finished == [] && w.log == log
            && w.state == Some(StateFile(None, 0)) && w.store == []
  {
    hide Next;
    var w := Fresh(ONE_AT_A_TIME, ident, log);
    var a := [ReadState];
    var b := a + [Ask(false)];
    var c := b + [DecideEpoch(0)];
    var d := c + [WriteState];
    assert a == [] + [ReadState] && OPENING == d + [Backfill] && Run(w, []) == w;
    T.RunSplit(w, [], ReadState);
    T.RunSplit(w, a, Ask(false));
    T.RunSplit(w, b, DecideEpoch(0));
    T.RunSplit(w, c, WriteState);
    T.RunSplit(w, d, Backfill);
    OpeningSteps(ident, log);
  }

  lemma OpeningSteps(ident: WriterIdentity, log: seq<Row>)
    ensures var asked := Next(Next(Fresh(ONE_AT_A_TIME, ident, log), ReadState), Ask(false));
            var w := Next(Next(Next(asked, DecideEpoch(0)), WriteState), Backfill);
            && w.session == Live(P.Init(ONE_AT_A_TIME, 0, None), None, None) && w.writes == [] && w.confirmed.None?
            && w.before == 0 && w.pending == [] && w.finished == [] && w.log == log
            && w.state == Some(StateFile(None, 0)) && w.store == []
  {
    hide P.Init;
    var w := Fresh(ONE_AT_A_TIME, ident, log);
    var a := Next(Next(w, ReadState), Ask(false));
    assert a == w.(session := Asked(None, None));
    DecideFirst(a);
    var b := Next(a, DecideEpoch(0));
    var o := Opening(None, [], 0, StateFile(None, 0));
    assert b == w.(session := Decided(o));
    var c := Next(b, WriteState);
    assert c == w.(session := Notifying(o, []), state := Some(o.newState));
  }

  lemma DecideFirst(w: World)
    requires w.session == Asked(None, None) && w.store == []
    ensures DoDecide(w, 0) == w.(session := Decided(Opening(None, [], 0, StateFile(None, 0))))
  {
    assert FilesOf(w.store) == [];
    assert PlanOf([], None) == Ok(RecoveryPlan(None, [], None));
  }

  function Upto(row: Row): seq<Event> {
    OPENING + [PersistRead(true)] + [WriterStep(P.AppendBegin(OneRow(row)))]
  }

  /** Open, prepare a state write, begin an append. */
  lemma Begun(ident: WriterIdentity, row: Row)
    ensures var w := Run(Fresh(ONE_AT_A_TIME, ident, [row]), Upto(row));
            && w.session == Live(P.Init(ONE_AT_A_TIME, 0, None).(append := P.AEntering(OneRow(row))), None, None)
            && |w.writes| == 1 && w.writes[0].resume.None? && w.confirmed.None?
            && w.before == 0 && w.pending == [] && w.finished == []
  {
    hide Run, OPENING;
    var w := Fresh(ONE_AT_A_TIME, ident, [row]);
    Opened(ident, [row]);
    T.RunSplit(w, OPENING, PersistRead(true));
    T.RunSplit(w, OPENING + [PersistRead(true)], WriterStep(P.AppendBegin(OneRow(row))));
    BeginSteps(Run(w, OPENING), row);
  }

  lemma BeginSteps(w: World, row: Row)
    requires w.session == Live(P.Init(ONE_AT_A_TIME, 0, None), None, None) && w.writes == [] && w.confirmed.None?
    requires w.log == [row]
    ensures var b := OneRow(row);
            var t := Next(Next(w, PersistRead(true)), WriterStep(P.AppendBegin(b)));
            && t == w.(session := t.session, writes := t.writes)
            && t.session == Live(P.Init(ONE_AT_A_TIME, 0, None).(append := P.AEntering(b)), None, None)
            && |t.writes| == 1 && t.writes[0].resume.None?
  {
    var u := Next(w, PersistRead(true));
    assert u == w.(writes := [StateWrite(None, w.session.p.w.epoch, w.opens)]);
    assert w.log[0..1] == [row];
    var b, p := OneRow(row), P.Init(ONE_AT_A_TIME, 0, None);
    assert Feeds(u, p, None, P.AppendBegin(b));
    assert P.Next(p, P.AppendBegin(b)) == p.(append := P.AEntering(b));
    hide P.Next, Feeds;
  }

  lemma SomethingQueued(w: World)
    requires Inv(w) && w.session.Live? && w.session.p.announced == 1 && w.before == 0
    requires w.pending == [] && w.finished == []
    ensures w.queue != []
  {
    hide Inv, StreamOk, Objects, Fed, StoreOk, ServerOk, GcOk, QueueOk, RecordsOk, SessionOk, Drains, LiveOk;
    Parts(w);
    S.SessionParts(w, 0, Drains(w.places, 0));
    S.LiveParts(w.ever, w.before, w.log, 0, Drains(w.places, 0), w.session.p, w.session.resume, w.session.persisted);
    if w.queue == [] {
      T.NothingQueued(w);
    }
  }

  /** The request at the head is accepted. */
  lemma Accepted1(w: World)
    requires Inv(w) && w.queue != [] && w.confirmed.None?
    ensures var t := DoSubmit(w, true);
            t.session == w.session && t.writes == w.writes && t.confirmed.Some? && t.opens == w.opens
  {
    hide Inv, StreamOk, Objects, Fed, StoreOk, ServerOk, GcOk, QueueOk, RecordsOk, SessionOk, Drains, Gate, DoSubmit;
    Parts(w);
    S.QueueEmpty(w);
    S.GateVerdict(w, w.places[0]);
    S.SubmitShape(w, true, w.places[0]);
  }

  lemma SecondRead(w: World)
    requires w.session.Live? && !w.session.p.fenced && w.session.persisted.None? && w.confirmed.Some?
    ensures var t := DoPersistRead(w, false);
            && t.session == w.session && |t.writes| == |w.writes| + 1 && t.writes[|w.writes|].resume.Some?
            && t.writes[..|w.writes|] == w.writes
  {
  }

  /** The request of the announced file is accepted, and a second state write is prepared. */
  lemma Answered(w: World)
    requires Inv(w) && w.session.Live? && !w.session.p.fenced && w.session.persisted.None?
    requires w.session.p.announced == 1 && w.before == 0 && w.pending == [] && w.finished == []
    requires |w.writes| == 1 && w.writes[0].resume.None? && w.confirmed.None?
    ensures var t := Next(Next(w, Submit(true)), PersistRead(false));
            && t.session == w.session && |t.writes| == 2 && t.writes[0].resume.None? && t.writes[1].resume.Some?
  {
    hide Inv, DoSubmit, DoPersistRead;
    SomethingQueued(w);
    Accepted1(w);
    SecondRead(DoSubmit(w, true));
    var t := DoPersistRead(DoSubmit(w, true), false);
    assert t.writes[0] == t.writes[..1][0];
  }

  /** The run: open, a state write is prepared, one file goes through, its request is answered, a
      second state write is prepared. */
  function Race(row: Row): seq<Event> {
    Upto(row) + Steps(REST) + [Submit(true)] + [PersistRead(false)]
  }

  lemma {:induction false} EventsJoin(w: World, a: seq<Event>, b: seq<Event>)
    ensures Run(w, a + b) == Run(Run(w, a), b)
  {
    hide Next;
    if b == [] {
      assert a + b == a;
    } else {
      var n := |b| - 1;
      assert (a + b)[..|a + b| - 1] == a + b[..n];
      EventsJoin(w, a, b[..n]);
    }
  }

  lemma RaceReached(ident: WriterIdentity, row: Row)
    requires ident.Valid()
    ensures var w := Run(Fresh(ONE_AT_A_TIME, ident, [row]), Race(row));
            && w.session.Live? && !w.session.p.fenced
            && |w.writes| == 2 && w.writes[0].resume.None? && w.writes[1].resume.Some?
  {
    hide Run, Next, Inv, OthersOk, P.Run, P.Init, Steps, REST, Upto;
    var w := Fresh(ONE_AT_A_TIME, ident, [row]);
    Begun(ident, row);
    EventsJoin(w, Upto(row), Steps(REST));
    OnlyInner();
    WriterGoesOn(Run(w, Upto(row)), REST);
    OneAnnounced(row);
    S.RunInv(ONE_AT_A_TIME, ident, [row], Upto(row) + Steps(REST));
    Answered(Run(w, Upto(row) + Steps(REST)));
    T.RunSplit(w, Upto(row) + Steps(REST), Submit(true));
    T.RunSplit(w, Upto(row) + Steps(REST) + [Submit(true)], PersistRead(false));
  }

  lemma OnlyInner()
    ensures Inner(REST)
  {
  }

  /** Two calls of persist_state_if_due in flight together, such as the ticker's and close()'s, can
      land in the wrong order: a run of one session with one row reaches them, and then the recorded
      position moves back. */
  lemma RecordCanMoveBack(ident: WriterIdentity, row: Row) returns (w: World)
    requires ident.Valid()
    ensures T.Reached([row], w)
    ensures var t := Next(w, PersistWrite(1, true, true));
            !AtMost(Recorded(t.state), Recorded(Next(t, PersistWrite(0, true, true)).state))
  {
    hide Run, Race;
    w := Run(Fresh(ONE_AT_A_TIME, ident, [row]), Race(row));
    RaceReached(ident, row);
    OvertakingMovesBack(w, 0, 1, true, true);
  }

  // ---------------------------------------------------------------------
  // a late write of an earlier session
  // ---------------------------------------------------------------------

  const SECOND: seq<Event> := [PersistRead(true), EndSession, Move(0), ReadState, Ask(false)]

  lemma SecondSteps(w: World)
    requires w.session == Live(P.Init(ONE_AT_A_TIME, 0, None), None, None) && w.writes == []
    requires w.state == Some(StateFile(None, 0)) && w.store == []
    ensures var t := Next(Next(Next(Next(Next(w, PersistRead(true)), EndSession), Move(0)), ReadState), Ask(false));
            && t.session == Asked(Some(StateFile(None, 0)), None) && t.store == []
            && |t.writes| == 1 && t.writes[0].epoch == 0
  {
    hide DoPersistRead, P.Init;
    FirstWrite(w);
  }

  lemma FirstWrite(w: World)
    requires w.session == Live(P.Init(ONE_AT_A_TIME, 0, None), None, None) && w.writes == []
    ensures var t := DoPersistRead(w, true);
            && t == w.(writes := t.writes) && |t.writes| == 1 && t.writes[0].epoch == 0
  {
  }

  lemma DecideSecond(w: World)
    requires w.session == Asked(Some(StateFile(None, 0)), None) && w.store == []
    ensures var t := Next(w, DecideEpoch(0));
            t.session.Decided? && t.session.o.epoch == 1 && t.writes == w.writes
  {
    assert FilesOf(w.store) == [];
    assert PlanOf([], None) == Ok(RecoveryPlan(None, [], None));
  }

  /** One process prepares a state write, a second one opens the stream with a higher epoch and writes
      state.json before the first write lands. Some later opening then gets the epoch of the second
      process, or a lower one. */
  lemma EpochCanRepeat(ident: WriterIdentity, log: seq<Row>) returns (w: World, events: seq<Event>)
    requires ident.Valid()
    ensures T.Reached(log, w) && w.session.Decided?
    ensures var u := Run(Next(w, WriteState), events);
            u.session.Decided? && u.session.o.epoch <= w.session.o.epoch
  {
    hide Run, Next, OPENING, T.Reached;
    var a := Fresh(ONE_AT_A_TIME, ident, log);
    Opened(ident, log);
    var b := Run(a, OPENING);
    O.RunFive(b, PersistRead(true), EndSession, Move(0), ReadState, Ask(false));
    SecondSteps(b);
    EventsJoin(a, OPENING, SECOND);
    T.RunSplit(a, OPENING + SECOND, DecideEpoch(0));
    DecideSecond(Run(b, SECOND));
    w := Run(a, OPENING + SECOND + [DecideEpoch(0)]);
    IsReached(ident, log, OPENING + SECOND + [DecideEpoch(0)]);
    events := O.Late(0);
    O.LateWriteLowers(log, w, 0);
  }

  lemma IsReached(ident: WriterIdentity, log: seq<Row>, events: seq<Event>)
    requires ident.Valid()
    ensures T.Reached(log, Run(Fresh(ONE_AT_A_TIME, ident, log), events))
  {
    hide Run;
  }
}
