/** What holds of one stream in every state any sequence of sessions, crashes, reopens, lost
    answers, collection passes and loads can reach. */
module SessionsTheorems {
  import opened Base
  import opened Naming
  import opened Values
  import opened Writer
  import opened Recovery
  import opened Sessions
  import opened SessionsInvariant
  import P = Pipeline
  import I = PipelineInvariant
  import opened SessionsSteps

  // ---------------------------------------------------------------------
  // exactly once
  // ---------------------------------------------------------------------

  function RowsOf(bs: seq<Batch>): seq<Row> {
    if bs == [] then [] else RowsOf(bs[..|bs| - 1]) + bs[|bs| - 1].rows
  }

  /** A feed without gaps spells out the log. */
  lemma {:induction false} FedRows(log: seq<Row>, bs: seq<Batch>)
    requires Fed(log, bs)
    ensures 0 <= Position(bs) <= |log| && RowsOf(bs) == log[..Position(bs)]
  {
    if bs != [] {
      var n := |bs| - 1;
      FedPrefix(log, bs, bs[..n]);
      FedRows(log, bs[..n]);
      assert log[..bs[n].start] + log[bs[n].start..bs[n].end + 1] == log[..bs[n].end + 1];
    }
  }

  predicate Increasing(xs: seq<Sealed>) {
    forall i, j :: 0 <= i < j < |xs| ==> xs[i].file.Serial() < xs[j].file.Serial()
  }

  predicate Below(xs: seq<Sealed>, serial: int) {
    forall i :: 0 <= i < |xs| ==> xs[i].file.Serial() < serial
  }

  lemma {:induction false} KeptIncreasing(xs: seq<Sealed>, skips: seq<bool>, serial: int)
    requires |xs| == |skips| && Increasing(xs) && Below(xs, serial)
    ensures Increasing(Kept(xs, skips)) && Below(Kept(xs, skips), serial)
  {
    if xs != [] {
      var n := |xs| - 1;
      KeptIncreasing(xs[..n], skips[..n], xs[n].file.Serial());
    }
  }

  lemma {:induction false} KeptAll(xs: seq<Sealed>, skips: seq<bool>)
    requires |xs| == |skips| && true !in skips
    ensures Kept(xs, skips) == xs
  {
    if xs != [] {
      var n := |xs| - 1;
      KeptAll(xs[..n], skips[..n]);
    }
  }

  /** Some run of some stream over this log reaches the state. */
  ghost predicate Reached(log: seq<Row>, w: World) {
    exists cfg: P.Settings, ident: WriterIdentity, events: seq<Event> ::
      ident.Valid() && w == Run(Fresh(cfg, ident, log), events)
  }

  lemma ReachedInv(log: seq<Row>, w: World)
    requires Reached(log, w)
    ensures Inv(w) && OthersOk(w) && w.log == log
  {
    hide Inv, OthersOk, Run;
    var cfg: P.Settings, ident: WriterIdentity, events: seq<Event> :|
      ident.Valid() && w == Run(Fresh(cfg, ident, log), events);
    RunInv(cfg, ident, log, events);
    LogStays(cfg, ident, log, events);
  }

  predicate Skipped(w: World) {
    true in w.skips
  }

  /** Files the server has accepted are a prefix of the objects ever put; what was loaded was
      loaded once, in put order; and unless an operator skipped a file, the rows loaded are exactly
      the first rows of the log. */
  lemma ExactlyOnce(log: seq<Row>, w: World)
    requires Reached(log, w)
    ensures w.finished + w.pending <= FilesOf(w.ever)
    ensures |w.loaded| <= |w.finished| && Increasing(w.loaded)
    ensures forall x :: x in w.loaded ==> x in w.ever && x.file in w.finished
    ensures !Skipped(w) ==>
              && FilesOf(w.loaded) == w.finished && 0 <= Position(I.Flat(w.loaded)) <= |log|
              && RowsOf(I.Flat(w.loaded)) == log[..Position(I.Flat(w.loaded))]
  {
    hide Inv, Reached, Skipped;
    ReachedInv(log, w);
    LoadedOnce(w);
    if !Skipped(w) {
      LoadedAll(w);
    }
  }

  lemma {:induction false} LogStays(cfg: P.Settings, ident: WriterIdentity, log: seq<Row>, events: seq<Event>)
    ensures Run(Fresh(cfg, ident, log), events).log == log
    ensures Run(Fresh(cfg, ident, log), events).ident == ident
  {
    hide Next;
    if events != [] {
      LogStays(cfg, ident, log, events[..|events| - 1]);
      StepKeepsLog(Run(Fresh(cfg, ident, log), events[..|events| - 1]), events[|events| - 1]);
    }
  }

  lemma StepKeepsLog(w: World, e: Event)
    ensures Next(w, e).log == w.log && Next(w, e).ident == w.ident
  {
    hide Gate, GcTargets, Without, Lookup, FilesOf, Decide, P.Next, Confirm, Feeds;
  }

  lemma {:induction false} KeptMembers(xs: seq<Sealed>, skips: seq<bool>)
    requires |xs| == |skips|
    ensures |Kept(xs, skips)| <= |xs| && forall x :: x in Kept(xs, skips) ==> x in xs
  {
    if xs != [] {
      KeptMembers(xs[..|xs| - 1], skips[..|xs| - 1]);
    }
  }

  lemma ServerFacts(w: World)
    requires ServerOk(w.ever, w.finished, w.pending, w.skips, w.loaded)
    ensures |w.finished| <= |w.ever| && |w.skips| == |w.finished|
    ensures w.finished + w.pending <= FilesOf(w.ever) && w.finished == FilesOf(w.ever[..|w.finished|])
    ensures w.loaded == Kept(w.ever[..|w.finished|], w.skips)
  {
    hide Kept;
  }

  lemma LoadedOnce(w: World)
    requires Inv(w)
    ensures w.finished + w.pending <= FilesOf(w.ever)
    ensures |w.loaded| <= |w.finished| && Increasing(w.loaded)
    ensures forall x :: x in w.loaded ==> x in w.ever && x.file in w.finished
  {
    hide Inv, Fed, StoreOk, ServerOk, GcOk, QueueOk, RecordsOk, SessionOk, Drains, StreamOk, Objects;
    Parts(w);
    ServerFacts(w);
    var done := w.ever[..|w.finished|];
    ObjectsIncrease(w.ever, |w.finished|);
    KeptIncreasing(done, w.skips, if done == [] then 0 else done[|done| - 1].file.Serial() + 1);
    KeptMembers(done, w.skips);
    forall x | x in done ensures x.file in w.finished {
      var i :| 0 <= i < |done| && done[i] == x;
      assert w.finished[i] == x.file;
    }
  }

  lemma {:induction false} ObjectsIncrease(ever: seq<Sealed>, n: nat)
    requires Objects(ever) && n <= |ever|
    ensures Increasing(ever[..n]) && (n > 0 ==> Below(ever[..n], ever[n - 1].file.Serial() + 1))
  {
    forall i | 0 <= i < n ensures ever[i].file.Serial() <= ever[n - 1].file.Serial() {
    }
  }

  lemma LoadedAll(w: World)
    requires Inv(w) && !Skipped(w)
    ensures FilesOf(w.loaded) == w.finished
    ensures 0 <= Position(I.Flat(w.loaded)) <= |w.log|
    ensures RowsOf(I.Flat(w.loaded)) == w.log[..Position(I.Flat(w.loaded))]
  {
    hide Inv, Fed, StoreOk, ServerOk, GcOk, QueueOk, RecordsOk, SessionOk, Drains, StreamOk, Objects, I.Flat;
    Parts(w);
    ServerFacts(w);
    var done := w.ever[..|w.finished|];
    KeptAll(done, w.skips);
    I.FlatPrefix(w.ever, |w.finished|);
    FedPrefix(w.log, I.Flat(w.ever), I.Flat(done));
    FedRows(w.log, I.Flat(done));
  }

  // ---------------------------------------------------------------------
  // the gate, the loads, garbage collection
  // ---------------------------------------------------------------------

  /** The watermark covers exactly the terminal objects; a request at the head of a queue, of this
      process or of one the stream has left, is swallowed exactly when the server has its file
      already, otherwise it is accepted; the contract is never violated. */
  lemma GateIsExact(log: seq<Row>, w: World)
    requires Reached(log, w)
    ensures !w.violation
    ensures forall i :: 0 <= i < |w.ever| && Watermark(w).Some? ==>
              (w.ever[i].file.Serial() <= Watermark(w).value <==> i < |w.finished|)
    ensures w.queue != [] ==> GateOf(w, w.queue[0])
    ensures forall k :: 0 <= k < |w.others| && w.others[k].queue != [] ==> GateOf(w, w.others[k].queue[0])
  {
    hide Inv, Reached, GateOf, OthersOk;
    ReachedInv(log, w);
    hide Fed, StoreOk, ServerOk, GcOk, QueueOk, RecordsOk, SessionOk, Drains, StreamOk, Objects, Gate, Watermark;
    Parts(w);
    WatermarkIsTerminal(w);
    WatermarkCovers(w);
    QueueEmpty(w);
    if w.queue != [] {
      HeadVerdict(w, w.places[0]);
    }
    forall k | 0 <= k < |w.others| && w.others[k].queue != [] ensures GateOf(w, w.others[k].queue[0]) {
      HeadElsewhere(w, k);
      HeadVerdict(w, w.others[k].places[0]);
    }
  }

  predicate GateOf(w: World, f: StagedFile) {
    Gate(w, f) == if f in w.finished || f in w.pending then Idempotent else Accepted
  }

  lemma HeadVerdict(w: World, place: nat)
    requires w.ident.Valid() && Objects(w.ever) && ServerOk(w.ever, w.finished, w.pending, w.skips, w.loaded)
    requires place < |w.ever| && place <= OwnedBy(w)
    ensures GateOf(w, w.ever[place].file)
  {
    hide Objects, ServerOk, Gate;
    GateVerdict(w, place);
    HeadIsNew(w, place);
    if w.ever[place].file in w.finished || w.ever[place].file in w.pending {
      KnownIsIdempotent(w, w.ever[place].file);
    }
  }

  lemma WatermarkCovers(w: World)
    requires Objects(w.ever) && ServerOk(w.ever, w.finished, w.pending, w.skips, w.loaded)
    ensures forall i :: 0 <= i < |w.ever| && Watermark(w).Some? ==>
              (w.ever[i].file.Serial() <= Watermark(w).value <==> i < |w.finished|)
  {
    hide Kept, I.WellCut;
    if w.finished != [] {
      FilesNth(w.ever, 0, w.finished, |w.finished| - 1);
    }
  }

  lemma HeadIsNew(w: World, place: nat)
    requires Objects(w.ever) && ServerOk(w.ever, w.finished, w.pending, w.skips, w.loaded) && place < |w.ever|
    ensures place < OwnedBy(w) ==> w.ever[place].file in w.finished || w.ever[place].file in w.pending
  {
    hide Kept, I.WellCut;
    if place < |w.finished| {
      FilesNth(w.ever, 0, w.finished, place);
    } else if place < OwnedBy(w) {
      FilesNth(w.ever, |w.finished|, w.pending, place - |w.finished|);
    }
  }

  /** Storage holds the newest objects without a gap, only objects of terminal jobs are gone, and
      every job still to run finds its object. */
  lemma NothingNeededIsCollected(log: seq<Row>, w: World)
    requires Reached(log, w)
    ensures w.gone <= |w.finished| && w.gone <= |w.ever| && w.store == w.ever[w.gone..]
    ensures w.ever != [] ==> w.store != []
    ensures forall i :: 0 <= i < |w.pending| ==>
              |w.finished| + i < |w.ever| && Lookup(w.store, w.pending[i]) == Some(w.ever[|w.finished| + i])
  {
    hide Inv, Reached;
    ReachedInv(log, w);
    hide Fed, GcOk, QueueOk, RecordsOk, SessionOk, Drains, StreamOk, Objects, Lookup;
    Parts(w);
    forall i | 0 <= i < |w.pending|
      ensures |w.finished| + i < |w.ever| && Lookup(w.store, w.pending[i]) == Some(w.ever[|w.finished| + i])
    {
      NextJobIsStored(w.ever, w.store, w.gone, w.finished, w.pending, i);
    }
  }

  // ---------------------------------------------------------------------
  // resuming
  // ---------------------------------------------------------------------

  /** However the sessions before ended, an opening resumes one past the end of the last object
      ever put, nowhere if there is none; the rows before that point are all in objects; and
      its epoch is larger than that of any object. */
  lemma ExactResume(log: seq<Row>, w: World)
    requires Reached(log, w) && w.session.Decided?
    ensures var o := w.session.o;
            && o.resume == (if w.ever == [] then None else Some(w.ever[|w.ever| - 1].file.end + 1))
            && (o.resume.Some? ==> 0 <= o.resume.value <= |log| && RowsOf(I.Flat(w.ever)) == log[..o.resume.value])
            && (forall i :: 0 <= i < |w.ever| ==> w.ever[i].file.epoch < o.epoch)
  {
    hide Inv, Reached;
    ReachedInv(log, w);
    hide Fed, GcOk, QueueOk, RecordsOk, SessionOk, Drains, StreamOk, Objects, I.Flat, OpeningOk, StoreOk, ServerOk;
    Parts(w);
    SessionParts(w, OwnedBy(w), Drains(w.places, OwnedBy(w)));
    OpeningFacts(w.ever, OwnedBy(w), Drains(w.places, OwnedBy(w)), w.session.o);
    PositionOfObjects(w.ever);
    FedRows(log, I.Flat(w.ever));
  }

  lemma OpeningFacts(ever: seq<Sealed>, owned: nat, drains: nat, o: Opening)
    requires OpeningOk(ever, owned, drains, o, o.backfill)
    ensures o.resume == ResumeAfter(ever) && EpochAbove(ever, o.epoch)
  {
  }

  /** Serial seqs rise strictly and offsets follow on without a gap over all objects ever put, by
      whichever session, whatever the clocks said and whatever was collected. */
  lemma SerialsRise(log: seq<Row>, w: World)
    requires Reached(log, w)
    ensures forall i, j :: 0 <= i < j < |w.ever| ==>
              w.ever[i].file.Serial() < w.ever[j].file.Serial() && w.ever[i].file.end < w.ever[j].file.start
    ensures Fed(log, I.Flat(w.ever))
  {
    hide Inv, Reached;
    ReachedInv(log, w);
    hide Fed, GcOk, QueueOk, RecordsOk, SessionOk, Drains, StreamOk, I.Flat, StoreOk, ServerOk;
    Parts(w);
  }

  /** state.json never leads what the server has accepted. */
  lemma StateNeverLeads(log: seq<Row>, w: World)
    requires Reached(log, w) && w.state.Some? && w.state.value.resume.Some?
    ensures exists f :: (f in w.finished || f in w.pending) && w.state.value.resume.value <= f.end
  {
    hide Inv, Reached;
    ReachedInv(log, w);
    hide Fed, GcOk, QueueOk, SessionOk, Drains, StreamOk, StoreOk, ServerOk, I.Flat;
    Parts(w);
    HeadIsNew(w, OwnedBy(w) - 1);
  }

  // ---------------------------------------------------------------------
  // nothing is stranded
  // ---------------------------------------------------------------------

  function Times(e: Event, n: nat): seq<Event> {
    if n == 0 then [] else Times(e, n - 1) + [e]
  }

  lemma RunSplit(w: World, a: seq<Event>, e: Event)
    ensures Run(w, a + [e]) == Next(Run(w, a), e)
  {
    assert (a + [e])[..|a|] == a;
  }

  lemma AnsweredPops(w: World)
    requires Inv(w) && w.queue != []
    ensures var t := Next(w, Submit(true));
            && Inv(t) && t.queue == w.queue[1..] && t.ever == w.ever && t.before == w.before
            && t.session == w.session && t.skips == w.skips && t.log == w.log
            && Drains(t.places, OwnedBy(t)) == Drains(w.places, OwnedBy(w))
  {
    hide Inv, StreamOk, Objects, Fed, StoreOk, ServerOk, GcOk, QueueOk, RecordsOk, SessionOk, Drains, Gate, Owned,
      DoSubmit, Confirm;
    KeepSubmit(w, true);
    Parts(w);
    QueueEmpty(w);
    GateVerdict(w, w.places[0]);
    SubmitShape(w, true, w.places[0]);
    QueueAfterSubmit(w.ever, w.queue, w.places, OwnedBy(w));
  }

  /** Answered submissions empty the queue. */
  lemma {:induction false} QueueDrains(w: World, n: nat)
    requires Inv(w) && n <= |w.queue|
    ensures var t := Run(w, Times(Submit(true), n));
            && Inv(t) && t.queue == w.queue[n..] && t.ever == w.ever && t.before == w.before
            && t.session == w.session && t.skips == w.skips && t.log == w.log
            && Drains(t.places, OwnedBy(t)) == Drains(w.places, OwnedBy(w))
  {
    hide Inv, Next, Drains;
    if n > 0 {
      QueueDrains(w, n - 1);
      RunSplit(w, Times(Submit(true), n - 1), Submit(true));
      AnsweredPops(Run(w, Times(Submit(true), n - 1)));
    }
  }

  lemma NothingQueued(w: World)
    requires QueueOk(w.ever, w.queue, w.places, OwnedBy(w)) && w.queue == []
    ensures Drains(w.places, OwnedBy(w)) == OwnedBy(w)
  {
  }

  lemma FinishLoads(w: World)
    requires Inv(w) && w.pending != []
    ensures var t := Next(w, Finish(0, false));
            && Inv(t) && |t.pending| == |w.pending| - 1 && |t.finished| == |w.finished| + 1
            && t.ever == w.ever && t.skips == w.skips + [false]
  {
    hide Inv, StreamOk, Objects, Fed, StoreOk, ServerOk, GcOk, QueueOk, RecordsOk, SessionOk, Drains;
    KeepFinish(w, 0, false);
    Parts(w);
    FirstFinishes(w);
  }

  lemma FirstFinishes(w: World)
    requires Objects(w.ever) && StoreOk(w.ever, w.store, w.gone, |w.finished|) && w.pending != []
    requires ServerOk(w.ever, w.finished, w.pending, w.skips, w.loaded)
    ensures var t := DoFinish(w, 0, false);
            && t.pending == w.pending[1..] && t.finished == w.finished + [w.pending[0]]
            && t.ever == w.ever && t.skips == w.skips + [false]
  {
    NextJobIsStored(w.ever, w.store, w.gone, w.finished, w.pending, 0);
    forall j | 0 < j < |w.pending| ensures w.pending[0].Serial() < w.pending[j].Serial() {
      FirstJobFirst(w.ever, |w.finished|, w.pending, j);
    }
    hide Objects, StoreOk, ServerOk, Lookup;
    assert w.pending[..0] + w.pending[1..] == w.pending[1..];
  }

  lemma {:induction false} JobsFinish(w: World, n: nat)
    requires Inv(w) && n <= |w.pending|
    ensures var t := Run(w, Times(Finish(0, false), n));
            && Inv(t) && |t.pending| == |w.pending| - n && |t.finished| == |w.finished| + n
            && t.ever == w.ever && (true !in w.skips ==> true !in t.skips)
  {
    hide Inv, Next;
    if n > 0 {
      JobsFinish(w, n - 1);
      RunSplit(w, Times(Finish(0, false), n - 1), Finish(0, false));
      FinishLoads(Run(w, Times(Finish(0, false), n - 1)));
    }
  }

  /** The queue gets all its answers, then the server works off all its jobs. */
  function Settled(w: World): World {
    var t := Run(w, Times(Submit(true), |w.queue|));
    Run(t, Times(Finish(0, false), |t.pending|))
  }

  /** From any state a live session can be in, with any history of crashes before it: once the
      notify queue gets its answers and the server works off its jobs, every object of earlier
      sessions and every object this one has announced is terminal, and if nothing was skipped
      exactly these objects have been loaded. */
  lemma NothingStranded(log: seq<Row>, w: World)
    requires Reached(log, w) && w.session.Live?
    ensures w.before + w.session.p.announced <= |w.ever|
    ensures Settled(w).finished == FilesOf(w.ever[..w.before + w.session.p.announced])
    ensures !Skipped(w) ==> Settled(w).loaded == w.ever[..w.before + w.session.p.announced]
  {
    hide Inv, Reached, Run, Next, Drains, QueueOk, StreamOk, Objects, Fed, StoreOk, ServerOk, GcOk, RecordsOk,
      SessionOk, LiveOk, I.Inv;
    ReachedInv(log, w);
    QueueDrains(w, |w.queue|);
    var t := Run(w, Times(Submit(true), |w.queue|));
    Parts(t);
    NothingQueued(t);
    Parts(w);
    SessionParts(w, OwnedBy(w), Drains(w.places, OwnedBy(w)));
    LiveParts(w.ever, w.before, w.log, OwnedBy(w), Drains(w.places, OwnedBy(w)), w.session.p, w.session.resume,
              w.session.persisted);
    assert OwnedBy(t) == w.before + w.session.p.announced;
    JobsFinish(t, |t.pending|);
    var u := Run(t, Times(Finish(0, false), |t.pending|));
    Parts(u);
    ServerFacts(u);
    if !Skipped(w) {
      KeptAll(u.ever[..|u.finished|], u.skips);
    }
  }

  // ---------------------------------------------------------------------
  // offsets a caller may commit
  // ---------------------------------------------------------------------

  /** Recording objects one by one on top of where the session started leaves the last one's end. */
  lemma {:induction false} StagedIsLast(ever: seq<Sealed>, before: nat, n: nat)
    requires Objects(ever) && before + n <= |ever|
    ensures I.StagedAfter(StagedBefore(ResumeAfter(ever[..before])), ever[before..before + n])
         == StagedBefore(ResumeAfter(ever[..before + n]))
  {
    hide Objects, ResumeAfter, StagedBefore;
    var xs, base := ever[before..before + n], StagedBefore(ResumeAfter(ever[..before]));
    if n == 0 {
      assert xs == [];
    } else {
      StagedIsLast(ever, before, n - 1);
      assert xs[..n - 1] == ever[before..before + (n - 1)] && xs[..n] == xs;
      assert xs[n - 1] == ever[before + n - 1];
      hide I.StagedAfter;
      I.StagedAfterSnoc(base, xs, n - 1);
      LastStaged(ever, before + n - 1);
    }
  }

  /** Ends rise, so the last object's is the staged offset. */
  lemma LastStaged(ever: seq<Sealed>, i: nat)
    requires Objects(ever) && i < |ever|
    ensures StagedBefore(ResumeAfter(ever[..i + 1])) == Some(ever[i].file.end)
    ensures var p := StagedBefore(ResumeAfter(ever[..i])); p.Some? ==> p.value < ever[i].file.end
  {
    hide I.WellCut;
    if i > 0 {
      assert ever[i - 1].file.end < ever[i].file.start;
    }
  }

  lemma RecordedPrefix(q: P.State)
    requires I.Inv(q)
    ensures var n := I.RecordedCount(q.done, q.put);
            n <= |q.stored| && q.w.staged == I.StagedAfter(q.base, q.stored[..n])
  {
    var n := I.RecordedCount(q.done, q.put);
    assert q.stored[..n] == q.cut[..n];
  }

  /** The staged offset of a live writer is the end of an object on storage, and everything up to it
      is in objects: a crash at any later point resumes behind it, so offsets up to it can be
      committed. */
  lemma StagedIsSafe(log: seq<Row>, w: World)
    requires Reached(log, w) && w.session.Live? && w.session.p.w.staged.Some?
    ensures var staged := w.session.p.w.staged.value;
            exists n :: 0 < n <= |w.ever| && staged == w.ever[n - 1].file.end && 0 <= staged < |log| &&
                        RowsOf(I.Flat(w.ever[..n])) == log[..staged + 1]
  {
    hide Inv, Reached, Drains, QueueOk, StreamOk, Fed, StoreOk, ServerOk, GcOk, RecordsOk, SessionOk, LiveOk, I.Inv,
      Objects, RowsOf, I.Flat, I.StagedAfter;
    ReachedInv(log, w);
    Parts(w);
    var n := StagedPlace(log, w);
    ObjectsPrefix(w.ever, n);
    PositionOfObjects(w.ever[..n]);
    I.FlatPrefix(w.ever, n);
    FedPrefix(log, I.Flat(w.ever), I.Flat(w.ever[..n]));
    FedRows(log, I.Flat(w.ever[..n]));
    ObjectEnd(w.ever, n - 1);
  }

  /** The object whose end is the staged offset. */
  lemma StagedPlace(log: seq<Row>, w: World) returns (n: nat)
    requires Reached(log, w) && w.session.Live? && w.session.p.w.staged.Some?
    ensures 0 < n <= |w.ever| && w.session.p.w.staged.value == w.ever[n - 1].file.end
  {
    hide Inv, Reached, Drains, QueueOk, Fed, StoreOk, ServerOk, GcOk, RecordsOk, SessionOk, LiveOk, I.Inv,
      Objects, RowsOf, I.Flat, I.StagedAfter;
    ReachedInv(log, w);
    Parts(w);
    SessionParts(w, OwnedBy(w), Drains(w.places, OwnedBy(w)));
    LiveParts(w.ever, w.before, w.log, OwnedBy(w), Drains(w.places, OwnedBy(w)), w.session.p, w.session.resume,
              w.session.persisted);
    RecordedPrefix(w.session.p);
    var k := I.RecordedCount(w.session.p.done, w.session.p.put);
    n := w.before + k;
    assert w.ever[w.before..n] == w.session.p.stored[..k];
    StagedIsLast(w.ever, w.before, k);
    assert w.session.p.w.staged == StagedBefore(ResumeAfter(w.ever[..n]));
  }

  lemma ObjectEnd(ever: seq<Sealed>, i: nat)
    requires Objects(ever) && i < |ever|
    ensures 0 <= ever[i].file.end
  {
    assert ever[i].file.Encodable();
  }
}
