/** Every event of a stream keeps the invariant. */
module SessionsSteps {
  import opened Base
  import opened Naming
  import opened Values
  import opened Writer
  import opened Recovery
  import opened Sessions
  import opened SessionsInvariant
  import P = Pipeline
  import I = PipelineInvariant
  import E = PipelineEffects
  import T = PipelineTheorems
  import PipelineSteps

  lemma FreshInv(cfg: P.Settings, ident: WriterIdentity, log: seq<Row>)
    requires ident.Valid()
    ensures Inv(Fresh(cfg, ident, log)) && OthersOk(Fresh(cfg, ident, log))
  {
  }

  // ---------------------------------------------------------------------
  // the queue
  // ---------------------------------------------------------------------

  lemma {:induction false} DrainsAtLeast(places: seq<nat>, owned: nat)
    ensures owned <= Drains(places, owned)
  {
    if places != [] {
      DrainsAtLeast(places[..|places| - 1], owned);
    }
  }

  lemma {:induction false} DrainsMonotone(places: seq<nat>, a: nat, b: nat)
    requires a <= b
    ensures Drains(places, a) <= Drains(places, b)
  {
    if places != [] {
      DrainsMonotone(places[..|places| - 1], a, b);
    }
  }

  lemma InOrderMonotone(places: seq<nat>, a: nat, b: nat)
    requires a <= b && InOrder(places, a)
    ensures InOrder(places, b)
  {
    forall k | 0 <= k < |places| ensures places[k] <= Drains(places[..k], b) {
      DrainsMonotone(places[..k], a, b);
    }
  }

  /** Owning the head's file changes nothing about where the queue leads. */
  lemma {:induction false} DrainsHead(places: seq<nat>, owned: nat)
    requires places != [] && places[0] <= owned
    ensures Drains(places, owned) == Drains(places, if places[0] < owned then owned else owned + 1)
    ensures Drains(places, owned) == Drains(places[1..], if places[0] < owned then owned else owned + 1)
  {
    var n := |places| - 1;
    var next := if places[0] < owned then owned else owned + 1;
    if n == 0 {
      assert Drains(places[..n], owned) == owned && Drains(places[..n], next) == next;
      assert places[1..] == [];
    } else {
      DrainsHead(places[..n], owned);
      assert places[..n][1..] == places[1..][..n - 1];
    }
  }

  lemma InOrderTail(places: seq<nat>, owned: nat)
    requires places != [] && InOrder(places, owned)
    ensures places[0] <= owned
    ensures InOrder(places[1..], if places[0] < owned then owned else owned + 1)
  {
    assert places[0] <= Drains(places[..0], owned);
    var next := if places[0] < owned then owned else owned + 1;
    forall k | 0 <= k < |places| - 1 ensures places[1..][k] <= Drains(places[1..][..k], next) {
      DrainsHead(places[..k + 1], owned);
      assert places[..k + 1][1..] == places[1..][..k];
      assert places[k + 1] <= Drains(places[..k + 1], owned);
    }
  }

  /** A request for the next file the queue leads to, or an earlier one, joins the queue. */
  lemma QueueSnoc(ever: seq<Sealed>, queue: seq<StagedFile>, places: seq<nat>, owned: nat, place: nat, f: StagedFile)
    requires QueueOk(ever, queue, places, owned)
    requires place <= Drains(places, owned) && place < |ever| && f == ever[place].file
    ensures QueueOk(ever, queue + [f], places + [place], owned)
    ensures var d := Drains(places, owned); Drains(places + [place], owned) == if place < d then d else place + 1
  {
    var more := places + [place];
    assert more[..|places|] == places;
    forall k | 0 <= k < |more| ensures more[k] <= Drains(more[..k], owned) {
      assert more[..k] == places[..k];
      if k == |places| { assert places[..k] == places; }
    }
  }

  lemma QueueGrows(ever: seq<Sealed>, x: Sealed, queue: seq<StagedFile>, places: seq<nat>, owned: nat)
    requires QueueOk(ever, queue, places, owned)
    ensures QueueOk(ever + [x], queue, places, owned)
  {
  }

  // ---------------------------------------------------------------------
  // growing what the server owns
  // ---------------------------------------------------------------------

  lemma OwnedMore(ever: seq<Sealed>, a: nat, b: nat, r: Option<int>)
    requires Objects(ever) && a <= b <= |ever| && Owned(ever, a, r)
    ensures Owned(ever, b, r)
  {
  }

  lemma RecordsMore(ever: seq<Sealed>, a: nat, b: nat, state: Option<StateFile>, confirmed: Option<(int, int)>,
      writes: seq<StateWrite>)
    requires Objects(ever) && a <= b <= |ever| && RecordsOk(ever, a, state, confirmed, writes)
    ensures RecordsOk(ever, b, state, confirmed, writes)
  {
    OwnedMore(ever, a, b, Recorded(state));
    OwnedMore(ever, a, b, ConfirmedEnd(confirmed));
    forall i | 0 <= i < |writes| ensures Owned(ever, b, writes[i].resume) {
      OwnedMore(ever, a, b, writes[i].resume);
    }
  }

  /** The session does not mind the server owning more, as long as the queue leads no less far. */
  lemma SessionMore(w: World, t: World, a: nat, b: nat, d: nat, e: nat)
    requires Objects(w.ever) && a <= b <= |w.ever| && SessionOk(w, a, d)
    requires d <= e && (w.session.Live? ==> d == e)
    requires t.session == w.session && t.ever == w.ever && t.before == w.before && t.log == w.log
    requires |w.finished| <= |t.finished|
    ensures SessionOk(t, b, e)
  {
    match w.session
    case Closed =>
    case Reading(state) => OwnedMore(w.ever, a, b, Recorded(state));
    case Asked(state, _) => OwnedMore(w.ever, a, b, Recorded(state));
    case Decided(o) => OwnedMore(w.ever, a, b, o.newState.resume);
    case Notifying(o, left) => OwnedMore(w.ever, a, b, o.newState.resume);
    case Live(p, resume, persisted) =>
      hide I.Inv, EpochAbove, Fed, I.Flat;
      OwnedMore(w.ever, a, b, persisted);
  }

  // ---------------------------------------------------------------------
  // the gate
  // ---------------------------------------------------------------------

  lemma FilesNth(ever: seq<Sealed>, from: nat, fs: seq<StagedFile>, i: nat)
    requires Files(ever, from, fs) && i < |fs|
    ensures from + i < |ever| && fs[i] == ever[from + i].file
  {
  }

  /** Two objects with one identifier are one object. */
  lemma IdentifierDistinct(ever: seq<Sealed>, ident: WriterIdentity, i: nat, j: nat)
    requires Objects(ever) && ident.Valid() && i < j < |ever|
    ensures ever[i].file.IdentifierText(ident) != ever[j].file.IdentifierText(ident)
  {
    IdentifierIsGroupAndSerial(ever[i].file, ident, ever[j].file, ident);
  }

  lemma KnownIsIdempotent(w: World, f: StagedFile)
    requires f in w.finished || f in w.pending
    ensures Gate(w, f) == Idempotent
  {
    hide StagedFile.IdentifierText;
    if f in w.finished {
      var i :| 0 <= i < |w.finished| && w.finished[i] == f;
      assert Knows(w, w.finished, f);
    } else {
      var i :| 0 <= i < |w.pending| && w.pending[i] == f;
      assert Knows(w, w.pending, f);
    }
  }

  /** A request for an object the server owns is swallowed, one for the next object is taken, and
      nothing violates the contract. */
  lemma GateVerdict(w: World, place: nat)
    requires w.ident.Valid() && Objects(w.ever) && ServerOk(w.ever, w.finished, w.pending, w.skips, w.loaded)
    requires place < |w.ever| && place <= OwnedBy(w)
    ensures Gate(w, w.ever[place].file) == if place < OwnedBy(w) then Idempotent else Accepted
  {
    hide Gate, Objects;
    if place < |w.finished| {
      FilesNth(w.ever, 0, w.finished, place);
      KnownIsIdempotent(w, w.finished[place]);
    } else if place < OwnedBy(w) {
      FilesNth(w.ever, |w.finished|, w.pending, place - |w.finished|);
      KnownIsIdempotent(w, w.pending[place - |w.finished|]);
    } else {
      NextIsNew(w, place);
    }
  }

  /** Jobs for earlier objects have other identifiers and smaller seqs. */
  lemma EarlierJobs(ever: seq<Sealed>, ident: WriterIdentity, from: nat, jobs: seq<StagedFile>, place: nat)
    requires Objects(ever) && ident.Valid() && Files(ever, from, jobs) && from + |jobs| <= place < |ever|
    ensures forall i :: 0 <= i < |jobs| ==>
              jobs[i].IdentifierText(ident) != ever[place].file.IdentifierText(ident) &&
              jobs[i].Serial() < ever[place].file.Serial()
  {
    hide StagedFile.IdentifierText;
    forall i | 0 <= i < |jobs|
      ensures jobs[i].IdentifierText(ident) != ever[place].file.IdentifierText(ident) &&
              jobs[i].Serial() < ever[place].file.Serial()
    {
      FilesNth(ever, from, jobs, i);
      IdentifierDistinct(ever, ident, from + i, place);
    }
  }

  lemma NextIsNew(w: World, place: nat)
    requires w.ident.Valid() && Objects(w.ever) && ServerOk(w.ever, w.finished, w.pending, w.skips, w.loaded)
    requires place < |w.ever| && place == OwnedBy(w)
    ensures Gate(w, w.ever[place].file) == Accepted
  {
    EarlierJobs(w.ever, w.ident, 0, w.finished, place);
    EarlierJobs(w.ever, w.ident, |w.finished|, w.pending, place);
    EarlierAreAccepted(w, w.ever[place].file);
  }

  lemma EarlierAreAccepted(w: World, f: StagedFile)
    requires forall i :: 0 <= i < |w.finished| ==>
               w.finished[i].IdentifierText(w.ident) != f.IdentifierText(w.ident) && w.finished[i].Serial() < f.Serial()
    requires forall i :: 0 <= i < |w.pending| ==>
               w.pending[i].IdentifierText(w.ident) != f.IdentifierText(w.ident) && w.pending[i].Serial() < f.Serial()
    ensures Gate(w, f) == Accepted
  {
  }

  // ---------------------------------------------------------------------
  // the notify loop and the server
  // ---------------------------------------------------------------------

  lemma AppendJob(ever: seq<Sealed>, finished: seq<StagedFile>, pending: seq<StagedFile>, skips: seq<bool>,
      loaded: seq<Sealed>)
    requires ServerOk(ever, finished, pending, skips, loaded)
    requires |finished| + |pending| < |ever|
    ensures ServerOk(ever, finished, pending + [ever[|finished| + |pending|].file], skips, loaded)
  {
  }

  lemma KeepSubmit(w: World, answered: bool)
    requires Inv(w)
    ensures Inv(DoSubmit(w, answered))
  {
    hide Inv, StreamOk, Objects, Fed, StoreOk, ServerOk, GcOk, QueueOk, RecordsOk, SessionOk, Drains, Gate, Owned,
      DoSubmit;
    Parts(w);
    QueueEmpty(w);
    if w.queue == [] {
      NothingToSubmit(w, answered);
    } else {
      SubmitHead(w, answered);
    }
  }

  lemma QueueEmpty(w: World)
    requires QueueOk(w.ever, w.queue, w.places, OwnedBy(w))
    ensures w.queue == [] <==> w.places == []
    ensures w.queue != [] ==>
              w.places[0] < |w.ever| && w.places[0] <= OwnedBy(w) && w.queue[0] == w.ever[w.places[0]].file
  {
    hide Drains;
    if w.queue != [] { InOrderTail(w.places, OwnedBy(w)); }
  }

  lemma NothingToSubmit(w: World, answered: bool)
    requires w.queue == []
    ensures DoSubmit(w, answered) == w
  {
  }

  lemma SubmitHead(w: World, answered: bool)
    requires Inv(w) && w.queue != []
    ensures Inv(DoSubmit(w, answered))
  {
    hide Inv, StreamOk, Objects, Fed, StoreOk, ServerOk, GcOk, QueueOk, RecordsOk, SessionOk, Drains, Gate, Owned,
      DoSubmit, Confirm;
    Parts(w);
    QueueEmpty(w);
    var place, a := w.places[0], OwnedBy(w);
    var b := if place < a then a else a + 1;
    var t := DoSubmit(w, answered);
    GateVerdict(w, place);
    SubmitShape(w, answered, place);
    assert OwnedBy(t) == b;
    if place == a {
      AppendJob(w.ever, w.finished, w.pending, w.skips, w.loaded);
    }
    RecordsMore(w.ever, a, b, w.state, w.confirmed, w.writes);
    QueueAfterSubmit(w.ever, w.queue, w.places, a);
    SessionMore(w, t, a, b, Drains(w.places, a), Drains(w.places, a));
    if answered {
      ConfirmedIsOwned(w.ever, place, b, w.state, w.confirmed, w.writes);
    }
    Join(t);
  }

  /** What a submission leaves behind, once the gate's verdict is known. */
  lemma SubmitShape(w: World, answered: bool, place: nat)
    requires w.queue != [] && w.places != [] && place < |w.ever| && w.queue[0] == w.ever[place].file
    requires Gate(w, w.ever[place].file) == if place < OwnedBy(w) then Idempotent else Accepted
    ensures var t := DoSubmit(w, answered);
            var f := w.ever[place].file;
            t == w.(pending := if place < OwnedBy(w) then w.pending else w.pending + [f],
                    queue := if answered then w.queue[1..] else w.queue,
                    places := if answered then w.places[1..] else w.places,
                    confirmed := if answered then Confirm(w.confirmed, f) else w.confirmed)
  {
    hide Gate, Confirm;
  }

  lemma QueueAfterSubmit(ever: seq<Sealed>, queue: seq<StagedFile>, places: seq<nat>, a: nat)
    requires QueueOk(ever, queue, places, a) && places != []
    ensures var b := if places[0] < a then a else a + 1;
            && QueueOk(ever, queue, places, b) && QueueOk(ever, queue[1..], places[1..], b)
            && Drains(places, b) == Drains(places, a) == Drains(places[1..], b)
  {
    hide Drains, InOrder;
    InOrderTail(places, a);
    DrainsHead(places, a);
    InOrderMonotone(places, a, if places[0] < a then a else a + 1);
  }

  lemma ConfirmedIsOwned(ever: seq<Sealed>, place: nat, owned: nat, state: Option<StateFile>,
                         confirmed: Option<(int, int)>, writes: seq<StateWrite>)
    requires Objects(ever) && place < owned <= |ever| && RecordsOk(ever, owned, state, confirmed, writes)
    ensures RecordsOk(ever, owned, state, Confirm(confirmed, ever[place].file), writes)
  {
  }

  // ---------------------------------------------------------------------
  // jobs becoming terminal
  // ---------------------------------------------------------------------

  lemma {:induction false} LookupFinds(store: seq<Sealed>, i: nat)
    requires i < |store| && forall j, k :: 0 <= j < k < |store| ==> store[j].file != store[k].file
    ensures Lookup(store, store[i].file) == Some(store[i])
  {
    if i < |store| - 1 {
      LookupFinds(store[..|store| - 1], i);
    }
  }

  lemma FilesDiffer(ever: seq<Sealed>, gone: nat)
    requires Objects(ever) && gone <= |ever|
    ensures forall j, k :: 0 <= j < k < |ever[gone..]| ==> ever[gone..][j].file != ever[gone..][k].file
  {
    forall j, k | 0 <= j < k < |ever[gone..]| ensures ever[gone..][j].file != ever[gone..][k].file {
      assert ever[gone + j].file.Serial() < ever[gone + k].file.Serial();
    }
  }

  /** The object of the job next in line is on storage: no load ever misses its object. */
  lemma NextJobIsStored(ever: seq<Sealed>, store: seq<Sealed>, gone: nat, finished: seq<StagedFile>,
                        pending: seq<StagedFile>, i: nat)
    requires Objects(ever) && StoreOk(ever, store, gone, |finished|) && Files(ever, |finished|, pending)
    requires i < |pending|
    ensures |finished| + i < |ever| && pending[i] == ever[|finished| + i].file
    ensures Lookup(store, pending[i]) == Some(ever[|finished| + i])
  {
    FilesDiffer(ever, gone);
    hide Objects;
    LookupFinds(store, |finished| + i - gone);
  }

  lemma FirstJobFirst(ever: seq<Sealed>, from: nat, pending: seq<StagedFile>, i: nat)
    requires Objects(ever) && Files(ever, from, pending) && 0 < i < |pending|
    ensures pending[0].Serial() < pending[i].Serial()
  {
    FilesNth(ever, from, pending, 0);
    FilesNth(ever, from, pending, i);
    hide Files;
  }

  lemma FinishFirst(w: World, skip: bool)
    requires Objects(w.ever) && ServerOk(w.ever, w.finished, w.pending, w.skips, w.loaded) && w.pending != []
    ensures var n := |w.finished|;
            n < |w.ever| &&
            ServerOk(w.ever, w.finished + [w.pending[0]], w.pending[1..], w.skips + [skip],
                     if skip then w.loaded else w.loaded + [w.ever[n]])
  {
    hide Objects;
    var n := |w.finished|;
    assert w.ever[..n + 1][..n] == w.ever[..n];
    assert (w.skips + [skip])[..n] == w.skips;
  }

  lemma FinishShape(w: World, i: nat, skip: bool)
    requires Objects(w.ever) && StoreOk(w.ever, w.store, w.gone, |w.finished|)
    requires ServerOk(w.ever, w.finished, w.pending, w.skips, w.loaded)
    ensures var t := DoFinish(w, i, skip);
            t == w || (w.pending != [] && |w.finished| < |w.ever| &&
              t == w.(pending := w.pending[1..], finished := w.finished + [w.pending[0]], skips := w.skips + [skip],
                      loaded := if skip then w.loaded else w.loaded + [w.ever[|w.finished|]]))
  {
    if i < |w.pending| {
      if i > 0 {
        FirstJobFirst(w.ever, |w.finished|, w.pending, i);
      } else {
        NextJobIsStored(w.ever, w.store, w.gone, w.finished, w.pending, 0);
        hide Objects, StoreOk, ServerOk, Lookup;
        assert w.pending[..0] + w.pending[1..] == w.pending[1..];
      }
    }
  }

  lemma GcMore(ever: seq<Sealed>, gc: seq<GcPass>, store: seq<Sealed>, gone: nat, n: nat)
    requires GcOk(ever, gc, gone, n) && StoreOk(ever, store, gone, n)
    ensures GcOk(ever, gc, gone, n + 1) && StoreOk(ever, store, gone, n + 1)
  {
  }

  lemma KeepFinish(w: World, i: nat, skip: bool)
    requires Inv(w)
    ensures Inv(DoFinish(w, i, skip))
  {
    hide Inv, StreamOk, Objects, Fed, StoreOk, ServerOk, GcOk, QueueOk, RecordsOk, SessionOk, Drains, DoFinish;
    Parts(w);
    FinishShape(w, i, skip);
    var t := DoFinish(w, i, skip);
    if t != w {
      FinishFirst(w, skip);
      GcMore(w.ever, w.gc, w.store, w.gone, |w.finished|);
      var a := OwnedBy(w);
      assert OwnedBy(t) == a;
      SessionMore(w, t, a, a, Drains(w.places, a), Drains(w.places, a));
      Join(t);
    }
  }

  // ---------------------------------------------------------------------
  // state.json
  // ---------------------------------------------------------------------

  lemma PersistReadIsOwned(w: World, heartbeat: bool)
    requires RecordsOk(w.ever, OwnedBy(w), w.state, w.confirmed, w.writes)
    requires w.session.Live? ==> Owned(w.ever, OwnedBy(w), w.session.persisted)
    ensures var t := DoPersistRead(w, heartbeat);
            t == w.(writes := t.writes) && RecordsOk(w.ever, OwnedBy(w), w.state, w.confirmed, t.writes)
  {
  }

  lemma LiveRecords(w: World)
    requires SessionOk(w, OwnedBy(w), Drains(w.places, OwnedBy(w)))
    ensures w.session.Live? ==> Owned(w.ever, OwnedBy(w), w.session.persisted)
  {
    hide I.Inv, Drains;
  }

  /** The session part depends on this much of the world. */
  lemma SessionFrame(w: World, t: World, owned: nat, drains: nat)
    requires SessionOk(w, owned, drains)
    requires t.session == w.session && t.ever == w.ever && t.before == w.before && t.log == w.log
    requires t.finished == w.finished
    ensures SessionOk(t, owned, drains)
  {
    hide WatermarkOk, OpeningOk, LiveOk;
  }

  lemma KeepPersistRead(w: World, heartbeat: bool)
    requires Inv(w)
    ensures Inv(DoPersistRead(w, heartbeat))
  {
    hide Inv, StreamOk, Objects, Fed, StoreOk, ServerOk, GcOk, QueueOk, RecordsOk, SessionOk, Drains, Owned,
      DoPersistRead;
    Parts(w);
    LiveRecords(w);
    PersistReadIsOwned(w, heartbeat);
    var t := DoPersistRead(w, heartbeat);
    SessionFrame(w, t, OwnedBy(w), Drains(w.places, OwnedBy(w)));
    Join(t);
  }

  lemma PersistWriteIsOwned(w: World, i: nat, landed: bool, answered: bool)
    requires RecordsOk(w.ever, OwnedBy(w), w.state, w.confirmed, w.writes)
    ensures var t := DoPersistWrite(w, i, landed, answered);
            && t == w.(writes := t.writes, state := t.state, session := t.session)
            && RecordsOk(w.ever, OwnedBy(w), t.state, w.confirmed, t.writes)
            && (t.session == w.session ||
                 (w.session.Live? &&
                  exists r :: Owned(w.ever, OwnedBy(w), r) && t.session == w.session.(persisted := r)))
  {
    if i < |w.writes| {
      assert Owned(w.ever, OwnedBy(w), w.writes[i].resume);
      var t := DoPersistWrite(w, i, landed, answered);
      assert forall k :: 0 <= k < |t.writes| ==> t.writes[k] == w.writes[if k < i then k else k + 1];
    }
  }

  lemma SessionPersisted(w: World, t: World, r: Option<int>, owned: nat, drains: nat)
    requires SessionOk(w, owned, drains) && w.session.Live? && Owned(w.ever, owned, r)
    requires t.session == w.session.(persisted := r)
    requires t.ever == w.ever && t.before == w.before && t.log == w.log && t.finished == w.finished
    ensures SessionOk(t, owned, drains)
  {
    hide I.Inv, I.Flat, Fed, EpochAbove, Owned;
  }

  lemma KeepPersistWrite(w: World, i: nat, landed: bool, answered: bool)
    requires Inv(w)
    ensures Inv(DoPersistWrite(w, i, landed, answered))
  {
    hide Inv, StreamOk, Objects, Fed, StoreOk, ServerOk, GcOk, QueueOk, RecordsOk, SessionOk, Drains, Owned,
      DoPersistWrite;
    Parts(w);
    PersistWriteIsOwned(w, i, landed, answered);
    var t := DoPersistWrite(w, i, landed, answered);
    var a, d := OwnedBy(w), Drains(w.places, OwnedBy(w));
    if t.session == w.session {
      SessionFrame(w, t, a, d);
    } else {
      var r :| Owned(w.ever, a, r) && t.session == w.session.(persisted := r);
      SessionPersisted(w, t, r, a, d);
    }
    Join(t);
  }

  // ---------------------------------------------------------------------
  // garbage collection
  // ---------------------------------------------------------------------

  /** The listing of what is left is well formed. */
  lemma ListingWellFormed(ever: seq<Sealed>, store: seq<Sealed>, gone: nat, terminal: nat)
    requires Objects(ever) && StoreOk(ever, store, gone, terminal)
    ensures WellFormed(FilesOf(store)) && |FilesOf(store)| == |ever| - gone
    ensures forall i :: 0 <= i < |ever| - gone ==> FilesOf(store)[i] == ever[gone + i].file
    ensures (ever != [] ==> gone < |ever|) && gone <= terminal
  {
    var fs := FilesOf(store);
    assert forall i :: 0 <= i < |fs| ==> fs[i] == ever[gone + i].file;
    forall i, j | 0 <= i < j < |fs| ensures PairLess(fs[i].Key(), fs[j].Key()) && fs[i].end < fs[j].start {
      PackOrder(fs[i].epoch, fs[i].num, fs[j].epoch, fs[j].num);
    }
  }

  lemma GcTargetsAreTerminal(w: World, asOf: nat, now: nat, keep: Retention)
    requires Objects(w.ever) && StoreOk(w.ever, w.store, w.gone, |w.finished|)
    requires ServerOk(w.ever, w.finished, w.pending, w.skips, w.loaded) && 0 < asOf <= |w.finished|
    ensures var targets := GcTargets(FilesOf(w.store), w.finished[asOf - 1].Serial(), now, keep);
            PassOk(w.ever, GcPass(w.gone, targets), w.gone, |w.finished|)
  {
    var fs := FilesOf(w.store);
    var watermark := w.finished[asOf - 1].Serial();
    ListingWellFormed(w.ever, w.store, w.gone, |w.finished|);
    TargetsArePrefix(fs, watermark, now, keep);
    var r := GcTargets(fs, watermark, now, keep);
    hide GcTargets, WellFormed, FilesOf, Kept;
    if r != [] {
      var k := |r| - 1;
      assert r[k] == fs[k] == w.ever[w.gone + k].file;
      assert r[k].Serial() <= watermark == w.ever[asOf - 1].file.Serial();
      assert w.gone + k < asOf;
    }
  }

  lemma PassAdded(ever: seq<Sealed>, gc: seq<GcPass>, pass: GcPass, gone: nat, terminal: nat)
    requires GcOk(ever, gc, gone, terminal) && PassOk(ever, pass, gone, terminal)
    ensures GcOk(ever, gc + [pass], gone, terminal)
  {
    hide PassOk;
  }

  lemma KeepGcStart(w: World, asOf: nat, now: nat, keep: Retention)
    requires Inv(w)
    ensures Inv(DoGcStart(w, asOf, now, keep))
  {
    hide Inv, StreamOk, Objects, Fed, StoreOk, ServerOk, GcOk, QueueOk, RecordsOk, SessionOk, Drains, GcTargets,
      FilesOf;
    Parts(w);
    var t := DoGcStart(w, asOf, now, keep);
    if t != w {
      GcTargetsAreTerminal(w, asOf, now, keep);
      PassAdded(w.ever, w.gc, t.gc[|w.gc|], w.gone, |w.finished|);
      SessionFrame(w, t, OwnedBy(w), Drains(w.places, OwnedBy(w)));
      Join(t);
    }
  }

  lemma {:induction false} WithoutAbsent(store: seq<Sealed>, f: StagedFile)
    requires forall i :: 0 <= i < |store| ==> store[i].file != f
    ensures Without(store, f) == store
  {
    if store != [] {
      WithoutAbsent(store[1..], f);
    }
  }

  lemma DeleteOldest(ever: seq<Sealed>, store: seq<Sealed>, gone: nat, terminal: nat, pass: GcPass)
    requires Objects(ever) && StoreOk(ever, store, gone, terminal) && PassOk(ever, pass, gone, terminal)
    requires pass.targets != [] && pass.from == gone
    ensures Without(store, pass.targets[0]) == store[1..] && |store[1..]| < |store|
    ensures StoreOk(ever, store[1..], gone + 1, terminal)
  {
    FilesDiffer(ever, gone);
    hide Objects;
    assert pass.targets[0] == store[0].file;
    WithoutAbsent(store[1..], pass.targets[0]);
  }

  lemma DeleteGone(ever: seq<Sealed>, store: seq<Sealed>, gone: nat, terminal: nat, pass: GcPass)
    requires Objects(ever) && StoreOk(ever, store, gone, terminal) && PassOk(ever, pass, gone, terminal)
    requires pass.targets != [] && pass.from < gone
    ensures Without(store, pass.targets[0]) == store
  {
    forall i | 0 <= i < |store| ensures store[i].file != pass.targets[0] {
      assert ever[pass.from].file.Serial() < ever[gone + i].file.Serial();
    }
    hide Objects;
    WithoutAbsent(store, pass.targets[0]);
  }

  lemma PassMoves(ever: seq<Sealed>, pass: GcPass, gone: nat, n: nat, terminal: nat)
    requires PassOk(ever, pass, gone, terminal) && pass.targets != [] && pass.from < n
    ensures PassOk(ever, GcPass(pass.from + 1, pass.targets[1..]), n, terminal)
  {
  }

  /** A delete takes exactly the oldest object, or nothing if another pass was faster. */
  lemma DeleteIsFirst(ever: seq<Sealed>, store: seq<Sealed>, gone: nat, terminal: nat, pass: GcPass)
    requires Objects(ever) && StoreOk(ever, store, gone, terminal) && PassOk(ever, pass, gone, terminal)
    requires pass.targets != []
    ensures var left := Without(store, pass.targets[0]);
            var n := if |left| < |store| then gone + 1 else gone;
            && gone <= n && StoreOk(ever, left, n, terminal)
            && PassOk(ever, GcPass(pass.from + 1, pass.targets[1..]), n, terminal)
  {
    PassMoves(ever, pass, gone, if pass.from == gone then gone + 1 else gone, terminal) by { assert pass.from <= gone; }
    hide Objects, StoreOk, Without;
    if pass.from == gone {
      DeleteOldest(ever, store, gone, terminal, pass);
    } else {
      assert pass.from < gone;
      DeleteGone(ever, store, gone, terminal, pass);
    }
  }

  lemma PassesAfterDelete(ever: seq<Sealed>, gc: seq<GcPass>, i: nat, next: GcPass, gone: nat, n: nat, terminal: nat)
    requires GcOk(ever, gc, gone, terminal) && i < |gc| && gone <= n && PassOk(ever, next, n, terminal)
    ensures GcOk(ever, gc[i := next], n, terminal)
  {
  }

  lemma EmptyPass(ever: seq<Sealed>, pass: GcPass, gone: nat, terminal: nat)
    requires PassOk(ever, pass, gone, terminal)
    ensures PassOk(ever, pass.(targets := []), gone, terminal)
  {
  }

  lemma KeepGcDelete(w: World, i: nat, ok: bool)
    requires Inv(w)
    ensures Inv(DoGcDelete(w, i, ok))
  {
    hide Inv, StreamOk, Objects, Fed, StoreOk, ServerOk, PassOk, QueueOk, RecordsOk, SessionOk, Drains, Without;
    Parts(w);
    var t := DoGcDelete(w, i, ok);
    if t != w {
      var pass := w.gc[i];
      assert PassOk(w.ever, pass, w.gone, |w.finished|);
      if ok {
        DeleteIsFirst(w.ever, w.store, w.gone, |w.finished|, pass);
        PassesAfterDelete(w.ever, w.gc, i, t.gc[i], w.gone, t.gone, |w.finished|);
      } else {
        EmptyPass(w.ever, pass, w.gone, |w.finished|);
        PassesAfterDelete(w.ever, w.gc, i, t.gc[i], w.gone, w.gone, |w.finished|);
      }
      SessionFrame(w, t, OwnedBy(w), Drains(w.places, OwnedBy(w)));
      Join(t);
    }
  }

  // ---------------------------------------------------------------------
  // the end of a session
  // ---------------------------------------------------------------------

  lemma KeepEnd(w: World)
    requires Inv(w)
    ensures Inv(DoEnd(w))
  {
    hide Inv, StreamOk, Objects, Fed, StoreOk, ServerOk, GcOk, QueueOk, RecordsOk, Drains, LiveOk;
    Parts(w);
    Join(DoEnd(w));
  }

  lemma AfterCrash(ever: seq<Sealed>, owned: nat, state: Option<StateFile>, confirmed: Option<(int, int)>,
      writes: seq<StateWrite>)
    requires owned <= |ever| && RecordsOk(ever, owned, state, confirmed, writes)
    ensures QueueOk(ever, [], [], owned) && RecordsOk(ever, owned, state, None, writes)
  {
  }

  lemma KeepCrash(w: World)
    requires Inv(w)
    ensures Inv(DoCrash(w))
  {
    hide Inv, StreamOk, Objects, Fed, StoreOk, ServerOk, GcOk, QueueOk, RecordsOk, Drains;
    Parts(w);
    AfterCrash(w.ever, OwnedBy(w), w.state, w.confirmed, w.writes);
    Join(DoCrash(w));
  }

  // ---------------------------------------------------------------------
  // opening
  // ---------------------------------------------------------------------

  lemma WatermarkIsTerminal(w: World)
    requires Objects(w.ever) && ServerOk(w.ever, w.finished, w.pending, w.skips, w.loaded)
    ensures WatermarkOk(w.ever, |w.finished|, Watermark(w)) && WatermarkOk(w.ever, |w.finished|, None)
  {
    hide Kept;
    if w.finished != [] {
      var n := |w.finished| - 1;
      FilesNth(w.ever, 0, w.finished, n);
      assert Watermark(w) == Some(w.ever[n].file.Serial());
    }
  }

  lemma KeepReadState(w: World)
    requires Inv(w)
    ensures Inv(DoReadState(w))
  {
    hide Inv, StreamOk, Objects, Fed, StoreOk, ServerOk, GcOk, QueueOk, Drains, Owned;
    Parts(w);
    if w.session.Closed? {
      Join(DoReadState(w));
    }
  }

  lemma KeepAsk(w: World, known: bool)
    requires Inv(w)
    ensures Inv(DoAsk(w, known))
  {
    hide Inv, StreamOk, Objects, Fed, StoreOk, ServerOk, GcOk, QueueOk, RecordsOk, Drains, Watermark, WatermarkOk,
      Owned;
    Parts(w);
    WatermarkIsTerminal(w);
    if w.session.Reading? {
      Join(DoAsk(w, known));
    }
  }

  /** The chosen epoch lies above the epoch of every object ever put. */
  lemma EpochIsNew(ever: seq<Sealed>, fs: seq<StagedFile>, watermark: Option<int>, state: Option<StateFile>, now: nat)
    requires Objects(ever) && EncodedWatermark(watermark)
    requires fs == [] <==> ever == []
    requires fs != [] ==> fs[|fs| - 1] == ever[|ever| - 1].file
    ensures var staged := if fs == [] then None else Some(fs[|fs| - 1].Key());
            EpochAbove(ever, NextEpoch(now, Anchor(staged, watermark, state)))
  {
    var staged := if fs == [] then None else Some(fs[|fs| - 1].Key());
    EpochExceedsAnchors(staged, watermark, state, now);
    hide NextEpoch, Anchor;
    if ever != [] {
      var last := ever[|ever| - 1].file;
      forall i | 0 <= i < |ever| ensures ever[i].file.epoch <= last.epoch {
        var f := ever[i].file;
        PackOrder(last.epoch, last.num, f.epoch, f.num);
      }
    }
  }

  /** The merged resume position is one past the last object, whatever state.json lags behind. */
  lemma ResumeIsExact(ever: seq<Sealed>, fs: seq<StagedFile>, owned: nat, state: Option<StateFile>)
    requires Objects(ever) && WellFormed(fs) && owned <= |ever|
    requires fs == [] <==> ever == []
    requires fs != [] ==> fs[|fs| - 1] == ever[|ever| - 1].file
    requires Owned(ever, owned, Recorded(state))
    ensures MergeResume(ResumeOffset(fs), state) == ResumeAfter(ever)
  {
    ResumeIsLast(fs);
    OwnedMore(ever, owned, |ever|, Recorded(state));
  }

  /** What backfill leaves out is terminal. */
  lemma BackfillStart(ever: seq<Sealed>, fs: seq<StagedFile>, gone: nat, terminal: nat, watermark: Option<int>)
    requires WellFormed(fs) && gone <= terminal && gone + |fs| == |ever|
    requires forall i :: 0 <= i < |fs| ==> fs[i] == ever[gone + i].file
    requires WatermarkOk(ever, terminal, watermark)
    ensures var left := Above(fs, watermark);
            |left| <= |ever| && Files(ever, |ever| - |left|, left) && |ever| - |left| <= terminal
  {
    hide WellFormed, Above;
    var k := AboveIsSuffix(fs, watermark);
    if k > 0 {
      assert !AboveWatermark(fs[k - 1], watermark);
      assert ever[gone + k - 1].file.Serial() <= watermark.value;
    }
  }

  /** What the opening decides from a listing of the remaining objects. */
  lemma OpeningDecided(ever: seq<Sealed>, fs: seq<StagedFile>, gone: nat, terminal: nat, owned: nat,
                       watermark: Option<int>, state: Option<StateFile>, now: nat)
    requires Objects(ever) && WellFormed(fs)
    requires gone + |fs| == |ever| && (ever != [] ==> gone < |ever|) && gone <= terminal
    requires forall i :: 0 <= i < |fs| ==> fs[i] == ever[gone + i].file
    requires EncodedWatermark(watermark) && WatermarkOk(ever, terminal, watermark)
    requires owned <= |ever| && Owned(ever, owned, Recorded(state))
    ensures var r := Decide(fs, watermark, state, now);
            r.Ok? ==> OpeningOk(ever, owned, terminal, r.value, r.value.backfill)
  {
    hide Objects, WellFormed, NextEpoch, Anchor, MergeResume, Above, ResumeOffset, Files, EpochAbove, WatermarkOk,
      Owned, AllEncodable;
    LastIsKept(ever, fs, gone);
    EpochIsNew(ever, fs, watermark, state, now);
    ResumeIsExact(ever, fs, owned, state);
    BackfillStart(ever, fs, gone, terminal, watermark);
  }

  lemma DecideIsOk(w: World, now: nat)
    requires Objects(w.ever) && StoreOk(w.ever, w.store, w.gone, |w.finished|) && OwnedBy(w) <= |w.ever|
    requires w.session.Asked? && WatermarkOk(w.ever, |w.finished|, w.session.watermark)
    requires Owned(w.ever, OwnedBy(w), Recorded(w.session.state))
    ensures var t := DoDecide(w, now);
            && t == w.(session := t.session)
            && (t.session.Closed? ||
                 (t.session.Decided? && OpeningOk(w.ever, OwnedBy(w), |w.finished|, t.session.o, t.session.o.backfill)))
  {
    assert EncodedWatermark(w.session.watermark);
    hide Objects, StoreOk, WellFormed, FilesOf, WatermarkOk, Owned, Decide, OpeningOk;
    var fs := FilesOf(w.store);
    ListingWellFormed(w.ever, w.store, w.gone, |w.finished|);
    OpeningDecided(w.ever, fs, w.gone, |w.finished|, OwnedBy(w), w.session.watermark, w.session.state, now);
  }

  /** Garbage collection never took the newest object. */
  lemma LastIsKept(ever: seq<Sealed>, fs: seq<StagedFile>, gone: nat)
    requires gone + |fs| == |ever| && (ever != [] ==> gone < |ever|)
    requires forall i :: 0 <= i < |fs| ==> fs[i] == ever[gone + i].file
    ensures fs == [] <==> ever == []
    ensures fs != [] ==> fs[|fs| - 1] == ever[|ever| - 1].file
  {
  }

  lemma OpeningReaches(ever: seq<Sealed>, owned: nat, d: nat, e: nat, o: Opening, left: seq<StagedFile>)
    requires OpeningOk(ever, owned, d, o, left) && d <= e
    ensures OpeningOk(ever, owned, e, o, left)
  {
  }

  lemma SessionParts(w: World, owned: nat, drains: nat)
    requires SessionOk(w, owned, drains)
    ensures w.session.Asked? ==>
              WatermarkOk(w.ever, |w.finished|, w.session.watermark) && Owned(w.ever, owned, Recorded(w.session.state))
    ensures w.session.Decided? ==> OpeningOk(w.ever, owned, drains, w.session.o, w.session.o.backfill)
    ensures w.session.Notifying? ==> OpeningOk(w.ever, owned, drains, w.session.o, w.session.left)
    ensures w.session.Live? ==>
              LiveOk(w.ever, w.before, w.log, owned, drains, w.session.p, w.session.resume, w.session.persisted)
  {
    hide WatermarkOk, OpeningOk, LiveOk;
  }

  lemma KeepDecide(w: World, now: nat)
    requires Inv(w)
    ensures Inv(DoDecide(w, now))
  {
    hide Inv, StreamOk, Objects, Fed, StoreOk, ServerOk, GcOk, QueueOk, RecordsOk, Drains, WatermarkOk, OpeningOk,
      LiveOk, DoDecide;
    Parts(w);
    SessionParts(w, OwnedBy(w), Drains(w.places, OwnedBy(w)));
    if w.session.Asked? {
      DecideIsOk(w, now);
      DrainsAtLeast(w.places, OwnedBy(w));
      var t := DoDecide(w, now);
      if t.session.Decided? {
        var o := t.session.o;
        OpeningReaches(w.ever, OwnedBy(w), |w.finished|, Drains(w.places, OwnedBy(w)), o, o.backfill);
      }
      Join(t);
    } else {
      NotAsked(w, now);
    }
  }

  lemma NotAsked(w: World, now: nat)
    requires !w.session.Asked?
    ensures DoDecide(w, now) == w
  {
  }

  lemma StateFromOpening(w: World, owned: nat, drains: nat, o: Opening, left: seq<StagedFile>)
    requires OpeningOk(w.ever, owned, drains, o, left)
    requires RecordsOk(w.ever, owned, w.state, w.confirmed, w.writes)
    ensures RecordsOk(w.ever, owned, Some(o.newState), w.confirmed, w.writes)
  {
  }

  lemma KeepWriteState(w: World)
    requires Inv(w)
    ensures Inv(DoWriteState(w))
  {
    hide Inv, StreamOk, Objects, Fed, StoreOk, ServerOk, GcOk, QueueOk, RecordsOk, Drains, WatermarkOk, OpeningOk,
      LiveOk;
    Parts(w);
    SessionParts(w, OwnedBy(w), Drains(w.places, OwnedBy(w)));
    if w.session.Decided? {
      StateFromOpening(w, OwnedBy(w), Drains(w.places, OwnedBy(w)), w.session.o, w.session.o.backfill);
      Join(DoWriteState(w));
    }
  }

  lemma NextEnqueued(ever: seq<Sealed>, owned: nat, d: nat, o: Opening, left: seq<StagedFile>)
    requires OpeningOk(ever, owned, d, o, left) && left != []
    ensures |left| <= |ever| && left[0] == ever[|ever| - |left|].file && |ever| - |left| <= d
    ensures OpeningOk(ever, owned, if |ever| - |left| < d then d else |ever| - |left| + 1, o, left[1..])
  {
  }

  lemma KeepEnqueue(w: World)
    requires Inv(w) && w.session.Notifying? && w.session.left != []
    ensures Inv(DoBackfill(w))
  {
    hide Inv, StreamOk, Objects, Fed, StoreOk, ServerOk, GcOk, QueueOk, RecordsOk, Drains, WatermarkOk, OpeningOk,
      LiveOk;
    Parts(w);
    var a, d := OwnedBy(w), Drains(w.places, OwnedBy(w));
    SessionParts(w, a, d);
    var o, left := w.session.o, w.session.left;
    NextEnqueued(w.ever, a, d, o, left);
    QueueSnoc(w.ever, w.queue, w.places, a, |w.ever| - |left|, left[0]);
    Join(DoBackfill(w));
  }

  lemma QueueReach(ever: seq<Sealed>, queue: seq<StagedFile>, places: seq<nat>, owned: nat)
    requires QueueOk(ever, queue, places, owned)
    ensures Drains(places, owned) <= |ever|
  {
    hide Drains;
  }

  lemma FreshWriter(ever: seq<Sealed>, log: seq<Row>, owned: nat, drains: nat, cfg: P.Settings, o: Opening)
    requires OpeningOk(ever, owned, drains, o, []) && drains <= |ever| && Fed(log, I.Flat(ever))
    ensures LiveOk(ever, |ever|, log, owned, drains, P.Init(cfg, o.epoch, StagedBefore(o.resume)), o.resume,
        o.newState.resume)
  {
    PipelineSteps.InitInv(cfg, o.epoch, StagedBefore(o.resume));
    hide I.Inv, Fed, EpochAbove;
    assert ever[..|ever|] == ever;
    assert I.Flat(ever) + [] == I.Flat(ever);
  }

  lemma KeepStart(w: World)
    requires Inv(w) && w.session.Notifying? && w.session.left == []
    ensures Inv(DoBackfill(w))
  {
    hide Inv, StreamOk, Objects, Fed, StoreOk, ServerOk, GcOk, QueueOk, RecordsOk, Drains, WatermarkOk, OpeningOk,
      LiveOk, P.Init;
    Parts(w);
    var a, d := OwnedBy(w), Drains(w.places, OwnedBy(w));
    SessionParts(w, a, d);
    QueueReach(w.ever, w.queue, w.places, a);
    var o := w.session.o;
    FreshWriter(w.ever, w.log, a, d, w.cfg, o);
    Join(DoBackfill(w));
  }

  lemma KeepBackfill(w: World)
    requires Inv(w)
    ensures Inv(DoBackfill(w))
  {
    hide Inv;
    if w.session.Notifying? {
      if w.session.left != [] {
        KeepEnqueue(w);
      } else {
        KeepStart(w);
      }
    }
  }

  // ---------------------------------------------------------------------
  // a live session
  // ---------------------------------------------------------------------

  /** The feed stands right after the last object. */
  lemma {:induction false} PositionOfObjects(ever: seq<Sealed>)
    requires Objects(ever)
    ensures Position(I.Flat(ever)) == if ever == [] then 0 else ever[|ever| - 1].file.end + 1
  {
    if ever != [] {
      var x := ever[|ever| - 1];
      assert I.WellCut(x);
      assert I.Flat(ever)[|I.Flat(ever)| - 1] == x.batches[|x.batches| - 1];
    }
  }

  lemma ObjectsPrefix(ever: seq<Sealed>, n: nat)
    requires Objects(ever) && n <= |ever|
    ensures Objects(ever[..n])
  {
  }

  /** What the caller offers next continues the feed. */
  lemma OfferContinues(w: World, p: P.State, resume: Option<int>, step: P.Step)
    requires Objects(w.ever) && w.before <= |w.ever| && resume == ResumeAfter(w.ever[..w.before])
    requires Fed(w.log, I.Flat(w.ever[..w.before]) + p.accepted)
    requires Feeds(w, p, resume, step) && step.AppendBegin?
    ensures Fed(w.log, I.Flat(w.ever[..w.before]) + p.accepted + [step.b])
  {
    var head := I.Flat(w.ever[..w.before]);
    ObjectsPrefix(w.ever, w.before);
    PositionOfObjects(w.ever[..w.before]);
    hide Objects, I.Flat, Fed;
    if p.accepted == [] { assert head + p.accepted == head; }
    FedSnoc(w.log, head + p.accepted, step.b);
  }

  /** Accepted batches continue the feed of the sessions before, whatever the writer does. */
  lemma FeedGoesOn(w: World, head: seq<Batch>, p: P.State, q: P.State, step: P.Step)
    requires E.Calls(p, q, step)
    requires Fed(w.log, head + p.accepted)
    requires p.append.AEntering? ==> Fed(w.log, head + p.accepted + [p.append.b])
    requires step.AppendBegin? ==> Fed(w.log, head + p.accepted + [step.b])
    ensures Fed(w.log, head + q.accepted)
    ensures q.append.AEntering? ==> Fed(w.log, head + q.accepted + [q.append.b])
  {
    hide Fed;
    if p.append.AEntering? && q.accepted == p.accepted + [p.append.b] {
      assert head + q.accepted == head + p.accepted + [p.append.b];
    } else if p.accepted != [] && q.accepted == p.accepted[..|p.accepted| - 1] {
      assert head + q.accepted == (head + p.accepted)[..|head| + |q.accepted|];
      FedPrefix(w.log, head + p.accepted, head + q.accepted);
    }
  }

  lemma FlatStored(q: P.State)
    requires I.Inv(q)
    ensures q.stored <= q.cut && I.Flat(q.stored) <= q.accepted
  {
    T.StoredFacts(q);
    T.AcceptedFacts(q);
    I.FlatPrefix(q.cut, |q.stored|);
  }

  /** Everything ever put is part of the feed. */
  lemma ObjectsAreFed(log: seq<Row>, head: seq<Sealed>, q: P.State)
    requires I.Inv(q) && Fed(log, I.Flat(head) + q.accepted)
    ensures Fed(log, I.Flat(head + q.stored))
  {
    FlatStored(q);
    T.FlatConcat(head, q.stored);
    hide I.Inv, I.Flat, Fed;
    FedPrefix(log, I.Flat(head) + q.accepted, I.Flat(head) + I.Flat(q.stored));
  }

  lemma StoredFile(q: P.State, i: nat)
    requires I.Inv(q) && i < |q.stored|
    ensures q.stored[i].file.Encodable() && I.WellCut(q.stored[i])
    ensures q.stored[i].file.Serial() == Pack(q.epoch0, 0) + i
  {
    T.StoredFacts(q);
    T.AcceptedFacts(q);
    assert q.stored[i] == q.cut[i];
  }

  lemma {:induction false} FedOrder(log: seq<Row>, bs: seq<Batch>, i: nat, j: nat)
    requires Fed(log, bs) && i <= j < |bs|
    ensures bs[i].start <= bs[j].end
    ensures i < j ==> bs[i].end < bs[j].start
  {
    assert bs[j].start == Position(bs[..j]);
    if i < j {
      assert bs[..j][j - 1] == bs[j - 1];
      FedOrder(log, bs, i, j - 1);
    }
  }

  /** A piece of the feed starts where the feed before it ended. */
  lemma PieceOfFeed(log: seq<Row>, bs: seq<Batch>, cs: seq<Batch>)
    requires Fed(log, bs + cs) && cs != []
    ensures cs[0].start == Position(bs) && cs[0].start <= cs[|cs| - 1].end
  {
    var all, n := bs + cs, |bs|;
    hide Fed, Position;
    FedOrder(log, all, n, |all| - 1);
    FedStart(log, all, n);
    EndsOfConcat(bs, cs);
  }

  lemma FedStart(log: seq<Row>, bs: seq<Batch>, i: nat)
    requires Fed(log, bs) && i < |bs|
    ensures bs[i].start == Position(bs[..i])
  {
    hide Position;
  }

  /** A new object continues the offsets of those before it. */
  lemma {:induction false} NextRange(log: seq<Row>, ever: seq<Sealed>, x: Sealed)
    requires Objects(ever) && I.WellCut(x) && Fed(log, I.Flat(ever + [x]))
    ensures x.file.start == (if ever == [] then 0 else ever[|ever| - 1].file.end + 1) && x.file.start <= x.file.end
  {
    hide Objects, Fed, I.Flat, Position;
    I.FlatSnoc(ever, x);
    PositionOfObjects(ever);
    PieceOfFeed(log, I.Flat(ever), x.batches);
  }

  lemma NextSerial(ever: seq<Sealed>, before: nat, q: P.State, x: Sealed)
    requires Objects(ever) && before <= |ever| && EpochAbove(ever[..before], q.epoch0)
    requires I.Inv(q) && q.stored == ever[before..] + [x]
    ensures forall i :: 0 <= i < |ever| ==> ever[i].file.Serial() < x.file.Serial()
    ensures x.file.Encodable() && I.WellCut(x)
  {
    var n := |ever| - before;
    StoredFile(q, n);
    forall i | 0 <= i < |ever| ensures ever[i].file.Serial() < x.file.Serial() {
      if i < before {
        assert ever[i].file.epoch < q.epoch0 by { assert ever[..before][i] == ever[i]; }
        assert ever[i].file.Encodable();
      } else {
        StoredFile(q, i - before);
        assert q.stored[i - before] == ever[i];
      }
    }
  }

  lemma {:induction false} EndsBefore(ever: seq<Sealed>, x: Sealed)
    requires Objects(ever) && (ever != [] ==> ever[|ever| - 1].file.end < x.file.start)
    ensures forall i :: 0 <= i < |ever| ==> ever[i].file.end < x.file.start
  {
    hide I.WellCut;
    forall i | 0 <= i < |ever| ensures ever[i].file.end < x.file.start {
      if i < |ever| - 1 {
        assert ever[i].file.end < ever[|ever| - 1].file.start;
      }
    }
  }

  lemma {:induction false} ObjectsJoin(ever: seq<Sealed>, x: Sealed)
    requires Objects(ever) && x.file.Encodable() && I.WellCut(x) && x.file.start <= x.file.end
    requires forall i :: 0 <= i < |ever| ==> ever[i].file.Serial() < x.file.Serial() && ever[i].file.end < x.file.start
    ensures Objects(ever + [x])
  {
    hide I.WellCut;
  }

  lemma {:induction false} ObjectsSnoc(log: seq<Row>, ever: seq<Sealed>, before: nat, q: P.State, x: Sealed)
    requires Objects(ever) && before <= |ever| && EpochAbove(ever[..before], q.epoch0)
    requires I.Inv(q) && q.stored == ever[before..] + [x] && Fed(log, I.Flat(ever + [x]))
    ensures Objects(ever + [x])
  {
    hide I.Inv, I.Flat, Fed, I.WellCut, Objects, EpochAbove;
    NextSerial(ever, before, q, x);
    NextRange(log, ever, x);
    EndsBefore(ever, x);
    ObjectsJoin(ever, x);
  }

  /** Everything but the session is indifferent to one more object. */
  lemma OthersGrow(w: World, x: Sealed)
    requires StoreOk(w.ever, w.store, w.gone, |w.finished|)
    requires ServerOk(w.ever, w.finished, w.pending, w.skips, w.loaded)
    requires GcOk(w.ever, w.gc, w.gone, |w.finished|)
    requires RecordsOk(w.ever, OwnedBy(w), w.state, w.confirmed, w.writes)
    ensures StoreOk(w.ever + [x], w.store + [x], w.gone, |w.finished|)
    ensures ServerOk(w.ever + [x], w.finished, w.pending, w.skips, w.loaded)
    ensures GcOk(w.ever + [x], w.gc, w.gone, |w.finished|)
    ensures RecordsOk(w.ever + [x], OwnedBy(w), w.state, w.confirmed, w.writes)
  {
    assert (w.ever + [x])[..|w.finished|] == w.ever[..|w.finished|];
  }

  /** The world as the put of a step leaves it: one more object, or none. */
  function AfterPut(w: World, q: P.State): World
    requires w.session.Live?
  {
    var put := |q.stored| > |w.session.p.stored|;
    w.(store := if put then w.store + [q.stored[|q.stored| - 1]] else w.store,
       ever := if put then w.ever + [q.stored[|q.stored| - 1]] else w.ever)
  }

  /** The rest of the step: the new writer state and perhaps an announcement. */
  function Told(u: World, q: P.State): World
    requires u.session.Live?
  {
    var told := q.announced == u.session.p.announced + 1 && q.put.Announced?;
    u.(session := u.session.(p := q),
       queue := if told then u.queue + [q.put.x.file] else u.queue,
       places := if told then u.places + [u.before + u.session.p.announced] else u.places)
  }

  lemma WriterShape(w: World, step: P.Step)
    requires w.session.Live? && Feeds(w, w.session.p, w.session.resume, step) && !step.SerialViolation?
    requires E.Outside(w.session.p, P.Next(w.session.p, step))
    ensures AfterPut(w, P.Next(w.session.p, step)).session.Live?
    ensures DoWriter(w, step) == Told(AfterPut(w, P.Next(w.session.p, step)), P.Next(w.session.p, step))
    ensures var p, q := w.session.p, P.Next(w.session.p, step);
            q.announced == p.announced || (q.announced == p.announced + 1 && q.put.Announced?)
  {
    hide P.Next, Feeds;
  }

  lemma KeepAfterPut(w: World, q: P.State)
    requires StreamOk(w) && RecordsOk(w.ever, OwnedBy(w), w.state, w.confirmed, w.writes)
    requires QueueOk(w.ever, w.queue, w.places, OwnedBy(w))
    requires w.session.Live? && w.before <= |w.ever| && w.ever[w.before..] == w.session.p.stored
    requires E.Outside(w.session.p, q) && I.Inv(q) && EpochAbove(w.ever[..w.before], q.epoch0)
    requires Fed(w.log, I.Flat(w.ever[..w.before]) + q.accepted)
    ensures var t := AfterPut(w, q);
            && StreamOk(t) && RecordsOk(t.ever, OwnedBy(t), t.state, t.confirmed, t.writes)
            && QueueOk(t.ever, t.queue, t.places, OwnedBy(t))
            && w.before <= |t.ever| && t.ever[w.before..] == q.stored && t.ever[..w.before] == w.ever[..w.before]
  {
    hide I.Inv, I.Flat, Fed, Objects, EpochAbove, RecordsOk, QueueOk, StoreOk, ServerOk, GcOk;
    if q.stored != w.session.p.stored {
      var x := q.stored[|q.stored| - 1];
      assert q.stored == w.ever[w.before..] + [x];
      assert w.ever + [x] == w.ever[..w.before] + q.stored;
      ObjectsAreFed(w.log, w.ever[..w.before], q);
      ObjectsSnoc(w.log, w.ever, w.before, q, x);
      OthersGrow(w, x);
      QueueGrows(w.ever, x, w.queue, w.places, OwnedBy(w));
      assert (w.ever + [x])[..w.before] == w.ever[..w.before];
    }
  }

  lemma LiveParts(ever: seq<Sealed>, before: nat, log: seq<Row>, owned: nat, drains: nat, p: P.State,
                  resume: Option<int>, persisted: Option<int>)
    requires LiveOk(ever, before, log, owned, drains, p, resume, persisted)
    ensures before <= |ever| && ever[before..] == p.stored
    ensures I.Inv(p) && !p.serialFatal
    ensures EpochAbove(ever[..before], p.epoch0)
    ensures resume == ResumeAfter(ever[..before]) && p.base == StagedBefore(resume)
    ensures Fed(log, I.Flat(ever[..before]) + p.accepted)
    ensures p.append.AEntering? ==> Fed(log, I.Flat(ever[..before]) + p.accepted + [p.append.b])
    ensures drains == before + p.announced
    ensures Owned(ever, owned, persisted)
  {
    hide I.Inv, EpochAbove, Fed, I.Flat, Owned;
  }

  lemma OwnedGrows(w: World, q: P.State, r: Option<int>)
    requires w.session.Live? && Owned(w.ever, OwnedBy(w), r)
    ensures Owned(AfterPut(w, q).ever, OwnedBy(w), r)
  {
  }

  lemma AnnouncedPlace(ever: seq<Sealed>, before: nat, q: P.State)
    requires I.Inv(q) && q.put.Announced? && before <= |ever| && ever[before..] == q.stored
    ensures 0 < q.announced && before + q.announced <= |ever| && q.put.x == ever[before + q.announced - 1]
  {
    E.AnnouncedIsNext(q);
    hide I.Inv;
    assert q.stored[q.announced - 1] == ever[before + q.announced - 1];
  }

  /** The live part after a step, `u` being the world after the put. */
  lemma LiveAfter(u: World, q: P.State, owned: nat, resume: Option<int>, persisted: Option<int>)
    requires u.before <= |u.ever| && u.ever[u.before..] == q.stored
    requires I.Inv(q) && !q.serialFatal && EpochAbove(u.ever[..u.before], q.epoch0)
    requires resume == ResumeAfter(u.ever[..u.before]) && q.base == StagedBefore(resume)
    requires Fed(u.log, I.Flat(u.ever[..u.before]) + q.accepted)
    requires q.append.AEntering? ==> Fed(u.log, I.Flat(u.ever[..u.before]) + q.accepted + [q.append.b])
    requires Owned(u.ever, owned, persisted)
    ensures LiveOk(u.ever, u.before, u.log, owned, u.before + q.announced, q, resume, persisted)
  {
    hide I.Inv, Fed, I.Flat, EpochAbove, Owned, ResumeAfter, StagedBefore;
  }

  lemma KeepWriterStep(w: World, step: P.Step)
    requires Inv(w) && w.session.Live? && Feeds(w, w.session.p, w.session.resume, step) && !step.SerialViolation?
    ensures Inv(DoWriter(w, step))
  {
    hide Inv, Objects, Fed, StoreOk, ServerOk, GcOk, QueueOk, RecordsOk, Drains, LiveOk, I.Inv, I.Flat, P.Next, Feeds,
      Owned, EpochAbove, ResumeAfter, StagedBefore, AfterPut, DoWriter, SessionOk, StreamOk;
    Parts(w);
    var a, d := OwnedBy(w), Drains(w.places, OwnedBy(w));
    SessionParts(w, a, d);
    var p, resume, persisted := w.session.p, w.session.resume, w.session.persisted;
    LiveParts(w.ever, w.before, w.log, a, d, p, resume, persisted);
    var q := P.Next(p, step);
    E.StepEffects(p, step);
    T.StepKeepsInv(p, step);
    if step.AppendBegin? { OfferContinues(w, p, resume, step); }
    FeedGoesOn(w, I.Flat(w.ever[..w.before]), p, q, step);
    KeepAfterPut(w, q);
    OwnedGrows(w, q, persisted);
    PutTouches(w, q);
    LiveAfter(AfterPut(w, q), q, a, resume, persisted);
    WriterShape(w, step);
    WriterRest(AfterPut(w, q), q, DoWriter(w, step));
  }

  lemma PutTouches(w: World, q: P.State)
    requires w.session.Live?
    ensures var u := AfterPut(w, q); u == w.(store := u.store, ever := u.ever)
  {
  }

  lemma LiveJoin(w: World, owned: nat, drains: nat)
    requires w.session.Live?
    requires LiveOk(w.ever, w.before, w.log, owned, drains, w.session.p, w.session.resume, w.session.persisted)
    ensures SessionOk(w, owned, drains)
  {
    hide LiveOk;
  }

  lemma StreamFrame(w: World, t: World)
    requires StreamOk(w) && t == w.(session := t.session, queue := t.queue, places := t.places)
    ensures StreamOk(t)
  {
    hide Objects, Fed, StoreOk, ServerOk, GcOk, I.Flat;
  }

  /** From the world after the put to the world after the step: the writer moves on, and a file
      may be announced. */
  lemma WriterRest(u: World, q: P.State, t: World)
    requires u.session.Live? && I.Inv(q) && StreamOk(u) && u.before <= |u.ever| && u.ever[u.before..] == q.stored
    requires RecordsOk(u.ever, OwnedBy(u), u.state, u.confirmed, u.writes)
    requires QueueOk(u.ever, u.queue, u.places, OwnedBy(u))
    requires Drains(u.places, OwnedBy(u)) == u.before + u.session.p.announced
    requires LiveOk(u.ever, u.before, u.log, OwnedBy(u), u.before + q.announced, q, u.session.resume,
                    u.session.persisted)
    requires q.announced == u.session.p.announced || (q.announced == u.session.p.announced + 1 && q.put.Announced?)
    requires t == Told(u, q)
    ensures Inv(t)
  {
    hide Inv, StreamOk, StoreOk, ServerOk, GcOk, QueueOk, RecordsOk, Drains, I.Inv, SessionOk, LiveOk;
    if q.announced == u.session.p.announced + 1 {
      AnnouncedPlace(u.ever, u.before, q);
      QueueSnoc(u.ever, u.queue, u.places, OwnedBy(u), u.before + u.session.p.announced, q.put.x.file);
    }
    LiveJoin(t, OwnedBy(t), Drains(t.places, OwnedBy(t)));
    StreamFrame(u, t);
    StreamParts(t);
    Join(t);
  }

  lemma StreamParts(w: World)
    requires StreamOk(w)
    ensures w.ident.Valid() && !w.violation && Objects(w.ever) && Fed(w.log, I.Flat(w.ever))
    ensures StoreOk(w.ever, w.store, w.gone, |w.finished|)
    ensures ServerOk(w.ever, w.finished, w.pending, w.skips, w.loaded)
    ensures GcOk(w.ever, w.gc, w.gone, |w.finished|)
  {
    hide Objects, Fed, StoreOk, ServerOk, GcOk, I.Flat;
  }

  lemma KeepWriter(w: World, step: P.Step)
    requires Inv(w)
    ensures Inv(DoWriter(w, step))
  {
    hide Inv, Feeds, P.Next;
    if w.session.Live? && Feeds(w, w.session.p, w.session.resume, step) && !step.SerialViolation? {
      KeepWriterStep(w, step);
    }
  }

  // ---------------------------------------------------------------------
  // other processes
  // ---------------------------------------------------------------------

  lemma {:induction false} DrainsBound(places: seq<nat>, a: nat, b: nat)
    requires a <= b
    ensures Drains(places, b) == if b <= Drains(places, a) then Drains(places, a) else b
  {
    if places != [] {
      DrainsBound(places[..|places| - 1], a, b);
      DrainsAtLeast(places[..|places| - 1], a);
    }
  }

  /** A queue does not mind the server owning more already, or more objects. */
  lemma QueueMore(ever: seq<Sealed>, more: seq<Sealed>, queue: seq<StagedFile>, places: seq<nat>, a: nat, b: nat)
    requires QueueOk(ever, queue, places, a) && ever <= more && a <= b <= |more|
    ensures QueueOk(more, queue, places, b)
  {
    hide InOrder;
    DrainsBound(places, a, b);
    InOrderMonotone(places, a, b);
    hide Drains;
  }

  lemma OwnedFurther(ever: seq<Sealed>, more: seq<Sealed>, a: nat, b: nat, r: Option<int>)
    requires Objects(more) && ever <= more && a <= b <= |more| && Owned(ever, a, r)
    ensures Owned(more, b, r)
  {
    assert Owned(more, a, r);
    OwnedMore(more, a, b, r);
  }

  /** What other processes hold stays good while objects and jobs are only added. */
  lemma OthersFrame(w: World, t: World)
    requires OthersOk(w) && t.others == w.others && Objects(t.ever)
    requires w.ever <= t.ever && OwnedBy(w) <= OwnedBy(t) <= |t.ever|
    requires t.session.Live? ==> if w.session.Live? then t.before == w.before else t.before == |w.ever|
    ensures OthersOk(t)
  {
    hide QueueOk, Owned, Objects, OwnedBy;
    forall k | 0 <= k < |t.others| ensures ProcessOk(t, t.others[k]) {
      var p := w.others[k];
      assert ProcessOk(w, p);
      QueueMore(w.ever, t.ever, p.queue, p.places, OwnedBy(w), OwnedBy(t));
      OwnedFurther(w.ever, t.ever, OwnedBy(w), OwnedBy(t), ConfirmedEnd(p.confirmed));
      PlacesExist(w.ever, p, OwnedBy(w));
    }
  }

  lemma PlacesExist(ever: seq<Sealed>, p: Process, owned: nat)
    requires QueueOk(ever, p.queue, p.places, owned)
    ensures forall i :: 0 <= i < |p.places| ==> p.places[i] < |ever|
  {
    hide Drains, InOrder;
  }

  lemma HeadElsewhere(w: World, k: nat)
    requires OthersOk(w) && k < |w.others|
    ensures var p := w.others[k];
            && QueueOk(w.ever, p.queue, p.places, OwnedBy(w)) && (p.queue == [] <==> p.places == [])
            && (p.queue != [] ==>
                 && p.places[0] < |w.ever| && p.places[0] <= OwnedBy(w) && p.queue[0] == w.ever[p.places[0]].file
                 && (w.session.Live? ==> p.places[0] < w.before))
  {
    hide Drains, Owned;
    var p := w.others[k];
    assert ProcessOk(w, p);
    if p.queue != [] { InOrderTail(p.places, OwnedBy(w)); }
  }

  /** What a submission of another process leaves behind. */
  lemma ElsewhereShape(w: World, k: nat, answered: bool, place: nat)
    requires k < |w.others| && w.others[k].queue != [] && w.others[k].places != []
    requires place < |w.ever| && w.others[k].queue[0] == w.ever[place].file
    requires Gate(w, w.ever[place].file) == if place < OwnedBy(w) then Idempotent else Accepted
    ensures var p, f := w.others[k], w.ever[place].file;
            DoSubmitElsewhere(w, k, answered) ==
              w.(pending := if place < OwnedBy(w) then w.pending else w.pending + [f],
                 others := if answered then w.others[k := Process(p.queue[1..], p.places[1..], Confirm(p.confirmed, f))]
                           else w.others)
  {
    hide Gate, Confirm;
  }

  /** The live writer's queue leads as far as before, whoever submits for earlier sessions. */
  lemma SessionElsewhere(w: World, t: World, a: nat, b: nat)
    requires Objects(w.ever) && SessionOk(w, a, Drains(w.places, a)) && a <= b <= |w.ever|
    requires w.session.Live? ==> b <= a || b <= w.before
    requires t.session == w.session && t.ever == w.ever && t.before == w.before && t.log == w.log
    requires t.finished == w.finished
    ensures SessionOk(t, b, Drains(w.places, b))
  {
    hide SessionOk, Objects, Drains, LiveOk;
    DrainsBound(w.places, a, b);
    DrainsAtLeast(w.places, a);
    SessionParts(w, a, Drains(w.places, a));
    if w.session.Live? {
      LiveParts(w.ever, w.before, w.log, a, Drains(w.places, a), w.session.p, w.session.resume, w.session.persisted);
    }
    SessionMore(w, t, a, b, Drains(w.places, a), Drains(w.places, b));
  }

  lemma KeepSubmitElsewhere(w: World, k: nat, answered: bool)
    requires Inv(w) && OthersOk(w) && k < |w.others| && w.others[k].queue != []
    ensures Inv(DoSubmitElsewhere(w, k, answered)) && OthersOk(DoSubmitElsewhere(w, k, answered))
  {
    hide Inv, StreamOk, Objects, Fed, StoreOk, ServerOk, GcOk, QueueOk, RecordsOk, SessionOk, Drains, Gate, Owned,
      DoSubmitElsewhere, Confirm, OthersOk, ProcessOk;
    Parts(w);
    HeadElsewhere(w, k);
    var place, a := w.others[k].places[0], OwnedBy(w);
    var b := if place < a then a else a + 1;
    var t := DoSubmitElsewhere(w, k, answered);
    GateVerdict(w, place);
    ElsewhereShape(w, k, answered, place);
    assert OwnedBy(t) == b;
    if place == a {
      AppendJob(w.ever, w.finished, w.pending, w.skips, w.loaded);
    }
    RecordsMore(w.ever, a, b, w.state, w.confirmed, w.writes);
    QueueMore(w.ever, w.ever, w.queue, w.places, a, b);
    SessionElsewhere(w, t, a, b);
    Join(t);
    OthersFrame(w, t.(others := w.others));
    if answered {
      ElsewherePopped(w, k, t, place);
    }
  }

  lemma ElsewherePopped(w: World, k: nat, t: World, place: nat)
    requires OthersOk(w) && k < |w.others| && w.others[k].places != [] && place == w.others[k].places[0] < |w.ever|
    requires OthersOk(t.(others := w.others)) && Objects(w.ever) && t.ever == w.ever && t.before == w.before
    requires t.session == w.session && OwnedBy(t) == (if place < OwnedBy(w) then OwnedBy(w) else OwnedBy(w) + 1)
    requires place <= OwnedBy(w) && OwnedBy(t) <= |w.ever| && w.others[k].queue != []
    requires var p := w.others[k];
             t.others == w.others[k := Process(p.queue[1..], p.places[1..], Confirm(p.confirmed, w.ever[place].file))]
    ensures OthersOk(t)
  {
    hide QueueOk, Owned, Objects, Confirm;
    var p := w.others[k];
    var u := t.(others := w.others);
    assert ProcessOk(w, p) && ProcessOk(u, p);
    QueueAfterSubmit(w.ever, p.queue, p.places, OwnedBy(w));
    OwnedConfirm(w.ever, place, OwnedBy(t), p.confirmed);
    forall i | 0 <= i < |t.others| && i != k ensures ProcessOk(t, t.others[i]) {
      assert ProcessOk(u, w.others[i]);
    }
    assert ProcessOk(t, t.others[k]);
  }

  lemma OwnedConfirm(ever: seq<Sealed>, place: nat, owned: nat, confirmed: Option<(int, int)>)
    requires Objects(ever) && place < owned <= |ever| && Owned(ever, owned, ConfirmedEnd(confirmed))
    ensures Owned(ever, owned, ConfirmedEnd(Confirm(confirmed, ever[place].file)))
  {
  }

  lemma NothingElsewhere(w: World, k: nat, answered: bool)
    requires k < |w.others| ==> w.others[k].queue == []
    ensures DoSubmitElsewhere(w, k, answered) == w
  {
  }

  lemma BoardOwned(ever: seq<Sealed>, owned: nat, state: Option<StateFile>, confirmed: Option<(int, int)>,
                   writes: seq<StateWrite>, other: Option<(int, int)>)
    requires RecordsOk(ever, owned, state, confirmed, writes) && Owned(ever, owned, ConfirmedEnd(other))
    ensures Owned(ever, owned, ConfirmedEnd(confirmed)) && RecordsOk(ever, owned, state, other, writes)
  {
  }

  lemma EmptyQueue(ever: seq<Sealed>, owned: nat)
    requires owned <= |ever|
    ensures QueueOk(ever, [], [], owned) && Owned(ever, owned, ConfirmedEnd(None))
  {
  }

  lemma KeepMove(w: World, k: nat)
    requires Inv(w) && OthersOk(w) && w.session.Closed?
    ensures Inv(DoMove(w, k)) && OthersOk(DoMove(w, k))
  {
    hide Inv, StreamOk, Objects, Fed, StoreOk, ServerOk, GcOk, QueueOk, RecordsOk, Drains, Owned;
    Parts(w);
    var t := DoMove(w, k);
    EmptyQueue(w.ever, OwnedBy(w));
    if k < |w.others| {
      assert ProcessOk(w, w.others[k]);
    }
    BoardOwned(w.ever, OwnedBy(w), w.state, w.confirmed, w.writes, t.confirmed);
    Join(t);
    forall i | 0 <= i < |t.others| ensures ProcessOk(t, t.others[i]) {
      if i < |w.others| && i != k {
        assert ProcessOk(w, w.others[i]);
      }
    }
  }

  lemma KeepDie(w: World, k: nat)
    requires Inv(w) && OthersOk(w)
    ensures Inv(DoDie(w, k)) && OthersOk(DoDie(w, k))
  {
    hide Inv, StreamOk, Objects, Fed, StoreOk, ServerOk, GcOk, QueueOk, RecordsOk, SessionOk, Drains, Owned;
    Parts(w);
    var t := DoDie(w, k);
    SessionFrame(w, t, OwnedBy(w), Drains(w.places, OwnedBy(w)));
    Join(t);
    forall i | 0 <= i < |t.others| ensures ProcessOk(t, t.others[i]) {
      assert t.others[i] == w.others[if k < |w.others| && i >= k then i + 1 else i];
    }
  }

  // ---------------------------------------------------------------------
  // the other events leave other processes alone
  // ---------------------------------------------------------------------

  predicate Onward(w: World, t: World) {
    && t.others == w.others && w.ever <= t.ever && OwnedBy(w) <= OwnedBy(t)
    && (t.session.Live? ==> if w.session.Live? then t.before == w.before else t.before == |w.ever|)
  }

  lemma OpeningOnward(w: World, known: bool, now: nat)
    ensures Onward(w, DoReadState(w)) && Onward(w, DoAsk(w, known)) && Onward(w, DoDecide(w, now))
    ensures Onward(w, DoWriteState(w)) && Onward(w, DoBackfill(w)) && Onward(w, DoEnd(w)) && Onward(w, DoCrash(w))
  {
    hide Watermark, Decide, FilesOf, P.Init;
  }

  lemma RecordsOnward(w: World, heartbeat: bool, i: nat, landed: bool, answered: bool)
    ensures Onward(w, DoPersistRead(w, heartbeat)) && Onward(w, DoPersistWrite(w, i, landed, answered))
  {
  }

  lemma ServerOnward(w: World, answered: bool, i: nat, skip: bool)
    ensures Onward(w, DoSubmit(w, answered)) && Onward(w, DoFinish(w, i, skip))
  {
    hide Gate, Lookup, Confirm, P.Next;
  }

  lemma GcOnward(w: World, asOf: nat, now: nat, keep: Retention, i: nat, ok: bool)
    ensures Onward(w, DoGcStart(w, asOf, now, keep)) && Onward(w, DoGcDelete(w, i, ok))
  {
    hide GcTargets, FilesOf, Without;
  }

  lemma WriterOnward(w: World, step: P.Step)
    ensures Onward(w, DoWriter(w, step))
  {
    hide P.Next, Feeds;
  }

  lemma OthersStay(w: World, t: World)
    requires OthersOk(w) && Inv(t) && Onward(w, t)
    ensures OthersOk(t)
  {
    hide Inv, OthersOk, StreamOk, Objects, Fed, StoreOk, ServerOk, GcOk, QueueOk, RecordsOk, SessionOk, Drains;
    Parts(t);
    OthersFrame(w, t);
  }

  // ---------------------------------------------------------------------
  // every event
  // ---------------------------------------------------------------------

  lemma EventKeepsInv(w: World, e: Event)
    requires Inv(w) && OthersOk(w)
    ensures Inv(Next(w, e)) && OthersOk(Next(w, e))
  {
    hide Inv, OthersOk, Onward, DoReadState, DoAsk, DoDecide, DoWriteState, DoBackfill, DoWriter, DoSubmit, DoFinish,
      DoPersistRead, DoPersistWrite, DoGcStart, DoGcDelete, DoEnd, DoCrash, DoSubmitElsewhere, DoDie;
    match e
    case ReadState => KeepReadState(w); OpeningOnward(w, true, 0); OthersStay(w, Next(w, e));
    case Ask(known) => KeepAsk(w, known); OpeningOnward(w, known, 0); OthersStay(w, Next(w, e));
    case DecideEpoch(now) => KeepDecide(w, now); OpeningOnward(w, true, now); OthersStay(w, Next(w, e));
    case WriteState => KeepWriteState(w); OpeningOnward(w, true, 0); OthersStay(w, Next(w, e));
    case Backfill => KeepBackfill(w); OpeningOnward(w, true, 0); OthersStay(w, Next(w, e));
    case WriterStep(step) => KeepWriter(w, step); WriterOnward(w, step); OthersStay(w, Next(w, e));
    case Submit(answered) => KeepSubmit(w, answered); ServerOnward(w, answered, 0, false); OthersStay(w, Next(w, e));
    case Finish(i, skip) => KeepFinish(w, i, skip); ServerOnward(w, true, i, skip); OthersStay(w, Next(w, e));
    case PersistRead(heartbeat) =>
      KeepPersistRead(w, heartbeat);
      RecordsOnward(w, heartbeat, 0, false, false);
      OthersStay(w, Next(w, e));
    case PersistWrite(i, landed, answered) =>
      KeepPersistWrite(w, i, landed, answered);
      RecordsOnward(w, false, i, landed, answered);
      OthersStay(w, Next(w, e));
    case GcStart(asOf, now, keep) =>
      KeepGcStart(w, asOf, now, keep);
      GcOnward(w, asOf, now, keep, 0, true);
      OthersStay(w, Next(w, e));
    case GcDelete(i, ok) =>
      KeepGcDelete(w, i, ok);
      GcOnward(w, 0, 0, Retention(0, 0), i, ok);
      OthersStay(w, Next(w, e));
    case EndSession => KeepEnd(w); OpeningOnward(w, true, 0); OthersStay(w, Next(w, e));
    case Crash => KeepCrash(w); OpeningOnward(w, true, 0); OthersStay(w, Next(w, e));
    case Move(k) => if w.session.Closed? { KeepMove(w, k); }
    case SubmitElsewhere(k, answered) =>
      if k < |w.others| && w.others[k].queue != [] {
        KeepSubmitElsewhere(w, k, answered);
      } else {
        NothingElsewhere(w, k, answered);
      }
    case Die(k) => KeepDie(w, k);
  }

  lemma {:induction false} RunInv(cfg: P.Settings, ident: WriterIdentity, log: seq<Row>, events: seq<Event>)
    requires ident.Valid()
    ensures Inv(Run(Fresh(cfg, ident, log), events)) && OthersOk(Run(Fresh(cfg, ident, log), events))
  {
    hide Inv, Next, OthersOk;
    if events == [] {
      FreshInv(cfg, ident, log);
    } else {
      RunInv(cfg, ident, log, events[..|events| - 1]);
      EventKeepsInv(Run(Fresh(cfg, ident, log), events[..|events| - 1]), events[|events| - 1]);
    }
  }
}
