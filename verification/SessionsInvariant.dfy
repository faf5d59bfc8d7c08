/** What every step of a stream keeps, over any number of sessions, crashes and reopens. */
module SessionsInvariant {
  import opened Base
  import opened Naming
  import opened Values
  import opened Writer
  import opened Recovery
  import opened Sessions
  import P = Pipeline
  import I = PipelineInvariant

  // ---------------------------------------------------------------------
  // the feed
  // ---------------------------------------------------------------------

  /** The offset after the last batch; the log starts at 0. */
  function Position(bs: seq<Batch>): int {
    if bs == [] then 0 else bs[|bs| - 1].end + 1
  }

  /** The batches are consecutive pieces of the log, from its start. */
  predicate Fed(log: seq<Row>, bs: seq<Batch>) {
    forall i :: 0 <= i < |bs| ==>
      && 0 <= bs[i].start <= bs[i].end < |log|
      && bs[i].start == Position(bs[..i])
      && bs[i].rows == log[bs[i].start..bs[i].end + 1]
  }

  lemma FedPrefix(log: seq<Row>, bs: seq<Batch>, cs: seq<Batch>)
    requires Fed(log, bs) && cs <= bs
    ensures Fed(log, cs)
  {
    assert forall i :: 0 <= i < |cs| ==> cs[i] == bs[i] && cs[..i] == bs[..i];
  }

  lemma FedSnoc(log: seq<Row>, bs: seq<Batch>, b: Batch)
    requires Fed(log, bs) && b.start == Position(bs)
    requires 0 <= b.start <= b.end < |log| && b.rows == log[b.start..b.end + 1]
    ensures Fed(log, bs + [b])
  {
    hide Position;
    forall i | 0 <= i < |bs| + 1
      ensures 0 <= (bs + [b])[i].start <= (bs + [b])[i].end < |log|
      ensures (bs + [b])[i].start == Position((bs + [b])[..i])
      ensures (bs + [b])[i].rows == log[(bs + [b])[i].start..(bs + [b])[i].end + 1]
    {
      TakeOfSnoc(bs, b, i);
    }
  }

  lemma TakeOfSnoc<T>(xs: seq<T>, x: T, i: nat)
    requires i <= |xs|
    ensures (xs + [x])[..i] == xs[..i] && (xs + [x])[i] == if i < |xs| then xs[i] else x
    ensures xs[..|xs|] == xs
  {
  }

  // ---------------------------------------------------------------------
  // objects
  // ---------------------------------------------------------------------

  /** Every object ever put: serial seqs rise and offset ranges follow on without a gap. */
  predicate Objects(ever: seq<Sealed>) {
    && (forall i :: 0 <= i < |ever| ==>
          ever[i].file.Encodable() && I.WellCut(ever[i]) && ever[i].file.start <= ever[i].file.end)
    && (forall i, j :: 0 <= i < j < |ever| ==>
          ever[i].file.Serial() < ever[j].file.Serial() && ever[i].file.end < ever[j].file.start)
  }

  /** Where a consumer resumes: one past the last object, or nowhere. */
  function ResumeAfter(ever: seq<Sealed>): Option<int> {
    if ever == [] then None else Some(ever[|ever| - 1].file.end + 1)
  }

  /** The staged offset a writer starts with. */
  function StagedBefore(resume: Option<int>): Option<int> {
    if resume.Some? then Some(resume.value - 1) else None
  }

  predicate StoreOk(ever: seq<Sealed>, store: seq<Sealed>, gone: nat, terminal: nat) {
    && gone <= |ever| && store == ever[gone..]
    && gone <= terminal
    && (ever != [] ==> gone < |ever|)
  }

  /** The files of `ever` from position `from` on. */
  predicate Files(ever: seq<Sealed>, from: nat, fs: seq<StagedFile>) {
    from + |fs| <= |ever| && forall i :: 0 <= i < |fs| ==> fs[i] == ever[from + i].file
  }

  /** What was loaded: the terminal objects that were not skipped. */
  function Kept(xs: seq<Sealed>, skips: seq<bool>): seq<Sealed>
    requires |xs| == |skips|
  {
    if xs == [] then []
    else
      var n := |xs| - 1;
      if skips[n] then Kept(xs[..n], skips[..n]) else Kept(xs[..n], skips[..n]) + [xs[n]]
  }

  /** The server's jobs are a prefix of the objects, terminal ones first. */
  predicate ServerOk(ever: seq<Sealed>, finished: seq<StagedFile>, pending: seq<StagedFile>, skips: seq<bool>,
      loaded: seq<Sealed>) {
    && Files(ever, 0, finished) && Files(ever, |finished|, pending)
    && |skips| == |finished|
    && loaded == Kept(ever[..|finished|], skips)
  }

  // ---------------------------------------------------------------------
  // the notify queue
  // ---------------------------------------------------------------------

  /** How many files the server owns once the queue has drained, given that it owns `owned`. */
  function Drains(places: seq<nat>, owned: nat): nat {
    if places == [] then owned
    else
      var n := |places| - 1;
      var d := Drains(places[..n], owned);
      if places[n] < d then d else places[n] + 1
  }

  /** No request skips a file the server would not own by then. */
  predicate InOrder(places: seq<nat>, owned: nat) {
    forall k :: 0 <= k < |places| ==> places[k] <= Drains(places[..k], owned)
  }

  predicate QueueOk(ever: seq<Sealed>, queue: seq<StagedFile>, places: seq<nat>, owned: nat) {
    && |places| == |queue|
    && (forall k :: 0 <= k < |queue| ==> places[k] < |ever| && queue[k] == ever[places[k]].file)
    && InOrder(places, owned)
    && Drains(places, owned) <= |ever|
  }

  /** An offset the server has accepted, or none. */
  predicate Owned(ever: seq<Sealed>, owned: nat, r: Option<int>) {
    r.Some? ==> 0 < owned <= |ever| && r.value <= ever[owned - 1].file.end
  }

  function ConfirmedEnd(confirmed: Option<(int, int)>): Option<int> {
    if confirmed.Some? then Some(confirmed.value.1) else None
  }

  function Recorded(state: Option<StateFile>): Option<int> {
    if state.Some? then state.value.resume else None
  }

  /** Nothing that feeds state.json leads what the server accepted. */
  predicate RecordsOk(ever: seq<Sealed>, owned: nat, state: Option<StateFile>, confirmed: Option<(int, int)>,
      writes: seq<StateWrite>) {
    && Owned(ever, owned, Recorded(state))
    && Owned(ever, owned, ConfirmedEnd(confirmed))
    && (forall i :: 0 <= i < |writes| ==> Owned(ever, owned, writes[i].resume))
  }

  /** What a GC pass has still to delete is terminal and not the newest, and everything before it is
      gone. */
  predicate PassOk(ever: seq<Sealed>, pass: GcPass, gone: nat, terminal: nat) {
    && pass.from <= gone && Files(ever, pass.from, pass.targets)
    && pass.from + |pass.targets| <= terminal
    && (pass.targets != [] ==> pass.from + |pass.targets| < |ever|)
  }

  predicate GcOk(ever: seq<Sealed>, gc: seq<GcPass>, gone: nat, terminal: nat) {
    forall i :: 0 <= i < |gc| ==> PassOk(ever, gc[i], gone, terminal)
  }

  // ---------------------------------------------------------------------
  // the session
  // ---------------------------------------------------------------------

  /** Objects at or below the watermark are terminal. */
  predicate WatermarkOk(ever: seq<Sealed>, terminal: nat, watermark: Option<int>) {
    && EncodedWatermark(watermark)
    && (forall i :: 0 <= i < |ever| && watermark.Some? && ever[i].file.Serial() <= watermark.value ==> i < terminal)
  }

  predicate EpochAbove(ever: seq<Sealed>, epoch: nat) {
    forall i :: 0 <= i < |ever| ==> ever[i].file.epoch < epoch
  }

  /** What an opening session still has to enqueue reaches from `drains` at most to the end. */
  predicate OpeningOk(ever: seq<Sealed>, owned: nat, drains: nat, o: Opening, left: seq<StagedFile>) {
    && EpochAbove(ever, o.epoch) && o.epoch <= MAX_EPOCH_MS
    && o.resume == ResumeAfter(ever)
    && Owned(ever, owned, o.newState.resume) && o.newState.maxEpoch == o.epoch
    && |left| <= |ever| && Files(ever, |ever| - |left|, left)
    && |ever| - |left| <= drains
  }

  ghost predicate LiveOk(ever: seq<Sealed>, before: nat, log: seq<Row>, owned: nat, drains: nat, p: P.State,
                         resume: Option<int>, persisted: Option<int>) {
    && before <= |ever| && ever[before..] == p.stored
    && I.Inv(p) && !p.serialFatal
    && EpochAbove(ever[..before], p.epoch0)
    && resume == ResumeAfter(ever[..before]) && p.base == StagedBefore(resume)
    && Fed(log, I.Flat(ever[..before]) + p.accepted)
    && (p.append.AEntering? ==> Fed(log, I.Flat(ever[..before]) + p.accepted + [p.append.b]))
    && drains == before + p.announced
    && Owned(ever, owned, persisted)
  }

  ghost predicate SessionOk(w: World, owned: nat, drains: nat) {
    match w.session
    case Closed => true
    case Reading(state) => Owned(w.ever, owned, Recorded(state))
    case Asked(state, watermark) =>
      Owned(w.ever, owned, Recorded(state)) && WatermarkOk(w.ever, |w.finished|, watermark)
    case Decided(o) => OpeningOk(w.ever, owned, drains, o, o.backfill)
    case Notifying(o, left) => OpeningOk(w.ever, owned, drains, o, left)
    case Live(p, resume, persisted) => LiveOk(w.ever, w.before, w.log, owned, drains, p, resume, persisted)
  }

  /** Files the server has accepted. */
  function OwnedBy(w: World): nat {
    |w.finished| + |w.pending|
  }

  /** What the stream has put and what became of it. */
  predicate StreamOk(w: World) {
    && w.ident.Valid() && !w.violation
    && Objects(w.ever) && Fed(w.log, I.Flat(w.ever))
    && StoreOk(w.ever, w.store, w.gone, |w.finished|)
    && ServerOk(w.ever, w.finished, w.pending, w.skips, w.loaded)
    && GcOk(w.ever, w.gc, w.gone, |w.finished|)
  }

  ghost predicate Inv(w: World) {
    && StreamOk(w)
    && QueueOk(w.ever, w.queue, w.places, OwnedBy(w))
    && RecordsOk(w.ever, OwnedBy(w), w.state, w.confirmed, w.writes)
    && SessionOk(w, OwnedBy(w), Drains(w.places, OwnedBy(w)))
  }

  /** The queue and the board of another living process. While a writer is live they speak of objects
      of earlier sessions only. */
  predicate ProcessOk(w: World, p: Process) {
    && QueueOk(w.ever, p.queue, p.places, OwnedBy(w))
    && Owned(w.ever, OwnedBy(w), ConfirmedEnd(p.confirmed))
    && (w.session.Live? ==> forall i :: 0 <= i < |p.places| ==> p.places[i] < w.before)
  }

  predicate OthersOk(w: World) {
    forall k :: 0 <= k < |w.others| ==> ProcessOk(w, w.others[k])
  }

  /** The invariant, taken apart and put together without looking inside its parts. */
  lemma Parts(w: World)
    requires Inv(w)
    ensures StreamOk(w)
    ensures w.ident.Valid() && !w.violation && Objects(w.ever) && Fed(w.log, I.Flat(w.ever))
    ensures StoreOk(w.ever, w.store, w.gone, |w.finished|)
    ensures ServerOk(w.ever, w.finished, w.pending, w.skips, w.loaded)
    ensures GcOk(w.ever, w.gc, w.gone, |w.finished|)
    ensures QueueOk(w.ever, w.queue, w.places, OwnedBy(w))
    ensures RecordsOk(w.ever, OwnedBy(w), w.state, w.confirmed, w.writes)
    ensures SessionOk(w, OwnedBy(w), Drains(w.places, OwnedBy(w)))
    ensures OwnedBy(w) <= |w.ever|
  {
    hide Objects, Fed, StoreOk, GcOk, QueueOk, RecordsOk, SessionOk, Drains, Kept;
  }

  lemma Join(w: World)
    requires w.ident.Valid() && !w.violation && Objects(w.ever) && Fed(w.log, I.Flat(w.ever))
    requires StoreOk(w.ever, w.store, w.gone, |w.finished|)
    requires ServerOk(w.ever, w.finished, w.pending, w.skips, w.loaded)
    requires GcOk(w.ever, w.gc, w.gone, |w.finished|)
    requires QueueOk(w.ever, w.queue, w.places, OwnedBy(w))
    requires RecordsOk(w.ever, OwnedBy(w), w.state, w.confirmed, w.writes)
    requires SessionOk(w, OwnedBy(w), Drains(w.places, OwnedBy(w)))
    ensures Inv(w)
  {
    hide Objects, Fed, StoreOk, GcOk, QueueOk, RecordsOk, SessionOk, Drains, Kept, ServerOk;
  }
}
