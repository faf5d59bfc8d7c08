/** One stream over any number of writer sessions: open, append, put, submit, load, garbage
    collection, state writes, process crashes and reopens
    (src/client.rs, src/notify.rs, src/recovery.rs, gc_pass and persist_state_if_due in src/table.rs).

    The live session is a `Pipeline.State`. The server is an environment with the documented
    contract: a submission at or below the watermark or with a known identifier is idempotent,
    jobs become terminal in seq order, the watermark is the largest terminal seq. */
module Sessions {
  import opened Base
  import opened Naming
  import opened Values
  import opened Writer
  import opened Recovery
  import P = Pipeline

  /** A call of persist_state_if_due between its look at the state and its write; `owner` is the
      number of the session that made it. */
  datatype StateWrite = StateWrite(resume: Option<int>, epoch: nat, owner: nat)

  /** Where the stream is between and inside sessions. */
  datatype Session =
    | Closed
    | Reading(state: Option<StateFile>)              // lease held, state.json read
    | Asked(state: Option<StateFile>, watermark: Option<int>)
    | Decided(o: Opening)                            // listing read, epoch chosen
    | Notifying(o: Opening, left: seq<StagedFile>)   // state.json written, backfill being enqueued
    | Live(p: P.State, resume: Option<int>, persisted: Option<int>)

  /** A garbage collection pass under way: what it has still to delete, oldest first. `from` is the
      position of the first of them among all objects ever put. */
  datatype GcPass = GcPass(from: nat, targets: seq<StagedFile>)

  /** Another living process that wrote the stream before: its notify FIFO goes on, and it has a
      board of its own. */
  datatype Process = Process(queue: seq<StagedFile>, places: seq<nat>, confirmed: Option<(int, int)>)

  datatype World = World(
    cfg: P.Settings,
    ident: WriterIdentity,
    log: seq<Row>,                      // the Kafka log; offsets are positions
    session: Session,
    opens: nat,                         // sessions that have gone live
    writes: seq<StateWrite>,            // state writes in flight: the ticker's, close()'s, an ended session's
    gc: seq<GcPass>,                    // GC passes under way, those of ended sessions included
    queue: seq<StagedFile>,             // the notify FIFO; survives the writer, not the process
    confirmed: Option<(int, int)>,      // newest accepted (serial_seq, end offset)
    others: seq<Process>,               // processes the stream has moved away from
    store: seq<Sealed>,                 // objects in the staging directory
    state: Option<StateFile>,           // state.json
    pending: seq<StagedFile>,           // server jobs not yet terminal, in acceptance order
    finished: seq<StagedFile>,          // terminal jobs, in the order they became terminal
    loaded: seq<Sealed>,                // objects loaded into the table, in load order
    violation: bool,                    // the server has reported a contract violation
    // history
    ever: seq<Sealed>,                  // every object ever put, in put order
    before: nat,                        // how many of them precede the live session
    gone: nat,                          // how many of them GC has deleted
    places: seq<nat>,                   // position in `ever` of each queued request
    skips: seq<bool>)                   // which terminal jobs an operator skipped

  function Fresh(cfg: P.Settings, ident: WriterIdentity, log: seq<Row>): World {
    World(cfg, ident, log, Closed, 0, [], [], [], None, [], [], None, [], [], [], false, [], 0, 0, [], [])
  }

  function FilesOf(xs: seq<Sealed>): seq<StagedFile> {
    seq(|xs|, i requires 0 <= i < |xs| => xs[i].file)
  }

  // ---------------------------------------------------------------------
  // the server
  // ---------------------------------------------------------------------

  function Watermark(w: World): Option<int> {
    if w.finished == [] then None else Some(w.finished[|w.finished| - 1].Serial())
  }

  datatype SubmitOutcome = Accepted | Idempotent | ContractViolation

  predicate Knows(w: World, jobs: seq<StagedFile>, f: StagedFile) {
    exists i :: 0 <= i < |jobs| && jobs[i].IdentifierText(w.ident) == f.IdentifierText(w.ident)
  }

  /** The submission gate. */
  function Gate(w: World, f: StagedFile): SubmitOutcome {
    if Watermark(w).Some? && f.Serial() <= Watermark(w).value then Idempotent
    else if Knows(w, w.pending, f) || Knows(w, w.finished, f) then Idempotent
    else if exists i :: 0 <= i < |w.pending| && w.pending[i].Serial() == f.Serial() then ContractViolation
    else Accepted
  }

  function Submitted(w: World, f: StagedFile): World {
    if Gate(w, f).Accepted? then w.(pending := w.pending + [f]) else w
  }

  function Lookup(store: seq<Sealed>, f: StagedFile): Option<Sealed> {
    if store == [] then None
    else if store[|store| - 1].file == f then Some(store[|store| - 1])
    else Lookup(store[..|store| - 1], f)
  }

  /** Job `i` becomes terminal: the lowest seq of the group, loaded from its object or skipped by
      an operator. A load whose object is missing fails and leaves the job where it is. */
  function DoFinish(w: World, i: nat, skip: bool): World {
    if i >= |w.pending| || exists j :: 0 <= j < |w.pending| && w.pending[j].Serial() < w.pending[i].Serial() then w
    else
      var f := w.pending[i];
      var x := Lookup(w.store, f);
      if !skip && x.None? then w
      else w.(pending := w.pending[..i] + w.pending[i + 1..], finished := w.finished + [f], skips := w.skips + [skip],
              loaded := if skip then w.loaded else w.loaded + [x.value])
  }

  // ---------------------------------------------------------------------
  // the notify loop
  // ---------------------------------------------------------------------

  function Confirm(confirmed: Option<(int, int)>, f: StagedFile): Option<(int, int)> {
    match confirmed
    case None => Some((f.Serial(), f.end))
    case Some((serial, _)) => if f.Serial() >= serial then Some((f.Serial(), f.end)) else confirmed
  }

  /** The head of the queue is submitted. With `answered` false the answer is lost on the way: the
      request stays and is sent again. */
  function DoSubmit(w: World, answered: bool): World {
    if w.queue == [] || w.places == [] then w
    else
      var f := w.queue[0];
      var t := Submitted(w, f);
      if !answered then t
      else if Gate(w, f).ContractViolation? then
        var u := t.(queue := t.queue[1..], places := t.places[1..], violation := true);
        if u.session.Live? then u.(session := u.session.(p := P.Next(u.session.p, P.SerialViolation))) else u
      else t.(queue := t.queue[1..], places := t.places[1..], confirmed := Confirm(t.confirmed, f))
  }

  // ---------------------------------------------------------------------
  // open_table
  // ---------------------------------------------------------------------

  function DoReadState(w: World): World {
    if !w.session.Closed? then w else w.(session := Reading(w.state))
  }

  /** The watermark query; an old server without the function answers nothing. */
  function DoAsk(w: World, known: bool): World {
    if !w.session.Reading? then w
    else w.(session := Asked(w.session.state, if known then Watermark(w) else None))
  }

  predicate EncodedWatermark(watermark: Option<int>) {
    watermark.Some? ==> 0 <= watermark.value <= I64_MAX
  }

  /** LIST and the clock: the plan and the epoch. */
  function DoDecide(w: World, now: nat): World {
    if !w.session.Asked? || !EncodedWatermark(w.session.watermark) then w
    else
      match Decide(FilesOf(w.store), w.session.watermark, w.session.state, now)
      case Err(_) => w.(session := Closed)
      case Ok(o) => w.(session := Decided(o))
  }

  function DoWriteState(w: World): World {
    if !w.session.Decided? then w
    else w.(session := Notifying(w.session.o, w.session.o.backfill), state := Some(w.session.o.newState))
  }

  /** One enqueue of the backfill; after the last one the writer starts. */
  function DoBackfill(w: World): World {
    if !w.session.Notifying? then w
    else
      var o, left := w.session.o, w.session.left;
      if left != [] then
        w.(session := Notifying(o, left[1..]), queue := w.queue + [left[0]],
           places := w.places + [if |left| <= |w.ever| then |w.ever| - |left| else 0])
      else
        var staged := if o.resume.Some? then Some(o.resume.value - 1) else None;
        w.(session := Live(P.Init(w.cfg, o.epoch, staged), o.resume, o.newState.resume),
           before := |w.ever|, opens := w.opens + 1)
  }

  // ---------------------------------------------------------------------
  // a live session
  // ---------------------------------------------------------------------

  /** The next offset the caller feeds: after its last accepted batch, or where recovery told it to
      seek; without a record it starts at offset 0. */
  function NextOffset(p: P.State, resume: Option<int>): int {
    if p.accepted != [] then p.accepted[|p.accepted| - 1].end + 1
    else if resume.Some? then resume.value
    else 0
  }

  /** The caller's contract: contiguous offsets, and the rows the log has there. */
  predicate Feeds(w: World, p: P.State, resume: Option<int>, step: P.Step) {
    step.AppendBegin? ==>
      && step.b.start == NextOffset(p, resume)
      && 0 <= step.b.start <= step.b.end < |w.log|
      && step.b.rows == w.log[step.b.start..step.b.end + 1]
  }

  function DoWriter(w: World, step: P.Step): World {
    if !w.session.Live? || !Feeds(w, w.session.p, w.session.resume, step) || step.SerialViolation? then w
    else
      var p := w.session.p;
      var q := P.Next(p, step);
      var put := |q.stored| > |p.stored|;
      var told := q.announced > p.announced && q.put.Announced?;
      w.(session := w.session.(p := q),
         store := if put then w.store + [q.stored[|q.stored| - 1]] else w.store,
         ever := if put then w.ever + [q.stored[|q.stored| - 1]] else w.ever,
         queue := if told then w.queue + [q.put.x.file] else w.queue,
         places := if told then w.places + [w.before + p.announced] else w.places)
  }

  /** The locked look of persist_state_if_due: forward only, or a heartbeat of what is recorded. */
  function DoPersistRead(w: World, heartbeat: bool): World {
    if !w.session.Live? || w.session.p.fenced then w
    else
      var c := if w.confirmed.Some? then Some(w.confirmed.value.1) else None;
      var r := w.session.persisted;
      var advanced := c.Some? && (r.Some? ==> c.value > r.value);
      if !advanced && !heartbeat then w
      else
        var resume := if c.Some? && r.Some? then Some(Max(c.value, r.value)) else if c.Some? then c else r;
        w.(writes := w.writes + [StateWrite(resume, w.session.p.w.epoch, w.opens)])
  }

  /** The write of call `i`, unless its writer was fenced meanwhile. Storage may refuse it, or take
      it and lose the answer. */
  function DoPersistWrite(w: World, i: nat, landed: bool, answered: bool): World {
    if i >= |w.writes| then w
    else
      var call := w.writes[i];
      var t := w.(writes := w.writes[..i] + w.writes[i + 1..]);
      var own := w.session.Live? && call.owner == w.opens;
      if !landed || (own && w.session.p.fenced) then t
      else
        var u := t.(state := Some(StateFile(call.resume, call.epoch)));
        if own && answered then u.(session := u.session.(persisted := call.resume)) else u
  }

  /** A GC pass starts; `asOf` jobs had finished when it asked for the watermark. */
  function DoGcStart(w: World, asOf: nat, now: nat, keep: Retention): World {
    if !w.session.Live? || w.session.p.fenced || asOf == 0 || asOf > |w.finished| then w
    else w.(gc := w.gc + [GcPass(w.gone, GcTargets(FilesOf(w.store), w.finished[asOf - 1].Serial(), now, keep))])
  }

  function Without(store: seq<Sealed>, f: StagedFile): seq<Sealed> {
    if store == [] then []
    else
      var r := Without(store[1..], f);
      if store[0].file == f then r else [store[0]] + r
  }

  /** One delete of pass `i`; a failed one ends the pass. Deleting what another pass has deleted
      changes nothing. */
  function DoGcDelete(w: World, i: nat, ok: bool): World {
    if i >= |w.gc| || w.gc[i].targets == [] then w
    else if !ok then w.(gc := w.gc[i := w.gc[i].(targets := [])])
    else
      var left := Without(w.store, w.gc[i].targets[0]);
      w.(store := left, gc := w.gc[i := GcPass(w.gc[i].from + 1, w.gc[i].targets[1..])],
         gone := if |left| < |w.store| then w.gone + 1 else w.gone)
  }

  /** The session ends: close, drop, fence, a failed open. The process lives on, and with it the
      notify queue, the state writes on their way and the GC passes under way. */
  function DoEnd(w: World): World {
    w.(session := Closed)
  }

  /** The process dies with its notify queue and its board. A state write or a GC pass of this
      process takes no further step; one of another process may. */
  function DoCrash(w: World): World {
    w.(session := Closed, queue := [], places := [], confirmed := None)
  }

  // ---------------------------------------------------------------------
  // more than one process
  // ---------------------------------------------------------------------

  /** The stream moves to another living process, or to a new one; the old one keeps notifying. */
  function DoMove(w: World, k: nat): World {
    if !w.session.Closed? then w
    else
      var here := Process(w.queue, w.places, w.confirmed);
      if k >= |w.others| then w.(others := w.others + [here], queue := [], places := [], confirmed := None)
      else
        var there := w.others[k];
        w.(others := w.others[k := here], queue := there.queue, places := there.places, confirmed := there.confirmed)
  }

  /** The head of another process's queue is submitted. */
  function DoSubmitElsewhere(w: World, k: nat, answered: bool): World {
    if k >= |w.others| || w.others[k].queue == [] || w.others[k].places == [] then w
    else
      var p := w.others[k];
      var f := p.queue[0];
      var t := Submitted(w, f);
      if !answered then t
      else if Gate(w, f).ContractViolation? then
        t.(others := t.others[k := Process(p.queue[1..], p.places[1..], p.confirmed)], violation := true)
      else t.(others := t.others[k := Process(p.queue[1..], p.places[1..], Confirm(p.confirmed, f))])
  }

  function DoDie(w: World, k: nat): World {
    if k >= |w.others| then w else w.(others := w.others[..k] + w.others[k + 1..])
  }

  // ---------------------------------------------------------------------
  // runs
  // ---------------------------------------------------------------------

  datatype Event =
    | ReadState | Ask(known: bool) | DecideEpoch(now: nat) | WriteState | Backfill
    | WriterStep(step: P.Step)
    | Submit(answered: bool) | Finish(i: nat, skip: bool)
    | PersistRead(heartbeat: bool) | PersistWrite(i: nat, landed: bool, answered: bool)
    | GcStart(asOf: nat, now: nat, keep: Retention) | GcDelete(i: nat, ok: bool)
    | EndSession | Crash
    | Move(k: nat) | SubmitElsewhere(k: nat, answered: bool) | Die(k: nat)

  function Next(w: World, e: Event): World {
    match e
    case ReadState => DoReadState(w)
    case Ask(known) => DoAsk(w, known)
    case DecideEpoch(now) => DoDecide(w, now)
    case WriteState => DoWriteState(w)
    case Backfill => DoBackfill(w)
    case WriterStep(step) => DoWriter(w, step)
    case Submit(answered) => DoSubmit(w, answered)
    case Finish(i, skip) => DoFinish(w, i, skip)
    case PersistRead(heartbeat) => DoPersistRead(w, heartbeat)
    case PersistWrite(i, landed, answered) => DoPersistWrite(w, i, landed, answered)
    case GcStart(asOf, now, keep) => DoGcStart(w, asOf, now, keep)
    case GcDelete(i, ok) => DoGcDelete(w, i, ok)
    case EndSession => DoEnd(w)
    case Crash => DoCrash(w)
    case Move(k) => DoMove(w, k)
    case SubmitElsewhere(k, answered) => DoSubmitElsewhere(w, k, answered)
    case Die(k) => DoDie(w, k)
  }

  function Run(w: World, events: seq<Event>): World {
    if events == [] then w else Next(Run(w, events[..|events| - 1]), events[|events| - 1])
  }
}
