/** The writer lease: any number of processes, one shared lock object, no atomic update
    (acquire_writer_lease in src/client.rs, the heartbeat, close() and the release in src/table.rs,
    src/lock.rs). A step is one read, write or delete of the lock object, or one local decision. */
module Lease {
  import opened Base

  /** The lock object: who, and the time of the last heartbeat by the holder's clock. */
  datatype LockFile = LockFile(uuid: nat, at: nat)

  predicate Stale(l: LockFile, now: nat, lease: nat) {
    (if now < l.at then 0 else now - l.at) > lease
  }

  datatype Cause = Preempted | Deleted | Unverified | Unrenewed

  /** Where the heartbeat task stands. */
  datatype Beat =
    | Unstarted
    | Waiting              // between two ticks
    | Renewing             // has read its own uuid and is about to write it back
    | Letting              // writer dropped, own uuid read, about to delete
    | Fenced(cause: Cause)
    | Stopped

  /** Where the process stands. `joined` says that the heartbeat task was seen to end. */
  datatype Phase =
    | Looking
    | Claiming
    | Settling
    | Opening              // lease held, the table is being opened
    | Failing              // the open failed, the lease is to be given back
    | Abandoning           // own uuid read, about to delete
    | Refused
    | Open
    | Closing
    | Releasing(joined: bool, attempt: nat)
    | Deleting(joined: bool, attempt: nat)
    | Closed(joined: bool, released: bool)
    | Dropped

  datatype Process = Process(phase: Phase, beat: Beat)

  datatype World = World(lease: nat, lock: Option<LockFile>, procs: map<nat, Process>)

  function Start(lease: nat): World {
    World(lease, None, map[])
  }

  predicate Holds(w: World, p: nat) {
    w.lock.Some? && w.lock.value.uuid == p
  }

  function Put(w: World, p: nat, phase: Phase, beat: Beat): World {
    w.(procs := w.procs[p := Process(phase, beat)])
  }

  predicate In(w: World, p: nat, phase: Phase) {
    p in w.procs && w.procs[p].phase == phase
  }

  predicate Beats(w: World, p: nat, beat: Beat) {
    p in w.procs && w.procs[p].beat == beat
  }

  // ---------------------------------------------------------------------
  // acquire
  // ---------------------------------------------------------------------

  /** Every open draws a uuid of its own. */
  function DoBegin(w: World, p: nat): World {
    if p in w.procs || Holds(w, p) then w else Put(w, p, Looking, Unstarted)
  }

  /** A lock that is absent, ours, stale or provably dead is claimed; a live one is waited for. */
  function DoLook(w: World, p: nat, now: nat, dead: bool, giveUp: bool): World {
    if !In(w, p, Looking) then w
    else if w.lock.None? || Holds(w, p) || Stale(w.lock.value, now, w.lease) || dead then Put(w, p, Claiming, Unstarted)
    else if giveUp then Put(w, p, Refused, Unstarted)
    else w
  }

  /** The claim; a refused write ends the open, whether or not it landed. */
  function DoClaim(w: World, p: nat, now: nat, landed: bool, ok: bool): World {
    if !In(w, p, Claiming) then w
    else
      var t := if ok || landed then w.(lock := Some(LockFile(p, now))) else w;
      Put(t, p, if ok then Settling else Refused, Unstarted)
  }

  function DoReadBack(w: World, p: nat, ok: bool): World {
    if !In(w, p, Settling) then w
    else if ok && Holds(w, p) then Put(w, p, Opening, Unstarted)
    else Put(w, p, Refused, Unstarted)
  }

  /** The rest of the open; the heartbeat starts with the writer. */
  function DoOpened(w: World, p: nat, ok: bool): World {
    if !In(w, p, Opening) then w
    else if ok then Put(w, p, Open, Waiting)
    else Put(w, p, Failing, Unstarted)
  }

  /** A failed open gives the lease back if it is still its own. */
  function DoGiveUpRead(w: World, p: nat, ok: bool): World {
    if !In(w, p, Failing) then w
    else Put(w, p, if ok && Holds(w, p) then Abandoning else Refused, Unstarted)
  }

  function DoGiveUpDelete(w: World, p: nat, landed: bool): World {
    if !In(w, p, Abandoning) then w
    else Put(if landed then w.(lock := None) else w, p, Refused, Unstarted)
  }

  // ---------------------------------------------------------------------
  // heartbeat
  // ---------------------------------------------------------------------

  /** `expired`: nothing could be verified for a whole lease period. */
  function DoBeatRead(w: World, p: nat, ok: bool, expired: bool): World {
    if !Beats(w, p, Waiting) then w
    else
      var phase := w.procs[p].phase;
      if !ok then (if expired then Put(w, p, phase, Fenced(Unverified)) else w)
      else if w.lock.None? then Put(w, p, phase, Fenced(Deleted))
      else if Holds(w, p) then Put(w, p, phase, Renewing)
      else Put(w, p, phase, Fenced(Preempted))
  }

  function DoBeatWrite(w: World, p: nat, now: nat, landed: bool, ok: bool, expired: bool): World {
    if !Beats(w, p, Renewing) then w
    else
      var t := if ok || landed then w.(lock := Some(LockFile(p, now))) else w;
      Put(t, p, w.procs[p].phase, if !ok && expired then Fenced(Unrenewed) else Waiting)
  }

  /** The stop notification is looked at between two ticks only. */
  function DoBeatStop(w: World, p: nat): World {
    if Beats(w, p, Waiting) && !w.procs[p].phase.Open? && !w.procs[p].phase.Dropped?
    then Put(w, p, w.procs[p].phase, Stopped)
    else w
  }

  function DoLetGo(w: World, p: nat, ok: bool): World {
    if !(Beats(w, p, Waiting) && In(w, p, Dropped)) then w
    else Put(w, p, Dropped, if ok && Holds(w, p) then Letting else Stopped)
  }

  function DoLetGoDelete(w: World, p: nat, landed: bool): World {
    if !Beats(w, p, Letting) then w
    else Put(if landed then w.(lock := None) else w, p, w.procs[p].phase, Stopped)
  }

  // ---------------------------------------------------------------------
  // close
  // ---------------------------------------------------------------------

  function DoClose(w: World, p: nat): World {
    if In(w, p, Open) && !w.procs[p].beat.Fenced? then Put(w, p, Closing, w.procs[p].beat) else w
  }

  /** stop_heartbeat: wait for the task, at most 30 seconds. */
  function DoJoin(w: World, p: nat, timeout: bool): World {
    if !In(w, p, Closing) then w
    else
      var beat := w.procs[p].beat;
      var ended := beat.Stopped? || beat.Fenced?;
      if ended || timeout then Put(w, p, Releasing(ended, 1), beat) else w
  }

  /** What follows a failed attempt of release_lease. */
  function Again(joined: bool, attempt: nat): Phase {
    if attempt < 3 then Releasing(joined, attempt + 1) else Closed(joined, false)
  }

  function DoReleaseRead(w: World, p: nat, ok: bool): World {
    if p !in w.procs || !w.procs[p].phase.Releasing? then w
    else
      var Releasing(joined, attempt) := w.procs[p].phase;
      var found := if Holds(w, p) then Deleting(joined, attempt) else Closed(joined, true);
      Put(w, p, if ok then found else Again(joined, attempt), w.procs[p].beat)
  }

  function DoReleaseDelete(w: World, p: nat, landed: bool, ok: bool): World {
    if p !in w.procs || !w.procs[p].phase.Deleting? then w
    else
      var Deleting(joined, attempt) := w.procs[p].phase;
      Put(if ok || landed then w.(lock := None) else w, p,
          if ok then Closed(joined, true) else Again(joined, attempt), w.procs[p].beat)
  }

  function DoDrop(w: World, p: nat): World {
    if In(w, p, Open) then Put(w, p, Dropped, w.procs[p].beat) else w
  }

  // ---------------------------------------------------------------------
  // runs
  // ---------------------------------------------------------------------

  datatype Event =
    | Begin | Look(now: nat, dead: bool, giveUp: bool) | Claim(now: nat, landed: bool, ok: bool) | ReadBack(ok: bool)
    | Opened(ok: bool) | GiveUpRead(ok: bool) | GiveUpDelete(landed: bool)
    | BeatRead(ok: bool, expired: bool) | BeatWrite(now: nat, landed: bool, ok: bool, expired: bool) | BeatStop
    | LetGo(ok: bool) | LetGoDelete(landed: bool)
    | Close | Join(timeout: bool) | ReleaseRead(ok: bool) | ReleaseDelete(landed: bool, ok: bool) | Drop

  function Next(w: World, p: nat, e: Event): World {
    match e
    case Begin => DoBegin(w, p)
    case Look(now, dead, giveUp) => DoLook(w, p, now, dead, giveUp)
    case Claim(now, landed, ok) => DoClaim(w, p, now, landed, ok)
    case ReadBack(ok) => DoReadBack(w, p, ok)
    case Opened(ok) => DoOpened(w, p, ok)
    case GiveUpRead(ok) => DoGiveUpRead(w, p, ok)
    case GiveUpDelete(landed) => DoGiveUpDelete(w, p, landed)
    case BeatRead(ok, expired) => DoBeatRead(w, p, ok, expired)
    case BeatWrite(now, landed, ok, expired) => DoBeatWrite(w, p, now, landed, ok, expired)
    case BeatStop => DoBeatStop(w, p)
    case LetGo(ok) => DoLetGo(w, p, ok)
    case LetGoDelete(landed) => DoLetGoDelete(w, p, landed)
    case Close => DoClose(w, p)
    case Join(timeout) => DoJoin(w, p, timeout)
    case ReleaseRead(ok) => DoReleaseRead(w, p, ok)
    case ReleaseDelete(landed, ok) => DoReleaseDelete(w, p, landed, ok)
    case Drop => DoDrop(w, p)
  }

  function Run(w: World, steps: seq<(nat, Event)>): World {
    if steps == [] then w
    else
      var n := |steps| - 1;
      Next(Run(w, steps[..n]), steps[n].0, steps[n].1)
  }

  // ---------------------------------------------------------------------
  // what every step keeps
  // ---------------------------------------------------------------------

  predicate Lost(beat: Beat) {
    beat.Fenced? && (beat.cause.Preempted? || beat.cause.Deleted?)
  }

  predicate Ended(beat: Beat) {
    beat.Stopped? || beat.Fenced?
  }

  predicate JoinedPhase(phase: Phase) {
    (phase.Releasing? || phase.Deleting? || phase.Closed?) && phase.joined
  }

  predicate Gone(phase: Phase) {
    phase.Closed? && phase.joined && phase.released
  }

  predicate Before(phase: Phase) {
    || phase.Looking? || phase.Claiming? || phase.Settling? || phase.Opening? || phase.Failing? || phase.Abandoning?
    || phase.Refused?
  }

  predicate ProcessOk(s: Process, holds: bool) {
    && (Before(s.phase) ==> s.beat.Unstarted?)
    && (s.phase.Looking? || s.phase.Claiming? ==> !holds)
    && (s.beat.Letting? ==> s.phase.Dropped?)
    && (Lost(s.beat) ==> !holds)
    && (JoinedPhase(s.phase) ==> Ended(s.beat))
    && (Gone(s.phase) ==> !holds)
  }

  predicate Inv(w: World) {
    && (w.lock.Some? ==> w.lock.value.uuid in w.procs)
    && forall p :: p in w.procs ==> ProcessOk(w.procs[p], Holds(w, p))
  }

  predicate OfAcquire(e: Event) {
    e.Begin? || e.Look? || e.Claim? || e.ReadBack?
  }

  predicate OfOpen(e: Event) {
    e.Opened? || e.GiveUpRead? || e.GiveUpDelete?
  }

  predicate OfBeat(e: Event) {
    e.BeatRead? || e.BeatWrite? || e.BeatStop? || e.LetGo? || e.LetGoDelete?
  }

  lemma AcquireKeepsInv(w: World, p: nat, e: Event)
    requires Inv(w) && OfAcquire(e)
    ensures Inv(Next(w, p, e))
  {
    hide Stale;
  }

  lemma OpenKeepsInv(w: World, p: nat, e: Event)
    requires Inv(w) && OfOpen(e)
    ensures Inv(Next(w, p, e))
  {
  }

  lemma BeatKeepsInv(w: World, p: nat, e: Event)
    requires Inv(w) && OfBeat(e)
    ensures Inv(Next(w, p, e))
  {
  }

  lemma CloseKeepsInv(w: World, p: nat, e: Event)
    requires Inv(w) && !OfAcquire(e) && !OfOpen(e) && !OfBeat(e)
    ensures Inv(Next(w, p, e))
  {
  }

  lemma StepKeepsInv(w: World, p: nat, e: Event)
    requires Inv(w)
    ensures Inv(Next(w, p, e))
  {
    hide Inv, Next;
    if OfAcquire(e) {
      AcquireKeepsInv(w, p, e);
    } else if OfOpen(e) {
      OpenKeepsInv(w, p, e);
    } else if OfBeat(e) {
      BeatKeepsInv(w, p, e);
    } else {
      CloseKeepsInv(w, p, e);
    }
  }

  lemma {:induction false} RunKeepsInv(lease: nat, steps: seq<(nat, Event)>)
    ensures Inv(Run(Start(lease), steps))
  {
    hide Inv, Next;
    if steps == [] {
      StartInv(lease);
    } else {
      var n := |steps| - 1;
      RunKeepsInv(lease, steps[..n]);
      StepKeepsInv(Run(Start(lease), steps[..n]), steps[n].0, steps[n].1);
    }
  }

  lemma StartInv(lease: nat)
    ensures Inv(Start(lease))
  {
  }

  // ---------------------------------------------------------------------
  // what the lease guarantees
  // ---------------------------------------------------------------------

  /** A state that some number of processes can bring about. */
  ghost predicate Reached(w: World) {
    exists lease: nat, steps: seq<(nat, Event)> :: w == Run(Start(lease), steps)
  }

  lemma ReachedInv(w: World)
    requires Reached(w)
    ensures Inv(w)
  {
    hide Inv, Run;
    var lease: nat, steps: seq<(nat, Event)> :| w == Run(Start(lease), steps);
    RunKeepsInv(lease, steps);
  }

  /** Whoever is on the lock object has not been fenced as preempted or as deleted, however many
      acquires, renewals, releases and takeovers ran and however they interleaved. */
  lemma HolderIsNotFenced(w: World, p: nat)
    requires Reached(w) && Holds(w, p)
    ensures p in w.procs && !Lost(w.procs[p].beat)
  {
    hide Reached;
    ReachedInv(w);
  }

  /** A process that is out for good: fenced by another's lease, or closed after a joined release. */
  predicate Out(s: Process) {
    Lost(s.beat) || Gone(s.phase)
  }

  /** A process that can still put its lease on the lock object: it has not begun, has not claimed
      yet, or has a renewal on its way. */
  predicate CanWrite(w: World, p: nat) {
    p !in w.procs || In(w, p, Looking) || In(w, p, Claiming) || Beats(w, p, Renewing)
  }

  /** A step of one process leaves the others where they are and never names them as holder. */
  lemma OthersStay(w: World, q: nat, e: Event, p: nat)
    requires q != p
    ensures (p in Next(w, q, e).procs <==> p in w.procs) && (p in w.procs ==> Next(w, q, e).procs[p] == w.procs[p])
    ensures Holds(Next(w, q, e), p) <==> Holds(w, p) && Next(w, q, e).lock == w.lock
  {
    hide Stale;
  }

  lemma OwnStepIdle(w: World, e: Event, p: nat)
    requires Inv(w) && !Holds(w, p) && !CanWrite(w, p)
    ensures !Holds(Next(w, p, e), p) && !CanWrite(Next(w, p, e), p)
  {
    hide Stale;
    assert ProcessOk(w.procs[p], Holds(w, p));
    hide Inv, ProcessOk;
  }

  lemma IdleStays(w: World, q: nat, e: Event, p: nat)
    requires Inv(w) && !Holds(w, p) && !CanWrite(w, p)
    ensures !Holds(Next(w, q, e), p) && !CanWrite(Next(w, q, e), p)
  {
    hide Next, Inv;
    if q == p {
      OwnStepIdle(w, e, p);
    } else {
      OthersStay(w, q, e, p);
    }
  }

  lemma {:induction false} IdleForGood(w: World, steps: seq<(nat, Event)>, p: nat)
    requires Inv(w) && !Holds(w, p) && !CanWrite(w, p)
    ensures Inv(Run(w, steps)) && !Holds(Run(w, steps), p) && !CanWrite(Run(w, steps), p)
  {
    hide Inv, Next, CanWrite, Holds;
    if steps != [] {
      var n := |steps| - 1;
      IdleForGood(w, steps[..n], p);
      StepKeepsInv(Run(w, steps[..n]), steps[n].0, steps[n].1);
      IdleStays(Run(w, steps[..n]), steps[n].0, steps[n].1, p);
    }
  }

  /** Once close() has joined the heartbeat and released, and likewise once a process was fenced by
      another's lease, no later step puts its lease back on the lock object. */
  lemma NeverWrittenBack(w: World, steps: seq<(nat, Event)>, p: nat)
    requires Reached(w) && p in w.procs && Out(w.procs[p])
    ensures !Holds(Run(w, steps), p)
  {
    hide Reached, Run;
    ReachedInv(w);
    assert ProcessOk(w.procs[p], Holds(w, p));
    IdleForGood(w, steps, p);
  }

  /** Steps that put the lease on the lock object. */
  function Path(w: World, p: nat): seq<(nat, Event)> {
    if Beats(w, p, Renewing) then [(p, BeatWrite(0, true, true, false))]
    else if In(w, p, Claiming) then [(p, Claim(0, true, true))]
    else if In(w, p, Looking) then [(p, Look(0, true, false)), (p, Claim(0, true, true))]
    else [(p, Begin), (p, Look(0, true, false)), (p, Claim(0, true, true))]
  }

  lemma PathWrites(w: World, p: nat)
    requires !Holds(w, p) && CanWrite(w, p)
    ensures Holds(Run(w, Path(w, p)), p)
  {
    hide Stale;
    assert Run(w, []) == w;
    if Beats(w, p, Renewing) || In(w, p, Claiming) {
      RunOne(w, [], p, Path(w, p)[0].1);
      assert [] + [Path(w, p)[0]] == Path(w, p);
    } else if In(w, p, Looking) {
      TwoSteps(w, p, Look(0, true, false), Claim(0, true, true));
    } else {
      TwoSteps(w, p, Begin, Look(0, true, false));
      var path := [(p, Begin), (p, Look(0, true, false))];
      RunOne(w, path, p, Claim(0, true, true));
      assert path + [(p, Claim(0, true, true))] == Path(w, p);
    }
  }

  lemma TwoSteps(w: World, p: nat, a: Event, b: Event)
    ensures Run(w, [(p, a), (p, b)]) == Next(Next(w, p, a), p, b)
  {
    hide Next;
    RunOne(w, [], p, a);
    assert [] + [(p, a)] == [(p, a)] && Run(w, []) == w;
    RunOne(w, [(p, a)], p, b);
    assert [(p, a)] + [(p, b)] == [(p, a), (p, b)];
  }

  /** Exactly when a process that is not on the lock object can ever get there. */
  lemma ComesBackExactly(w: World, p: nat)
    requires Reached(w) && !Holds(w, p)
    ensures (exists steps: seq<(nat, Event)> :: Holds(Run(w, steps), p)) <==> CanWrite(w, p)
  {
    hide Reached, Run, CanWrite, Holds, Inv;
    ReachedInv(w);
    if CanWrite(w, p) {
      PathWrites(w, p);
    } else {
      forall steps: seq<(nat, Event)> ensures !Holds(Run(w, steps), p) {
        IdleForGood(w, steps, p);
      }
    }
  }

  /** A released lease is written back exactly if a renewal was on its way when close() went on
      without the heartbeat: after a joined release never. */
  lemma ReleasedComesBack(w: World, p: nat, joined: bool)
    requires Reached(w) && In(w, p, Closed(joined, true)) && !Holds(w, p)
    ensures (exists steps: seq<(nat, Event)> :: Holds(Run(w, steps), p)) <==> Beats(w, p, Renewing)
    ensures joined ==> !Beats(w, p, Renewing)
  {
    hide Reached, Run;
    ReachedInv(w);
    ComesBackExactly(w, p);
    assert ProcessOk(w.procs[p], Holds(w, p));
  }

  /** close() that times out on a renewal that has read the lock already: it releases, and the
      renewal then writes the lease back. */
  lemma LateRenewalWritesBack(w: World, p: nat, now: nat)
    requires In(w, p, Closing) && Beats(w, p, Renewing) && Holds(w, p)
    ensures var released := Next(Next(Next(w, p, Join(true)), p, ReleaseRead(true)), p, ReleaseDelete(true, true));
            && In(released, p, Closed(false, true)) && released.lock.None?
            && Holds(Next(released, p, BeatWrite(now, true, true, false)), p)
  {
    var a := Next(w, p, Join(true));
    assert In(a, p, Releasing(false, 1)) && Beats(a, p, Renewing);
    var b := Next(a, p, ReleaseRead(true));
    assert In(b, p, Deleting(false, 1)) && Beats(b, p, Renewing);
  }

  // ---------------------------------------------------------------------
  // runs
  // ---------------------------------------------------------------------

  lemma RunOne(w: World, steps: seq<(nat, Event)>, p: nat, e: Event)
    ensures Run(w, steps + [(p, e)]) == Next(Run(w, steps), p, e)
  {
    assert (steps + [(p, e)])[..|steps|] == steps;
  }

  lemma RunStep(lease: nat, steps: seq<(nat, Event)>, w: World, p: nat, e: Event)
    requires w == Run(Start(lease), steps)
    ensures Next(w, p, e) == Run(Start(lease), steps + [(p, e)]) && Reached(Next(w, p, e))
  {
    hide Next;
    RunOne(Start(lease), steps, p, e);
  }

  lemma StepReached(w: World, p: nat, e: Event)
    requires Reached(w)
    ensures Reached(Next(w, p, e))
  {
    hide Next, Run;
    var lease: nat, steps: seq<(nat, Event)> :| w == Run(Start(lease), steps);
    RunStep(lease, steps, w, p, e);
  }

  /** Any process can open while the lock is absent or stale: begin, look, claim, read back, open. */
  lemma Opens(w: World, p: nat, now: nat) returns (t: World)
    requires Reached(w) && p !in w.procs && !Holds(w, p)
    requires w.lock.Some? ==> Stale(w.lock.value, now, w.lease)
    ensures Reached(t) && t == World(w.lease, Some(LockFile(p, now)), w.procs[p := Process(Open, Waiting)])
  {
    hide Reached;
    StepReached(w, p, Begin);
    var a := Next(w, p, Begin);
    StepReached(a, p, Look(now, false, false));
    var b := Next(a, p, Look(now, false, false));
    assert b.procs == w.procs[p := Process(Claiming, Unstarted)];
    StepReached(b, p, Claim(now, true, true));
    var c := Next(b, p, Claim(now, true, true));
    StepReached(c, p, ReadBack(true));
    var d := Next(c, p, ReadBack(true));
    assert d.procs == w.procs[p := Process(Opening, Unstarted)];
    StepReached(d, p, Opened(true));
    t := Next(d, p, Opened(true));
  }

  lemma StartReached(lease: nat)
    ensures Reached(Start(lease))
  {
    assert Start(lease) == Run(Start(lease), []);
  }

  /** A first writer that is closed in the middle of a renewal. */
  lemma ClosedWhileRenewing(lease: nat, p: nat) returns (w: World)
    ensures Reached(w) && In(w, p, Closing) && Beats(w, p, Renewing) && Holds(w, p)
  {
    hide Reached;
    StartReached(lease);
    var a := Opens(Start(lease), p, 0);
    StepReached(a, p, BeatRead(true, false));
    var b := Next(a, p, BeatRead(true, false));
    StepReached(b, p, Close);
    w := Next(b, p, Close);
  }

  // ---------------------------------------------------------------------
  // a lease, not a mutex
  // ---------------------------------------------------------------------

  function Holder(w: World): Option<nat> {
    if w.lock.Some? then Some(w.lock.value.uuid) else None
  }

  /** A claim that slipped past the read-back of another: of two open writers that check the lock
      while it stays with one holder at most one goes on to renew, the other is fenced for good. */
  lemma OneReaderRenews(w: World, steps: seq<(nat, Event)>, p: nat, q: nat)
    requires p != q && Beats(w, p, Waiting) && Beats(Run(w, steps), q, Waiting) && Holder(Run(w, steps)) == Holder(w)
    ensures var a, b := Next(w, p, BeatRead(true, false)), Next(Run(w, steps), q, BeatRead(true, false));
            && (Beats(a, p, Renewing) || Lost(a.procs[p].beat)) && (Beats(b, q, Renewing) || Lost(b.procs[q].beat))
            && !(Beats(a, p, Renewing) && Beats(b, q, Renewing))
  {
    hide Run;
  }

  /** A writer that pauses in a renewal, and one that takes the stale lease over. */
  lemma TwoRenewing(lease: nat, p: nat, q: nat) returns (w: World)
    requires p != q
    ensures Reached(w) && Beats(w, p, Renewing) && Beats(w, q, Renewing)
  {
    hide Reached;
    StartReached(lease);
    var a := Opens(Start(lease), p, 0);
    StepReached(a, p, BeatRead(true, false));
    var b := Next(a, p, BeatRead(true, false));
    assert b.procs == map[p := Process(Open, Renewing)];
    var c := Opens(b, q, lease + 1);
    StepReached(c, q, BeatRead(true, false));
    w := Next(c, q, BeatRead(true, false));
  }

  function Rounds(p: nat, q: nat, n: nat): seq<(nat, Event)> {
    if n == 0 then []
    else
      var ofP := [(p, BeatWrite(n, true, true, false)), (p, BeatRead(true, false))];
      var ofQ := [(q, BeatWrite(n, true, true, false)), (q, BeatRead(true, false))];
      Rounds(p, q, n - 1) + ofP + ofQ
  }

  /** It is a lease, not a mutex: two renewals that have both read their own uuid can take turns as
      often as they like without either writer being fenced. */
  lemma {:induction false} RenewalsCanAlternate(w: World, p: nat, q: nat, n: nat)
    requires p != q && Beats(w, p, Renewing) && Beats(w, q, Renewing)
    ensures Beats(Run(w, Rounds(p, q, n)), p, Renewing) && Beats(Run(w, Rounds(p, q, n)), q, Renewing)
  {
    if n > 0 {
      RenewalsCanAlternate(w, p, q, n - 1);
      var a := Run(w, Rounds(p, q, n - 1));
      Round(a, p, q, n);
      hide Next, Run, Beats;
      Joined(w, Rounds(p, q, n - 1), p, BeatWrite(n, true, true, false), BeatRead(true, false));
      Joined(w, Rounds(p, q, n - 1) + [(p, BeatWrite(n, true, true, false)), (p, BeatRead(true, false))],
             q, BeatWrite(n, true, true, false), BeatRead(true, false));
    }
  }

  lemma Joined(w: World, steps: seq<(nat, Event)>, p: nat, a: Event, b: Event)
    ensures Run(w, steps + [(p, a), (p, b)]) == Next(Next(Run(w, steps), p, a), p, b)
  {
    hide Next;
    RunOne(w, steps, p, a);
    RunOne(w, steps + [(p, a)], p, b);
    assert steps + [(p, a)] + [(p, b)] == steps + [(p, a), (p, b)];
  }

  lemma Renews(w: World, p: nat, now: nat)
    requires Beats(w, p, Renewing)
    ensures var t := Next(Next(w, p, BeatWrite(now, true, true, false)), p, BeatRead(true, false));
            Beats(t, p, Renewing) && forall q :: q != p && q in w.procs ==> q in t.procs && t.procs[q] == w.procs[q]
  {
  }

  lemma Round(w: World, p: nat, q: nat, now: nat)
    requires p != q && Beats(w, p, Renewing) && Beats(w, q, Renewing)
    ensures var a := Next(Next(w, p, BeatWrite(now, true, true, false)), p, BeatRead(true, false));
            var t := Next(Next(a, q, BeatWrite(now, true, true, false)), q, BeatRead(true, false));
            Beats(t, p, Renewing) && Beats(t, q, Renewing)
  {
    hide Next;
    Renews(w, p, now);
    Renews(Next(Next(w, p, BeatWrite(now, true, true, false)), p, BeatRead(true, false)), q, now);
  }

  // ---------------------------------------------------------------------
  // what a release deletes
  // ---------------------------------------------------------------------

  predicate OfOthers(steps: seq<(nat, Event)>, p: nat) {
    forall i :: 0 <= i < |steps| ==> steps[i].0 != p
  }

  /** Some step changes the lock object. */
  predicate LockTouched(w: World, steps: seq<(nat, Event)>) {
    exists i :: 0 <= i < |steps| && Run(w, steps[..i + 1]).lock != Run(w, steps[..i]).lock
  }

  /** Between the read and the delete of a release only other processes act: the delete then finds
      its own lease exactly if none of them has touched the lock object. */
  lemma {:induction false} ReleaseHitsOwn(w: World, steps: seq<(nat, Event)>, p: nat)
    requires Holds(w, p) && OfOthers(steps, p)
    ensures Holds(Run(w, steps), p) <==> !LockTouched(w, steps)
  {
    hide Next, Holds;
    if steps != [] {
      var n := |steps| - 1;
      ReleaseHitsOwn(w, steps[..n], p);
      OthersStay(Run(w, steps[..n]), steps[n].0, steps[n].1, p);
      TouchedSnoc(w, steps);
    } else {
      assert Run(w, steps) == w;
    }
  }

  lemma TouchedSnoc(w: World, steps: seq<(nat, Event)>)
    requires steps != []
    ensures var n := |steps| - 1;
            LockTouched(w, steps) <==> LockTouched(w, steps[..n]) || Run(w, steps).lock != Run(w, steps[..n]).lock
  {
    hide Run;
    var n := |steps| - 1;
    assert steps[..n + 1] == steps;
    assert forall i :: 0 <= i <= n ==> steps[..n][..i] == steps[..i];
  }

  /** close() joins the heartbeat and reads its own lease. */
  lemma Releases(w: World, p: nat) returns (t: World)
    requires Reached(w) && In(w, p, Open) && Beats(w, p, Waiting) && Holds(w, p)
    ensures Reached(t) && t == w.(procs := w.procs[p := Process(Deleting(true, 1), Stopped)])
  {
    hide Reached;
    StepReached(w, p, Close);
    var b := Next(w, p, Close);
    StepReached(b, p, BeatStop);
    var c := Next(b, p, BeatStop);
    StepReached(c, p, Join(false));
    var d := Next(c, p, Join(false));
    assert d == w.(procs := w.procs[p := Process(Releasing(true, 1), Stopped)]);
    StepReached(d, p, ReleaseRead(true));
    t := Next(d, p, ReleaseRead(true));
  }

  /** A release that has read its own lease, and a claimant that saw it stale. */
  lemma DeletingAgainstClaim(lease: nat, p: nat, q: nat) returns (w: World)
    requires p != q
    ensures Reached(w) && In(w, p, Deleting(true, 1)) && Holds(w, p) && In(w, q, Claiming)
  {
    hide Reached;
    StartReached(lease);
    var a := Opens(Start(lease), p, 0);
    var b := Releases(a, p);
    StepReached(b, q, Begin);
    var c := Next(b, q, Begin);
    StepReached(c, q, Look(lease + 1, false, false));
    w := Next(c, q, Look(lease + 1, false, false));
  }

  /** The release reads and deletes in two steps, so it can take away a claim that came in between;
      the claimant then finds the lock gone and its open fails. */
  lemma ReleaseCanHitSuccessor(w: World, p: nat, q: nat, now: nat, joined: bool, attempt: nat)
    requires p != q && In(w, p, Deleting(joined, attempt)) && In(w, q, Claiming)
    ensures var t := Next(Next(Next(w, q, Claim(now, true, true)), p, ReleaseDelete(true, true)), q, ReadBack(true));
            In(t, p, Closed(joined, true)) && t.lock.None? && In(t, q, Refused)
  {
    var a := Next(w, q, Claim(now, true, true));
    var b := Next(a, p, ReleaseDelete(true, true));
    assert b.lock.None? && In(b, q, Settling);
  }

  // ---------------------------------------------------------------------
  // a live lease is respected
  // ---------------------------------------------------------------------

  /** Nobody but the holder `p` has a write or a delete of the lock object on its way. */
  predicate NobodyElseActs(w: World, p: nat) {
    forall q :: q in w.procs && q != p ==>
      var s := w.procs[q];
      && !s.phase.Claiming? && !s.phase.Abandoning? && !s.phase.Deleting?
      && !s.beat.Renewing? && !s.beat.Letting?
  }

  /** A look that finds the lease of `p` in force: read no more than the lease period after its last
      renewal, by a process that cannot tell that the holder is dead. */
  predicate FindsItAlive(w: World, e: Event) {
    e.Look? ==> !e.dead && (w.lock.Some? ==> e.now - w.lock.value.at <= w.lease)
  }

  /** The holder deletes nothing, and every look of another process finds the lease in force. */
  predicate Alive(w: World, q: nat, e: Event, p: nat) {
    if q == p then !e.ReleaseDelete? && !e.GiveUpDelete? && !e.LetGoDelete? else FindsItAlive(w, e)
  }

  predicate AliveThroughout(w: World, steps: seq<(nat, Event)>, p: nat) {
    forall i :: 0 <= i < |steps| ==> Alive(Run(w, steps[..i]), steps[i].0, steps[i].1, p)
  }

  lemma OwnStepKeeps(w: World, e: Event, p: nat)
    requires Inv(w) && Holds(w, p) && NobodyElseActs(w, p) && Alive(w, p, e, p)
    ensures Holds(Next(w, p, e), p) && NobodyElseActs(Next(w, p, e), p)
  {
    hide Stale;
    assert ProcessOk(w.procs[p], true);
    forall q | q in w.procs && q != p
      ensures q in Next(w, p, e).procs && Next(w, p, e).procs[q] == w.procs[q]
    {
      OthersStay(w, p, e, q);
    }
    hide Inv, ProcessOk;
  }

  lemma OtherStepKeeps(w: World, q: nat, e: Event, p: nat)
    requires Inv(w) && Holds(w, p) && NobodyElseActs(w, p) && q != p && Alive(w, q, e, p)
    ensures Holds(Next(w, q, e), p) && NobodyElseActs(Next(w, q, e), p)
  {
    forall r | r in w.procs && r != p && r != q
      ensures r in Next(w, q, e).procs && Next(w, q, e).procs[r] == w.procs[r]
    {
      OthersStay(w, q, e, r);
    }
    hide Inv;
  }

  lemma {:induction false} AliveKeeps(w: World, steps: seq<(nat, Event)>, p: nat)
    requires Inv(w) && Holds(w, p) && NobodyElseActs(w, p) && AliveThroughout(w, steps, p)
    ensures var t := Run(w, steps); Inv(t) && Holds(t, p) && NobodyElseActs(t, p)
  {
    hide Inv, Next, NobodyElseActs, Alive, Holds;
    if steps != [] {
      var n := |steps| - 1;
      assert forall i :: 0 <= i < n ==> steps[..n][..i] == steps[..i];
      AliveKeeps(w, steps[..n], p);
      var t := Run(w, steps[..n]);
      StepKeepsInv(t, steps[n].0, steps[n].1);
      if steps[n].0 == p {
        OwnStepKeeps(t, steps[n].1, p);
      } else {
        OtherStepKeeps(t, steps[n].0, steps[n].1, p);
      }
    }
  }

  /** While a lease is renewed in time nobody else gets on the lock object: it stays with its holder
      through every interleaving in which no look comes later than the lease period after the last
      renewal or knows the holder dead, and in which the holder gives nothing back. */
  lemma LiveLeaseIsRespected(w: World, steps: seq<(nat, Event)>, p: nat)
    requires Reached(w) && Holds(w, p) && NobodyElseActs(w, p) && AliveThroughout(w, steps, p)
    ensures Holds(Run(w, steps), p)
    ensures forall q :: q != p ==> !Holds(Run(w, steps), q) && !In(Run(w, steps), q, Claiming)
  {
    hide Reached, Run, Inv;
    ReachedInv(w);
    AliveKeeps(w, steps, p);
  }

  lemma RefusedStays(w: World, q: nat, e: Event, p: nat)
    requires In(w, p, Refused) && Inv(w)
    ensures In(Next(w, q, e), p, Refused)
  {
    hide Stale;
    if q != p {
      OthersStay(w, q, e, p);
    } else {
      assert ProcessOk(w.procs[p], Holds(w, p));
    }
  }

  lemma {:induction false} RefusedForGood(w: World, steps: seq<(nat, Event)>, p: nat)
    requires In(w, p, Refused) && Inv(w)
    ensures In(Run(w, steps), p, Refused)
  {
    hide Inv, Next, In;
    if steps != [] {
      var n := |steps| - 1;
      RefusedForGood(w, steps[..n], p);
      KeepsInv(w, steps[..n]);
      RefusedStays(Run(w, steps[..n]), steps[n].0, steps[n].1, p);
    }
  }

  lemma {:induction false} KeepsInv(w: World, steps: seq<(nat, Event)>)
    requires Inv(w)
    ensures Inv(Run(w, steps))
  {
    hide Inv, Next;
    if steps != [] {
      var n := |steps| - 1;
      KeepsInv(w, steps[..n]);
      StepKeepsInv(Run(w, steps[..n]), steps[n].0, steps[n].1);
    }
  }

  /** A looker waits while the lease is in force; when it gives up, its open is refused for good, with
      the lock object untouched. */
  lemma LookerIsRefused(w: World, q: nat, now: nat, giveUp: bool, steps: seq<(nat, Event)>)
    requires Reached(w) && In(w, q, Looking) && w.lock.Some? && now - w.lock.value.at <= w.lease
    ensures var t := Next(w, q, Look(now, false, giveUp));
            && t.lock == w.lock
            && (!giveUp ==> t == w)
            && (giveUp ==> In(t, q, Refused) && In(Run(t, steps), q, Refused))
  {
    hide Reached, Run;
    ReachedInv(w);
    assert ProcessOk(w.procs[q], Holds(w, q));
    StepKeepsInv(w, q, Look(now, false, giveUp));
    if giveUp {
      RefusedForGood(Next(w, q, Look(now, false, giveUp)), steps, q);
    }
  }

  /** Otherwise, with the lock absent, older than the lease period or its holder known dead, the look
      leads to a claim. */
  lemma LookerClaims(w: World, q: nat, now: nat, dead: bool, giveUp: bool)
    requires In(w, q, Looking) && (w.lock.None? || now - w.lock.value.at > w.lease || dead)
    ensures In(Next(w, q, Look(now, dead, giveUp)), q, Claiming)
  {
  }

  // ---------------------------------------------------------------------
  // a release ends
  // ---------------------------------------------------------------------

  /** The attempt a release is at. */
  function Attempt(phase: Phase): nat {
    if phase.Releasing? || phase.Deleting? then phase.attempt else 1
  }

  predicate ThreeAtMost(w: World) {
    forall p :: p in w.procs ==> 1 <= Attempt(w.procs[p].phase) <= 3
  }

  lemma StepKeepsAttempts(w: World, q: nat, e: Event)
    requires ThreeAtMost(w)
    ensures ThreeAtMost(Next(w, q, e))
  {
    hide Stale;
    forall p | p in Next(w, q, e).procs ensures 1 <= Attempt(Next(w, q, e).procs[p].phase) <= 3 {
      if p != q {
        OthersStay(w, q, e, p);
      } else {
        OwnAttempt(w, q, e);
      }
    }
  }

  lemma OwnAttempt(w: World, q: nat, e: Event)
    requires ThreeAtMost(w) && q in Next(w, q, e).procs
    ensures 1 <= Attempt(Next(w, q, e).procs[q].phase) <= 3
  {
    hide Stale, Holds;
  }

  lemma {:induction false} AttemptsStay(lease: nat, steps: seq<(nat, Event)>)
    ensures ThreeAtMost(Run(Start(lease), steps))
  {
    hide Next, ThreeAtMost;
    if steps != [] {
      var n := |steps| - 1;
      AttemptsStay(lease, steps[..n]);
      StepKeepsAttempts(Run(Start(lease), steps[..n]), steps[n].0, steps[n].1);
    } else {
      assert ThreeAtMost(Start(lease)) by { NoProcs(lease); }
    }
  }

  lemma NoProcs(lease: nat)
    ensures ThreeAtMost(Start(lease))
  {
  }

  /** A release fails its reads or deletes at most three times before close() gives up on it, and
      gives up only then. */
  lemma ReleaseEnds(w: World, p: nat, joined: bool, attempt: nat)
    requires Reached(w) && In(w, p, Releasing(joined, attempt))
    ensures 1 <= attempt <= 3
    ensures var after := if attempt == 3 then Closed(joined, false) else Releasing(joined, attempt + 1);
            In(Next(w, p, ReleaseRead(false)), p, after)
  {
    hide Run;
    var lease: nat, steps: seq<(nat, Event)> :| w == Run(Start(lease), steps);
    AttemptsStay(lease, steps);
    assert Attempt(w.procs[p].phase) == attempt;
  }

  // ---------------------------------------------------------------------
  // reads before writes
  // ---------------------------------------------------------------------

  /** Nobody opens, renews or deletes without having read its own lease in the step before. */
  lemma ActsOnlyOnOwnLease(w: World, p: nat, e: Event)
    requires p in w.procs && p in Next(w, p, e).procs
    ensures var s, t := w.procs[p], Next(w, p, e).procs[p];
            (t.phase.Opening? && !s.phase.Opening?) || (t.phase.Abandoning? && !s.phase.Abandoning?) ||
            (t.phase.Deleting? && !s.phase.Deleting?) || (t.beat.Renewing? && !s.beat.Renewing?) ||
            (t.beat.Letting? && !s.beat.Letting?) ==>
              Holds(w, p)
  {
    hide Stale;
  }

  lemma FencedStays(w: World, q: nat, e: Event, p: nat)
    requires Inv(w) && p in w.procs && w.procs[p].beat.Fenced?
    ensures p in Next(w, q, e).procs && Next(w, q, e).procs[p].beat == w.procs[p].beat
  {
    hide Stale;
    if q != p {
      OthersStay(w, q, e, p);
    } else {
      assert ProcessOk(w.procs[p], Holds(w, p));
      hide Inv, ProcessOk;
    }
  }

  /** A heartbeat that could verify or renew nothing for a whole lease period fences its writer, and no
      writer is ever unfenced. */
  lemma {:induction false} SilenceFencesForGood(w: World, p: nat, now: nat, landed: bool, steps: seq<(nat, Event)>)
    requires Inv(w)
    ensures Beats(w, p, Waiting) ==>
              Beats(Run(Next(w, p, BeatRead(false, true)), steps), p, Fenced(Unverified))
    ensures Beats(w, p, Renewing) ==>
              Beats(Run(Next(w, p, BeatWrite(now, landed, false, true)), steps), p, Fenced(Unrenewed))
  {
    if Beats(w, p, Waiting) {
      StepKeepsInv(w, p, BeatRead(false, true));
      FencedForGood(Next(w, p, BeatRead(false, true)), steps, p, Unverified);
    }
    if Beats(w, p, Renewing) {
      StepKeepsInv(w, p, BeatWrite(now, landed, false, true));
      FencedForGood(Next(w, p, BeatWrite(now, landed, false, true)), steps, p, Unrenewed);
    }
  }

  lemma {:induction false} FencedForGood(w: World, steps: seq<(nat, Event)>, p: nat, cause: Cause)
    requires Inv(w) && Beats(w, p, Fenced(cause))
    ensures Beats(Run(w, steps), p, Fenced(cause))
  {
    hide Inv, Next;
    if steps != [] {
      var n := |steps| - 1;
      FencedForGood(w, steps[..n], p, cause);
      KeepsInv(w, steps[..n]);
      FencedStays(Run(w, steps[..n]), steps[n].0, steps[n].1, p);
    }
  }
}
