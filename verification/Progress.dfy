/** The progress slot that `flush` and `close` wait on (src/table.rs).

    The pure functions say what one update does to the slot; the class is the slot itself. */
module Progress {
  import opened Base

  datatype FailKind = StageFailure | PipelineGone | Fenced | OrderViolation | Rotation {
    /** Whether the entry records a stopped writer rather than a file still being retried. */
    predicate IsTerminal() {
      match this
      case StageFailure => false
      case PipelineGone => true
      case Fenced => true
      case OrderViolation => true
      case Rotation => true
    }
  }

  datatype Failing = Failing(
    serial: int,
    stage: Stage,
    attempts: nat,
    permanent: bool,
    cause: Option<Error>,
    kind: FailKind)

  datatype Slot = Slot(durable: Option<int>, failing: Option<Failing>) {
    predicate Stopped() {
      failing.Some? && failing.value.kind.IsTerminal()
    }

    predicate DurableThrough(target: int) {
      durable.Some? && durable.value >= target
    }
  }

  predicate IsPermanent(e: Error) {
    e.Schema? || e.UnsupportedType?
  }

  function CloneError(e: Error): Error {
    if e.Schema? || e.UnsupportedType? || e.Naming? || e.Config? then e else Error.Config
  }

  // ---------------------------------------------------------------------
  // updates of the slot
  // ---------------------------------------------------------------------

  function TerminalEntry(kind: FailKind, stage: Stage, cause: Option<Error>): Failing {
    Failing(I64_MIN, stage, 0, true, cause, kind)
  }

  function PublishTerminal(p: Slot, kind: FailKind, stage: Stage, cause: Option<Error>): Slot {
    if p.Stopped() then p else p.(failing := Some(TerminalEntry(kind, stage, cause)))
  }

  function ReportFailure(p: Slot, serial: int, stage: Stage, attempts: nat, err: Error): Slot {
    if p.Stopped() then p
    else if p.failing.Some? && p.failing.value.serial < serial then p
    else
      var permanent := IsPermanent(err);
      var cause := if permanent then Some(CloneError(err)) else None;
      p.(failing := Some(Failing(serial, stage, attempts, permanent, cause, StageFailure)))
  }

  function ClearFailure(p: Slot, serial: int): Slot {
    if p.failing.Some? && p.failing.value.serial == serial then p.(failing := None) else p
  }

  function Land(p: Slot, serial: int): Slot {
    var catches := p.failing.Some? && !p.failing.value.kind.IsTerminal() && p.failing.value.serial <= serial;
    Slot(Some(serial), if catches then None else p.failing)
  }

  // ---------------------------------------------------------------------
  // what a waiter is told
  // ---------------------------------------------------------------------

  function TerminalError(f: Failing): Error {
    match f.kind
    case StageFailure => (
      match f.cause
      case Some(c) => RotationFailed(f.stage, c)
      case None => StagingStalled(f.attempts))
    case PipelineGone => WriterClosed
    case Fenced => WriterFenced
    case OrderViolation => StagingOrderViolation
    case Rotation => RotationFailed(f.stage, if f.cause.Some? then f.cause.value else Error.Config)
  }

  /** `after` is `staging_error_after_attempts`. */
  function StallError(p: Slot, target: int, after: nat): Option<Error> {
    match p.failing
    case None => None
    case Some(f) =>
      if f.serial > target || !(f.permanent || f.attempts >= after) then None else Some(TerminalError(f))
  }

  /** pipeline_gone: the slot afterwards and the error handed to the caller. */
  function PipelineGoneUpdate(p: Slot): (Slot, Error) {
    if p.Stopped() then (p, TerminalError(p.failing.value))
    else (p.(failing := Some(TerminalEntry(PipelineGone, Whole, None))), WriterClosed)
  }

  // ---------------------------------------------------------------------
  // every sequence of updates
  // ---------------------------------------------------------------------

  datatype Update =
    | Publish(kind: FailKind, stage: Stage, cause: Option<Error>)
    | Report(serial: int, stage: Stage, attempts: nat, err: Error)
    | Clear(serial: int)
    | Landed(serial: int)
    | Gone
  {
    /** Updates made by the pipeline name a file, and a file's serial_seq is never negative. */
    predicate NamesAFile() {
      (Report? || Clear? || Landed?) ==> serial >= 0
    }
  }

  function Apply(p: Slot, u: Update): Slot {
    match u
    case Publish(kind, stage, cause) => PublishTerminal(p, kind, stage, cause)
    case Report(serial, stage, attempts, err) => ReportFailure(p, serial, stage, attempts, err)
    case Clear(serial) => ClearFailure(p, serial)
    case Landed(serial) => Land(p, serial)
    case Gone => PipelineGoneUpdate(p).0
  }

  function ApplyAll(p: Slot, us: seq<Update>): Slot
    decreases us
  {
    if us == [] then p else ApplyAll(Apply(p, us[0]), us[1..])
  }

  /** A terminal entry sits below every serial_seq. */
  ghost predicate TerminalAtMinimum(p: Slot) {
    p.Stopped() ==> p.failing.value.serial == I64_MIN
  }

  /** The first terminal entry outlives every later sequence of updates. */
  lemma {:induction false} FirstTerminalEntryStays(p: Slot, us: seq<Update>)
    requires p.Stopped() && TerminalAtMinimum(p)
    requires forall u :: u in us ==> u.NamesAFile()
    ensures ApplyAll(p, us).failing == p.failing
    decreases us
  {
    if us != [] {
      assert us[0] in us;
      FirstTerminalEntryStays(Apply(p, us[0]), us[1..]);
    }
  }

  /** The entry is protected against `clear_failure` by its serial number alone. */
  lemma ClearSparesTerminalEntry(p: Slot, serial: int)
    requires p.Stopped() && TerminalAtMinimum(p)
    ensures ClearFailure(p, serial).failing == p.failing <==> serial != I64_MIN
  {
  }

  /** Once stopped, every waiter whatever its target is told the same error. */
  lemma StoppedTellsEveryWaiter(p: Slot, target: int, after: nat)
    requires p.Stopped() && TerminalAtMinimum(p) && p.failing.value.permanent && target >= I64_MIN
    ensures StallError(p, target, after) == Some(TerminalError(p.failing.value))
    ensures !TerminalError(p.failing.value).StagingStalled?
  {
  }

  // ---------------------------------------------------------------------
  // the slot as the source holds it
  // ---------------------------------------------------------------------

  class ProgressSlot {
    var durable: Option<int>
    var failing: Option<Failing>

    function View(): Slot
      reads this
    {
      Slot(durable, failing)
    }

    constructor ()
      ensures View() == Slot(None, None)
    {
      durable, failing := None, None;
    }

    /** Returns whether this call wrote the entry. */
    method DoPublishTerminal(kind: FailKind, stage: Stage, cause: Option<Error>) returns (wrote: bool)
      modifies this
      ensures View() == PublishTerminal(old(View()), kind, stage, cause)
      ensures wrote <==> !old(View().Stopped())
      ensures kind.IsTerminal() ==> View().Stopped()
    {
      match failing {
        case Some(f) =>
          if f.kind.IsTerminal() {
            return false;
          }
        case None =>
      }
      failing := Some(Failing(I64_MIN, stage, 0, true, cause, kind));
      return true;
    }

    method DoReportFailure(serial: int, stage: Stage, attempt: nat, err: Error)
      modifies this
      ensures View() == ReportFailure(old(View()), serial, stage, attempt, err)
    {
      match failing {
        case Some(f) =>
          if f.kind.IsTerminal() || f.serial < serial {
            return;
          }
        case None =>
      }
      var permanent := IsPermanent(err);
      var cause := None;
      if permanent {
        cause := Some(CloneError(err));
      }
      failing := Some(Failing(serial, stage, attempt, permanent, cause, StageFailure));
    }

    method DoClearFailure(serial: int)
      modifies this
      ensures View() == ClearFailure(old(View()), serial)
    {
      match failing {
        case Some(f) =>
          if f.serial == serial {
            failing := None;
          }
        case None =>
      }
    }

    method DoLand(serial: int)
      modifies this
      ensures View() == Land(old(View()), serial)
    {
      durable := Some(serial);
      match failing {
        case Some(f) =>
          if !f.kind.IsTerminal() && f.serial <= serial {
            failing := None;
          }
        case None =>
      }
    }

    method DoPipelineGone() returns (err: Error)
      modifies this
      ensures (View(), err) == PipelineGoneUpdate(old(View()))
      ensures View().Stopped()
    {
      match failing {
        case Some(f) =>
          if f.kind.IsTerminal() {
            return TerminalError(f);
          }
        case None =>
      }
      failing := Some(Failing(I64_MIN, Whole, 0, true, None, PipelineGone));
      return WriterClosed;
    }
  }
}
