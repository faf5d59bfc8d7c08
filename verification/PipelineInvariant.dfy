/** What every step of the rotation pipeline keeps. */
module PipelineInvariant {
  import opened Base
  import opened Naming
  import opened Values
  import opened Progress
  import opened Writer
  import opened Pipeline

  // ---------------------------------------------------------------------
  // the batches of a sequence of files
  // ---------------------------------------------------------------------

  function Flat(xs: seq<Sealed>): seq<Batch> {
    if xs == [] then [] else Flat(xs[..|xs| - 1]) + xs[|xs| - 1].batches
  }

  lemma FlatSnoc(xs: seq<Sealed>, x: Sealed)
    ensures Flat(xs + [x]) == Flat(xs) + x.batches
  {
    assert (xs + [x])[..|xs|] == xs;
  }

  lemma {:induction false} FlatPrefix(xs: seq<Sealed>, k: nat)
    requires k <= |xs|
    ensures |Flat(xs[..k])| <= |Flat(xs)| && Flat(xs[..k]) == Flat(xs)[..|Flat(xs[..k])|]
  {
    if k == |xs| {
      assert xs[..k] == xs;
    } else {
      var ys := xs[..|xs| - 1];
      FlatPrefix(ys, k);
      assert ys[..k] == xs[..k];
    }
  }

  /** The staged offset after recording `xs` on top of what was staged at open. */
  function StagedAfter(base: Option<int>, xs: seq<Sealed>): Option<int> {
    if xs == [] then base
    else
      var p := StagedAfter(base, xs[..|xs| - 1]);
      var end := xs[|xs| - 1].file.end;
      Some(if p.Some? then Max(p.value, end) else end)
  }

  lemma StagedAfterSnoc(base: Option<int>, xs: seq<Sealed>, n: nat)
    requires n < |xs|
    ensures var p := StagedAfter(base, xs[..n]);
            var end := xs[n].file.end;
            StagedAfter(base, xs[..n + 1]) == Some(if p.Some? then Max(p.value, end) else end)
  {
    assert xs[..n + 1][..n] == xs[..n];
  }

  // ---------------------------------------------------------------------
  // the invariant, part by part; each part names exactly the state it depends on
  // ---------------------------------------------------------------------

  /** Channel capacities; a reserved permit takes a place. */
  predicate Caps(cap: nat, q1: seq<Sealed>, q2: seq<Sealed>, q3: seq<Sealed>, permits: nat) {
    |q1| + permits <= cap && |q2| <= 1 && |q3| <= 1
  }

  /** Who holds the seal lock, and how far each kind of holder can be. */
  predicate Locks(sealing: Sealing, appendInSeal: bool, flushInSeal: bool) {
    && (appendInSeal <==> sealing.Holding? && sealing.who.Producer?)
    && (flushInSeal <==> sealing.Holding? && sealing.who.Flusher?)
    && (sealing.Holding? && sealing.who.Ticker? ==> sealing.phase == Cleared(true) || sealing.phase.Cut?)
    && (sealing.Holding? && sealing.phase == Cleared(true) ==> sealing.who.Ticker?)
  }

  predicate HandIsLast(cut: seq<Sealed>, hand: seq<Sealed>) {
    hand != [] ==> |hand| == 1 && cut != [] && cut[|cut| - 1] == hand[0]
  }

  /** Only the put stage has a gate before and bookkeeping after its attempts. */
  predicate PlainPc(pc: Pc) {
    !pc.Gate? && !pc.Recorded? && !pc.Announced?
  }

  predicate Known(cut: seq<Sealed>, xs: seq<Sealed>) {
    forall x :: x in xs ==> x in cut
  }

  /** Every file in a stage's hands was cut out of the buffer. */
  predicate Files(cut: seq<Sealed>, q1: seq<Sealed>, q2: seq<Sealed>, q3: seq<Sealed>, render: Pc, gzip: Pc, put: Pc) {
    && Known(cut, q1) && Known(cut, q2) && Known(cut, q3)
    && Known(cut, render.Held()) && Known(cut, gzip.Held()) && Known(cut, put.Held())
  }

  /** `line` is what follows the first `d` files. */
  predicate Chunk(line: seq<Sealed>, cut: seq<Sealed>, d: nat) {
    d + |line| <= |cut| && line == cut[d..d + |line|]
  }

  function Line1(put: Pc, q3: seq<Sealed>): seq<Sealed> {
    put.Held() + q3
  }

  function Line2(put: Pc, q3: seq<Sealed>, gzip: Pc, q2: seq<Sealed>): seq<Sealed> {
    Line1(put, q3) + gzip.Held() + q2
  }

  function Line3(put: Pc, q3: seq<Sealed>, gzip: Pc, q2: seq<Sealed>, render: Pc, q1: seq<Sealed>,
      hand: seq<Sealed>): seq<Sealed> {
    Line2(put, q3, gzip, q2) + render.Held() + q1 + hand
  }

  /** Read from the put stage backwards, the pipeline holds the files after the durable ones, in
      order and without a gap, as far upstream as no stage has stopped. */
  predicate Chain(cut: seq<Sealed>, done: nat, put: Pc, q3: seq<Sealed>, gzip: Pc, q2: seq<Sealed>,
                  render: Pc, q1: seq<Sealed>, hand: seq<Sealed>) {
    && done <= |cut|
    && (put.Live() ==> Chunk(Line1(put, q3), cut, done))
    && (put.Live() && gzip.Live() ==> Chunk(Line2(put, q3, gzip, q2), cut, done))
    && (put.Live() && gzip.Live() && render.Live() ==>
          var line := Line3(put, q3, gzip, q2, render, q1, hand);
          Chunk(line, cut, done) && done + |line| == |cut|)
  }

  /** What is on storage and announced, by where the put stage stands. */
  predicate Stored(cut: seq<Sealed>, stored: seq<Sealed>, done: nat, announced: nat, prev: Option<StagedFile>,
      put: Pc) {
    && |stored| <= |cut| && stored == cut[..|stored|]
    && done <= |stored| <= done + 1
    && (put.Idle? || put.Gate? ==> |stored| == done)
    && (put.Passing? || put.Sending? || put.Recorded? || put.Announced? ==> |stored| == done + 1)
    && announced == (if put.Announced? then done + 1 else done)
    && prev == (if announced == 0 then None else Some(cut[announced - 1].file))
  }

  /** Files whose offset has been recorded as staged. */
  function RecordedCount(done: nat, put: Pc): nat {
    if put.Recorded? || put.Announced? then done + 1 else done
  }

  predicate Staged(base: Option<int>, cut: seq<Sealed>, recorded: nat, staged: Option<int>) {
    recorded <= |cut| && staged == StagedAfter(base, cut[..recorded])
  }

  predicate Durable(cut: seq<Sealed>, done: nat, durable: Option<int>) {
    done <= |cut| && durable == (if done == 0 then None else Some(cut[done - 1].file.Serial()))
  }

  /** Offsets move forward. */
  predicate Forward(bs: seq<Batch>) {
    && (forall i :: 0 <= i < |bs| ==> ValidRange(bs[i]))
    && (forall i, j :: 0 <= i < j < |bs| ==> bs[i].end < bs[j].start)
  }

  function LastEnd(bs: seq<Batch>): Option<int> {
    if bs == [] then None else Some(bs[|bs| - 1].end)
  }

  predicate WellCut(x: Sealed) {
    && x.batches != []
    && x.file.start == x.batches[0].start
    && x.file.end == x.batches[|x.batches| - 1].end
  }

  /** Conservation: the batches of all cut files, then the buffer, are the accepted batches. */
  predicate History(cut: seq<Sealed>, buffered: seq<Batch>, oldest: Option<int>, maxEnd: Option<int>,
      accepted: seq<Batch>) {
    && Flat(cut) + buffered == accepted
    && Forward(accepted)
    && maxEnd == LastEnd(accepted)
    && (buffered == [] <==> oldest.None?)
    && (forall i :: 0 <= i < |cut| ==> WellCut(cut[i]))
  }

  /** Serial numbers are dense from the session's first. */
  predicate Keys(cut: seq<Sealed>, epoch0: nat, epoch: nat, next: nat, lastSealed: Option<int>) {
    && (forall i :: 0 <= i < |cut| ==>
          cut[i].file.Encodable() && cut[i].file.Serial() == Pack(epoch0, 0) + i)
    && next <= SEQ_SPAN
    && Pack(epoch, next) == Pack(epoch0, 0) + |cut|
    && lastSealed == (if cut == [] then None else Some(cut[|cut| - 1].file.Serial()))
  }

  predicate IsStopped(failing: Option<Failing>) {
    failing.Some? && failing.value.kind.IsTerminal()
  }

  /** A stage that has stopped left a terminal entry with a cause `fatal_state` reports. */
  predicate Terminal(orderFatal: bool, fenced: bool, failing: Option<Failing>, allLive: bool) {
    && !orderFatal
    && (!allLive ==> IsStopped(failing))
    && (IsStopped(failing) ==>
          var f := failing.value;
          f.serial == I64_MIN && f.permanent && (f.kind.Rotation? || (f.kind.Fenced? && fenced)))
  }

  predicate AllLive(s: State) {
    s.render.Live() && s.gzip.Live() && s.put.Live()
  }

  predicate Retrying(pc: Pc, f: Failing) {
    && f.attempts > 0
    && (if f.permanent then pc.Dying? && f.cause.Some?
        else (pc.Top? || pc.Running? || pc.Passing?) && f.cause.None?)
    && pc.n == f.attempts
    && pc.x.file.Serial() == f.serial
  }

  /** A stage entry names a file that stage is working on, with its current attempt count. */
  predicate SlotTrue(failing: Option<Failing>, render: Pc, gzip: Pc, put: Pc) {
    failing.Some? && !IsStopped(failing) ==>
      var f := failing.value;
      match f.stage
      case Render => Retrying(render, f)
      case Gzip => Retrying(gzip, f)
      case Put => Retrying(put, f)
      case Whole => false
  }

  /** The part of the writer state that `append` writes. */
  datatype Buffer = Buffer(buffered: seq<Batch>, bytes: nat, rows: nat, oldest: Option<int>, maxEnd: Option<int>)

  function BufferOf(w: WState): Buffer {
    Buffer(w.buffered, w.bytes, w.rows, w.oldest, w.maxEnd)
  }

  /** A pending append: its batch is the last accepted one, and is either still at the end of an
      otherwise untouched buffer or gone with the whole buffer into a file. */
  predicate Appending(append: Append, accepted: seq<Batch>, buffer: Buffer) {
    && (append.AEntering? ==> ValidRange(append.b))
    && (append.Pending() ==>
          && accepted != [] && accepted[|accepted| - 1] == append.b
          && (append.before.buffered == [] <==> append.before.oldest.None?)
          && append.before.maxEnd == LastEnd(accepted[..|accepted| - 1])
          && (buffer.buffered == [] || buffer == BufferOf(Push(append.before, append.b, append.now))))
  }

  /** A flush waits for files that hold every batch accepted before the call. */
  predicate Flushing(flush: Flush, settled: nat, hand: seq<Sealed>, cut: seq<Sealed>, done: nat) {
    match flush
    case FIdle => true
    case FTrying(mark) => mark <= settled
    case FWaiting(mark) => mark <= settled
    case FInSeal(mark) => mark <= settled && (hand != [] ==> mark <= |Flat(cut)|)
    case FReadLast(mark) => mark <= |Flat(cut)|
    case FAwaiting(mark, target, upto) =>
      0 < upto <= |cut| && target == cut[upto - 1].file.Serial() && mark <= |Flat(cut[..upto])|
    case FReading(mark, upto) => upto <= done && upto <= |cut| && mark <= |Flat(cut[..upto])|
  }

  predicate Bound(cap: nat, cut: nat, done: nat, promised: nat) {
    cut - done + promised <= cap + 5
  }

  ghost predicate Inv(s: State) {
    && Caps(s.cfg.Capacity(), s.q1, s.q2, s.q3, s.sealing.Permits())
    && Locks(s.sealing, s.append.AInSeal?, s.flush.FInSeal?)
    && HandIsLast(s.cut, s.sealing.Hand())
    && PlainPc(s.render) && PlainPc(s.gzip)
    && Files(s.cut, s.q1, s.q2, s.q3, s.render, s.gzip, s.put)
    && Chain(s.cut, s.done, s.put, s.q3, s.gzip, s.q2, s.render, s.q1, s.sealing.Hand())
    && Stored(s.cut, s.stored, s.done, s.announced, s.prev, s.put)
    && Staged(s.base, s.cut, RecordedCount(s.done, s.put), s.w.staged)
    && Durable(s.cut, s.done, s.slot.durable)
    && History(s.cut, s.w.buffered, s.w.oldest, s.w.maxEnd, s.accepted)
    && Keys(s.cut, s.epoch0, s.w.epoch, s.w.next, s.w.lastSealed)
    && Terminal(s.orderFatal, s.fenced, s.slot.failing, AllLive(s))
    && SlotTrue(s.slot.failing, s.render, s.gzip, s.put)
    && Appending(s.append, s.accepted, BufferOf(s.w))
    && Flushing(s.flush, Settled(s), s.sealing.Hand(), s.cut, s.done)
    && Bound(s.cfg.Capacity(), |s.cut|, s.done, s.sealing.Promised())
  }
}
