/** The regions of src/table.rs that run under the writer's state lock. */
module Writer {
  import opened Base
  import opened Naming
  import opened Values

  /** A rotation unit cut out of the buffer: immutable from here on. */
  datatype Sealed = Sealed(file: StagedFile, batches: seq<Batch>)

  datatype WState = WState(
    buffered: seq<Batch>,
    bytes: nat,
    rows: nat,
    oldest: Option<int>,
    epoch: nat,
    next: nat,
    staged: Option<int>,
    lastSealed: Option<int>,
    maxEnd: Option<int>)

  // ---------------------------------------------------------------------
  // append
  // ---------------------------------------------------------------------

  predicate ValidRange(b: Batch) {
    0 <= b.start <= b.end <= I64_MAX
  }

  /** `append` refuses a batch that starts at or before the last appended end offset. */
  predicate MovesForward(st: WState, b: Batch) {
    st.maxEnd.Some? ==> st.maxEnd.value < b.start
  }

  function Push(st: WState, b: Batch, now: int): WState {
    st.(maxEnd := Some(b.end), bytes := st.bytes + b.bytes, rows := st.rows + |b.rows|,
        buffered := st.buffered + [b], oldest := if st.oldest.None? then Some(now) else st.oldest)
  }

  function Monus(a: nat, b: nat): nat {
    if a < b then 0 else a - b
  }

  /** Position of the last buffered batch with this offset range, or -1. */
  function LastPosition(bs: seq<Batch>, start: int, end: int): (i: int)
    ensures -1 <= i < |bs|
    ensures i >= 0 ==> bs[i].start == start && bs[i].end == end
    ensures forall k :: i < k < |bs| ==> !(bs[k].start == start && bs[k].end == end)
  {
    if bs == [] then -1
    else if bs[|bs| - 1].start == start && bs[|bs| - 1].end == end then |bs| - 1
    else LastPosition(bs[..|bs| - 1], start, end)
  }

  /** The search from the back. */
  method FindLast(bs: seq<Batch>, start: int, end: int) returns (i: int)
    ensures i == LastPosition(bs, start, end)
  {
    i := |bs| - 1;
    while i >= 0 && !(bs[i].start == start && bs[i].end == end)
      invariant -1 <= i < |bs|
      invariant LastPosition(bs, start, end) == LastPosition(bs[..i + 1], start, end)
    {
      assert bs[..i + 1][..i] == bs[..i];
      i := i - 1;
    }
  }

  /** unbuffer: the state afterwards, and whether the batch was still there. */
  function Unbuffer(st: WState, start: int, end: int, prevMaxEnd: Option<int>): (WState, bool) {
    var i := LastPosition(st.buffered, start, end);
    if i < 0 then (st, false)
    else
      var b := st.buffered[i];
      var left := st.buffered[..i] + st.buffered[i + 1..];
      (st.(buffered := left,
           bytes := Monus(st.bytes, b.bytes),
           rows := Monus(st.rows, |b.rows|),
           oldest := if left == [] then None else st.oldest,
           maxEnd := if st.maxEnd == Some(end) then prevMaxEnd else st.maxEnd), true)
  }

  // ---------------------------------------------------------------------
  // seal
  // ---------------------------------------------------------------------

  predicate Sealable(st: WState, agedOnly: bool, aged: bool) {
    st.buffered != [] && (agedOnly ==> st.oldest.Some? && aged)
  }

  function MinStart(bs: seq<Batch>): int
    requires bs != []
  {
    if |bs| == 1 then bs[0].start
    else
      var m := MinStart(bs[..|bs| - 1]);
      if bs[|bs| - 1].start < m then bs[|bs| - 1].start else m
  }

  function MaxEnd(bs: seq<Batch>): int
    requires bs != []
  {
    if |bs| == 1 then bs[0].end
    else
      var m := MaxEnd(bs[..|bs| - 1]);
      if m < bs[|bs| - 1].end then bs[|bs| - 1].end else m
  }

  /** The range covers every batch and is attained at both ends. */
  lemma {:induction false} SpanCovers(bs: seq<Batch>) returns (i: nat, j: nat)
    requires bs != []
    ensures forall k :: 0 <= k < |bs| ==> MinStart(bs) <= bs[k].start && bs[k].end <= MaxEnd(bs)
    ensures i < |bs| && bs[i].start == MinStart(bs)
    ensures j < |bs| && bs[j].end == MaxEnd(bs)
  {
    var n := |bs| - 1;
    if n == 0 {
      i, j := 0, 0;
    } else {
      i, j := SpanCovers(bs[..n]);
      assert forall k :: 0 <= k < n ==> bs[k] == bs[..n][k];
      if bs[n].start < MinStart(bs[..n]) { i := n; }
      if MaxEnd(bs[..n]) < bs[n].end { j := n; }
    }
  }

  /** The two folds over the buffer that give a file its offset range. */
  method OffsetSpan(bs: seq<Batch>) returns (start: int, end: int)
    requires bs != []
    ensures start == MinStart(bs) && end == MaxEnd(bs)
  {
    start, end := bs[0].start, bs[0].end;
    for i := 1 to |bs|
      invariant start == MinStart(bs[..i]) && end == MaxEnd(bs[..i])
    {
      assert bs[..i + 1][..i] == bs[..i];
      if bs[i].start < start { start := bs[i].start; }
      if bs[i].end > end { end := bs[i].end; }
    }
    assert bs[..|bs|] == bs;
  }

  /** The (epoch, seq) the next file gets: a full epoch rolls to the next one. */
  function NextKey(epoch: nat, next: nat): (nat, nat) {
    if next > MAX_SEQ then (epoch + 1, 0) else (epoch, next)
  }

  /** seal: cut the whole buffer into one file. An epoch out of range fails with the buffer
      intact, though a roll has then already moved the epoch. */
  function Seal(st: WState, compressed: bool): (r: (WState, Result<Sealed, Error>))
    requires st.buffered != []
    ensures r.1.Err? ==> r.0.buffered == st.buffered
    ensures r.1.Ok? ==> r.0.buffered == [] && r.1.value.batches == st.buffered
  {
    var (epoch, num) := NextKey(st.epoch, st.next);
    var file := StagedFile(epoch, num, MinStart(st.buffered), MaxEnd(st.buffered), compressed);
    match file.SerialSeq()
    case Err(e) => (st.(epoch := epoch, next := num), Err(e))
    case Ok(serial) =>
      (st.(epoch := epoch, next := num + 1, buffered := [], bytes := 0, rows := 0, oldest := None,
           lastSealed := Some(serial)), Ok(Sealed(file, st.buffered)))
  }

  function Wrap(r: Result<Sealed, Error>): Result<Option<Sealed>, Error> {
    if r.Ok? then Ok(Some(r.value)) else Err(r.error)
  }

  /** record_durable under the state lock. */
  function RecordDurable(st: WState, end: int): WState {
    st.(staged := Some(if st.staged.Some? then Max(st.staged.value, end) else end))
  }

  // ---------------------------------------------------------------------
  // an append taken back leaves no trace
  // ---------------------------------------------------------------------

  /** A refused append: buffer, counters, age and offset mark are as before the call. */
  lemma UnbufferUndoesPush(st: WState, b: Batch, now: int)
    requires st.buffered == [] ==> st.oldest.None?
    requires st.buffered != [] ==> st.oldest.Some?
    ensures Unbuffer(Push(st, b, now), b.start, b.end, st.maxEnd) == (st, true)
  {
    var pushed := Push(st, b, now);
    var n := |st.buffered|;
    assert pushed.buffered[..n] + pushed.buffered[n + 1..] == st.buffered;
  }

  // ---------------------------------------------------------------------
  // the state as the source holds it
  // ---------------------------------------------------------------------

  class WriterCell {
    var buffered: seq<Batch>
    var bytes: nat
    var rows: nat
    var oldest: Option<int>
    var epoch: nat
    var next: nat
    var staged: Option<int>
    var lastSealed: Option<int>
    var maxEnd: Option<int>

    function View(): WState
      reads this
    {
      WState(buffered, bytes, rows, oldest, epoch, next, staged, lastSealed, maxEnd)
    }

    constructor (initialEpoch: nat, stagedOffset: Option<int>)
      ensures View() == WState([], 0, 0, None, initialEpoch, 0, stagedOffset, None, None)
    {
      buffered, bytes, rows, oldest := [], 0, 0, None;
      epoch, next, staged, lastSealed, maxEnd := initialEpoch, 0, stagedOffset, None, None;
    }

    /** The locked part of `append`: refuse a rewind, otherwise buffer the batch. */
    method DoAppend(b: Batch, now: int) returns (r: Result<Option<int>, Error>)
      modifies this
      ensures r.Ok? <==> old(MovesForward(View(), b))
      ensures r.Ok? ==> View() == Push(old(View()), b, now) && r.value == old(maxEnd)
      ensures r.Err? ==> View() == old(View()) && r.error == Error.Config
    {
      match maxEnd {
        case Some(m) =>
          if b.start <= m {
            return Err(Error.Config);
          }
        case None =>
      }
      r := Ok(maxEnd);
      maxEnd := Some(b.end);
      bytes := bytes + b.bytes;
      rows := rows + |b.rows|;
      buffered := buffered + [b];
      if oldest.None? {
        oldest := Some(now);
      }
    }

    method DoUnbuffer(start: int, end: int, prevMaxEnd: Option<int>) returns (takenBack: bool)
      modifies this
      ensures (View(), takenBack) == Unbuffer(old(View()), start, end, prevMaxEnd)
    {
      var i := FindLast(buffered, start, end);
      if i < 0 {
        return false;
      }
      var b := buffered[i];
      buffered := buffered[..i] + buffered[i + 1..];
      bytes := Monus(bytes, b.bytes);
      rows := Monus(rows, |b.rows|);
      if buffered == [] {
        oldest := None;
      }
      if maxEnd == Some(end) {
        maxEnd := prevMaxEnd;
      }
      return true;
    }

    method DoSeal(agedOnly: bool, aged: bool, compressed: bool) returns (r: Result<Option<Sealed>, Error>)
      modifies this
      ensures !old(Sealable(View(), agedOnly, aged)) ==> View() == old(View()) && r == Ok(None)
      ensures old(Sealable(View(), agedOnly, aged)) ==>
                && View() == Seal(old(View()), compressed).0
                && r == Wrap(Seal(old(View()), compressed).1)
    {
      if buffered == [] || (agedOnly && !(oldest.Some? && aged)) {
        return Ok(None);
      }
      if next > MAX_SEQ {
        epoch, next := epoch + 1, 0;
      }
      var start, end := OffsetSpan(buffered);
      var file := StagedFile(epoch, next, start, end, compressed);
      match file.SerialSeq() {
        case Err(e) =>
          r := Err(e);
        case Ok(serial) =>
          r := Ok(Some(Sealed(file, buffered)));
          next := next + 1;
          buffered, bytes, rows, oldest := [], 0, 0, None;
          lastSealed := Some(serial);
      }
    }

    method DoRecordDurable(end: int)
      modifies this`staged
      ensures View() == RecordDurable(old(View()), end)
      ensures staged.Some? && staged.value >= end
      ensures old(staged).Some? ==> staged.value >= old(staged).value
    {
      staged := match staged {
        case Some(prev) => Some(Max(prev, end))
        case None => Some(end)
      };
    }
  }
}
