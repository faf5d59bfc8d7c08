/** Recovery planning and garbage collection of the staging directory
    (src/recovery.rs, the decisions of open_table_locked in src/client.rs, gc_pass in src/table.rs). */
module Recovery {
  import opened Base
  import opened Naming

  datatype RecoveryPlan = RecoveryPlan(
    resume: Option<int>,
    backfill: seq<StagedFile>,
    maxStaged: Option<(nat, nat)>)

  // ---------------------------------------------------------------------
  // sorting a listing
  // ---------------------------------------------------------------------

  predicate Sorted(fs: seq<StagedFile>) {
    forall i, j :: 0 <= i < j < |fs| ==> !PairLess(fs[j].Key(), fs[i].Key())
  }

  predicate StrictlySorted(fs: seq<StagedFile>) {
    forall i, j :: 0 <= i < j < |fs| ==> PairLess(fs[i].Key(), fs[j].Key())
  }

  method SortByKey(fs: seq<StagedFile>) returns (r: seq<StagedFile>)
    ensures Sorted(r) && multiset(r) == multiset(fs)
  {
    r := [];
    for i := 0 to |fs|
      invariant Sorted(r) && multiset(r) == multiset(fs[..i])
    {
      assert fs[..i + 1] == fs[..i] + [fs[i]];
      r := InsertSorted(r, fs[i]);
    }
    assert fs[..|fs|] == fs;
  }

  method InsertSorted(fs: seq<StagedFile>, f: StagedFile) returns (r: seq<StagedFile>)
    requires Sorted(fs)
    ensures Sorted(r) && multiset(r) == multiset(fs) + multiset{f}
  {
    var k := |fs|;
    while k > 0 && PairLess(f.Key(), fs[k - 1].Key())
      invariant 0 <= k <= |fs|
      invariant forall j :: k <= j < |fs| ==> PairLess(f.Key(), fs[j].Key())
    {
      k := k - 1;
    }
    assert fs == fs[..k] + fs[k..];
    InsertKeepsSorted(fs, k, f);
    r := fs[..k] + [f] + fs[k..];
  }

  lemma InsertKeepsSorted(fs: seq<StagedFile>, k: nat, f: StagedFile)
    requires Sorted(fs) && k <= |fs|
    requires forall j :: k <= j < |fs| ==> PairLess(f.Key(), fs[j].Key())
    requires k > 0 ==> !PairLess(f.Key(), fs[k - 1].Key())
    ensures Sorted(fs[..k] + [f] + fs[k..])
  {
    var r := fs[..k] + [f] + fs[k..];
    forall i, j | 0 <= i < j < |r| ensures !PairLess(r[j].Key(), r[i].Key()) {
      if j == k {
        assert r[i] == fs[i];
        if i < k - 1 { assert !PairLess(fs[k - 1].Key(), fs[i].Key()); }
      } else if i == k {
        assert r[j] == fs[j - 1];
      } else {
        assert r[i] == fs[if i < k then i else i - 1] && r[j] == fs[if j < k then j else j - 1];
      }
    }
  }

  /** A listing without duplicate keys has one sorted order, whatever order LIST returned. */
  lemma {:induction false} SortedOrderUnique(a: seq<StagedFile>, b: seq<StagedFile>)
    requires StrictlySorted(a) && Sorted(b) && multiset(a) == multiset(b)
    ensures a == b
  {
    assert |a| == |multiset(a)| == |multiset(b)| == |b|;
    if a != [] {
      SameHead(a, b);
      var x := a[0];
      assert a == [x] + a[1..] && b == [x] + b[1..];
      TailsMatch(a[1..], b[1..], x);
      SortedOrderUnique(a[1..], b[1..]);
    }
  }

  lemma TailsMatch(a: seq<StagedFile>, b: seq<StagedFile>, x: StagedFile)
    requires multiset([x] + a) == multiset([x] + b)
    ensures multiset(a) == multiset(b)
  {
    assert multiset([x] + a) == multiset{x} + multiset(a);
    assert multiset([x] + b) == multiset{x} + multiset(b);
    assert multiset(a) == multiset([x] + a) - multiset{x};
  }

  lemma SameHead(a: seq<StagedFile>, b: seq<StagedFile>)
    requires StrictlySorted(a) && Sorted(b) && multiset(a) == multiset(b) && a != [] && b != []
    ensures a[0] == b[0]
  {
    assert b[0] in multiset(a) && a[0] in multiset(b);
    var i :| 0 <= i < |a| && a[i] == b[0];
    var j :| 0 <= j < |b| && b[j] == a[0];
    assert forall m :: 0 < m < |a| ==> PairLess(a[0].Key(), a[m].Key());
    assert forall m :: 0 < m < |b| ==> !PairLess(b[m].Key(), b[0].Key());
  }

  // ---------------------------------------------------------------------
  // plan_recovery on a sorted listing
  // ---------------------------------------------------------------------

  predicate AllEncodable(fs: seq<StagedFile>) {
    forall i :: 0 <= i < |fs| ==> fs[i].SerialSeq().Ok?
  }

  /** One past the largest end offset staged. */
  function ResumeOffset(fs: seq<StagedFile>): Option<int> {
    if fs == [] then None
    else
      var r := ResumeOffset(fs[..|fs| - 1]);
      var next := fs[|fs| - 1].end + 1;
      Some(if r.Some? then Max(r.value, next) else next)
  }

  predicate AboveWatermark(f: StagedFile, watermark: Option<int>) {
    watermark.Some? ==> f.Serial() > watermark.value
  }

  /** The files above the watermark, in listing order. */
  function Above(fs: seq<StagedFile>, watermark: Option<int>): seq<StagedFile> {
    if fs == [] then []
    else
      var r := Above(fs[..|fs| - 1], watermark);
      if AboveWatermark(fs[|fs| - 1], watermark) then r + [fs[|fs| - 1]] else r
  }

  function PlanOf(fs: seq<StagedFile>, watermark: Option<int>): Result<RecoveryPlan, Error> {
    if AllEncodable(fs) then
      Ok(RecoveryPlan(ResumeOffset(fs), Above(fs, watermark), if fs == [] then None else Some(fs[|fs| - 1].Key())))
    else Err(Error.Naming)
  }

  method PlanRecovery(staged: seq<StagedFile>, watermark: Option<int>) returns (r: Result<RecoveryPlan, Error>)
    ensures exists fs :: Sorted(fs) && multiset(fs) == multiset(staged) && r == PlanOf(fs, watermark)
  {
    var fs := SortByKey(staged);
    var resume := LargestEnd(fs);
    var maxStaged := if fs == [] then None else Some(fs[|fs| - 1].Key());
    var backfill := PickBackfill(fs, watermark);
    if backfill.Err? {
      return Err(backfill.error);
    }
    r := Ok(RecoveryPlan(resume, backfill.value, maxStaged));
  }

  /** The fold over end offsets. */
  method LargestEnd(fs: seq<StagedFile>) returns (resume: Option<int>)
    ensures resume == ResumeOffset(fs)
  {
    resume := None;
    for i := 0 to |fs|
      invariant resume == ResumeOffset(fs[..i])
    {
      assert fs[..i + 1][..i] == fs[..i];
      var next := fs[i].end + 1;
      resume := Some(if resume.Some? then Max(resume.value, next) else next);
    }
    assert fs[..|fs|] == fs;
  }

  /** The loop that fills the backfill list, or fails on the first name that cannot be encoded. */
  method PickBackfill(fs: seq<StagedFile>, watermark: Option<int>) returns (r: Result<seq<StagedFile>, Error>)
    ensures r == if AllEncodable(fs) then Ok(Above(fs, watermark)) else Err(Error.Naming)
  {
    var backfill := [];
    for i := 0 to |fs|
      invariant AllEncodable(fs[..i])
      invariant backfill == Above(fs[..i], watermark)
    {
      assert fs[..i + 1][..i] == fs[..i];
      match fs[i].SerialSeq() {
        case Err(e) =>
          return Err(e);
        case Ok(serial) =>
          if watermark.None? || serial > watermark.value {
            backfill := backfill + [fs[i]];
          }
      }
    }
    assert fs[..|fs|] == fs;
    r := Ok(backfill);
  }

  // ---------------------------------------------------------------------
  // what a well-formed listing gives
  // ---------------------------------------------------------------------

  /** What the sessions of one stream leave behind: encodable names in strict key order, offset
      ranges moving forward. */
  predicate WellFormed(fs: seq<StagedFile>) {
    && (forall i :: 0 <= i < |fs| ==> fs[i].Encodable() && fs[i].start <= fs[i].end)
    && StrictlySorted(fs)
    && (forall i, j :: 0 <= i < j < |fs| ==> fs[i].end < fs[j].start)
  }

  lemma {:induction false} ResumeIsLast(fs: seq<StagedFile>)
    requires WellFormed(fs)
    ensures ResumeOffset(fs) == if fs == [] then None else Some(fs[|fs| - 1].end + 1)
  {
    if fs != [] {
      var n := |fs| - 1;
      ResumeIsLast(fs[..n]);
      if n > 0 {
        assert fs[n - 1].end < fs[n].start;
      }
    }
  }

  lemma SerialsIncrease(fs: seq<StagedFile>, i: nat, j: nat)
    requires WellFormed(fs) && i < j < |fs|
    ensures fs[i].Serial() < fs[j].Serial()
  {
    PackOrder(fs[i].epoch, fs[i].num, fs[j].epoch, fs[j].num);
  }

  /** In a well-formed listing what lies above a watermark is a suffix. */
  lemma {:induction false} AboveIsSuffix(fs: seq<StagedFile>, watermark: Option<int>) returns (k: nat)
    requires WellFormed(fs)
    ensures k <= |fs| && Above(fs, watermark) == fs[k..]
    ensures forall i :: 0 <= i < |fs| ==> (AboveWatermark(fs[i], watermark) <==> k <= i)
  {
    if fs == [] {
      k := 0;
    } else {
      var n := |fs| - 1;
      PrefixWellFormed(fs, n);
      k := AboveIsSuffix(fs[..n], watermark);
      hide WellFormed, AboveWatermark;
      assert forall i :: 0 <= i < n ==> fs[..n][i] == fs[i];
      if AboveWatermark(fs[n], watermark) {
        assert fs[k..] == fs[..n][k..] + [fs[n]];
      } else {
        BelowAll(fs, watermark);
        k := |fs|;
      }
    }
  }

  lemma PrefixWellFormed(fs: seq<StagedFile>, n: nat)
    requires WellFormed(fs) && n <= |fs|
    ensures WellFormed(fs[..n])
  {
    assert forall i :: 0 <= i < n ==> fs[..n][i] == fs[i];
  }

  lemma BelowAll(fs: seq<StagedFile>, watermark: Option<int>)
    requires WellFormed(fs) && fs != [] && !AboveWatermark(fs[|fs| - 1], watermark)
    ensures forall i :: 0 <= i < |fs| ==> !AboveWatermark(fs[i], watermark)
  {
    forall i | 0 <= i < |fs| - 1 ensures !AboveWatermark(fs[i], watermark) {
      SerialsIncrease(fs, i, |fs| - 1);
    }
  }

  /** Dropping files at or below a watermark, but not the newest, leaves the plan as it was. */
  lemma PlanIgnoresConsumedPrefix(fs: seq<StagedFile>, k: nat, watermark: int)
    requires WellFormed(fs) && (k < |fs| || k == 0)
    requires forall i :: 0 <= i < k ==> fs[i].Serial() <= watermark
    ensures WellFormed(fs[k..]) && PlanOf(fs[k..], Some(watermark)) == PlanOf(fs, Some(watermark))
  {
    SuffixWellFormed(fs, k);
    ResumeIsLast(fs);
    ResumeIsLast(fs[k..]);
    AboveSkipsPrefix(fs, k, watermark);
  }

  lemma SuffixWellFormed(fs: seq<StagedFile>, k: nat)
    requires WellFormed(fs) && k <= |fs|
    ensures WellFormed(fs[k..]) && AllEncodable(fs) && AllEncodable(fs[k..])
  {
    assert forall i :: 0 <= i < |fs| - k ==> fs[k..][i] == fs[k + i];
  }

  lemma AboveSkipsPrefix(fs: seq<StagedFile>, k: nat, watermark: int)
    requires k <= |fs| && WellFormed(fs) && WellFormed(fs[k..])
    requires forall i :: 0 <= i < k ==> fs[i].Serial() <= watermark
    ensures Above(fs[k..], Some(watermark)) == Above(fs, Some(watermark))
  {
    hide WellFormed, Above;
    var rest := fs[k..];
    var a := AboveIsSuffix(fs, Some(watermark));
    var b := AboveIsSuffix(rest, Some(watermark));
    assert k > 0 ==> !AboveWatermark(fs[k - 1], Some(watermark));
    assert b < |rest| ==> rest[b] == fs[k + b];
    assert a < |fs| ==> fs[a] == rest[a - k];
    assert a == k + b;
    assert rest[b..] == fs[a..];
  }

  // ---------------------------------------------------------------------
  // choosing the session epoch
  // ---------------------------------------------------------------------

  function NextEpoch(now: nat, anchor: Option<(nat, nat)>): nat {
    match anchor
    case Some((e, _)) => if now <= e then e + 1 else now
    case None => now
  }

  /** state.json, without the name fields. */
  datatype StateFile = StateFile(resume: Option<int>, maxEpoch: nat)

  datatype Opening = Opening(resume: Option<int>, backfill: seq<StagedFile>, epoch: nat, newState: StateFile)

  /** The plan's resume position merged with the recorded one. */
  function MergeResume(planned: Option<int>, state: Option<StateFile>): Option<int> {
    if state.Some? && state.value.resume.Some? then
      var recorded := state.value.resume.value + 1;
      Some(if planned.Some? then Max(planned.value, recorded) else recorded)
    else planned
  }

  /** The greatest anchor among the listing, the watermark and the recorded epoch. */
  function Anchor(maxStaged: Option<(nat, nat)>, watermark: Option<int>, state: Option<StateFile>): Option<(nat, nat)>
    requires watermark.Some? ==> 0 <= watermark.value <= I64_MAX
  {
    var a :=
      if watermark.Some? && (maxStaged.None? || PairLess(maxStaged.value, DecodeSerialSeq(watermark.value)))
      then Some(DecodeSerialSeq(watermark.value))
      else maxStaged;
    if state.Some? && (a.None? || state.value.maxEpoch > a.value.0) then Some((state.value.maxEpoch, 0)) else a
  }

  /** What open_table decides from a sorted listing, the watermark, state.json and the clock. */
  function Decide(fs: seq<StagedFile>, watermark: Option<int>, state: Option<StateFile>, now: nat)
    : Result<Opening, Error>
    requires watermark.Some? ==> 0 <= watermark.value <= I64_MAX
  {
    match PlanOf(fs, watermark)
    case Err(e) => Err(e)
    case Ok(plan) =>
      var epoch := NextEpoch(now, Anchor(plan.maxStaged, watermark, state));
      if EncodeSerialSeq(epoch, 0).Err? then Err(Error.Naming)
      else Ok(Opening(MergeResume(plan.resume, state), plan.backfill, epoch,
                      StateFile(if state.Some? then state.value.resume else None, epoch)))
  }

  /** The anchor, rebound by each source that is larger. */
  method PickAnchor(maxStaged: Option<(nat, nat)>, watermark: Option<int>, state: Option<StateFile>)
      returns (anchor: Option<(nat, nat)>)
    requires watermark.Some? ==> 0 <= watermark.value <= I64_MAX
    ensures anchor == Anchor(maxStaged, watermark, state)
  {
    hide DecodeSerialSeq;
    anchor := maxStaged;
    if watermark.Some? {
      var wm := DecodeSerialSeq(watermark.value);
      if anchor.None? || PairLess(anchor.value, wm) {
        anchor := Some(wm);
      }
    }
    if state.Some? && (anchor.None? || state.value.maxEpoch > anchor.value.0) {
      anchor := Some((state.value.maxEpoch, 0));
    }
  }

  /** The same decisions as the source takes them, one rebinding after another. */
  method OpenTable(staged: seq<StagedFile>, watermark: Option<int>, state: Option<StateFile>, now: nat)
    returns (r: Result<Opening, Error>)
    requires watermark.Some? ==> 0 <= watermark.value <= I64_MAX
    ensures exists fs :: Sorted(fs) && multiset(fs) == multiset(staged) && r == Decide(fs, watermark, state, now)
  {
    hide Sorted, Anchor, NextEpoch, PlanOf;
    var planned := PlanRecovery(staged, watermark);
    ghost var fs :| Sorted(fs) && multiset(fs) == multiset(staged) && planned == PlanOf(fs, watermark);
    if planned.Err? {
      return Err(planned.error);
    }
    var plan := planned.value;
    if state.Some? && state.value.resume.Some? {
      var recorded := state.value.resume.value;
      match plan.resume {
        case Some(v) => plan := plan.(resume := Some(Max(v, recorded + 1)));
        case None => plan := plan.(resume := Some(recorded + 1));
      }
    }
    assert plan.resume == MergeResume(planned.value.resume, state);
    var anchor := PickAnchor(plan.maxStaged, watermark, state);
    var epoch := NextEpoch(now, anchor);
    var encoded := EncodeSerialSeq(epoch, 0);
    if encoded.Err? {
      return Err(encoded.error);
    }
    var recorded := if state.Some? then state.value.resume else None;
    r := Ok(Opening(plan.resume, plan.backfill, epoch, StateFile(recorded, epoch)));
  }

  /** The session epoch exceeds every anchor, whatever the clock says. */
  lemma EpochExceedsAnchors(maxStaged: Option<(nat, nat)>, watermark: Option<int>, state: Option<StateFile>, now: nat)
    requires watermark.Some? ==> 0 <= watermark.value <= I64_MAX
    ensures var epoch := NextEpoch(now, Anchor(maxStaged, watermark, state));
            && now <= epoch
            && (maxStaged.Some? ==> maxStaged.value.0 < epoch)
            && (watermark.Some? ==> DecodeSerialSeq(watermark.value).0 < epoch)
            && (state.Some? ==> state.value.maxEpoch < epoch)
  {
  }

  /** `e` is an epoch in use: that of the newest listed file, of the watermark, or the recorded one. */
  predicate InUse(e: nat, maxStaged: Option<(nat, nat)>, watermark: Option<int>, state: Option<StateFile>) {
    || (maxStaged.Some? && e == maxStaged.value.0)
    || (watermark.Some? && 0 <= watermark.value && e == watermark.value / SEQ_SPAN)
    || (state.Some? && e == state.value.maxEpoch)
  }

  /** The session epoch is the least one that is not before the clock and above every epoch in use:
      the clock's, or the one after an epoch in use. */
  lemma EpochIsLeast(maxStaged: Option<(nat, nat)>, watermark: Option<int>, state: Option<StateFile>, now: nat)
    requires watermark.Some? ==> 0 <= watermark.value <= I64_MAX
    ensures var epoch := NextEpoch(now, Anchor(maxStaged, watermark, state));
            && now <= epoch && (forall e: nat :: InUse(e, maxStaged, watermark, state) ==> e < epoch)
            && (epoch == now || (epoch > 0 && InUse(epoch - 1, maxStaged, watermark, state)))
  {
  }

  /** The epoch of the newest file of a listing. */
  function NewestEpoch(fs: seq<StagedFile>): Option<(nat, nat)> {
    if fs == [] then None else Some(fs[|fs| - 1].Key())
  }

  /** An opening with an encodable listing succeeds exactly if the clock fits the 43 bits and no epoch
      in use is the last one; it runs under the least epoch, and that is the one it records. */
  lemma OpeningSucceeds(fs: seq<StagedFile>, watermark: Option<int>, state: Option<StateFile>, now: nat)
    requires watermark.Some? ==> 0 <= watermark.value <= I64_MAX
    ensures var r := Decide(fs, watermark, state, now);
            && (r.Ok? <==>
                 && (forall i :: 0 <= i < |fs| ==> fs[i].epoch <= MAX_EPOCH_MS && fs[i].num <= MAX_SEQ)
                 && now <= MAX_EPOCH_MS
                 && forall e: nat :: InUse(e, NewestEpoch(fs), watermark, state) ==> e < MAX_EPOCH_MS)
            && (r.Ok? ==>
                 && now <= r.value.epoch
                 && (forall e: nat :: InUse(e, NewestEpoch(fs), watermark, state) ==> e < r.value.epoch)
                 && (r.value.epoch == now ||
                      (r.value.epoch > 0 && InUse(r.value.epoch - 1, NewestEpoch(fs), watermark, state)))
                 && r.value.newState.maxEpoch == r.value.epoch)
  {
    EpochIsLeast(NewestEpoch(fs), watermark, state, now);
    hide NextEpoch, Anchor, MergeResume, Above, ResumeOffset, InUse;
    assert AllEncodable(fs) <==> forall i :: 0 <= i < |fs| ==> fs[i].epoch <= MAX_EPOCH_MS && fs[i].num <= MAX_SEQ;
  }

  /** An offset the opening knows to be staged or confirmed: an end in the listing, or the recorded one. */
  predicate Known(end: int, fs: seq<StagedFile>, state: Option<StateFile>) {
    (exists i :: 0 <= i < |fs| && fs[i].end == end) || (state.Some? && state.value.resume == Some(end))
  }

  lemma {:induction false} ResumeOffsetCovers(fs: seq<StagedFile>)
    ensures ResumeOffset(fs).None? <==> fs == []
    ensures fs != [] ==>
              && (forall i :: 0 <= i < |fs| ==> fs[i].end < ResumeOffset(fs).value)
              && exists i :: 0 <= i < |fs| && fs[i].end == ResumeOffset(fs).value - 1
  {
    if fs != [] {
      var n := |fs| - 1;
      ResumeOffsetCovers(fs[..n]);
      assert forall i :: 0 <= i < n ==> fs[..n][i] == fs[i];
      if n > 0 {
        var i :| 0 <= i < n && fs[..n][i].end == ResumeOffset(fs[..n]).value - 1;
        assert fs[i].end == ResumeOffset(fs[..n]).value - 1;
      }
      assert fs[n].end == fs[n].end;
    }
  }

  /** Whatever the listing looks like and however far either of the two lags, the opening resumes one
      past the largest offset known, and nowhere if none is. */
  lemma ResumeIsOnePastKnown(fs: seq<StagedFile>, watermark: Option<int>, state: Option<StateFile>, now: nat)
    requires watermark.Some? ==> 0 <= watermark.value <= I64_MAX
    requires Decide(fs, watermark, state, now).Ok?
    ensures var resume := Decide(fs, watermark, state, now).value.resume;
            && (resume.None? <==> forall e: int :: !Known(e, fs, state))
            && (resume.Some? ==> Known(resume.value - 1, fs, state))
            && (resume.Some? ==> forall e: int :: Known(e, fs, state) ==> e < resume.value)
  {
    ResumeOffsetCovers(fs);
    hide NextEpoch, Anchor, Above, ResumeOffset;
    if fs != [] { assert Known(fs[0].end, fs, state); }
    if state.Some? && state.value.resume.Some? { assert Known(state.value.resume.value, fs, state); }
  }

  // ---------------------------------------------------------------------
  // garbage collection
  // ---------------------------------------------------------------------

  /** gc_retain_min_files, and gc_retain_days in milliseconds. */
  datatype Retention = Retention(minFiles: nat, minAge: nat)

  /** Consumed, and older than the retention age (the subtraction saturates at 0). */
  predicate Deletable(f: StagedFile, watermark: int, now: nat, keep: Retention) {
    f.SerialSeq().Ok? && f.Serial() <= watermark && (if now < f.epoch then 0 else now - f.epoch) > keep.minAge
  }

  function Filter(fs: seq<StagedFile>, watermark: int, now: nat, keep: Retention): seq<StagedFile> {
    if fs == [] then []
    else
      var r := Filter(fs[..|fs| - 1], watermark, now, keep);
      if Deletable(fs[|fs| - 1], watermark, now, keep) then r + [fs[|fs| - 1]] else r
  }

  function Take(fs: seq<StagedFile>, n: nat): seq<StagedFile> {
    if n < |fs| then fs[..n] else fs
  }

  /** The objects one pass sets out to delete, oldest first. */
  function GcTargets(fs: seq<StagedFile>, watermark: int, now: nat, keep: Retention): seq<StagedFile> {
    if |fs| <= keep.minFiles then []
    else Take(Filter(fs[..|fs| - 1], watermark, now, keep), |fs| - keep.minFiles)
  }

  /** One pass over a listing; the delete number `failAt` fails and ends it. */
  method GcPass(staged: seq<StagedFile>, watermark: int, now: nat, keep: Retention, failAt: nat)
    returns (deleted: seq<StagedFile>)
    ensures exists fs :: Sorted(fs) && multiset(fs) == multiset(staged) &&
                         deleted == Take(GcTargets(fs, watermark, now, keep), failAt)
  {
    deleted := [];
    var fs := SortByKey(staged);
    var total := |fs|;
    if total <= keep.minFiles {
      return;
    }
    var deletable := [];
    for i := 0 to total - 1
      invariant deletable == Filter(fs[..i], watermark, now, keep)
    {
      assert fs[..i + 1][..i] == fs[..i];
      if Deletable(fs[i], watermark, now, keep) {
        deletable := deletable + [fs[i]];
      }
    }
    var budget := total - keep.minFiles;
    if |deletable| > budget {
      deletable := deletable[..budget];
    }
    for i := 0 to |deletable|
      invariant deleted == deletable[..i] && i <= failAt
    {
      if i == failAt {
        return;
      }
      deleted := deleted + [deletable[i]];
    }
  }

  /** On a well-formed listing the targets are a prefix that spares the newest object, keeps the
      floor and holds only consumed files. */
  lemma {:induction false} FilterIsPrefix(fs: seq<StagedFile>, watermark: int, now: nat, keep: Retention)
    requires WellFormed(fs)
    ensures var r := Filter(fs, watermark, now, keep);
            |r| <= |fs| && r == fs[..|r|] && forall i :: 0 <= i < |r| ==> fs[i].Serial() <= watermark
  {
    if fs != [] {
      var n := |fs| - 1;
      PrefixWellFormed(fs, n);
      FilterIsPrefix(fs[..n], watermark, now, keep);
      var r := Filter(fs[..n], watermark, now, keep);
      assert forall i :: 0 <= i < n ==> fs[..n][i] == fs[i];
      if Deletable(fs[n], watermark, now, keep) && |r| < n {
        OlderIsDeletable(fs, |r|, n, watermark, now, keep);
        DeletableGoesIn(fs[..n], |r|, watermark, now, keep);
      }
      DeletableIsConsumed(fs[n], watermark, now, keep);
      hide Deletable, WellFormed;
    }
  }

  lemma DeletableIsConsumed(f: StagedFile, watermark: int, now: nat, keep: Retention)
    ensures Deletable(f, watermark, now, keep) ==> f.Serial() <= watermark
  {
  }

  lemma OlderIsDeletable(fs: seq<StagedFile>, i: nat, j: nat, watermark: int, now: nat, keep: Retention)
    requires WellFormed(fs) && i < j < |fs| && Deletable(fs[j], watermark, now, keep)
    ensures Deletable(fs[i], watermark, now, keep)
  {
    SerialsIncrease(fs, i, j);
    assert PairLess(fs[i].Key(), fs[j].Key());
  }

  lemma {:induction false} DeletableGoesIn(fs: seq<StagedFile>, i: nat, watermark: int, now: nat, keep: Retention)
    requires i < |fs| && Deletable(fs[i], watermark, now, keep)
    requires WellFormed(fs)
    ensures i < |Filter(fs, watermark, now, keep)|
  {
    var n := |fs| - 1;
    if i < n {
      DeletableGoesIn(fs[..n], i, watermark, now, keep);
    } else if n > 0 {
      SerialsIncrease(fs, n - 1, n);
      assert PairLess(fs[n - 1].Key(), fs[n].Key());
      DeletableGoesIn(fs[..n], n - 1, watermark, now, keep);
    }
  }

  lemma TargetsArePrefix(fs: seq<StagedFile>, watermark: int, now: nat, keep: Retention)
    requires WellFormed(fs)
    ensures var r := GcTargets(fs, watermark, now, keep);
            && |r| <= |fs| && r == fs[..|r|]
            && (forall i :: 0 <= i < |r| ==> fs[i].Serial() <= watermark)
            && (fs != [] ==> |r| < |fs|)
            && |fs| - |r| >= (if |fs| < keep.minFiles then |fs| else keep.minFiles)
  {
    if |fs| > keep.minFiles {
      var n := |fs| - 1;
      FilterIsPrefix(fs[..n], watermark, now, keep);
      assert forall i :: 0 <= i < n ==> fs[..n][i] == fs[i];
    }
  }

  /** What a pass may delete: consumed, and older than the retention age. */
  predicate Expendable(f: StagedFile, watermark: int, now: nat, minAge: nat) {
    f.epoch <= MAX_EPOCH_MS && f.num <= MAX_SEQ && f.epoch * SEQ_SPAN + f.num <= watermark && f.epoch + minAge < now
  }

  lemma DeletableMeans(f: StagedFile, watermark: int, now: nat, keep: Retention)
    ensures Deletable(f, watermark, now, keep) <==> Expendable(f, watermark, now, keep.minAge)
  {
  }

  lemma {:induction false} FilterHolds(fs: seq<StagedFile>, watermark: int, now: nat, keep: Retention)
    ensures forall f :: f in Filter(fs, watermark, now, keep) <==> f in fs && Expendable(f, watermark, now, keep.minAge)
  {
    hide Expendable, Deletable;
    if fs != [] {
      var n := |fs| - 1;
      FilterHolds(fs[..n], watermark, now, keep);
      DeletableMeans(fs[n], watermark, now, keep);
      assert fs == fs[..n] + [fs[n]];
    }
  }

  /** The targets of a well-formed listing: the oldest files, every one of them expendable and none
      the newest; and every expendable file but the newest is a target, unless the floor is reached. */
  lemma TargetsAreExact(fs: seq<StagedFile>, watermark: int, now: nat, keep: Retention)
    requires WellFormed(fs)
    ensures var r := GcTargets(fs, watermark, now, keep);
            && |r| <= |fs| && r == fs[..|r|] && (fs != [] ==> |r| < |fs|)
            && (forall i :: 0 <= i < |r| ==> Expendable(fs[i], watermark, now, keep.minAge))
            && (forall i :: |r| <= i < |fs| - 1 && Expendable(fs[i], watermark, now, keep.minAge) ==>
                  |fs| - |r| <= keep.minFiles)
            && |fs| - |r| >= (if |fs| < keep.minFiles then |fs| else keep.minFiles)
  {
    hide Expendable;
    TargetsArePrefix(fs, watermark, now, keep);
    if |fs| > keep.minFiles {
      var n := |fs| - 1;
      var all, r := Filter(fs[..n], watermark, now, keep), GcTargets(fs, watermark, now, keep);
      FilterHolds(fs[..n], watermark, now, keep);
      FilterIsPrefix(fs[..n], watermark, now, keep);
      hide Filter, WellFormed;
      forall i | 0 <= i < |r| ensures Expendable(fs[i], watermark, now, keep.minAge) {
        assert r[i] == fs[i] && r[i] in all;
      }
      forall i | |r| <= i < n && Expendable(fs[i], watermark, now, keep.minAge) ensures |fs| - |r| <= keep.minFiles {
        assert fs[..n][i] == fs[i];
        NotAmong(fs, |r|, i);
        assert fs[i] in all && fs[i] !in r;
      }
    }
  }

  lemma NotAmong(fs: seq<StagedFile>, k: nat, i: nat)
    requires WellFormed(fs) && k <= i < |fs|
    ensures fs[i] !in fs[..k]
  {
    forall j | 0 <= j < k ensures fs[j] != fs[i] {
      assert fs[j].end < fs[i].start;
    }
  }

  /** Garbage collection is invisible to recovery: however far a pass got, the newest object and
      the retention floor remain, and for every later watermark the plan is the same. */
  lemma GcInvisible(fs: seq<StagedFile>, watermark: int, now: nat, keep: Retention, failAt: nat, later: int)
    requires WellFormed(fs) && watermark <= later
    ensures var deleted := Take(GcTargets(fs, watermark, now, keep), failAt);
            && |deleted| <= |fs| && deleted == fs[..|deleted|]
            && (fs != [] ==> fs[|fs| - 1] in fs[|deleted|..])
            && |fs| - |deleted| >= (if |fs| < keep.minFiles then |fs| else keep.minFiles)
            && PlanOf(fs[|deleted|..], Some(later)) == PlanOf(fs, Some(later))
  {
    hide WellFormed, GcTargets, PlanOf, Take;
    TargetsArePrefix(fs, watermark, now, keep);
    var targets := GcTargets(fs, watermark, now, keep);
    var deleted := Take(targets, failAt);
    TakeOfPrefix(fs, targets, failAt);
    PlanIgnoresConsumedPrefix(fs, |deleted|, later);
    SuffixLast(fs, |deleted|);
  }

  lemma TakeOfPrefix(fs: seq<StagedFile>, targets: seq<StagedFile>, n: nat)
    requires |targets| <= |fs| && targets == fs[..|targets|]
    ensures |Take(targets, n)| <= |targets| && Take(targets, n) == fs[..|Take(targets, n)|]
  {
  }

  lemma SuffixLast(fs: seq<StagedFile>, k: nat)
    requires k < |fs| || fs == []
    ensures fs != [] ==> fs[|fs| - 1] in fs[k..]
  {
    if fs != [] {
      assert fs[k..][|fs| - k - 1] == fs[|fs| - 1];
    }
  }
}
