/** The notifier: one FIFO and one retry loop per writer, and the board the loops report to
    (src/notify.rs). */
module Notify {
  import opened Base
  import opened Naming
  import opened Sessions

  datatype Request = Request(group: string, file: StagedFile)

  /** How one submission ended. `Unheard` is every error: the request is sent again. */
  datatype Answer = Unheard | Taken | Known | Violates(msg: string)

  /** What concerns one writer: its queue and its entries on the board. */
  datatype Desk = Desk(queue: seq<Request>, confirmed: Option<(int, int)>, fatal: Option<string>)

  /** One submission of the request at the head. */
  function Answered(d: Desk, a: Answer): Desk {
    if d.queue == [] then d
    else
      match a
      case Unheard => d
      case Taken => Desk(d.queue[1..], Confirm(d.confirmed, d.queue[0].file), d.fatal)
      case Known => Desk(d.queue[1..], Confirm(d.confirmed, d.queue[0].file), d.fatal)
      case Violates(msg) => Desk(d.queue[1..], d.confirmed, if d.fatal.None? then Some(msg) else d.fatal)
  }

  function After(d: Desk, answers: seq<Answer>): Desk {
    if answers == [] then d else Answered(After(d, answers[..|answers| - 1]), answers[|answers| - 1])
  }

  // ---------------------------------------------------------------------
  // the notifier as the source holds it
  // ---------------------------------------------------------------------

  class Notifier {
    var queues: map<string, seq<Request>>
    var confirmed: map<string, (int, int)>
    var fatal: map<string, string>

    function At(group: string): Desk
      reads this
    {
      Desk(if group in queues then queues[group] else [],
           if group in confirmed then Some(confirmed[group]) else None,
           if group in fatal then Some(fatal[group]) else None)
    }

    constructor ()
      ensures forall g :: At(g) == Desk([], None, None)
    {
      queues, confirmed, fatal := map[], map[], map[];
    }

    method Enqueue(req: Request)
      modifies this`queues
      ensures At(req.group) == old(At(req.group)).(queue := old(At(req.group)).queue + [req])
      ensures forall g :: g != req.group ==> At(g) == old(At(g))
    {
      if req.group !in queues {
        queues := queues[req.group := []];
      }
      queues := queues[req.group := queues[req.group] + [req]];
    }

    /** A heard answer to the request at the head. */
    method Settle(group: string, answer: Answer)
      requires At(group).queue != [] && !answer.Unheard?
      modifies this
      ensures At(group) == Answered(old(At(group)), answer)
      ensures forall g :: g != group ==> At(g) == old(At(g))
    {
      var req := queues[group][0];
      match answer {
        case Violates(msg) =>
          if group !in fatal {
            fatal := fatal[group := msg];
          }
        case Taken =>
          Record(group, req.file);
        case Known =>
          Record(group, req.file);
      }
      queues := queues[group := queues[group][1..]];
    }

    method Record(group: string, file: StagedFile)
      modifies this`confirmed
      ensures At(group) == old(At(group)).(confirmed := Confirm(old(At(group)).confirmed, file))
      ensures forall g :: g != group ==> At(g) == old(At(g))
    {
      var slot := if group in confirmed then confirmed[group] else (file.Serial(), file.end);
      if file.Serial() >= slot.0 {
        slot := (file.Serial(), file.end);
      }
      confirmed := confirmed[group := slot];
    }

    /** The loop of one writer, fed with the answers its submissions get: the request at the head
        is sent until there is an answer, then the next one is taken. */
    method NotifyLoop(group: string, answers: seq<Answer>)
      modifies this
      ensures At(group) == After(old(At(group)), answers)
      ensures forall g :: g != group ==> At(g) == old(At(g))
    {
      hide At, Answered;
      ghost var before := At(group);
      var i := 0;
      while At(group).queue != [] && i < |answers|
        invariant 0 <= i <= |answers| && At(group) == After(before, answers[..i])
        invariant forall g :: g != group ==> At(g) == old(At(g))
        decreases |answers| - i
      {
        while i < |answers| && answers[i].Unheard?
          invariant 0 <= i <= |answers| && At(group) == After(before, answers[..i])
          modifies {}
        {
          AfterStep(before, answers, i);
          i := i + 1;
        }
        if i < |answers| {
          AfterStep(before, answers, i);
          Settle(group, answers[i]);
          i := i + 1;
        }
      }
      RestUnused(before, answers, i);
    }

    /** A reopen forgets the violation of an earlier writer. */
    method ClearFatal(group: string) returns (was: bool)
      modifies this`fatal
      ensures was <==> old(At(group)).fatal.Some?
      ensures At(group) == old(At(group)).(fatal := None)
      ensures forall g :: g != group ==> At(g) == old(At(g))
    {
      was := group in fatal;
      fatal := fatal - {group};
    }
  }

  lemma AfterStep(d: Desk, answers: seq<Answer>, i: nat)
    requires i < |answers|
    ensures After(d, answers[..i + 1]) == Answered(After(d, answers[..i]), answers[i])
    ensures answers[i].Unheard? ==> After(d, answers[..i + 1]) == After(d, answers[..i])
  {
    assert answers[..i + 1][..i] == answers[..i];
  }

  /** With an empty queue further answers change nothing. */
  lemma {:induction false} RestUnused(d: Desk, answers: seq<Answer>, i: nat)
    requires i <= |answers| && (i == |answers| || After(d, answers[..i]).queue == [])
    ensures After(d, answers) == After(d, answers[..i])
  {
    if i == |answers| {
      assert answers[..i] == answers;
    } else {
      var n := |answers| - 1;
      assert answers[..n][..i] == answers[..i];
      RestUnused(d, answers[..n], i);
    }
  }

  // ---------------------------------------------------------------------
  // what the loop guarantees
  // ---------------------------------------------------------------------

  function Heard(answers: seq<Answer>): nat {
    if answers == [] then 0
    else Heard(answers[..|answers| - 1]) + (if answers[|answers| - 1].Unheard? then 0 else 1)
  }

  /** Strictly in order and none skipped: each answer that is heard, whichever it is, takes exactly
      the oldest request off the queue; a lost answer takes none. */
  lemma {:induction false} FirstInFirstOut(d: Desk, answers: seq<Answer>)
    ensures var k := if Heard(answers) < |d.queue| then Heard(answers) else |d.queue|;
            After(d, answers).queue == d.queue[k..]
  {
    if answers != [] {
      FirstInFirstOut(d, answers[..|answers| - 1]);
    }
  }

  /** The files of the requests that were answered with success, in the order of the answers. */
  function Successes(d: Desk, answers: seq<Answer>): seq<StagedFile> {
    if answers == [] then []
    else
      var n := |answers| - 1;
      var before := After(d, answers[..n]);
      if before.queue != [] && (answers[n].Taken? || answers[n].Known?)
      then Successes(d, answers[..n]) + [before.queue[0].file]
      else Successes(d, answers[..n])
  }

  predicate Newest(confirmed: (int, int), files: seq<StagedFile>, earlier: Option<(int, int)>) {
    && (earlier == Some(confirmed) || exists f :: f in files && confirmed == (f.Serial(), f.end))
    && (earlier.Some? ==> earlier.value.0 <= confirmed.0)
    && forall f :: f in files ==> f.Serial() <= confirmed.0
  }

  /** The board shows the newest file with a successful answer, or the older entry if that is newer:
      in whatever order the queue holds its requests, repeated ones and violations included. */
  lemma {:induction false} ConfirmedIsNewest(d: Desk, answers: seq<Answer>)
    ensures var c := After(d, answers).confirmed;
            && (c.None? <==> d.confirmed.None? && Successes(d, answers) == [])
            && (c.Some? ==> Newest(c.value, Successes(d, answers), d.confirmed))
  {
    if answers != [] {
      var n := |answers| - 1;
      ConfirmedIsNewest(d, answers[..n]);
      var before := After(d, answers[..n]);
      if before.queue != [] && (answers[n].Taken? || answers[n].Known?) {
        NewestMore(before.confirmed, Successes(d, answers[..n]), d.confirmed, before.queue[0].file);
      }
    }
  }

  lemma NewestMore(confirmed: Option<(int, int)>, files: seq<StagedFile>, earlier: Option<(int, int)>, f: StagedFile)
    requires confirmed.None? <==> earlier.None? && files == []
    requires confirmed.Some? ==> Newest(confirmed.value, files, earlier)
    ensures var c := Confirm(confirmed, f); c.Some? && Newest(c.value, files + [f], earlier)
  {
    var c := Confirm(confirmed, f).value;
    var more := files + [f];
    assert f in more;
    if confirmed.Some? && c == confirmed.value && earlier != Some(c) {
      var g :| g in files && c == (g.Serial(), g.end);
      assert g in more;
    }
  }

  predicate Rising(queue: seq<Request>) {
    forall i, j :: 0 <= i < j < |queue| ==> queue[i].file.Serial() < queue[j].file.Serial()
  }

  /** With seqs rising along the queue and no violation, that is the last request to leave it. */
  lemma {:induction false} ConfirmedIsLast(d: Desk, answers: seq<Answer>)
    requires Rising(d.queue)
    requires d.confirmed.Some? ==> forall i :: 0 <= i < |d.queue| ==> d.confirmed.value.0 < d.queue[i].file.Serial()
    requires forall i :: 0 <= i < |answers| ==> !answers[i].Violates?
    ensures var k := |d.queue| - |After(d, answers).queue|;
            0 <= k && After(d, answers).confirmed ==
              if k == 0 then d.confirmed else Some((d.queue[k - 1].file.Serial(), d.queue[k - 1].file.end))
  {
    if answers != [] {
      var n := |answers| - 1;
      ConfirmedIsLast(d, answers[..n]);
      FirstInFirstOut(d, answers[..n]);
    } else {
      assert d.queue[0..] == d.queue;
    }
  }

  /** The messages of the violations the loop hears, in order. */
  function Violations(d: Desk, answers: seq<Answer>): seq<string> {
    if answers == [] then []
    else
      var n := |answers| - 1;
      if After(d, answers[..n]).queue != [] && answers[n].Violates? then Violations(d, answers[..n]) + [answers[n].msg]
      else Violations(d, answers[..n])
  }

  /** The record shows the violation it showed before, else the first the loop has heard, else none. */
  lemma {:induction false} ViolationIsRecorded(d: Desk, answers: seq<Answer>)
    ensures var heard := Violations(d, answers);
            After(d, answers).fatal ==
              if d.fatal.Some? then d.fatal else if heard == [] then None else Some(heard[0])
  {
    if answers != [] {
      ViolationIsRecorded(d, answers[..|answers| - 1]);
    }
  }

  /** The first violation is the one on record, and nothing in the loop removes it. */
  lemma {:induction false} FirstViolationStays(d: Desk, answers: seq<Answer>)
    requires d.fatal.Some?
    ensures After(d, answers).fatal == d.fatal
  {
    if answers != [] {
      FirstViolationStays(d, answers[..|answers| - 1]);
    }
  }
}
