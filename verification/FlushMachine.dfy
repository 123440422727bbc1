/**
 The sequencing code together with a driver and a device that has a volatile write cache: what a request promises its
 submitter, over every run of submissions, fetches, requeues, partial errors, completions and cache write-back.
 */
module FlushMachine {
  import opened Flush
  import opened Options

  /** The queue's flush request while the driver has it: the step it performs, and the writes a flush has to cover. */
  datatype Flight = Flight(stage: nat, covered: set<nat>)

  /** A submitted request and the writes that had been reported complete when it was submitted. */
  datatype Ticket = Ticket(want: Rq, before: set<nat>)

  /** A sequenced request that was completed: its error, the steps that ran for it, and the errors those reported. */
  datatype Report = Report(id: nat, err: int, ops: seq<nat>, errs: seq<int>)

  /** A data write handed to the driver, and what was durable at that moment. */
  datatype Issued = Issued(id: nat, err: int, durable: set<nat>)

  datatype Machine = Machine(q: Queue, flight: Option<Flight>, direct: seq<Rq>,
                             landed: set<nat>, durable: set<nat>, book: map<nat, Ticket>,
                             ops: seq<nat>, errs: seq<int>, reports: seq<Report>, issued: seq<Issued>)

  const START: Machine := Machine(Queue([], [], {}, 0, None, []), None, [], {}, {}, map[], [], [], [], [])

  /**
   Requests the code handles: on a device with a cache, a flagged request needs at least one step or goes directly.
   */
  predicate Fit(c: Caps, r: Rq) {
    c.flush && Flagged(r) && Sequenced(c, r) ==> Needed(c, r) != []
  }

  /** The only requests this excludes are those without data that ask a device with FUA support for FUA alone. */
  lemma FitMeans(c: Caps, r: Rq)
    requires Legal(c)
    ensures Fit(c, r) <==> !(c.fua && r.fua && !r.flush && !r.data)
  {
  }

  /** A flush in front only if the request asks for one, and one behind only for FUA that the device does not know. */
  lemma NeededMeans(c: Caps, r: Rq)
    ensures PREFLUSH in Needed(c, r) <==> c.flush && r.flush
    ensures DATA in Needed(c, r) <==> r.data
    ensures POSTFLUSH in Needed(c, r) <==> c.flush && r.fua && !c.fua
    ensures forall i, j :: 0 <= i < j < |Needed(c, r)| ==> Needed(c, r)[i] < Needed(c, r)[j]
  {
  }

  function FirstError(errs: seq<int>): int {
    if errs == [] then 0 else if errs[0] != 0 then errs[0] else FirstError(errs[1..])
  }

  lemma {:induction false} FirstErrorSnoc(errs: seq<int>, e: int)
    ensures FirstError(errs + [e]) == if FirstError(errs) == 0 then e else FirstError(errs)
  {
    if errs == [] {
      assert [] + [e] == [e];
    } else {
      FirstErrorSnoc(errs[1..], e);
      assert (errs + [e])[1..] == errs[1..] + [e];
    }
  }

  // ----- steps

  /** Writes whose submitters have been told that they succeeded. */
  function Acked(m: Machine): set<nat> {
    set i | i in m.book && m.book[i].want.data && Completion(i, 0) in m.q.done
  }

  /** A flagged request goes to the front of the dispatch list, any other arrives at its end from the scheduler. */
  function Submit(m: Machine, r: Rq): Machine {
    m.(book := m.book[r.id := Ticket(r, Acked(m))],
       q := m.q.(head := if Flagged(r) then [Orig(r)] + m.q.head else m.q.head + [Orig(r)]))
  }

  /** The driver dequeues the first entry. */
  function Issue(m: Machine): Machine
    requires m.q.head != []
  {
    var q1 := m.q.(head := m.q.head[1..]);
    if m.q.head[0].Orig? then
      var r := m.q.head[0].rq;
      m.(q := q1, direct := m.direct + [r], issued := m.issued + [Issued(r.id, 0, m.durable)])
    else
      var stage := CurSeq(m.q.bits);
      m.(q := q1, flight := Some(Flight(stage, m.landed)),
         issued := if stage == DATA && m.q.orig.Some?
                   then m.issued + [Issued(m.q.orig.value.id, m.q.err, m.durable)] else m.issued)
  }

  /** DoFlush on the first entry, with the bookkeeping of a sequence that starts (and perhaps ends at once). */
  function Sequence(c: Caps, m: Machine): Machine
    requires m.q.head != [] && m.q.head[0].Orig?
  {
    var r := m.q.head[0].rq;
    var q1 := DoFlush(c, m.q, r).0;
    if Sequenced(c, r) && m.q.bits == {} then
      m.(q := q1, ops := [], errs := [],
         reports := if Skipped(c, r) == {PREFLUSH, DATA, POSTFLUSH} then m.reports + [Report(r.id, 0, [], [])]
                    else m.reports)
    else m.(q := q1)
  }

  function Fetch(c: Caps, m: Machine): Machine
    decreases |m.q.head|
  {
    if m.q.head == [] then m
    else if m.q.head[0].FlushRq? || !Flagged(m.q.head[0].rq) then Issue(m)
    else
      var m1 := Sequence(c, m);
      var e := DoFlush(c, m.q, m.q.head[0].rq).1;
      if e.Some? && m1.q.head != [] then Issue(m1) else if |m1.q.head| < |m.q.head| then Fetch(c, m1) else m1
  }

  /** A write that succeeds reaches the cache, and stable storage too if there is no cache or it is forced through. */
  function Written(c: Caps, m: Machine, r: Rq): Machine {
    m.(landed := m.landed + {r.id}, durable := m.durable + (if !c.flush || r.fua then {r.id} else {}))
  }

  function EndDirect(c: Caps, m: Machine, k: nat, err: int): Machine
    requires k < |m.direct|
  {
    var r := m.direct[k];
    var m1 := if err == 0 && r.data then Written(c, m, r) else m;
    m1.(direct := m.direct[..k] + m.direct[k + 1..], q := m.q.(done := m.q.done + [Completion(r.id, err)]))
  }

  /** The device effect of a step that succeeded. */
  function Performed(c: Caps, m: Machine): Machine
    requires m.flight.Some? && m.q.orig.Some?
  {
    if m.flight.value.stage == DATA then Written(c, m, m.q.orig.value)
    else m.(durable := m.durable + m.flight.value.covered)
  }

  /** The end_io callback of the flush request. */
  function EndFlush(c: Caps, m: Machine, err: int): Machine
    requires m.flight.Some? && m.q.orig.Some?
  {
    var m1 := if err == 0 then Performed(c, m) else m;
    var stage := m.flight.value.stage;
    var q1 := CompleteSeq(m.q, {stage}, err).0;
    var ops, errs := m.ops + [stage], m.errs + [err];
    m1.(q := q1, flight := None, ops := ops, errs := errs,
        reports := if q1.orig.None? then m.reports + [Report(m.q.orig.value.id, q1.err, ops, errs)] else m.reports)
  }

  datatype Step =
    | Submits(r: Rq)
    | Fetches
    | RequeuesDirect(k: nat)
    | RequeuesFlush
    | EndsDirect(k: nat, err: int)
    | EndsFlush(err: int)
    | PartialError(err: int)
    | WritesBack(what: set<nat>)

  /** A step that does not apply changes nothing. */
  function Next(c: Caps, m: Machine, s: Step): Machine {
    match s
    case Submits(r) => if r.id in m.book then m else Submit(m, r)
    case Fetches => Fetch(c, m)
    case RequeuesDirect(k) =>
      if k >= |m.direct| then m
      else m.(direct := m.direct[..k] + m.direct[k + 1..], q := m.q.(head := [Orig(m.direct[k])] + m.q.head))
    case RequeuesFlush =>
      if m.flight.None? then m else m.(flight := None, q := m.q.(head := [FlushRq] + m.q.head))
    case EndsDirect(k, err) => if k >= |m.direct| then m else EndDirect(c, m, k, err)
    case EndsFlush(err) => if m.flight.None? || m.q.orig.None? then m else EndFlush(c, m, err)
    case PartialError(err) =>
      if m.flight.None? || m.flight.value.stage != DATA then m
      else m.(errs := m.errs + [err], q := m.q.(err := if err != 0 && m.q.err == 0 then err else m.q.err))
    case WritesBack(what) => m.(durable := m.durable + (m.landed * what))
  }

  function RunOf(c: Caps, m: Machine, steps: seq<Step>): Machine
    decreases steps
  {
    if steps == [] then m else RunOf(c, Next(c, m, steps[0]), steps[1..])
  }

  // ----- the invariant: where requests are

  ghost predicate HeadOk(c: Caps, b: map<nat, Ticket>, r: Rq) {
    r.id in b && var w := b[r.id].want; r == w || (r == Stripped(c, w) && !Sequenced(c, w))
  }

  ghost predicate PendingOk(c: Caps, b: map<nat, Ticket>, r: Rq) {
    r.id in b && r == b[r.id].want && Sequenced(c, r)
  }

  ghost predicate OrigOk(c: Caps, b: map<nat, Ticket>, r: Rq) {
    r.id in b && var w := b[r.id].want; r == Stripped(c, w) && Sequenced(c, w)
  }

  /** What the driver holds directly never needed sequencing, and asks for no flush. */
  ghost predicate DirectOk(c: Caps, b: map<nat, Ticket>, r: Rq) {
    r.id in b && var w := b[r.id].want; r == Stripped(c, w) && !Sequenced(c, w)
  }

  ghost predicate Booked(c: Caps, m: Machine) {
    && (forall i :: i in m.book ==> m.book[i].want.id == i && Fit(c, m.book[i].want))
    && (forall r :: Orig(r) in m.q.head ==> HeadOk(c, m.book, r))
    && (forall r :: r in m.q.pending ==> PendingOk(c, m.book, r))
    && (m.q.orig.Some? ==> OrigOk(c, m.book, m.q.orig.value))
    && (forall r :: r in m.direct ==> DirectOk(c, m.book, r))
    && (forall x :: x in m.q.done ==> x.id in m.book)
  }

  /** The running sequence: the steps done so far are the first ones needed, and at least one is left. */
  ghost predicate Running(c: Caps, m: Machine, w: Rq) {
    && m.q.bits == {STARTED} + Skipped(c, w) + (set o | o in m.ops)
    && m.ops <= Needed(c, w) && |m.ops| < |Needed(c, w)|
    && m.q.err == FirstError(m.errs)
  }

  /** The flush request exists exactly while a sequence runs: on the list, or with the driver for the current step. */
  ghost predicate Engine(c: Caps, m: Machine) {
    && (m.q.orig.None? ==> m.q.bits == {} && m.flight.None?)
    && (m.q.orig.Some? ==> m.q.orig.value.id in m.book && Running(c, m, m.book[m.q.orig.value.id].want))
    && (m.flight.Some? ==> m.flight.value.stage == CurSeq(m.q.bits))
    && multiset(m.q.head)[FlushRq] == (if m.q.orig.Some? && m.flight.None? then 1 else 0)
  }

  ghost predicate Waiters(c: Caps, m: Machine) {
    && (m.q.pending != [] ==> m.q.orig.Some? || exists r :: Orig(r) in m.q.head && Sequenced(c, r))
    && (!c.flush ==> m.q.pending == [] && m.q.orig.None?)
  }

  lemma CurrentStep(c: Caps, m: Machine, w: Rq)
    requires Running(c, m, w)
    ensures CurSeq(m.q.bits) == Needed(c, w)[|m.ops|]
    ensures CurSeq(m.q.bits) !in m.q.bits && CurSeq(m.q.bits) != DONE
  {
    var n := Needed(c, w);
    if |m.ops| == 0 {
      assert m.ops == [];
    } else if |m.ops| == 1 {
      assert m.ops == [n[0]];
    } else {
      assert m.ops == [n[0], n[1]];
    }
  }

  lemma AfterStep(c: Caps, m: Machine, w: Rq)
    requires Running(c, m, w)
    ensures var stage := CurSeq(m.q.bits);
            && m.ops + [stage] <= Needed(c, w)
            && m.q.bits + {stage} == {STARTED} + Skipped(c, w) + (set o | o in m.ops + [stage])
            && (CurSeq(m.q.bits + {stage}) == DONE <==> m.ops + [stage] == Needed(c, w))
  {
    CurrentStep(c, m, w);
  }

  // ----- each request is in exactly one place

  function HeadCount(h: seq<Entry>, i: nat): nat {
    if h == [] then 0 else (if h[0].Orig? && h[0].rq.id == i then 1 else 0) + HeadCount(h[1..], i)
  }

  function RqCount(rs: seq<Rq>, i: nat): nat {
    if rs == [] then 0 else (if rs[0].id == i then 1 else 0) + RqCount(rs[1..], i)
  }

  function DoneCount(ds: seq<Completion>, i: nat): nat {
    if ds == [] then 0 else (if ds[0].id == i then 1 else 0) + DoneCount(ds[1..], i)
  }

  lemma {:induction false} HeadSnoc(h: seq<Entry>, e: Entry, i: nat)
    ensures HeadCount(h + [e], i) == HeadCount(h, i) + (if e.Orig? && e.rq.id == i then 1 else 0)
  {
    if h == [] {
      assert h + [e] == [e];
    } else {
      HeadSnoc(h[1..], e, i);
      assert (h + [e])[1..] == h[1..] + [e];
    }
  }

  lemma {:induction false} RqSnoc(rs: seq<Rq>, r: Rq, i: nat)
    ensures RqCount(rs + [r], i) == RqCount(rs, i) + (if r.id == i then 1 else 0)
  {
    if rs == [] {
      assert rs + [r] == [r];
    } else {
      RqSnoc(rs[1..], r, i);
      assert (rs + [r])[1..] == rs[1..] + [r];
    }
  }

  lemma {:induction false} DoneSnoc(ds: seq<Completion>, d: Completion, i: nat)
    ensures DoneCount(ds + [d], i) == DoneCount(ds, i) + (if d.id == i then 1 else 0)
  {
    if ds == [] {
      assert ds + [d] == [d];
    } else {
      DoneSnoc(ds[1..], d, i);
      assert (ds + [d])[1..] == ds[1..] + [d];
    }
  }

  lemma {:induction false} RqRemove(rs: seq<Rq>, k: nat, i: nat)
    requires k < |rs|
    ensures RqCount(rs, i) == RqCount(rs[..k] + rs[k + 1..], i) + (if rs[k].id == i then 1 else 0)
  {
    var rest := rs[..k] + rs[k + 1..];
    if k == 0 {
      assert rest == rs[1..];
    } else {
      RqRemove(rs[1..], k - 1, i);
      assert rest[1..] == rs[1..][..k - 1] + rs[1..][k..] && rest[0] == rs[0];
    }
  }

  function Places(m: Machine, i: nat): nat {
    HeadCount(m.q.head, i) + RqCount(m.q.pending, i) + (if m.q.orig.Some? && m.q.orig.value.id == i then 1 else 0)
    + RqCount(m.direct, i) + DoneCount(m.q.done, i)
  }

  ghost predicate Unique(m: Machine) {
    forall i: nat :: Places(m, i) == if i in m.book then 1 else 0
  }

  lemma FirstStep(c: Caps, r: Rq)
    ensures CurSeq({STARTED} + Skipped(c, r)) == DONE <==> Needed(c, r) == []
  {
  }

  // ----- the invariant is kept by every step

  ghost predicate Structure(c: Caps, m: Machine) {
    Legal(c) && Booked(c, m) && Engine(c, m) && Waiters(c, m) && Unique(m)
  }

  /** The first entry may be handed to the driver: it is the flush request, or it needed no sequencing. */
  ghost predicate Returnable(c: Caps, m: Machine) {
    m.q.head != [] && (m.q.head[0].FlushRq? || DirectOk(c, m.book, m.q.head[0].rq))
  }

  /** Changing the dispatch list: what has to be checked again. */
  lemma HeadChanged(c: Caps, m: Machine, h: seq<Entry>)
    requires Booked(c, m) && forall r :: Orig(r) in h ==> HeadOk(c, m.book, r)
    ensures Booked(c, m.(q := m.q.(head := h)))
  {
  }

  lemma SubmitBooked(c: Caps, m: Machine, r: Rq)
    requires Structure(c, m) && r.id !in m.book && Fit(c, r)
    ensures Booked(c, Submit(m, r)) && Engine(c, Submit(m, r))
  {
    hide Unique, Waiters;
    var m' := Submit(m, r);
    forall x | Orig(x) in m'.q.head ensures HeadOk(c, m'.book, x) {
      assert x == r || Orig(x) in m.q.head;
    }
    assert multiset(m'.q.head) == multiset(m.q.head) + multiset{Orig(r)};
  }

  lemma SubmitWaiters(c: Caps, m: Machine, r: Rq)
    requires Waiters(c, m)
    ensures Waiters(c, Submit(m, r))
  {
    if m.q.pending != [] && m.q.orig.None? {
      var x :| Orig(x) in m.q.head && Sequenced(c, x);
      assert Orig(x) in Submit(m, r).q.head;
    }
  }

  lemma SubmitUnique(m: Machine, r: Rq)
    requires Unique(m) && r.id !in m.book
    ensures Unique(Submit(m, r))
  {
    var m' := Submit(m, r);
    forall i: nat ensures Places(m', i) == if i in m'.book then 1 else 0 {
      HeadSnoc(m.q.head, Orig(r), i);
      assert ([Orig(r)] + m.q.head)[1..] == m.q.head;
    }
  }

  lemma StrippedNotSequenced(c: Caps, w: Rq)
    requires !Sequenced(c, w)
    ensures !Sequenced(c, Stripped(c, w)) && Stripped(c, Stripped(c, w)) == Stripped(c, w)
  {
  }

  lemma IssueBooked(c: Caps, m: Machine)
    requires Structure(c, m) && Returnable(c, m)
    ensures Booked(c, Issue(m)) && Engine(c, Issue(m))
  {
    hide Unique, Waiters;
    var m' := Issue(m);
    var e := m.q.head[0];
    assert m.q.head == [e] + m'.q.head;
    assert multiset(m.q.head) == multiset{e} + multiset(m'.q.head);
    forall x | Orig(x) in m'.q.head ensures HeadOk(c, m'.book, x) {
      assert Orig(x) in m.q.head;
    }
  }

  lemma IssueWaiters(c: Caps, m: Machine)
    requires Booked(c, m) && Waiters(c, m) && Returnable(c, m)
    ensures Waiters(c, Issue(m))
  {
    var e := m.q.head[0];
    if m.q.pending != [] && m.q.orig.None? {
      var x :| Orig(x) in m.q.head && Sequenced(c, x);
      if e.Orig? {
        StrippedNotSequenced(c, m.book[e.rq.id].want);
      }
      assert m.q.head == [e] + Issue(m).q.head;
      assert Orig(x) in Issue(m).q.head;
    }
  }

  lemma IssueUnique(m: Machine)
    requires Unique(m) && m.q.head != []
    ensures Unique(Issue(m))
  {
    var e := m.q.head[0];
    forall i: nat ensures Places(Issue(m), i) == if i in m.book then 1 else 0 {
      if e.Orig? {
        RqSnoc(m.direct, e.rq, i);
      }
    }
  }

  // Sequencing the first request has four outcomes: it is stripped, it waits, it starts a sequence, or it is done at
  // once.

  ghost predicate AtFlagged(m: Machine) {
    m.q.head != [] && m.q.head[0].Orig? && Flagged(m.q.head[0].rq)
  }

  lemma HeadSplit(c: Caps, m: Machine)
    requires Booked(c, m) && AtFlagged(m)
    ensures var r := m.q.head[0].rq;
            && m.q.head == [Orig(r)] + m.q.head[1..]
            && multiset(m.q.head)[FlushRq] == multiset(m.q.head[1..])[FlushRq]
            && HeadOk(c, m.book, r)
            && (forall x :: Orig(x) in m.q.head[1..] ==> HeadOk(c, m.book, x))
            && (Sequenced(c, r) ==> r == m.book[r.id].want)
            && (!Sequenced(c, r) ==> DirectOk(c, m.book, Stripped(c, r)))
  {
    var r := m.q.head[0].rq;
    var rest := m.q.head[1..];
    assert m.q.head == [Orig(r)] + rest;
    assert multiset(m.q.head) == multiset{Orig(r)} + multiset(rest);
    assert Orig(r) in m.q.head;
    forall x | Orig(x) in rest ensures HeadOk(c, m.book, x) {
      assert Orig(x) in m.q.head;
    }
    var w := m.book[r.id].want;
    if r != w {
      StrippedNotSequenced(c, w);
    }
  }

  lemma SequenceStrips(c: Caps, m: Machine)
    requires Structure(c, m) && AtFlagged(m) && !Sequenced(c, m.q.head[0].rq)
    ensures Booked(c, Sequence(c, m)) && Engine(c, Sequence(c, m)) && Returnable(c, Sequence(c, m))
  {
    hide Unique, Waiters, Sequenced, Running;
    HeadSplit(c, m);
    var m' := Sequence(c, m);
    var r, rest := m.q.head[0].rq, m.q.head[1..];
    assert m'.q.head == [Orig(Stripped(c, r))] + rest;
    assert multiset(m'.q.head) == multiset{Orig(Stripped(c, r))} + multiset(rest);
    forall x | Orig(x) in m'.q.head ensures HeadOk(c, m.book, x) {
      assert x == Stripped(c, r) || Orig(x) in rest;
    }
    HeadChanged(c, m, m'.q.head);
    assert m' == m.(q := m.q.(head := m'.q.head));
    RunningSame(c, m, m');
  }

  lemma RunningSame(c: Caps, m: Machine, m': Machine)
    requires m'.q.bits == m.q.bits && m'.ops == m.ops && m'.errs == m.errs && m'.q.err == m.q.err
    ensures forall w :: Running(c, m, w) ==> Running(c, m', w)
  {
  }

  lemma SequenceWaits(c: Caps, m: Machine)
    requires Structure(c, m) && AtFlagged(m) && Sequenced(c, m.q.head[0].rq) && m.q.bits != {}
    ensures Booked(c, Sequence(c, m)) && Engine(c, Sequence(c, m))
  {
    hide Unique, Waiters, Sequenced, Running;
    HeadSplit(c, m);
    var m' := Sequence(c, m);
    var r, rest := m.q.head[0].rq, m.q.head[1..];
    HeadChanged(c, m, rest);
    RunningSame(c, m, m');
  }

  lemma SequenceFinishes(c: Caps, m: Machine)
    requires Structure(c, m) && AtFlagged(m) && Sequenced(c, m.q.head[0].rq) && m.q.bits == {}
    requires Needed(c, m.q.head[0].rq) == []
    ensures !c.flush && m.q.pending == [] && DoFlush(c, m.q, m.q.head[0].rq).1 == None
    ensures var r := m.q.head[0].rq;
            && Sequence(c, m).q == m.q.(head := m.q.head[1..], err := 0, done := m.q.done + [Completion(r.id, 0)])
            && Sequence(c, m).reports == m.reports + [Report(r.id, 0, [], [])]
    ensures Booked(c, Sequence(c, m)) && Engine(c, Sequence(c, m))
  {
    hide Unique, Running;
    HeadSplit(c, m);
    var r := m.q.head[0].rq;
    FirstStep(c, r);
    SkippedAll(c, r);
    assert Fit(c, m.book[r.id].want);
    HeadChanged(c, m, m.q.head[1..]);
  }

  lemma SequenceStarts(c: Caps, m: Machine)
    requires Structure(c, m) && AtFlagged(m) && Sequenced(c, m.q.head[0].rq) && m.q.bits == {}
    requires Needed(c, m.q.head[0].rq) != []
    ensures var r := m.q.head[0].rq;
            && Sequence(c, m).q == m.q.(head := [FlushRq] + m.q.head[1..], err := 0, bits := {STARTED} + Skipped(c, r),
                                        orig := Some(Stripped(c, r)))
            && Sequence(c, m).reports == m.reports
    ensures Booked(c, Sequence(c, m)) && Engine(c, Sequence(c, m)) && Returnable(c, Sequence(c, m))
  {
    hide Unique, Waiters, Sequenced;
    HeadSplit(c, m);
    var m' := Sequence(c, m);
    var r, rest := m.q.head[0].rq, m.q.head[1..];
    FirstStep(c, r);
    SkippedAll(c, r);
    assert m'.q.head == [FlushRq] + rest;
    assert multiset(m'.q.head) == multiset{FlushRq} + multiset(rest);
    forall x | Orig(x) in m'.q.head ensures HeadOk(c, m.book, x) {
      assert Orig(x) in rest;
    }
    HeadChanged(c, m, m'.q.head);
    assert (set o | o in m'.ops) == {};
  }

  lemma SequenceWaiters(c: Caps, m: Machine)
    requires Structure(c, m) && AtFlagged(m)
    ensures Waiters(c, Sequence(c, m))
  {
    hide Unique;
    HeadSplit(c, m);
    var r := m.q.head[0].rq;
    if !Sequenced(c, r) {
      if m.q.pending != [] && m.q.orig.None? {
        var x :| Orig(x) in m.q.head && Sequenced(c, x);
        assert Orig(x) in Sequence(c, m).q.head;
      }
    } else if m.q.bits == {} {
      if Needed(c, r) == [] {
        SequenceFinishes(c, m);
      } else {
        SequenceStarts(c, m);
        assert c.flush by {
          NeedsCache(c, r);
        }
      }
    }
  }

  lemma NeedsCache(c: Caps, r: Rq)
    requires Sequenced(c, r) && Needed(c, r) != []
    ensures c.flush
  {
  }

  lemma SequenceUnique(c: Caps, m: Machine)
    requires Structure(c, m) && AtFlagged(m)
    ensures Unique(Sequence(c, m))
  {
    hide Booked, Waiters, Engine, HeadOk, DirectOk, Needed, Sequenced;
    HeadSplit(c, m);
    var r := m.q.head[0].rq;
    var m' := Sequence(c, m);
    IdleWhenClear(c, m);
    if Sequenced(c, r) && m.q.bits == {} {
      if Needed(c, r) == [] {
        SequenceFinishes(c, m);
      } else {
        SequenceStarts(c, m);
      }
    }
    forall i: nat ensures Places(m', i) == if i in m'.book then 1 else 0 {
      assert Places(m, i) == if i in m.book then 1 else 0;
      SequencePlaces(c, m, i);
    }
  }

  lemma IdleWhenClear(c: Caps, m: Machine)
    requires Engine(c, m)
    ensures m.q.bits == {} ==> m.q.orig.None?
  {
  }

  lemma SequencePlaces(c: Caps, m: Machine, i: nat)
    requires AtFlagged(m) && (m.q.bits == {} ==> m.q.orig.None?)
    requires Needed(c, m.q.head[0].rq) == [] && m.q.bits == {} && Sequenced(c, m.q.head[0].rq) ==> m.q.pending == []
    ensures Places(Sequence(c, m), i) == Places(m, i)
  {
    var r := m.q.head[0].rq;
    RqSnoc(m.q.pending, r, i);
    DoneSnoc(m.q.done, Completion(r.id, 0), i);
    FirstStep(c, r);
    assert ([Orig(Stripped(c, r))] + m.q.head[1..])[1..] == m.q.head[1..];
    assert ([FlushRq] + m.q.head[1..])[1..] == m.q.head[1..];
  }

  lemma SkippedAll(c: Caps, r: Rq)
    ensures Skipped(c, r) == {PREFLUSH, DATA, POSTFLUSH} <==> Needed(c, r) == []
  {
  }

  lemma PlainReturnable(c: Caps, m: Machine)
    requires Booked(c, m) && m.q.head != [] && (m.q.head[0].FlushRq? || !Flagged(m.q.head[0].rq))
    ensures Returnable(c, m)
  {
    if m.q.head[0].Orig? {
      var r := m.q.head[0].rq;
      assert Orig(r) in m.q.head;
    }
  }

  lemma IssueKeeps(c: Caps, m: Machine)
    requires Structure(c, m) && Returnable(c, m)
    ensures Structure(c, Issue(m))
  {
    hide Booked, Engine, Waiters, Unique;
    IssueBooked(c, m);
    IssueWaiters(c, m);
    IssueUnique(m);
  }

  lemma SequenceKeeps(c: Caps, m: Machine)
    requires Structure(c, m) && AtFlagged(m)
    ensures Structure(c, Sequence(c, m))
    ensures DoFlush(c, m.q, m.q.head[0].rq).1.Some? ==> Returnable(c, Sequence(c, m))
  {
    hide Booked, Engine, Waiters, Unique, Needed, Sequenced;
    SequenceWaiters(c, m);
    SequenceUnique(c, m);
    var r := m.q.head[0].rq;
    if !Sequenced(c, r) {
      SequenceStrips(c, m);
    } else if m.q.bits != {} {
      SequenceWaits(c, m);
    } else if Needed(c, r) == [] {
      SequenceFinishes(c, m);
    } else {
      SequenceStarts(c, m);
    }
  }

  // ----- completions

  lemma EndDirectKeeps(c: Caps, m: Machine, k: nat, err: int)
    requires Structure(c, m) && k < |m.direct|
    ensures Structure(c, EndDirect(c, m, k, err))
  {
    hide Running;
    var m' := EndDirect(c, m, k, err);
    RunningSame(c, m, m');
    assert m.direct[k] in m.direct;
    forall x | x in m'.direct ensures DirectOk(c, m'.book, x) {
      assert x in m.direct;
    }
    forall i: nat ensures Places(m', i) == if i in m'.book then 1 else 0 {
      RqRemove(m.direct, k, i);
      DoneSnoc(m.q.done, Completion(m.direct[k].id, err), i);
    }
  }

  lemma RequeueDirectKeeps(c: Caps, m: Machine, k: nat)
    requires Structure(c, m) && k < |m.direct|
    ensures Structure(c, Next(c, m, RequeuesDirect(k)))
  {
    hide Running, Unique, HeadOk, PendingOk, OrigOk, Fit;
    var m' := Next(c, m, RequeuesDirect(k));
    var r := m.direct[k];
    assert r in m.direct && m'.q.head == [Orig(r)] + m.q.head;
    assert multiset(m'.q.head) == multiset{Orig(r)} + multiset(m.q.head);
    RunningSame(c, m, m');
    forall x | Orig(x) in m'.q.head ensures HeadOk(c, m.book, x) {
      if x == r {
        DirectIsHeadOk(c, m, r);
      } else {
        assert Orig(x) in m.q.head;
      }
    }
    HeadChanged(c, m, m'.q.head);
    forall x | x in m'.direct ensures DirectOk(c, m'.book, x) {
      assert x in m.direct;
    }
    if m.q.pending != [] && m.q.orig.None? {
      var x :| Orig(x) in m.q.head && Sequenced(c, x);
      assert Orig(x) in m'.q.head;
    }
    RequeueUnique(m, k);
  }

  lemma DirectIsHeadOk(c: Caps, m: Machine, r: Rq)
    requires DirectOk(c, m.book, r)
    ensures HeadOk(c, m.book, r)
  {
  }

  lemma RequeueUnique(m: Machine, k: nat)
    requires Unique(m) && k < |m.direct|
    ensures Unique(m.(direct := m.direct[..k] + m.direct[k + 1..], q := m.q.(head := [Orig(m.direct[k])] + m.q.head)))
  {
    var m' := m.(direct := m.direct[..k] + m.direct[k + 1..], q := m.q.(head := [Orig(m.direct[k])] + m.q.head));
    forall i: nat ensures Places(m', i) == if i in m'.book then 1 else 0 {
      RqRemove(m.direct, k, i);
      assert m'.q.head[1..] == m.q.head;
    }
  }

  lemma RequeueFlushKeeps(c: Caps, m: Machine)
    requires Structure(c, m) && m.flight.Some?
    ensures Structure(c, Next(c, m, RequeuesFlush))
  {
    hide Running;
    var m' := Next(c, m, RequeuesFlush);
    assert m'.q.head == [FlushRq] + m.q.head && m'.q.head[1..] == m.q.head;
    assert multiset(m'.q.head) == multiset{FlushRq} + multiset(m.q.head);
    RunningSame(c, m, m');
    forall x | Orig(x) in m'.q.head ensures HeadOk(c, m'.book, x) {
      assert Orig(x) in m.q.head;
    }
    forall i: nat ensures Places(m', i) == if i in m'.book then 1 else 0 {
    }
  }

  lemma PartialKeeps(c: Caps, m: Machine, err: int)
    requires Structure(c, m)
    ensures Structure(c, Next(c, m, PartialError(err)))
  {
    FirstErrorSnoc(m.errs, err);
    var m' := Next(c, m, PartialError(err));
    assert forall i :: Places(m', i) == Places(m, i);
  }

  /** A step ends and another is needed: the flush request goes back to the front for it. */
  lemma EndFlushMore(c: Caps, m: Machine, err: int)
    requires Structure(c, m) && m.flight.Some? && m.q.orig.Some?
    requires CurSeq(m.q.bits + {m.flight.value.stage}) != DONE
    ensures Structure(c, EndFlush(c, m, err))
  {
    var m' := EndFlush(c, m, err);
    var w := m.book[m.q.orig.value.id].want;
    AfterStep(c, m, w);
    FirstErrorSnoc(m.errs, err);
    assert m'.q.head == [FlushRq] + m.q.head && m'.q.head[1..] == m.q.head;
    assert multiset(m'.q.head) == multiset{FlushRq} + multiset(m.q.head);
    assert Running(c, m', w) by {
      if m'.ops == Needed(c, w) {
      }
    }
    hide Running;
    forall x | Orig(x) in m'.q.head ensures HeadOk(c, m'.book, x) {
      assert Orig(x) in m.q.head;
    }
    forall i: nat ensures Places(m', i) == if i in m'.book then 1 else 0 {
    }
  }

  /** The queue after the last step of a sequence. */
  function Finished(q: Queue, err: int): Queue
    requires q.orig.Some?
  {
    var q1 := q.(err := if err != 0 && q.err == 0 then err else q.err, bits := {}, orig := None);
    var q2 := q1.(done := q.done + [Completion(q.orig.value.id, q1.err)]);
    if q.pending == [] then q2 else q2.(head := [Orig(q.pending[0])] + q.head, pending := q.pending[1..])
  }

  lemma FinishedUnique(m: Machine, err: int)
    requires Unique(m) && m.q.orig.Some?
    ensures Unique(m.(q := Finished(m.q, err)))
  {
    var m' := m.(q := Finished(m.q, err));
    forall i: nat ensures Places(m', i) == if i in m'.book then 1 else 0 {
      DoneSnoc(m.q.done, Completion(m.q.orig.value.id, m'.q.err), i);
      if m.q.pending != [] {
        assert m'.q.head[1..] == m.q.head;
      }
    }
  }

  lemma FinishedBooked(c: Caps, m: Machine, err: int)
    requires Booked(c, m) && m.q.orig.Some?
    ensures Booked(c, m.(q := Finished(m.q, err)))
  {
    hide PendingOk, Fit;
    var m' := m.(q := Finished(m.q, err));
    forall x | x in m'.q.pending ensures x in m.q.pending {
    }
    if m.q.pending != [] {
      var p := m.q.pending[0];
      assert p in m.q.pending;
      PendingIsHeadOk(c, m, p);
    }
    forall x | Orig(x) in m'.q.head ensures HeadOk(c, m'.book, x) {
      assert Orig(x) in m.q.head || (m.q.pending != [] && x == m.q.pending[0]);
    }
    forall x | x in m'.q.done ensures x.id in m.book {
      assert x in m.q.done || x.id == m.q.orig.value.id;
    }
  }

  lemma PendingIsHeadOk(c: Caps, m: Machine, r: Rq)
    requires PendingOk(c, m.book, r)
    ensures HeadOk(c, m.book, r) && Sequenced(c, r)
  {
  }

  /** A sequence ends: the request is completed and the first waiting one moves to the dispatch list. */
  lemma EndFlushLast(c: Caps, m: Machine, err: int)
    requires Structure(c, m) && m.flight.Some? && m.q.orig.Some?
    requires CurSeq(m.q.bits + {m.flight.value.stage}) == DONE
    ensures EndFlush(c, m, err).q == Finished(m.q, err)
    ensures Structure(c, EndFlush(c, m, err))
  {
    hide Running, Unique, HeadOk, PendingOk, OrigOk, DirectOk, Fit;
    var m' := EndFlush(c, m, err);
    FinishedBooked(c, m, err);
    FinishedUnique(m, err);
    SameStructure(c, m.(q := Finished(m.q, err)), m');
    if m.q.pending != [] {
      var p := m.q.pending[0];
      assert p in m.q.pending;
      PendingIsHeadOk(c, m, p);
      assert multiset(m'.q.head) == multiset{Orig(p)} + multiset(m.q.head);
      assert Orig(p) in m'.q.head;
    }
  }

  /** Where requests are does not depend on the device or on the logs. */
  lemma SameStructure(c: Caps, m: Machine, m': Machine)
    requires m'.q == m.q && m'.direct == m.direct && m'.book == m.book
    ensures Booked(c, m) ==> Booked(c, m')
    ensures Unique(m) ==> Unique(m')
  {
    if Unique(m) {
      forall i: nat ensures Places(m', i) == if i in m'.book then 1 else 0 {
        assert Places(m, i) == if i in m.book then 1 else 0;
      }
    }
  }

  /** The assertion that no step is recorded twice holds, and the structure is kept. */
  lemma EndFlushKeeps(c: Caps, m: Machine, err: int)
    requires Structure(c, m) && m.flight.Some? && m.q.orig.Some?
    ensures m.flight.value.stage !in m.q.bits
    ensures Structure(c, EndFlush(c, m, err))
  {
    hide Booked, Unique, Waiters;
    CurrentStep(c, m, m.book[m.q.orig.value.id].want);
    if CurSeq(m.q.bits + {m.flight.value.stage}) == DONE {
      EndFlushLast(c, m, err);
    } else {
      EndFlushMore(c, m, err);
    }
  }

  // ----- the invariant: what is durable

  /** What a request promises its submitter on success. */
  ghost predicate Promise(t: Ticket, durable: set<nat>) {
    (t.want.flush ==> t.before <= durable) && (t.want.fua && t.want.data ==> t.want.id in durable)
  }

  ghost predicate Landings(c: Caps, m: Machine) {
    && (!c.flush ==> m.landed <= m.durable)
    && (forall i :: i in m.book ==> m.book[i].before <= m.landed)
    && (forall x :: x in m.q.done && x.err == 0 && x.id in m.book && m.book[x.id].want.data ==> x.id in m.landed)
  }

  /** What the finished steps of the running sequence have achieved, unless one of them failed. */
  ghost predicate Achieved(c: Caps, m: Machine, t: Ticket) {
    && (PREFLUSH in m.ops ==> t.before <= m.durable)
    && (DATA in m.ops ==> t.want.id in m.landed && (c.fua && t.want.fua ==> t.want.id in m.durable))
    && (POSTFLUSH in m.ops && t.want.data ==> t.want.id in m.durable)
  }

  /** What the flush command with the driver will make durable. */
  ghost predicate Covers(m: Machine, t: Ticket) {
    m.flight.Some? ==>
      && m.flight.value.covered <= m.landed
      && (m.flight.value.stage == PREFLUSH ==> t.before <= m.flight.value.covered)
      && (m.flight.value.stage == POSTFLUSH && t.want.data && m.q.err == 0 ==> t.want.id in m.flight.value.covered)
  }

  ghost predicate Progress(c: Caps, m: Machine) {
    m.q.orig.Some? && m.q.orig.value.id in m.book ==>
      var t := m.book[m.q.orig.value.id];
      Covers(m, t) && (m.q.err == 0 ==> Achieved(c, m, t))
  }

  /** Every success that was reported is backed by stable storage; every write was issued after what it must follow. */
  ghost predicate Promises(c: Caps, m: Machine) {
    && (forall x :: x in m.q.done && x.err == 0 && x.id in m.book ==> Promise(m.book[x.id], m.durable))
    && (forall x :: x in m.issued ==>
          x.id in m.book && (x.err == 0 && m.book[x.id].want.flush ==> m.book[x.id].before <= x.durable))
  }

  /** Sequenced requests ran exactly the steps they need, and report the first error. */
  ghost predicate Reported(c: Caps, m: Machine) {
    forall x :: x in m.reports ==>
      && x.id in m.book && Sequenced(c, m.book[x.id].want)
      && x.ops == Needed(c, m.book[x.id].want)
      && x.err == FirstError(x.errs)
      && Completion(x.id, x.err) in m.q.done
  }

  ghost predicate Inv(c: Caps, m: Machine) {
    Structure(c, m) && Landings(c, m) && Progress(c, m) && Promises(c, m) && Reported(c, m)
  }

  lemma SubmitInv(c: Caps, m: Machine, r: Rq)
    requires Inv(c, m) && r.id !in m.book && Fit(c, r)
    ensures Inv(c, Submit(m, r))
  {
    assert Structure(c, Submit(m, r)) by {
      SubmitBooked(c, m, r);
      SubmitWaiters(c, m, r);
      SubmitUnique(m, r);
    }
    hide Engine, Waiters, Unique, HeadOk, PendingOk, DirectOk, Fit, Needed, Sequenced;
    assert Acked(m) <= m.landed;
  }

  lemma IssueInv(c: Caps, m: Machine)
    requires Inv(c, m) && Returnable(c, m)
    ensures Inv(c, Issue(m))
  {
    IssueKeeps(c, m);
    if m.q.head[0].Orig? {
      IssueDirectClaims(c, m);
    } else {
      assert m.q.orig.Some? by {
        assert m.q.head[0] in multiset(m.q.head);
      }
      IssueFlushClaims(c, m);
    }
  }

  lemma IssueDirectClaims(c: Caps, m: Machine)
    requires Legal(c) && Claims(c, m) && m.q.head != [] && m.q.head[0].Orig? && DirectOk(c, m.book, m.q.head[0].rq)
    ensures Claims(c, Issue(m))
  {
    hide Needed;
    DirectUnflushed(c, m.book[m.q.head[0].rq.id].want);
  }

  lemma IssueFlushClaims(c: Caps, m: Machine)
    requires Claims(c, m) && Engine(c, m) && m.q.head != [] && m.q.head[0].FlushRq? && m.q.orig.Some?
    requires OrigOk(c, m.book, m.q.orig.value) && Waiters(c, m)
    ensures Claims(c, Issue(m))
  {
    var t := m.book[m.q.orig.value.id];
    CurrentStep(c, m, t.want);
    StepsBefore(c, t.want, m.ops);
    hide Needed, Running;
  }

  lemma DirectUnflushed(c: Caps, w: Rq)
    requires Legal(c) && !Sequenced(c, w)
    ensures w.flush ==> !c.flush
    ensures w.fua ==> !c.flush || Stripped(c, w).fua
  {
  }

  /** The order of the steps: a preflush that is needed comes first, and data that is needed before the postflush. */
  lemma StepsBefore(c: Caps, w: Rq, ops: seq<nat>)
    requires ops <= Needed(c, w) && |ops| < |Needed(c, w)|
    ensures Needed(c, w)[|ops|] == DATA && DoPreflush(c, w) ==> PREFLUSH in ops
    ensures Needed(c, w)[|ops|] == POSTFLUSH && w.data ==> DATA in ops
    ensures Needed(c, w)[|ops|] == POSTFLUSH ==> DoPostflush(c, w)
  {
    var n := Needed(c, w);
    if |ops| == 1 {
      assert ops == [n[0]];
    } else if |ops| == 2 {
      assert ops == [n[0], n[1]];
    }
  }

  ghost predicate Claims(c: Caps, m: Machine) {
    Landings(c, m) && Progress(c, m) && Promises(c, m) && Reported(c, m)
  }

  /** Moving requests between the lists touches none of the claims. */
  lemma ListsMoved(c: Caps, m: Machine, h: seq<Entry>, p: seq<Rq>)
    requires Claims(c, m)
    ensures Claims(c, m.(q := m.q.(head := h, pending := p)))
  {
  }

  /** A sequence that starts has achieved nothing yet. */
  lemma StartClaims(c: Caps, m: Machine, q': Queue)
    requires Claims(c, m) && m.flight.None? && q'.done == m.q.done
    ensures Claims(c, m.(q := q', ops := [], errs := []))
  {
  }

  /** Without a cache a request that needs no step is done at once. */
  lemma FinishClaims(c: Caps, m: Machine, r: Rq, h: seq<Entry>)
    requires Claims(c, m) && !c.flush && m.q.orig.None?
    requires r.id in m.book && m.book[r.id].want == r && Needed(c, r) == [] && Sequenced(c, r)
    ensures Claims(c, m.(q := m.q.(head := h, err := 0, done := m.q.done + [Completion(r.id, 0)]),
                         ops := [], errs := [], reports := m.reports + [Report(r.id, 0, [], [])]))
  {
    assert !r.data;
  }

  lemma SequenceInv(c: Caps, m: Machine)
    requires Inv(c, m) && AtFlagged(m)
    ensures Inv(c, Sequence(c, m))
    ensures DoFlush(c, m.q, m.q.head[0].rq).1.Some? ==> Returnable(c, Sequence(c, m))
  {
    hide Booked, Waiters, Unique, HeadOk, PendingOk, DirectOk, Fit, Sequenced, Needed,
         Landings, Progress, Promises, Reported, Running;
    SequenceKeeps(c, m);
    HeadSplit(c, m);
    var r := m.q.head[0].rq;
    var q' := Sequence(c, m).q;
    if !Sequenced(c, r) || m.q.bits != {} {
      ListsMoved(c, m, q'.head, q'.pending);
    } else if Needed(c, r) == [] {
      SequenceFinishes(c, m);
      HeadKnown(c, m, r);
      FinishClaims(c, m, r, m.q.head[1..]);
    } else {
      SequenceStarts(c, m);
      StartClaims(c, m, q');
    }
  }

  lemma HeadKnown(c: Caps, m: Machine, r: Rq)
    requires HeadOk(c, m.book, r)
    ensures r.id in m.book
  {
  }

  lemma {:induction false} FetchInv(c: Caps, m: Machine)
    requires Inv(c, m)
    ensures Inv(c, Fetch(c, m))
    decreases |m.q.head|
  {
    hide Booked, Engine, Waiters, Unique, Needed, DirectOk, HeadOk, Landings, Progress, Promises, Reported;
    if m.q.head == [] {
    } else if m.q.head[0].FlushRq? || !Flagged(m.q.head[0].rq) {
      PlainReturnable(c, m);
      IssueInv(c, m);
    } else {
      SequenceInv(c, m);
      var m1 := Sequence(c, m);
      if DoFlush(c, m.q, m.q.head[0].rq).1.Some? {
        IssueInv(c, m1);
      } else {
        LoopProgress(c, m.q, m.q.head[0].rq);
        FetchInv(c, m1);
      }
    }
  }

  lemma EndDirectInv(c: Caps, m: Machine, k: nat, err: int)
    requires Inv(c, m) && k < |m.direct|
    ensures Inv(c, EndDirect(c, m, k, err))
  {
    EndDirectKeeps(c, m, k, err);
    var r := m.direct[k];
    assert Claims(c, EndDirect(c, m, k, err)) by {
      hide Engine, Waiters, Unique, HeadOk, PendingOk, Fit, Needed;
      assert r in m.direct && m.book[r.id].want.id == r.id;
      DirectClaims(c, m, r, err);
    }
  }

  lemma DirectClaims(c: Caps, m: Machine, r: Rq, err: int)
    requires Legal(c) && Claims(c, m) && DirectOk(c, m.book, r) && m.book[r.id].want.id == r.id
    ensures var m1 := if err == 0 && r.data then Written(c, m, r) else m;
            Claims(c, m1.(q := m.q.(done := m.q.done + [Completion(r.id, err)])))
  {
    hide Needed;
    DirectUnflushed(c, m.book[r.id].want);
  }

  /** What the step that just succeeded adds to what the sequence has achieved. */
  lemma PerformedAchieves(c: Caps, m: Machine, t: Ticket)
    requires m.flight.Some? && m.q.orig.Some? && Covers(m, t) && m.q.err == 0 && Achieved(c, m, t)
    requires m.q.orig.value == Stripped(c, t.want)
    ensures Achieved(c, Performed(c, m).(ops := m.ops + [m.flight.value.stage]), t)
  {
  }

  lemma PerformedClaims(c: Caps, m: Machine)
    requires Claims(c, m) && Waiters(c, m) && m.flight.Some? && m.q.orig.Some? && m.q.orig.value.id in m.book
    ensures Claims(c, Performed(c, m))
  {
  }

  lemma AllStepsDone(c: Caps, m: Machine, t: Ticket)
    requires Legal(c) && Achieved(c, m, t) && m.ops == Needed(c, t.want) && (!c.flush ==> m.landed <= m.durable)
    requires t.before <= m.landed && (t.want.data ==> t.want.id in m.landed)
    ensures Promise(t, m.durable)
  {
  }

  /** The running sequence after its step: claims about the machine before the queue is touched. */
  function Stepped(c: Caps, m: Machine, err: int): Machine
    requires m.flight.Some? && m.q.orig.Some?
  {
    (if err == 0 then Performed(c, m) else m).(flight := None, ops := m.ops + [m.flight.value.stage],
                                              errs := m.errs + [err],
                                              q := m.q.(err := if err != 0 && m.q.err == 0 then err else m.q.err))
  }

  lemma SteppedClaims(c: Caps, m: Machine, err: int)
    requires Claims(c, m) && Waiters(c, m) && m.flight.Some? && m.q.orig.Some? && OrigOk(c, m.book, m.q.orig.value)
    ensures Claims(c, Stepped(c, m, err))
  {
    var t := m.book[m.q.orig.value.id];
    if err == 0 {
      PerformedClaims(c, m);
      if m.q.err == 0 {
        PerformedAchieves(c, m, t);
      }
    }
    hide Needed, Sequenced, Waiters;
  }

  lemma EndFlushMoreInv(c: Caps, m: Machine, err: int)
    requires Inv(c, m) && m.flight.Some? && m.q.orig.Some?
    requires CurSeq(m.q.bits + {m.flight.value.stage}) != DONE
    ensures Inv(c, EndFlush(c, m, err))
  {
    hide Unique, Landings, Progress, Promises, Reported, Running, Fit, HeadOk, PendingOk, DirectOk;
    EndFlushMore(c, m, err);
    SteppedClaims(c, m, err);
    BitsMoved(c, Stepped(c, m, err), EndFlush(c, m, err).q.bits, EndFlush(c, m, err).q.head);
  }

  lemma BitsMoved(c: Caps, m: Machine, bits: set<nat>, h: seq<Entry>)
    requires Claims(c, m)
    ensures Claims(c, m.(q := m.q.(bits := bits, head := h)))
  {
  }

  /** Completing the request after its last step. */
  lemma FinishedClaims(c: Caps, m: Machine, t: Ticket, h: seq<Entry>, p: seq<Rq>)
    requires Legal(c) && Claims(c, m) && m.q.orig.Some? && m.flight.None?
    requires m.q.orig.value.id in m.book && t == m.book[m.q.orig.value.id] && t.want.id == m.q.orig.value.id
    requires Sequenced(c, t.want) && m.ops == Needed(c, t.want) && m.q.err == FirstError(m.errs)
    ensures var o := m.q.orig.value;
            Claims(c, m.(q := m.q.(head := h, pending := p, bits := {}, orig := None,
                                   done := m.q.done + [Completion(o.id, m.q.err)]),
                         reports := m.reports + [Report(o.id, m.q.err, m.ops, m.errs)]))
  {
    hide Sequenced;
    if m.q.err == 0 {
      DataNeeded(c, t.want);
      AllStepsDone(c, m, t);
    }
    hide Needed;
  }

  lemma DataNeeded(c: Caps, w: Rq)
    ensures w.data ==> DATA in Needed(c, w)
  {
    if w.data && DoPreflush(c, w) {
      assert Needed(c, w)[1] == DATA;
    } else if w.data {
      assert Needed(c, w)[0] == DATA;
    }
  }

  lemma EndFlushLastInv(c: Caps, m: Machine, err: int)
    requires Inv(c, m) && m.flight.Some? && m.q.orig.Some?
    requires CurSeq(m.q.bits + {m.flight.value.stage}) == DONE
    ensures Inv(c, EndFlush(c, m, err))
  {
    hide Unique, Landings, Progress, Promises, Reported, Fit, HeadOk, PendingOk, DirectOk, Needed, Sequenced;
    EndFlushLast(c, m, err);
    SteppedClaims(c, m, err);
    var t := m.book[m.q.orig.value.id];
    AfterStep(c, m, t.want);
    FirstErrorSnoc(m.errs, err);
    var q' := EndFlush(c, m, err).q;
    FinishedClaims(c, Stepped(c, m, err), t, q'.head, q'.pending);
  }

  lemma EndFlushInv(c: Caps, m: Machine, err: int)
    requires Inv(c, m) && m.flight.Some? && m.q.orig.Some?
    ensures Inv(c, EndFlush(c, m, err))
  {
    hide Inv;
    if CurSeq(m.q.bits + {m.flight.value.stage}) == DONE {
      EndFlushLastInv(c, m, err);
    } else {
      EndFlushMoreInv(c, m, err);
    }
  }

  lemma RequeueFlushInv(c: Caps, m: Machine)
    requires Inv(c, m) && m.flight.Some?
    ensures Inv(c, Next(c, m, RequeuesFlush))
  {
    hide Booked, Engine, Waiters, Unique, Landings, Promises, Reported;
    RequeueFlushKeeps(c, m);
    BitsMoved(c, m.(flight := None), m.q.bits, [FlushRq] + m.q.head) by {
      GroundedClaims(c, m);
    }
  }

  lemma GroundedClaims(c: Caps, m: Machine)
    requires Claims(c, m)
    ensures Claims(c, m.(flight := None))
  {
  }

  lemma PartialInv(c: Caps, m: Machine, err: int)
    requires Inv(c, m)
    ensures Inv(c, Next(c, m, PartialError(err)))
  {
    PartialKeeps(c, m, err);
    PartialClaims(c, m, err);
  }

  lemma PartialClaims(c: Caps, m: Machine, err: int)
    requires Claims(c, m)
    ensures Claims(c, Next(c, m, PartialError(err)))
  {
  }

  lemma RequeueDirectInv(c: Caps, m: Machine, k: nat)
    requires Inv(c, m) && k < |m.direct|
    ensures Inv(c, Next(c, m, RequeuesDirect(k)))
  {
    hide Booked, Engine, Waiters, Unique;
    RequeueDirectKeeps(c, m, k);
  }

  lemma WriteBackInv(c: Caps, m: Machine, what: set<nat>)
    requires Inv(c, m)
    ensures Inv(c, Next(c, m, WritesBack(what)))
  {
    hide Running;
    var m' := Next(c, m, WritesBack(what));
    SameStructure(c, m, m');
    RunningSame(c, m, m');
  }

  // ----- runs

  lemma NextInv(c: Caps, m: Machine, s: Step)
    requires Inv(c, m) && (s.Submits? ==> Fit(c, s.r))
    ensures Inv(c, Next(c, m, s))
  {
    hide Inv, Fit;
    match s {
      case Submits(r) => if r.id !in m.book { SubmitInv(c, m, r); }
      case Fetches => FetchInv(c, m);
      case RequeuesDirect(k) => if k < |m.direct| { RequeueDirectInv(c, m, k); }
      case RequeuesFlush => if m.flight.Some? { RequeueFlushInv(c, m); }
      case EndsDirect(k, err) => if k < |m.direct| { EndDirectInv(c, m, k, err); }
      case EndsFlush(err) => if m.flight.Some? && m.q.orig.Some? { EndFlushInv(c, m, err); }
      case PartialError(err) => PartialInv(c, m, err);
      case WritesBack(what) => WriteBackInv(c, m, what);
    }
  }

  ghost predicate AllFit(c: Caps, steps: seq<Step>) {
    forall k :: 0 <= k < |steps| && steps[k].Submits? ==> Fit(c, steps[k].r)
  }

  lemma {:induction false} RunFrom(c: Caps, m: Machine, steps: seq<Step>)
    requires Inv(c, m) && AllFit(c, steps)
    ensures Inv(c, RunOf(c, m, steps))
    decreases steps
  {
    hide Inv, Next;
    if steps != [] {
      NextInv(c, m, steps[0]);
      assert AllFit(c, steps[1..]) by {
        forall k | 0 <= k < |steps[1..]| && steps[1..][k].Submits? ensures Fit(c, steps[1..][k].r) {
          assert steps[1..][k] == steps[k + 1];
        }
      }
      RunFrom(c, Next(c, m, steps[0]), steps[1..]);
    }
  }

  lemma StartInv(c: Caps)
    requires Legal(c)
    ensures Inv(c, START)
  {
  }

  /**
   Every run: a request that was completed without error and asked for a flush has everything acknowledged before its
   submission on stable storage, and one that asked for forced unit access has its own data there.
   */
  lemma Durability(c: Caps, steps: seq<Step>, i: nat)
    requires Legal(c) && AllFit(c, steps)
    requires Completion(i, 0) in RunOf(c, START, steps).q.done
    ensures var m := RunOf(c, START, steps);
            i in m.book && Promise(m.book[i], m.durable)
  {
    StartInv(c);
    RunFrom(c, START, steps);
  }

  /**
   Every run: a data write handed to the driver for a request that asked for a flush is issued only after everything
   acknowledged before the submission of the request is on stable storage, unless the flush in front of it failed.
   */
  lemma WriteOrder(c: Caps, steps: seq<Step>, x: Issued)
    requires Legal(c) && AllFit(c, steps)
    requires x in RunOf(c, START, steps).issued && x.err == 0
    ensures var m := RunOf(c, START, steps);
            x.id in m.book && (m.book[x.id].want.flush ==> m.book[x.id].before <= x.durable)
  {
    StartInv(c);
    RunFrom(c, START, steps);
  }

  /** Every run: a request is in one place at a time, and is completed at most once. */
  lemma CompletedOnce(c: Caps, steps: seq<Step>, i: nat)
    requires Legal(c) && AllFit(c, steps)
    ensures var m := RunOf(c, START, steps);
            && Places(m, i) == (if i in m.book then 1 else 0)
            && DoneCount(m.q.done, i) <= 1
  {
    StartInv(c);
    RunFrom(c, START, steps);
  }

  /** Every run: a completed sequence ran the steps it needs, each once and in order, and reports the first error. */
  lemma StepsInOrder(c: Caps, steps: seq<Step>, x: Report)
    requires Legal(c) && AllFit(c, steps)
    requires x in RunOf(c, START, steps).reports
    ensures var m := RunOf(c, START, steps);
            x.id in m.book && x.ops == Needed(c, m.book[x.id].want) && x.err == FirstError(x.errs)
  {
    StartInv(c);
    RunFrom(c, START, steps);
  }

  /**
   Every run: the queue's flush request is in at most one place, never on the dispatch list while the driver has it, and
   when a step completes that step is not recorded yet: the assertion in the completion code cannot fail.
   */
  lemma OneSequence(c: Caps, steps: seq<Step>)
    requires Legal(c) && AllFit(c, steps)
    ensures var m := RunOf(c, START, steps);
            && multiset(m.q.head)[FlushRq] + (if m.flight.Some? then 1 else 0) == (if m.q.orig.Some? then 1 else 0)
            && (m.flight.Some? ==>
                  m.flight.value.stage !in m.q.bits && m.flight.value.stage in {PREFLUSH, DATA, POSTFLUSH})
  {
    StartInv(c);
    RunFrom(c, START, steps);
    var m := RunOf(c, START, steps);
    if m.flight.Some? {
      CurrentStep(c, m, m.book[m.q.orig.value.id].want);
    }
  }

  /** Every run: a waiting request is not stranded. A sequence is running, or one is at hand on the dispatch list. */
  lemma NobodyStranded(c: Caps, steps: seq<Step>)
    requires Legal(c) && AllFit(c, steps) && RunOf(c, START, steps).q.pending != []
    ensures var m := RunOf(c, START, steps);
            m.q.orig.Some? || exists r :: Orig(r) in m.q.head && Sequenced(c, r)
  {
    StartInv(c);
    RunFrom(c, START, steps);
  }

  /** Every run: the driver is never handed a request that asks for a flush, nor FUA it does not support. */
  lemma DriverSeesNoFlush(c: Caps, steps: seq<Step>, r: Rq)
    requires Legal(c) && AllFit(c, steps) && r in RunOf(c, START, steps).direct
    ensures !r.flush && (r.fua ==> c.fua)
  {
    StartInv(c);
    RunFrom(c, START, steps);
  }

  // ----- the condition on requests cannot be dropped

  /** Exactly when a waiting request is handed out unsequenced: the request that starts needs no step. */
  lemma LeaksExactly(c: Caps, q: Queue, r: Rq)
    requires Legal(c) && c.flush && q.head != [] && q.bits == {} && Sequenced(c, r)
    requires forall x :: x in q.pending ==> Sequenced(c, x)
    ensures var e := DoFlush(c, q, r).1;
            e.Some? && e.value.Orig? && Sequenced(c, e.value.rq) <==> q.pending != [] && !Fit(c, r)
  {
    FirstStep(c, r);
    if q.pending != [] {
      assert q.pending[0] in q.pending;
    }
  }

  /** One waits and one is about to be sequenced. */
  const BUSY: seq<Step> :=
    [Submits(Rq(1, true, false, false)), Fetches, Submits(Rq(2, true, false, true)), Fetches,
     Submits(Rq(3, true, false, true)), Fetches, EndsFlush(0)]

  lemma {:induction false} RunConcat(c: Caps, m: Machine, a: seq<Step>, b: seq<Step>)
    ensures RunOf(c, m, a + b) == RunOf(c, RunOf(c, m, a), b)
    decreases a
  {
    if a == [] {
      assert a + b == b;
    } else {
      assert (a + b)[1..] == a[1..] + b;
      RunConcat(c, Next(c, m, a[0]), a[1..], b);
    }
  }

  lemma TwoSteps(c: Caps, m: Machine, s: Step, t: Step)
    ensures RunOf(c, m, [s, t]) == Next(c, Next(c, m, s), t)
  {
    assert [s, t][1..] == [t] && [t][1..] == [];
    assert RunOf(c, Next(c, m, s), [t]) == RunOf(c, Next(c, Next(c, m, s), t), []);
  }

  /** A request that arrives while a sequence runs waits. */
  lemma Waits(c: Caps, m: Machine, r: Rq)
    requires m.q.head == [] && m.q.bits != {} && Sequenced(c, r) && r.id !in m.book
    ensures Next(c, Next(c, m, Submits(r)), Fetches) == Submit(m, r).(q := m.q.(pending := m.q.pending + [r]))
  {
    var m1 := Submit(m, r);
    assert m1.q.head == [Orig(r)] && m1.q.head[1..] == [];
    assert Fetch(c, m1) == Fetch(c, Sequence(c, m1));
  }

  /** An empty flush on an idle queue: its flush command is with the driver. */
  lemma Opens(c: Caps, r: Rq)
    requires c == Caps(true, true) && r == Rq(1, true, false, false)
    ensures var m := Next(c, Next(c, START, Submits(r)), Fetches);
            && m.q == Queue([], [], {STARTED, DATA, POSTFLUSH}, 0, Some(Rq(1, false, false, false)), [])
            && m.flight == Some(Flight(PREFLUSH, {})) && m.book.Keys == {1}
  {
    var m1 := Submit(START, r);
    assert m1.q.head == [Orig(r)] && m1.q.head[1..] == [];
    assert Skipped(c, r) == {DATA, POSTFLUSH};
    assert CurSeq({STARTED, DATA, POSTFLUSH}) == PREFLUSH;
    assert {STARTED} + {DATA, POSTFLUSH} == {STARTED, DATA, POSTFLUSH};
    var m2 := Sequence(c, m1);
    assert m2.q.head == [FlushRq] && m2.q.head[1..] == [];
    assert Fetch(c, m1) == Issue(m2);
  }

  /** Its completion releases the first that waits. */
  lemma Closes(c: Caps, m: Machine)
    requires m.q.bits == {STARTED, DATA, POSTFLUSH} && m.q.orig.Some? && m.q.head == [] && m.q.pending != []
    requires m.flight.Some? && m.flight.value.stage == PREFLUSH
    ensures var m' := Next(c, m, EndsFlush(0));
            && m'.q.head == [Orig(m.q.pending[0])] && m'.q.pending == m.q.pending[1..]
            && m'.q.bits == {} && m'.q.orig.None? && m'.book == m.book
  {
    assert CurSeq(m.q.bits + {PREFLUSH}) == DONE;
  }

  lemma {:induction false} BusyRun(c: Caps, m: Machine)
    ensures RunOf(c, m, BUSY)
            == Next(c, Next(c, Next(c, Next(c, Next(c, Next(c, Next(c, m, BUSY[0]), BUSY[1]), BUSY[2]), BUSY[3]),
                                    BUSY[4]), BUSY[5]), BUSY[6])
  {
    hide Next;
    var m1 := Next(c, Next(c, m, BUSY[0]), BUSY[1]);
    var m2 := Next(c, Next(c, m1, BUSY[2]), BUSY[3]);
    var m3 := Next(c, Next(c, m2, BUSY[4]), BUSY[5]);
    TwoSteps(c, m, BUSY[0], BUSY[1]);
    TwoSteps(c, m1, BUSY[2], BUSY[3]);
    TwoSteps(c, m2, BUSY[4], BUSY[5]);
    RunConcat(c, m, [BUSY[0], BUSY[1]], BUSY[2..]);
    RunConcat(c, m1, [BUSY[2], BUSY[3]], BUSY[4..]);
    RunConcat(c, m2, [BUSY[4], BUSY[5]], BUSY[6..]);
    assert BUSY == [BUSY[0], BUSY[1]] + BUSY[2..] && BUSY[2..] == [BUSY[2], BUSY[3]] + BUSY[4..];
    assert BUSY[4..] == [BUSY[4], BUSY[5]] + BUSY[6..] && BUSY[6..] == [BUSY[6]] && [BUSY[6]][1..] == [];
    assert RunOf(c, m3, [BUSY[6]]) == RunOf(c, Next(c, m3, BUSY[6]), []);
  }

  lemma BusyState()
    ensures var q := RunOf(Caps(true, true), START, BUSY).q;
            && q.head == [Orig(Rq(2, true, false, true))] && q.pending == [Rq(3, true, false, true)]
            && q.bits == {} && q.orig.None?
    ensures RunOf(Caps(true, true), START, BUSY).book.Keys == {1, 2, 3}
  {
    hide Next, RunOf;
    var c, x, y := Caps(true, true), Rq(2, true, false, true), Rq(3, true, false, true);
    BusyRun(c, START);
    Opens(c, Rq(1, true, false, false));
    var m1 := Next(c, Next(c, START, BUSY[0]), BUSY[1]);
    Waits(c, m1, x);
    var m2 := Next(c, Next(c, m1, BUSY[2]), BUSY[3]);
    Waits(c, m2, y);
    var m3 := Next(c, Next(c, m2, BUSY[4]), BUSY[5]);
    assert m3.q.pending == [x, y] && m3.q.pending[1..] == [y];
    Closes(c, m3);
  }

  /**
   A request without data that asks a device with FUA support for FUA alone needs no step. If others wait, starting it
   hands one of those to the driver as it is, flush flag and all, without a sequence.
   */
  lemma UnfitLeaks()
    ensures var d := Rq(4, false, true, false);
            && !Fit(Caps(true, true), d)
            && Rq(3, true, false, true) in RunOf(Caps(true, true), START, BUSY + [Submits(d), Fetches]).direct
  {
    var c, d := Caps(true, true), Rq(4, false, true, false);
    var m := RunOf(c, START, BUSY);
    BusyState();
    RunConcat(c, START, BUSY, [Submits(d), Fetches]);
    TwoSteps(c, m, Submits(d), Fetches);
    var m1 := Submit(m, d);
    assert m1.q.head == [Orig(d), Orig(Rq(2, true, false, true))];
    var m2 := Sequence(c, m1);
    assert CurSeq({STARTED} + Skipped(c, d)) == DONE;
    assert m2.q.head[0] == Orig(Rq(3, true, false, true));
    assert Fetch(c, m1) == Issue(m2);
  }
}
