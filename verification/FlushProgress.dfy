/**
 Progress of the sequencing code: however the driver goes on fetching requests and completing them, with whatever
 errors, it comes to an end, and then every submitted request has been completed.
 */
module FlushProgress {
  import opened Flush
  import opened FlushMachine
  import opened Options

  // ----- the work that is left

  /** A sequenced request on the dispatch list may have to wait once; each of its steps is fetched and completed. */
  function EntryWork(c: Caps, e: Entry): nat {
    match e
    case FlushRq => 0
    case Orig(r) => if Sequenced(c, r) then 3 * |Needed(c, r)| + 1 else 2
  }

  function HeadWork(c: Caps, h: seq<Entry>): nat {
    if h == [] then 0 else EntryWork(c, h[0]) + HeadWork(c, h[1..])
  }

  function PendingWork(c: Caps, rs: seq<Rq>): nat {
    if rs == [] then 0 else 3 * |Needed(c, rs[0])| + PendingWork(c, rs[1..])
  }

  /** Of the running sequence: its steps that are not completed; less if the driver has the current one. */
  function RunningWork(c: Caps, m: Machine): int {
    if m.q.orig.None? || m.q.orig.value.id !in m.book then 0
    else 3 * (|Needed(c, m.book[m.q.orig.value.id].want)| - |m.ops|) - (if m.flight.Some? then 1 else 0)
  }

  function Work(c: Caps, m: Machine): int {
    HeadWork(c, m.q.head) + PendingWork(c, m.q.pending) + RunningWork(c, m) + |m.direct|
  }

  lemma WorkLeft(c: Caps, m: Machine)
    requires Engine(c, m)
    ensures Work(c, m) >= 0
  {
  }

  lemma {:induction false} PendingSnoc(c: Caps, rs: seq<Rq>, r: Rq)
    ensures PendingWork(c, rs + [r]) == PendingWork(c, rs) + 3 * |Needed(c, r)|
  {
    if rs == [] {
      assert rs + [r] == [r];
    } else {
      PendingSnoc(c, rs[1..], r);
      assert (rs + [r])[1..] == rs[1..] + [r];
    }
  }

  lemma HeadCons(c: Caps, e: Entry, h: seq<Entry>)
    ensures HeadWork(c, [e] + h) == EntryWork(c, e) + HeadWork(c, h)
  {
    assert ([e] + h)[1..] == h;
  }

  /** A flush request on the dispatch list belongs to a sequence whose step the driver does not have. */
  lemma FlushAtFront(c: Caps, m: Machine)
    requires Engine(c, m) && m.q.head != [] && m.q.head[0].FlushRq?
    ensures m.q.orig.Some? && m.flight.None? && m.q.orig.value.id in m.book
  {
    assert m.q.head[0] in multiset(m.q.head);
  }

  lemma IssueWork(c: Caps, m: Machine)
    requires Engine(c, m) && Returnable(c, m)
    ensures Work(c, Issue(m)) == Work(c, m) - 1
  {
    if m.q.head[0].FlushRq? {
      FlushAtFront(c, m);
    } else {
      StrippedNotSequenced(c, m.book[m.q.head[0].rq.id].want);
    }
  }

  /** Sequencing the first request never adds work, and if nothing comes of it for the driver there is less. */
  lemma SequenceWork(c: Caps, m: Machine)
    requires Structure(c, m) && AtFlagged(m)
    ensures Work(c, Sequence(c, m)) <= Work(c, m)
    ensures DoFlush(c, m.q, m.q.head[0].rq).1.None? ==> Work(c, Sequence(c, m)) < Work(c, m)
  {
    hide Unique, Waiters, Needed, Sequenced, Skipped, Running;
    var r, rest := m.q.head[0].rq, m.q.head[1..];
    HeadSplit(c, m);
    IdleWhenClear(c, m);
    if !Sequenced(c, r) {
      StrippedNotSequenced(c, r);
      HeadCons(c, Orig(Stripped(c, r)), rest);
    } else if m.q.bits != {} {
      PendingSnoc(c, m.q.pending, r);
    } else if Needed(c, r) == [] {
      SequenceFinishes(c, m);
    } else {
      SequenceStarts(c, m);
      HeadCons(c, FlushRq, rest);
    }
  }

  lemma {:induction false} FetchWork(c: Caps, m: Machine)
    requires Inv(c, m) && m.q.head != []
    ensures Work(c, Fetch(c, m)) < Work(c, m)
    decreases |m.q.head|
  {
    hide Booked, Engine, Waiters, Unique, Needed, DirectOk, HeadOk, Landings, Progress, Promises, Reported, Work;
    if m.q.head[0].FlushRq? || !Flagged(m.q.head[0].rq) {
      PlainReturnable(c, m);
      IssueWork(c, m);
    } else {
      SequenceInv(c, m);
      SequenceWork(c, m);
      var m1 := Sequence(c, m);
      if DoFlush(c, m.q, m.q.head[0].rq).1.Some? {
        IssueWork(c, m1);
      } else {
        LoopProgress(c, m.q, m.q.head[0].rq);
        if m1.q.head != [] {
          FetchWork(c, m1);
        }
      }
    }
  }

  lemma EndFlushWork(c: Caps, m: Machine, err: int)
    requires Structure(c, m) && m.flight.Some? && m.q.orig.Some?
    ensures Work(c, EndFlush(c, m, err)) < Work(c, m)
  {
    hide Booked, Unique, Waiters, Needed, Sequenced, Skipped;
    var w := m.book[m.q.orig.value.id].want;
    AfterStep(c, m, w);
    if CurSeq(m.q.bits + {m.flight.value.stage}) == DONE {
      EndFlushLast(c, m, err);
      if m.q.pending != [] {
        FirstPending(c, m);
        HeadCons(c, Orig(m.q.pending[0]), m.q.head);
      }
    } else {
      HeadCons(c, FlushRq, m.q.head);
    }
  }

  lemma FirstPending(c: Caps, m: Machine)
    requires Booked(c, m) && m.q.pending != []
    ensures Sequenced(c, m.q.pending[0])
  {
    assert m.q.pending[0] in m.q.pending;
  }

  // ----- the driver

  /** What the driver does with requests; handing them back to be fetched again is not among it. */
  predicate Drives(s: Step) {
    s.Fetches? || s.EndsDirect? || s.EndsFlush?
  }

  ghost predicate Quiet(m: Machine) {
    m.q.head == [] && m.direct == [] && m.flight.None?
  }

  lemma DrivesKeep(c: Caps, m: Machine, s: Step)
    requires Inv(c, m) && Drives(s)
    ensures Inv(c, Next(c, m, s)) && Next(c, m, s).book == m.book
  {
    hide Inv, CompleteSeq, DoFlush, Fetch, EndFlush, EndDirect;
    NextInv(c, m, s);
    if s.Fetches? {
      FetchBook(c, m);
    } else {
      EndBook(c, m, s);
    }
  }

  lemma EndBook(c: Caps, m: Machine, s: Step)
    requires s.EndsDirect? || s.EndsFlush?
    ensures Next(c, m, s).book == m.book
  {
    hide CompleteSeq, Fetch;
  }

  lemma {:induction false} FetchBook(c: Caps, m: Machine)
    ensures Fetch(c, m).book == m.book
    decreases |m.q.head|
  {
    hide DoFlush;
    if m.q.head != [] && m.q.head[0].Orig? && Flagged(m.q.head[0].rq) && |Sequence(c, m).q.head| < |m.q.head| {
      FetchBook(c, Sequence(c, m));
    }
  }

  /** Everything the driver does changes nothing or leaves less work. */
  lemma DriverAdvances(c: Caps, m: Machine, s: Step)
    requires Inv(c, m) && Drives(s)
    ensures Next(c, m, s) == m || Work(c, Next(c, m, s)) < Work(c, m)
  {
    hide Booked, Engine, Waiters, Unique, Landings, Progress, Promises, Reported, EndFlush;
    match s {
      case Fetches => if m.q.head != [] { FetchWork(c, m); }
      case EndsFlush(err) => if m.flight.Some? && m.q.orig.Some? { EndFlushWork(c, m, err); }
      case _ =>
    }
  }

  /** If there is nothing for the driver to do, every submitted request has been completed, once. */
  lemma QuietIsDone(c: Caps, m: Machine, i: nat)
    requires Inv(c, m) && Quiet(m) && i in m.book
    ensures DoneCount(m.q.done, i) == 1
  {
    hide Booked, Landings, Progress, Promises, Reported, Running;
    assert Places(m, i) == 1;
  }

  /** The driver has something to do as long as it is not quiet, whatever the device reports. */
  function Chosen(m: Machine, err: int): Step {
    if m.q.head != [] then Fetches else if m.direct != [] then EndsDirect(0, err) else EndsFlush(err)
  }

  lemma SomethingToDo(c: Caps, m: Machine, err: int)
    requires Inv(c, m)
    ensures Next(c, m, Chosen(m, err)) == m <==> Quiet(m)
  {
    hide Booked, Waiters, Unique, Landings, Progress, Promises, Reported, Running, EndFlush;
    if m.q.head != [] {
      FetchWork(c, m);
    } else if m.direct == [] && m.flight.Some? {
      EndFlushWork(c, m, err);
    }
  }

  /** Each step of the run is the driver's and changes something. */
  ghost predicate Busy(c: Caps, m: Machine, more: seq<Step>)
    decreases more
  {
    more == [] || (Drives(more[0]) && Next(c, m, more[0]) != m && Busy(c, Next(c, m, more[0]), more[1..]))
  }

  lemma {:induction false} BusyEnds(c: Caps, m: Machine, more: seq<Step>)
    requires Inv(c, m) && Busy(c, m, more)
    ensures |more| <= Work(c, m) && Inv(c, RunOf(c, m, more)) && RunOf(c, m, more).book == m.book
    decreases more
  {
    hide Inv, Next, Work;
    if more == [] {
      assert Work(c, m) >= 0 by { InvWork(c, m); }
    } else {
      DrivesKeep(c, m, more[0]);
      DriverAdvances(c, m, more[0]);
      BusyEnds(c, Next(c, m, more[0]), more[1..]);
    }
  }

  lemma InvWork(c: Caps, m: Machine)
    requires Inv(c, m)
    ensures Work(c, m) >= 0
  {
    hide Booked, Waiters, Unique, Landings, Progress, Promises, Reported, Work;
    WorkLeft(c, m);
  }

  lemma {:induction false} DriveOn(c: Caps, m: Machine, report: int -> int) returns (more: seq<Step>)
    requires Inv(c, m)
    ensures Busy(c, m, more) && Quiet(RunOf(c, m, more))
    decreases Work(c, m)
  {
    hide Inv, Next, Work, Quiet;
    more := [];
    InvWork(c, m);
    if !Quiet(m) {
      var s := Chosen(m, report(Work(c, m)));
      SomethingToDo(c, m, report(Work(c, m)));
      DrivesKeep(c, m, s);
      DriverAdvances(c, m, s);
      InvWork(c, Next(c, m, s));
      var rest := DriveOn(c, Next(c, m, s), report);
      more := [s] + rest;
      assert more[1..] == rest;
    }
  }

  /**
   After every run: however the driver goes on, it stops having an effect after a bounded number of steps, and where it
   has nothing left to do each request submitted has been completed exactly once.
   */
  lemma EveryoneCompleted(c: Caps, steps: seq<Step>, more: seq<Step>)
    requires Legal(c) && AllFit(c, steps) && Busy(c, RunOf(c, START, steps), more)
    ensures var m := RunOf(c, START, steps);
            var m' := RunOf(c, START, steps + more);
            && |more| <= Work(c, m) && m'.book == m.book
            && (Quiet(m') ==> forall i :: i in m.book ==> DoneCount(m'.q.done, i) == 1)
  {
    hide Inv, Next, Work, Quiet, Places;
    StartInv(c);
    RunFrom(c, START, steps);
    var m := RunOf(c, START, steps);
    BusyEnds(c, m, more);
    RunConcat(c, START, steps, more);
    var m' := RunOf(c, m, more);
    if Quiet(m') {
      forall i | i in m.book ensures DoneCount(m'.q.done, i) == 1 {
        QuietIsDone(c, m', i);
      }
    }
  }

  /** And it can always go on to that point, whatever errors the device reports on the way. */
  lemma CompletionReached(c: Caps, steps: seq<Step>, report: int -> int) returns (more: seq<Step>)
    requires Legal(c) && AllFit(c, steps)
    ensures Busy(c, RunOf(c, START, steps), more) && Quiet(RunOf(c, START, steps + more))
  {
    hide Inv, Next, Work, Quiet;
    StartInv(c);
    RunFrom(c, START, steps);
    more := DriveOn(c, RunOf(c, START, steps), report);
    RunConcat(c, START, steps, more);
  }
}
