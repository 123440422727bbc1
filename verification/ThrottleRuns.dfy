/**
 One direction of a group as its bios see it. A bio that arrives while others of its direction wait joins them; one that
 finds none waiting is decided at once. Only a waiting bio is looked at again, and it is dispatched with a trim. Over
 the runs that this allows, when exactly the limit on the number of bios holds.
 */
module ThrottleRuns {
  import opened Arith
  import opened ThrottleLane

  /** `waiting` are the sizes of the bios that wait, in order. */
  datatype Queue = Queue(run: Run, waiting: seq<nat>)

  /**
   A bio arrives, the dispatcher serves the first waiting one, or the dispatch time of the group is computed again. The
   last two happen whenever a group is due or a bio of its other direction has to wait, so at any time.
   */
  datatype Event = Arrives(now: nat, size: nat) | Serves(now: nat) | Looks(now: nat)

  /**
   A refused arrival is decided a second time to compute the dispatch time; RefusalIsStable says that this is idle.
   */
  function After(c: Clock, q: Queue, e: Event): (q': Queue)
    requires Ticks(c) && Limits(q.run.lane)
    ensures Limits(q'.run.lane) && q'.run.lane.bps == q.run.lane.bps && q'.run.lane.iops == q.run.lane.iops
  {
    match e
    case Arrives(now, size) =>
      if q.waiting != [] then q.(waiting := q.waiting + [size])
      else Queue(Stepped(c, q.run, Submit(now, size)), if MayDispatch(c, q.run.lane, now, size).ok then [] else [size])
    case Serves(now) =>
      if q.waiting == [] then q
      else Queue(Stepped(c, q.run, Drain(now, q.waiting[0])),
                 if MayDispatch(c, q.run.lane, now, q.waiting[0]).ok then q.waiting[1..] else q.waiting)
    case Looks(now) =>
      if q.waiting == [] then q else q.(run := Stepped(c, q.run, Probe(now, q.waiting[0])))
  }

  function AfterAll(c: Clock, q: Queue, es: seq<Event>): (q': Queue)
    requires Ticks(c) && Limits(q.run.lane)
    ensures Limits(q'.run.lane) && q'.run.lane.bps == q.run.lane.bps && q'.run.lane.iops == q.run.lane.iops
    decreases es
  {
    if es == [] then q else AfterAll(c, After(c, q, es[0]), es[1..])
  }

  predicate Timely(from: nat, es: seq<Event>, to: nat)
    decreases es
  {
    if es == [] then from <= to else from <= es[0].now && Timely(es[0].now, es[1..], to)
  }

  /** A new group whose first bio of this direction will arrive at `t0`. */
  function Created(l: Lane, t0: nat): Queue {
    Queue(Run(l, Ledger(t0, 0, 0, t0)), [])
  }

  // ----- what each event keeps of the pace

  predicate PacedBios(c: Clock, r: Run) {
    Paced(c, r.lane.iops, r.lane.ioDisp, r.ledger.ios, r.lane, r.ledger)
  }

  /** The pace of the bios, and the counter is not full. */
  predicate Even(c: Clock, r: Run, now: nat) {
    PacedBios(c, r) && r.lane.ioDisp < UINT_MAX && r.lane.sliceStart <= now && r.ledger.last <= now
  }

  lemma DecisionPaces(c: Clock, r: Run, now: nat, size: nat)
    requires Ticks(c) && Limits(r.lane) && !Unlimited(r.lane) && Even(c, r, now)
    ensures Even(c, Run(MayDispatch(c, r.lane, now, size).lane, r.ledger), now)
  {
    hide RoundUp, BpsWait, IopsWait;
    OpenedPaced(c, r.lane.iops, r.lane.ioDisp, r.ledger.ios, r.lane, r.ledger, now);
  }

  lemma ChargePaces(c: Clock, r: Run, now: nat, size: nat)
    requires Ticks(c) && Limits(r.lane) && !Unlimited(r.lane) && Even(c, r, now)
    requires MayDispatch(c, r.lane, now, size).ok
    ensures PacedBios(c, Run(Charged(MayDispatch(c, r.lane, now, size).lane, size), Posted(r.ledger, now, size)))
  {
    hide RoundUp, BytesAllowed;
    OpenedPaced(c, r.lane.iops, r.lane.ioDisp, r.ledger.ios, r.lane, r.ledger, now);
    var o := Opened(c, r.lane, now);
    ChargePaced(c, o.iops, o.ioDisp, r.ledger.ios, 1, o, r.ledger, now);
  }

  /** A step on a lane whose counter is not full keeps the pace of the bios. */
  lemma StepPaces(c: Clock, r: Run, e: Step)
    requires Ticks(c) && Limits(r.lane) && !Unlimited(r.lane) && Even(c, r, e.now)
    ensures var r' := Stepped(c, r, e);
            PacedBios(c, r') && r'.lane.sliceStart <= e.now && r'.ledger.last <= e.now && r'.ledger.t0 == r.ledger.t0
  {
    hide Trimmed, Paced, MayDispatch, Opened;
    DecisionPaces(c, r, e.now, e.size);
    var v := MayDispatch(c, r.lane, e.now, e.size);
    if v.ok && !e.Probe? {
      ChargePaces(c, r, e.now, e.size);
      var l, g := Charged(v.lane, e.size), Posted(r.ledger, e.now, e.size);
      TrimStart(c, l, e.now);
      if e.Drain? && !SliceUsed(l, e.now) {
        TrimShape(c, l, e.now);
        var l' := Trimmed(c, l, e.now);
        TrimBelow(c, l, g, e.now);
        TrimPaced(c, l.iops, l.ioDisp, g.ios, l, g, l'.sliceStart - l.sliceStart, l');
      } else if e.Drain? {
        TrimNone(c, l, e.now);
      }
    }
  }

  lemma TrimNone(c: Clock, l: Lane, now: nat)
    requires Ticks(c) && SliceUsed(l, now)
    ensures Trimmed(c, l, now) == l
  {
  }

  lemma TrimBelow(c: Clock, l: Lane, g: Ledger, now: nat)
    requires Ticks(c) && !SliceUsed(l, now) && g.last <= now
    ensures g.last + c.slice <= Trimmed(c, l, now).sliceEnd
  {
    hide MulDiv, RoundUp;
  }

  // ----- less than one bio a slice

  predicate Slow(c: Clock, iops: nat) {
    iops * c.slice < c.hz
  }

  /** The slice is no longer than a slice for each bio charged in it and a constant. */
  predicate Stretched(c: Clock, l: Lane)
    requires Ticks(c)
  {
    RoundUp(l.sliceEnd, c.slice) <= l.sliceStart + c.slice * (l.ioDisp + c.hz + 2)
  }

  predicate Calm(c: Clock, q: Queue)
    requires Ticks(c)
  {
    q.run.lane.ioDisp <= c.hz * (c.hz + 2) && (q.waiting == [] ==> Stretched(c, q.run.lane))
  }

  /** The bio that opens a slice is refused. */
  lemma SlowOpens(c: Clock, l: Lane, now: nat, size: nat)
    requires Ticks(c) && Limits(l) && !Unlimited(l) && Slow(c, l.iops) && SliceUsed(l, now)
    ensures var v := MayDispatch(c, l, now, size); !v.ok && v.lane.ioDisp == 0
  {
    hide RoundUp, BytesAllowed;
    var o := NewSlice(c, l, now);
    SliceOnce(c);
    IosEarned(c, o, 0);
  }

  lemma SliceOnce(c: Clock)
    requires Ticks(c)
    ensures Rounded(c, 0) == c.slice
  {
    MultipleMod(1, c.slice);
  }

  /** What an accepted bio says about the count before it. */
  lemma Accepted(c: Clock, l: Lane, now: nat, size: nat)
    requires Ticks(c) && Limits(l) && !Unlimited(l) && l.ioDisp < UINT_MAX && l.sliceStart <= now
    requires !SliceUsed(l, now) && MayDispatch(c, l, now, size).ok
    ensures MayDispatch(c, l, now, size).lane == ExtendTo(c, l, now + c.slice)
    ensures (l.ioDisp + 1) * c.hz <= l.iops * Rounded(c, now - l.sliceStart)
  {
    hide RoundUp, BytesAllowed, IosAllowed, Rounded;
    IosEarned(c, ExtendTo(c, l, now + c.slice), now - l.sliceStart);
  }

  lemma RoundUpStep(x: nat, y: nat)
    requires y > 0
    ensures RoundUp(x + y, y) == RoundUp(x, y) + y
  {
    AddMod(x + (y - 1), y);
    var q := (x + (y - 1)) / y;
    assert (q + 1) * y == q * y + y;
  }

  lemma ExtendedStretch(c: Clock, l: Lane, now: nat)
    requires Ticks(c) && now <= l.sliceEnd
    ensures RoundUp(ExtendTo(c, l, now + c.slice).sliceEnd, c.slice) <= RoundUp(l.sliceEnd, c.slice) + c.slice
  {
    hide RoundUp;
    RoundUpGrows(now + c.slice, l.sliceEnd + c.slice, c.slice);
    RoundUpStep(l.sliceEnd, c.slice);
  }

  /** The bios that keep the slice open earn less than they cost, so they are few. */
  lemma FewFit(c: Clock, iops: nat, n: nat, elapsed: nat, rnd: nat)
    requires Slow(c, iops) && rnd <= elapsed + c.slice && elapsed <= c.slice * (n + c.hz + 2)
    requires (n + 1) * c.hz <= iops * rnd
    ensures n + 1 <= c.hz * (c.hz + 2)
  {
    var m := n + c.hz + 2 + 1;
    MulSum(c.slice, n + c.hz + 2, 1);
    MulMono(iops, rnd, c.slice * m);
    assert iops * (c.slice * m) == (iops * c.slice) * m;
    CostsMore(n + 1, c.hz + 2, c.hz, iops * c.slice);
  }

  lemma CostsMore(n: nat, k: nat, hz: nat, earned: nat)
    requires earned < hz && n * hz <= earned * (n + k)
    ensures n + k <= hz * k
  {
    MulMono(n + k, earned, hz - 1);
    MulSum(hz, n, k);
    assert (n + k) * (hz - 1) == (n + k) * hz - (n + k);
  }

  lemma SlowArrival(c: Clock, q: Queue, now: nat, size: nat)
    requires Ticks(c) && Limits(q.run.lane) && !Unlimited(q.run.lane) && Slow(c, q.run.lane.iops)
    requires c.hz * (c.hz + 2) < UINT_MAX && q.waiting == [] && q.run.lane.sliceStart <= now && Calm(c, q)
    ensures Calm(c, After(c, q, Arrives(now, size)))
  {
    var l := q.run.lane;
    var v := MayDispatch(c, l, now, size);
    if SliceUsed(l, now) {
      SlowOpens(c, l, now, size);
    } else if v.ok {
      hide RoundUp, MayDispatch;
      Accepted(c, l, now, size);
      ExtendedStretch(c, l, now);
      FewFit(c, l.iops, l.ioDisp, now - l.sliceStart, Rounded(c, now - l.sliceStart));
      assert c.slice * (l.ioDisp + 1 + c.hz + 2) == c.slice * (l.ioDisp + c.hz + 2) + c.slice;
    } else {
      DecidedCount(c, l, now, size);
    }
  }

  lemma DecidedCount(c: Clock, l: Lane, now: nat, size: nat)
    requires Ticks(c) && Limits(l)
    ensures MayDispatch(c, l, now, size).lane.ioDisp == if SliceUsed(l, now) && !Unlimited(l) then 0 else l.ioDisp
  {
    hide RoundUp, BpsWait, IopsWait;
  }

  /** After a bio that waited was served, the trim leaves at most one bio on the books of the slice. */
  lemma SlowTrim(c: Clock, l: Lane, now: nat)
    requires Ticks(c) && Slow(c, l.iops) && l.iops > 0 && !SliceUsed(l, now)
    requires l.ioDisp * c.hz <= l.iops * Rounded(c, now - l.sliceStart)
    ensures Trimmed(c, l, now).ioDisp <= 1 && Stretched(c, Trimmed(c, l, now))
  {
    hide RoundUp, Rounded, Trimmed, MulDiv, Stretched, Slow;
    var n := TrimMoves(c, l, now);
    SlowCount(c, l, now - l.sliceStart, n);
    TrimStretch(c, l, now, n, Trimmed(c, l, now));
  }

  lemma SlowCount(c: Clock, l: Lane, e: nat, n: nat)
    requires Ticks(c) && Slow(c, l.iops) && l.ioDisp * c.hz <= l.iops * Rounded(c, e)
    requires c.slice * n <= e < c.slice * n + c.slice
    ensures var trim := MulDiv(l.iops, c.slice * n, c.hz); Less(l.ioDisp, trim) <= 1 && (trim == 0 ==> l.ioDisp <= 1)
  {
    hide Rounded;
    RoundedAtMost(c, e, n);
    MulMono(l.iops, Rounded(c, e), c.slice * n + c.slice);
    MulSum(l.iops, c.slice * n, c.slice);
    FewLeft(l.ioDisp, c.hz, l.iops * (c.slice * n), l.iops * c.slice, MulDiv(l.iops, c.slice * n, c.hz));
  }

  lemma TrimStretch(c: Clock, l: Lane, now: nat, n: nat, l': Lane)
    requires Ticks(c) && l.iops > 0 && now < l.sliceStart + c.slice * n + c.slice
    requires l'.sliceEnd == RoundUp(now + c.slice, c.slice) && RoundUp(l'.sliceEnd, c.slice) == l'.sliceEnd
    requires l'.sliceStart == l.sliceStart + c.slice * n
             || (l'.sliceStart == l.sliceStart && MulDiv(l.iops, c.slice * n, c.hz) == 0)
    ensures Stretched(c, l')
  {
    hide RoundUp, MulDiv;
    MulSum(c.slice, l'.ioDisp, c.hz + 2);
    MulSum(c.slice, c.hz, 2);
    MulMono(c.slice, 1, c.hz);
    if l'.sliceStart != l.sliceStart + c.slice * n {
      FewSlices(c, l.iops, n);
    }
  }

  /** Where the trim leaves the slice and how much it takes off, in whole slices. */
  lemma TrimMoves(c: Clock, l: Lane, now: nat) returns (n: nat)
    requires Ticks(c) && !SliceUsed(l, now)
    ensures c.slice * n <= now - l.sliceStart < c.slice * n + c.slice
    ensures var l' := Trimmed(c, l, now);
            && l'.sliceEnd == RoundUp(now + c.slice, c.slice) && RoundUp(l'.sliceEnd, c.slice) == l'.sliceEnd
            && (|| (&& l'.sliceStart == l.sliceStart + c.slice * n
                    && l'.ioDisp == Less(l.ioDisp, MulDiv(l.iops, c.slice * n, c.hz)))
                || (l'.sliceStart == l.sliceStart && l'.ioDisp == l.ioDisp && MulDiv(l.iops, c.slice * n, c.hz) == 0))
  {
    hide RoundUp, MulDiv;
    n := (now - l.sliceStart) / c.slice;
    if n == 0 {
      NoTrim(l.iops, c.slice * n, c.hz);
    }
  }

  lemma NoTrim(a: nat, b: nat, d: nat)
    requires d > 0 && b == 0
    ensures MulDiv(a, b, d) == 0
  {
  }

  lemma RoundedAtMost(c: Clock, e: nat, n: nat)
    requires Ticks(c) && c.slice * n <= e < c.slice * n + c.slice
    ensures Rounded(c, e) <= c.slice * n + c.slice
  {
    DivUnique(e, c.slice, n, e - c.slice * n);
    RoundedNext(c, e);
    RoundedGrows(c, e, e + 1);
  }

  lemma FewLeft(disp: nat, hz: nat, past: nat, slice: nat, trim: nat)
    requires hz > 0 && disp * hz <= past + slice && slice < hz && past < hz * trim + hz
    ensures Less(disp, trim) <= 1
    ensures trim == 0 ==> disp <= 1
  {
    MulMono(hz, trim + 2, if disp >= trim + 2 then disp else trim + 2);
    MulSum(hz, trim, 2);
  }

  lemma FewSlices(c: Clock, iops: nat, n: nat)
    requires Ticks(c) && iops > 0 && MulDiv(iops, c.slice * n, c.hz) == 0
    ensures c.slice * n + c.slice <= c.slice * c.hz
  {
    MulMono(c.slice * n, 1, iops);
    MulMono(n, 1, c.slice);
    MulMono(c.slice, n + 1, if n < c.hz then c.hz else n + 1);
    MulSum(c.slice, n, 1);
  }

  lemma SlowServe(c: Clock, q: Queue, now: nat)
    requires Ticks(c) && Limits(q.run.lane) && !Unlimited(q.run.lane) && Slow(c, q.run.lane.iops)
    requires c.hz * (c.hz + 2) < UINT_MAX && q.waiting != [] && q.run.lane.sliceStart <= now && Calm(c, q)
    ensures Calm(c, After(c, q, Serves(now)))
  {
    hide RoundUp, Rounded, MayDispatch, Trimmed, Stretched;
    var l, size := q.run.lane, q.waiting[0];
    DecidedCount(c, l, now, size);
    if SliceUsed(l, now) {
      SlowOpens(c, l, now, size);
    } else if MayDispatch(c, l, now, size).ok {
      Accepted(c, l, now, size);
      var l1 := Charged(ExtendTo(c, l, now + c.slice), size);
      SlowTrim(c, l1, now);
      MulMono(c.hz, 1, c.hz + 2);
    }
  }

  lemma CalmKept(c: Clock, q: Queue, e: Event)
    requires Ticks(c) && Limits(q.run.lane) && !Unlimited(q.run.lane) && Slow(c, q.run.lane.iops)
    requires c.hz * (c.hz + 2) < UINT_MAX && q.run.lane.sliceStart <= e.now && Calm(c, q)
    ensures Calm(c, After(c, q, e))
  {
    hide Stretched, MayDispatch;
    if e.Arrives? && q.waiting == [] {
      SlowArrival(c, q, e.now, e.size);
    } else if e.Serves? && q.waiting != [] {
      SlowServe(c, q, e.now);
    } else if e.Looks? && q.waiting != [] {
      DecidedCount(c, q.run.lane, e.now, q.waiting[0]);
    }
  }

  // ----- between one and two bios a slice: the first slice cannot be kept

  /** In the first slice: no bio passes any more, and one that waits is served only after its end. */
  predicate First(c: Clock, q: Queue, t0: nat)
    requires Ticks(c)
  {
    var l := q.run.lane;
    && l.sliceStart == t0 && l.ioDisp <= 1 && t0 + c.slice <= l.sliceEnd
    && (if q.waiting == [] then l.ioDisp == 1 && l.sliceEnd == t0 + c.slice
        else l.ioDisp == 1 || l.bytesDisp + q.waiting[0] > BytesAllowed(c, l, 0))
  }

  predicate Moved(c: Clock, q: Queue, t0: nat)
    requires Ticks(c)
  {
    t0 + c.slice <= q.run.lane.sliceStart || First(c, q, t0)
  }

  lemma FirstSlice(c: Clock, elapsed: nat)
    requires Ticks(c) && elapsed <= c.slice
    ensures Rounded(c, elapsed) == c.slice
  {
    hide RoundUp;
    RoundUpGrows(if elapsed == 0 then c.slice else elapsed, c.slice, c.slice);
  }

  lemma Unfit(c: Clock, l: Lane, now: nat, size: nat)
    requires Ticks(c) && Limits(l) && !Unlimited(l) && l.iops * c.slice < 2 * c.hz
    requires l.sliceStart <= now <= l.sliceStart + c.slice <= l.sliceEnd && l.ioDisp <= 1
    requires l.ioDisp == 1 || l.bytesDisp + size > BytesAllowed(c, l, 0)
    ensures var v := MayDispatch(c, l, now, size);
            && !v.ok && v.lane == l.(sliceEnd := v.lane.sliceEnd)
            && l.sliceEnd <= v.lane.sliceEnd && now + c.slice <= v.lane.sliceEnd
  {
    hide RoundUp, Rounded, IosAllowed, MulDiv;
    FirstSlice(c, now - l.sliceStart);
    FirstSlice(c, 0);
    IosEarned(c, ExtendTo(c, l, now + c.slice), now - l.sliceStart);
  }

  /** A decision in a later slice leaves the start where it is or moves it to the present. */
  lemma DecidedStart(c: Clock, l: Lane, now: nat, size: nat)
    requires Ticks(c) && Limits(l) && !Unlimited(l)
    ensures var l' := MayDispatch(c, l, now, size).lane;
            && l'.sliceStart == (if SliceUsed(l, now) then now else l.sliceStart)
            && (!SliceUsed(l, now) ==> l' == l.(sliceEnd := l'.sliceEnd) && l.sliceEnd <= l'.sliceEnd)
            && l'.sliceStart + c.slice <= l'.sliceEnd + (if SliceUsed(l, now) then 0 else c.slice)
  {
    hide RoundUp, BpsWait, IopsWait;
  }

  /** Serving a bio after the first slice moves the start of the slice. */
  lemma ServedLater(c: Clock, l: Lane, now: nat)
    requires Ticks(c) && c.hz <= l.iops * c.slice && !SliceUsed(l, now) && l.sliceStart + c.slice <= now
    ensures l.sliceStart + c.slice <= Trimmed(c, l, now).sliceStart
  {
    hide RoundUp, Trimmed, MulDiv;
    var n := TrimMoves(c, l, now);
    MulMono(c.slice, 1, if n >= 1 then n else 1);
    MulDivReaches(l.iops, c.slice * n, c.hz, 1);
    MulMono(l.iops, c.slice, if n >= 1 then c.slice * n else c.slice);
  }

  predicate Middling(c: Clock, iops: nat) {
    c.hz <= iops * c.slice < 2 * c.hz
  }

  lemma MovedKept(c: Clock, q: Queue, e: Event, t0: nat)
    requires Ticks(c) && Limits(q.run.lane) && !Unlimited(q.run.lane) && Middling(c, q.run.lane.iops)
    requires q.run.lane.sliceStart <= e.now && Moved(c, q, t0)
    ensures Moved(c, After(c, q, e), t0)
  {
    hide RoundUp, Rounded, MayDispatch, Trimmed, MulDiv;
    var l := q.run.lane;
    if !(e.Arrives? <==> q.waiting == []) {
    } else {
      var size := if e.Arrives? then e.size else q.waiting[0];
      var v := MayDispatch(c, l, e.now, size);
      DecidedStart(c, l, e.now, size);
      var l1 := Charged(v.lane, size);
      TrimStart(c, l1, e.now);
      if First(c, q, t0) && !SliceUsed(l, e.now) && e.now <= t0 + c.slice {
        Unfit(c, l, e.now, size);
      } else if First(c, q, t0) && !SliceUsed(l, e.now) && e.Serves? {
        ServedLater(c, l1, e.now);
      }
    }
  }

  lemma FirstBio(c: Clock, l: Lane, t0: nat, size: nat)
    requires Ticks(c) && Limits(l) && !Unlimited(l) && Fresh(l) && Middling(c, l.iops)
    ensures First(c, After(c, Created(l, t0), Arrives(t0, size)), t0)
  {
    hide RoundUp, Rounded, MulDiv, IosAllowed;
    var o := Opened(c, l, t0);
    MultipleMod(1, c.slice);
    assert RoundUp(c.slice, c.slice) == c.slice;
    FirstSlice(c, 0);
    IosEarned(c, o, 0);
  }

  // ----- what every event keeps

  /** The tick rates the kernel offers, and the slice of a tenth of a second. */
  predicate Configured(c: Clock) {
    20 <= c.hz <= 10000 && c.slice == c.hz / 10
  }

  /** The quota of bios counted from the earliest start of a slice that can be kept open until `t`. */
  predicate Narrow(c: Clock, iops: nat, t0: nat, t: nat)
    requires Ticks(c)
  {
    || Slow(c, iops)
    || (Middling(c, iops) && Roomy(c, iops, t0 + c.slice, t))
    || Roomy(c, iops, t0, t)
  }

  ghost predicate Kept(c: Clock, q: Queue, t0: nat, t: nat)
    requires Ticks(c)
  {
    var iops := q.run.lane.iops;
    || (Slow(c, iops) && Calm(c, q))
    || (Middling(c, iops) && Roomy(c, iops, t0 + c.slice, t) && Moved(c, q, t0))
    || Roomy(c, iops, t0, t)
  }

  /** What is charged in a slice that began at `s` or later does not fill the counter. */
  lemma CountStays(c: Clock, r: Run, e: Step, s: nat)
    requires Ticks(c) && Limits(r.lane) && !Unlimited(r.lane) && r.lane.ioDisp < UINT_MAX && r.lane.sliceStart <= e.now
    requires Roomy(c, r.lane.iops, s, e.now) && s <= Opened(c, r.lane, e.now).sliceStart
    ensures Stepped(c, r, e).lane.ioDisp < UINT_MAX
  {
    hide RoundUp, BytesAllowed, Trimmed, Rounded, MulDiv;
    var o := Opened(c, r.lane, e.now);
    DecidedCount(c, r.lane, e.now, e.size);
    if MayDispatch(c, r.lane, e.now, e.size).ok && !e.Probe? {
      StaysRoomy(c, o, s, e.now, o.ioDisp + 1);
      TrimLess(c, Charged(o, e.size), e.now);
    }
  }

  lemma TrimLess(c: Clock, l: Lane, now: nat)
    requires Ticks(c)
    ensures Trimmed(c, l, now).ioDisp <= l.ioDisp
  {
  }

  /** A count of at most one becomes at most two. */
  lemma CountSmall(c: Clock, r: Run, e: Step)
    requires Ticks(c) && Limits(r.lane) && r.lane.ioDisp <= 1
    ensures Stepped(c, r, e).lane.ioDisp <= 2
  {
    hide MayDispatch, Trimmed;
    DecidedCount(c, r.lane, e.now, e.size);
    TrimLess(c, Charged(MayDispatch(c, r.lane, e.now, e.size).lane, e.size), e.now);
  }

  /** The step on the lane that an event makes, if it makes one. */
  function StepOf(q: Queue, e: Event): (s: Step)
    ensures s.now == e.now
  {
    match e
    case Arrives(now, size) => Submit(now, size)
    case Serves(now) => Drain(now, if q.waiting == [] then 0 else q.waiting[0])
    case Looks(now) => Probe(now, if q.waiting == [] then 0 else q.waiting[0])
  }

  lemma EventIsStep(c: Clock, q: Queue, e: Event)
    requires Ticks(c) && Limits(q.run.lane)
    ensures After(c, q, e).run == if e.Arrives? <==> q.waiting == [] then Stepped(c, q.run, StepOf(q, e)) else q.run
  {
    hide Stepped, MayDispatch;
  }

  lemma ConfiguredTicks(c: Clock)
    requires Configured(c)
    ensures Ticks(c) && c.slice >= 2 && c.hz * (c.hz + 2) < UINT_MAX
  {
    MulMono(c.hz, c.hz + 2, 10002);
    MulMono(10002, c.hz, 10000);
  }

  lemma CountKept(c: Clock, q: Queue, e: Event, t0: nat, t: nat)
    requires Configured(c) && Ticks(c) && Limits(q.run.lane) && !Unlimited(q.run.lane) && Kept(c, q, t0, t)
    requires Even(c, q.run, e.now) && q.run.ledger.t0 == t0 && e.now <= t
    ensures After(c, q, e).run.lane.ioDisp < UINT_MAX && Kept(c, After(c, q, e), t0, t)
  {
    hide RoundUp, Rounded, MayDispatch, Trimmed, Stepped, Calm, Roomy, Stretched, Slow, Middling, Configured;
    ConfiguredTicks(c);
    EventIsStep(c, q, e);
    var r, iops := q.run, q.run.lane.iops;
    if Slow(c, iops) && Calm(c, q) {
      CalmKept(c, q, e);
      CalmCount(c, After(c, q, e));
    } else if Middling(c, iops) && Roomy(c, iops, t0 + c.slice, t) && Moved(c, q, t0) {
      MovedKept(c, q, e, t0);
      RoomyEarlier(c, iops, t0 + c.slice, e.now, t);
      if t0 + c.slice <= Opened(c, r.lane, e.now).sliceStart {
        CountStays(c, r, StepOf(q, e), t0 + c.slice);
      } else {
        CountSmall(c, r, StepOf(q, e));
      }
    } else {
      RoomyEarlier(c, iops, t0, e.now, t);
      CountStays(c, r, StepOf(q, e), t0);
    }
  }

  lemma CalmCount(c: Clock, q: Queue)
    requires Ticks(c) && Calm(c, q) && c.hz * (c.hz + 2) < UINT_MAX
    ensures q.run.lane.ioDisp < UINT_MAX
  {
  }

  lemma EventKeeps(c: Clock, q: Queue, e: Event, t0: nat, t: nat)
    requires Configured(c) && Ticks(c) && Limits(q.run.lane) && !Unlimited(q.run.lane) && Kept(c, q, t0, t)
    requires Even(c, q.run, e.now) && q.run.ledger.t0 == t0 && e.now <= t
    ensures var q' := After(c, q, e);
            Kept(c, q', t0, t) && Even(c, q'.run, e.now) && q'.run.ledger.t0 == t0
  {
    hide Kept, Stepped, PacedBios;
    CountKept(c, q, e, t0, t);
    EventIsStep(c, q, e);
    StepPaces(c, q.run, StepOf(q, e));
  }

  lemma NarrowFirst(c: Clock, iops: nat, t0: nat, t: nat)
    requires Ticks(c) && t0 <= t && Narrow(c, iops, t0, t)
    ensures Roomy(c, iops, t0, t0)
  {
    hide Rounded;
    SliceOnce(c);
    MulMono(c.hz, 2, UINT_MAX);
    if Roomy(c, iops, t0, t) {
      RoomyEarlier(c, iops, t0, t0, t);
    }
  }

  /** The first bio of a group opens its first slice. */
  lemma FirstKeeps(c: Clock, l: Lane, t0: nat, size: nat, t: nat)
    requires Configured(c) && Ticks(c) && Limits(l) && !Unlimited(l) && Fresh(l) && t0 <= t && Narrow(c, l.iops, t0, t)
    ensures var q := After(c, Created(l, t0), Arrives(t0, size));
            Kept(c, q, t0, t) && Even(c, q.run, t0) && q.run.ledger.t0 == t0
  {
    hide Rounded, MayDispatch, Calm, Moved, Roomy, Slow, Middling, Configured, Stepped, Paced, Limits, Fresh;
    ConfiguredTicks(c);
    NarrowFirst(c, l.iops, t0, t);
    FreshStepKeeps(c, l, Submit(t0, size));
    var q := After(c, Created(l, t0), Arrives(t0, size));
    if Slow(c, l.iops) {
      FreshCalm(c, l, t0);
      SlowArrival(c, Created(l, t0), t0, size);
    } else if Middling(c, l.iops) && Roomy(c, l.iops, t0 + c.slice, t) {
      FirstBio(c, l, t0, size);
      FirstMoved(c, q, t0);
    }
  }

  lemma FirstMoved(c: Clock, q: Queue, t0: nat)
    requires Ticks(c) && First(c, q, t0)
    ensures Moved(c, q, t0)
  {
  }

  lemma FreshCalm(c: Clock, l: Lane, t0: nat)
    requires Ticks(c) && Fresh(l)
    ensures Calm(c, Created(l, t0)) && l.sliceStart <= t0
  {
    hide RoundUp;
    MultipleMod(0, c.slice);
    assert RoundUp(0, c.slice) == 0;
  }

  lemma {:induction false} RunEven(c: Clock, q: Queue, from: nat, es: seq<Event>, t0: nat, t: nat)
    requires Configured(c) && Ticks(c) && Limits(q.run.lane) && !Unlimited(q.run.lane) && Kept(c, q, t0, t)
    requires Even(c, q.run, from) && q.run.ledger.t0 == t0 && Timely(from, es, t)
    ensures var q' := AfterAll(c, q, es); Even(c, q'.run, t) && q'.run.ledger.t0 == t0
    decreases es
  {
    hide Kept, PacedBios, After, Configured;
    if es != [] {
      TimelyEnds(es[0].now, es[1..], t);
      EventKeeps(c, q, es[0], t0, t);
      RunEven(c, After(c, q, es[0]), es[0].now, es[1..], t0, t);
    }
  }

  lemma {:induction false} TimelyEnds(from: nat, es: seq<Event>, t: nat)
    requires Timely(from, es, t)
    ensures from <= t
    decreases es
  {
    if es != [] {
      TimelyEnds(es[0].now, es[1..], t);
    }
  }

  // ----- a run that goes beyond the limit

  /** No bio waits, nothing but empty bios was charged, and the slice that began at `s` is open. */
  predicate Open(q: Queue, s: nat, now: nat) {
    q.waiting == [] && q.run.lane.bytesDisp == 0 && q.run.lane.sliceStart == s <= now <= q.run.lane.sliceEnd
  }

  lemma Passes(c: Clock, q: Queue, s: nat, now: nat)
    requires Ticks(c) && Limits(q.run.lane) && !Unlimited(q.run.lane) && Open(q, s, now)
    requires q.run.lane.ioDisp == UINT_MAX || (q.run.lane.ioDisp + 1) * c.hz <= q.run.lane.iops * Rounded(c, now - s)
    ensures var q' := After(c, q, Arrives(now, 0));
            && q'.run.lane == q.run.lane.(ioDisp := Inc(q.run.lane.ioDisp), sliceEnd := q'.run.lane.sliceEnd)
            && q'.waiting == [] && now + c.slice <= q'.run.lane.sliceEnd && q'.run.ledger.ios == q.run.ledger.ios + 1
            && (now + c.slice <= q.run.lane.sliceEnd ==> q'.run.lane.sliceEnd == q.run.lane.sliceEnd)
  {
    hide RoundUp, Rounded, IosAllowed;
    IosEarned(c, ExtendTo(c, q.run.lane, now + c.slice), now - s);
  }

  function Arrivals(now: nat, n: nat): seq<Event> {
    if n == 0 then [] else [Arrives(now, 0)] + Arrivals(now, n - 1)
  }

  /** Empty bios all pass if the quota is all the counter can count, or has room for them. */
  lemma {:induction false} ArrivalsPass(c: Clock, q: Queue, s: nat, now: nat, n: nat)
    requires Ticks(c) && Limits(q.run.lane) && !Unlimited(q.run.lane) && Open(q, s, now)
    requires c.hz * UINT_MAX <= q.run.lane.iops * Rounded(c, now - s)
             || (q.run.lane.ioDisp + n <= UINT_MAX
                 && c.hz * (q.run.lane.ioDisp + n) <= q.run.lane.iops * Rounded(c, now - s))
    ensures Timely(now, Arrivals(now, n), now)
    ensures var q' := AfterAll(c, q, Arrivals(now, n));
            && q'.run.ledger.ios == q.run.ledger.ios + n
            && (q.run.lane.ioDisp + n <= UINT_MAX ==>
                  q'.run.lane == q.run.lane.(ioDisp := q.run.lane.ioDisp + n, sliceEnd := q'.run.lane.sliceEnd))
    decreases n
  {
    hide After, Rounded;
    if n > 0 {
      MulMono(c.hz, q.run.lane.ioDisp + 1,
              if q.run.lane.ioDisp < UINT_MAX then UINT_MAX else q.run.lane.ioDisp + 1);
      MulMono(c.hz, q.run.lane.ioDisp + 1, q.run.lane.ioDisp + n);
      Passes(c, q, s, now);
      ArrivalsPass(c, After(c, q, Arrives(now, 0)), s, now, n - 1);
    }
  }

  /** A bio a slice keeps the slice open up to `t`; then any number passes. */
  lemma {:induction false} Sustain(c: Clock, q: Queue, s: nat, now: nat, t: nat, n: nat) returns (es: seq<Event>)
    requires Ticks(c) && Limits(q.run.lane) && !Unlimited(q.run.lane) && c.hz <= q.run.lane.iops * c.slice
    requires Open(q, s, now) && s < now <= t && now + c.slice <= q.run.lane.sliceEnd
    requires q.run.lane.ioDisp * c.hz <= q.run.lane.iops * Rounded(c, now - s)
    requires c.hz * UINT_MAX <= q.run.lane.iops * Rounded(c, t - s)
    ensures Timely(now, es, t) && AfterAll(c, q, es).run.ledger.ios >= n
    decreases t - now
  {
    hide After, Rounded;
    if now + c.slice <= t {
      var later := now + c.slice;
      RoundedLater(c, now - s);
      MulSum(q.run.lane.iops, Rounded(c, now - s), c.slice);
      Passes(c, q, s, later);
      var q' := After(c, q, Arrives(later, 0));
      var rest := Sustain(c, q', s, later, t, n);
      es := [Arrives(later, 0)] + rest;
      assert es[1..] == rest;
    } else {
      ArrivalsPass(c, q, s, t, n);
      es := Arrivals(t, n);
      LaterTimely(now, t, es);
    }
  }

  lemma RoundedLater(c: Clock, e: nat)
    requires Ticks(c) && e > 0
    ensures Rounded(c, e + c.slice) == Rounded(c, e) + c.slice
  {
    hide RoundUp;
    RoundUpStep(e, c.slice);
  }

  lemma LaterTimely(from: nat, t: nat, es: seq<Event>)
    requires from <= t && Timely(t, es, t)
    ensures Timely(from, es, t)
  {
  }

  lemma FirstPasses(c: Clock, l: Lane, t0: nat)
    requires Ticks(c) && Limits(l) && !Unlimited(l) && Fresh(l) && c.hz <= l.iops * c.slice
    ensures var q := After(c, Created(l, t0), Arrives(t0, 0));
            && q.run.lane == l.(ioDisp := 1, sliceStart := t0, sliceEnd := t0 + c.slice)
            && q.waiting == []
  {
    hide RoundUp, Rounded, MulDiv, IosAllowed;
    var o := Opened(c, l, t0);
    MultipleMod(1, c.slice);
    assert RoundUp(c.slice, c.slice) == c.slice;
    FirstSlice(c, 0);
    IosEarned(c, o, 0);
  }

  lemma Prepend(c: Clock, q: Queue, e: Event, from: nat, rest: seq<Event>, t: nat)
    requires Ticks(c) && Limits(q.run.lane) && from <= e.now && Timely(e.now, rest, t)
    ensures Timely(from, [e] + rest, t) && AfterAll(c, q, [e] + rest) == AfterAll(c, After(c, q, e), rest)
  {
    assert ([e] + rest)[1..] == rest;
  }

  /** With two bios a slice, the first slice can be kept. */
  lemma FastBreaks(c: Clock, l: Lane, t0: nat, t: nat, n: nat) returns (es: seq<Event>)
    requires Ticks(c) && Limits(l) && !Unlimited(l) && Fresh(l) && 2 * c.hz <= l.iops * c.slice
    requires t0 <= t && !Roomy(c, l.iops, t0, t)
    ensures Timely(t0, es, t) && AfterAll(c, After(c, Created(l, t0), Arrives(t0, 0)), es).run.ledger.ios >= n
  {
    hide After, Rounded;
    FirstPasses(c, l, t0);
    var q := After(c, Created(l, t0), Arrives(t0, 0));
    if t == t0 {
      ArrivalsPass(c, q, t0, t, n);
      es := Arrivals(t, n);
    } else {
      FirstSlice(c, 1);
      Passes(c, q, t0, t0 + 1);
      var rest := Sustain(c, After(c, q, Arrives(t0 + 1, 0)), t0, t0 + 1, t, n);
      Prepend(c, q, Arrives(t0 + 1, 0), t0, rest, t);
      es := [Arrives(t0 + 1, 0)] + rest;
    }
  }

  lemma SecondSlice(c: Clock, e: nat)
    requires Ticks(c) && c.slice < e <= 2 * c.slice
    ensures Rounded(c, e) == 2 * c.slice
  {
    RoundedLater(c, e - c.slice);
    FirstSlice(c, e - c.slice);
  }

  /** A bio that had to wait for the second slice is served at its end, and the slice starts one slice later. */
  lemma ServedInSecond(c: Clock, q: Queue, t0: nat)
    requires Ticks(c) && Limits(q.run.lane) && !Unlimited(q.run.lane) && Middling(c, q.run.lane.iops) && c.slice >= 2
    requires q.waiting == [0] && q.run.lane.bytesDisp == 0 && q.run.lane.ioDisp == 1
    requires q.run.lane.sliceStart == t0 && t0 + 2 * c.slice <= q.run.lane.sliceEnd
    ensures var q' := After(c, q, Serves(t0 + 2 * c.slice - 1));
            && Open(q', t0 + c.slice, t0 + 2 * c.slice + 1) && q'.run.lane.ioDisp == 1
            && !Unlimited(q'.run.lane)
  {
    hide MayDispatch, Trimmed, RoundUp, Middling;
    var now := t0 + 2 * c.slice - 1;
    SecondFits(c, q.run.lane, now);
    ServedTrim(c, Charged(ExtendTo(c, q.run.lane, now + c.slice), 0), now);
    assert [0][1..] == [];
  }

  lemma SecondFits(c: Clock, l: Lane, now: nat)
    requires Ticks(c) && Limits(l) && !Unlimited(l) && Middling(c, l.iops) && c.slice >= 2
    requires l.bytesDisp == 0 && l.ioDisp == 1 && now == l.sliceStart + 2 * c.slice - 1 <= l.sliceEnd
    ensures MayDispatch(c, l, now, 0) == Verdict(ExtendTo(c, l, now + c.slice), true, 0)
  {
    hide RoundUp, Rounded, IosAllowed, BytesAllowed;
    var o := ExtendTo(c, l, now + c.slice);
    SecondSlice(c, now - l.sliceStart);
    MulSum(l.iops, c.slice, c.slice);
    IosEarned(c, o, now - l.sliceStart);
    assert Opened(c, l, now) == o && WithinBps(c, o, now, 0) && WithinIops(c, o, now);
  }

  lemma ServedTrim(c: Clock, l: Lane, now: nat)
    requires Ticks(c) && Middling(c, l.iops) && c.slice >= 2 && !SliceUsed(l, now)
    requires l.bytesDisp == 0 && l.ioDisp == 2 && now == l.sliceStart + 2 * c.slice - 1
    ensures var l' := Trimmed(c, l, now);
            && l'.ioDisp == 1 && l'.bytesDisp == 0 && l'.sliceStart == l.sliceStart + c.slice
            && now + c.slice <= l'.sliceEnd && l'.bps == l.bps && l'.iops == l.iops
  {
    hide RoundUp, Trimmed, MulDiv;
    TrimShape(c, l, now);
    var n := TrimMoves(c, l, now);
    OneSlice(c.slice, n);
    MulDivReaches(l.iops, c.slice * n, c.hz, 1);
    MulDivReaches(l.iops, c.slice * n, c.hz, 2);
  }

  lemma OneSlice(slice: nat, n: nat)
    requires slice >= 2 && slice * n <= 2 * slice - 1 < slice * n + slice
    ensures n == 1
  {
    MulMono(slice, 2, if n >= 2 then n else 2);
  }

  /** With one bio a slice, the second slice can be kept. */
  lemma MiddlingBreaks(c: Clock, l: Lane, t0: nat, t: nat, n: nat) returns (es: seq<Event>)
    requires Ticks(c) && Limits(l) && !Unlimited(l) && Fresh(l) && Middling(c, l.iops) && c.slice >= 2
    requires t0 <= t && !Roomy(c, l.iops, t0 + c.slice, t)
    ensures Timely(t0, es, t) && AfterAll(c, After(c, Created(l, t0), Arrives(t0, 0)), es).run.ledger.ios >= n
  {
    hide After, Rounded, MayDispatch, Open;
    FirstPasses(c, l, t0);
    LateEnough(c, l.iops, t0, t);
    var s, e4 := t0 + c.slice, Arrives(t0 + 2 * c.slice + 1, 0);
    var q1 := After(c, Created(l, t0), Arrives(t0, 0));
    FirstWaits(c, q1, t0);
    var q2 := After(c, q1, Arrives(t0, 0));
    var q3 := After(c, q2, Looks(s));
    ServedInSecond(c, q3, t0);
    var e3 := Serves(t0 + 2 * c.slice - 1);
    var q4 := After(c, q3, e3);
    var rest := SecondKept(c, q4, t0, t, n);
    Prepend(c, q3, e3, s, rest, t);
    Prepend(c, q2, Looks(s), t0, [e3] + rest, t);
    Prepend(c, q1, Arrives(t0, 0), t0, [Looks(s)] + ([e3] + rest), t);
    es := [Arrives(t0, 0)] + ([Looks(s)] + ([e3] + rest));
  }

  lemma LateEnough(c: Clock, iops: nat, t0: nat, t: nat)
    requires Ticks(c) && Middling(c, iops) && !Roomy(c, iops, t0 + c.slice, t)
    ensures t0 + 2 * c.slice + 1 <= t
  {
    hide Rounded;
    MulMono(c.hz, 2, UINT_MAX);
    FirstSlice(c, if t <= t0 + 2 * c.slice then Less(t, t0 + c.slice) else 0);
  }

  /** The second bio has to wait, and is looked at when the first slice ends. */
  lemma FirstWaits(c: Clock, q: Queue, t0: nat)
    requires Ticks(c) && Limits(q.run.lane) && !Unlimited(q.run.lane) && Middling(c, q.run.lane.iops)
    requires q.waiting == [] && q.run.lane.bytesDisp == 0 && q.run.lane.ioDisp == 1
    requires q.run.lane.sliceStart == t0 && q.run.lane.sliceEnd == t0 + c.slice
    ensures var q' := After(c, After(c, q, Arrives(t0, 0)), Looks(t0 + c.slice));
            && q'.waiting == [0] && t0 + 2 * c.slice <= q'.run.lane.sliceEnd
            && q'.run.lane == q.run.lane.(sliceEnd := q'.run.lane.sliceEnd)
  {
    hide MayDispatch, BytesAllowed;
    Unfit(c, q.run.lane, t0, 0);
    var q1 := After(c, q, Arrives(t0, 0));
    Unfit(c, q1.run.lane, t0 + c.slice, 0);
  }

  lemma SecondKept(c: Clock, q: Queue, t0: nat, t: nat, n: nat) returns (es: seq<Event>)
    requires Ticks(c) && Limits(q.run.lane) && !Unlimited(q.run.lane) && Middling(c, q.run.lane.iops) && c.slice >= 2
    requires Open(q, t0 + c.slice, t0 + 2 * c.slice + 1) && q.run.lane.ioDisp == 1
    requires t0 + 2 * c.slice + 1 <= t && !Roomy(c, q.run.lane.iops, t0 + c.slice, t)
    ensures Timely(t0 + 2 * c.slice - 1, es, t) && AfterAll(c, q, es).run.ledger.ios >= n
  {
    hide After, Rounded;
    var now := t0 + 2 * c.slice + 1;
    SecondSlice(c, c.slice + 1);
    Passes(c, q, t0 + c.slice, now);
    var rest := Sustain(c, After(c, q, Arrives(now, 0)), t0 + c.slice, now, t, n);
    Prepend(c, q, Arrives(now, 0), now - 2, rest, t);
    es := [Arrives(now, 0)] + rest;
  }

  // ----- the limit on the number of bios

  predicate BiosWithinRate(c: Clock, l: Lane, t0: nat, size: nat, es: seq<Event>, t: nat)
    requires Ticks(c) && Limits(l) && t0 <= t
  {
    WithinRate(c, l.iops, AfterAll(c, After(c, Created(l, t0), Arrives(t0, size)), es).run.ledger.ios, t0, t)
  }

  /**
   From its first bio at `t0` the number of bios a group lets through fits the limit in every run up to `t`, if and only
   if the limit is below one bio a slice, or the quota of the longest slice that a run can keep open until `t` is below
   the width of the counter. That is the first slice if the limit is two bios a slice or more, else the one after it.
   */
  lemma BioRateExact(c: Clock, l: Lane, t0: nat, t: nat)
    requires Configured(c) && Ticks(c) && Limits(l) && !Unlimited(l) && Fresh(l) && t0 <= t
    ensures (forall size, es :: Timely(t0, es, t) ==> BiosWithinRate(c, l, t0, size, es, t))
       <==> Narrow(c, l.iops, t0, t)
  {
    hide Timely, AfterAll, After, Roomy, Configured, Limits, Fresh;
    ConfiguredTicks(c);
    if Narrow(c, l.iops, t0, t) {
      forall size, es | Timely(t0, es, t) ensures BiosWithinRate(c, l, t0, size, es, t) {
        NarrowHolds(c, l, t0, size, es, t);
      }
    } else {
      var n := l.iops * (t - t0 + c.slice) + 1;
      var es := WideBreaks(c, l, t0, t, n);
      MulMono(n, 1, c.hz);
      MulMono(c.hz, n, AfterAll(c, After(c, Created(l, t0), Arrives(t0, 0)), es).run.ledger.ios);
      assert !BiosWithinRate(c, l, t0, 0, es, t);
    }
  }

  lemma NarrowHolds(c: Clock, l: Lane, t0: nat, size: nat, es: seq<Event>, t: nat)
    requires Configured(c) && Ticks(c) && Limits(l) && !Unlimited(l) && Fresh(l) && t0 <= t
    requires Narrow(c, l.iops, t0, t) && Timely(t0, es, t)
    ensures BiosWithinRate(c, l, t0, size, es, t)
  {
    hide AfterAll, After, Configured, Kept, Narrow, Timely;
    FirstKeeps(c, l, t0, size, t);
    var q := After(c, Created(l, t0), Arrives(t0, size));
    RunEven(c, q, t0, es, t0, t);
    var g := AfterAll(c, q, es).run.ledger;
    MulMono(l.iops, g.last - t0 + c.slice, t - t0 + c.slice);
  }

  /** Otherwise a run can let any number of bios through by `t`. */
  lemma WideBreaks(c: Clock, l: Lane, t0: nat, t: nat, n: nat) returns (es: seq<Event>)
    requires Ticks(c) && Limits(l) && !Unlimited(l) && Fresh(l) && c.slice >= 2 && t0 <= t && !Narrow(c, l.iops, t0, t)
    ensures Timely(t0, es, t) && AfterAll(c, After(c, Created(l, t0), Arrives(t0, 0)), es).run.ledger.ios >= n
  {
    hide Timely, AfterAll, After, Roomy;
    if 2 * c.hz <= l.iops * c.slice {
      es := FastBreaks(c, l, t0, t, n);
    } else {
      es := MiddlingBreaks(c, l, t0, t, n);
    }
  }

  // ----- what a trim leaves of the quota

  lemma {:induction false} RoundedShift(c: Clock, e: nat, n: nat)
    requires Ticks(c) && c.slice * n <= e
    ensures Rounded(c, e) <= Rounded(c, e - c.slice * n) + c.slice * n
    ensures c.slice * n < e ==> Rounded(c, e) == Rounded(c, e - c.slice * n) + c.slice * n
    decreases n
  {
    hide Rounded;
    if n > 0 {
      MulSum(c.slice, n - 1, 1);
      RoundedShift(c, e - c.slice, n - 1);
      if e > c.slice {
        RoundedLater(c, e - c.slice);
      } else {
        FirstSlice(c, e);
      }
    }
  }

  /** Splitting a time loses at most one unit of what it earns. */
  lemma EarnedInParts(rate: nat, hz: nat, a: nat, b: nat)
    requires hz > 0
    ensures MulDiv(rate, a, hz) + MulDiv(rate, b, hz) <= MulDiv(rate, a + b, hz)
    ensures MulDiv(rate, a + b, hz) <= MulDiv(rate, a, hz) + MulDiv(rate, b, hz) + 1
  {
    var x, y := MulDiv(rate, a, hz), MulDiv(rate, b, hz);
    MulSum(rate, a, b);
    MulSum(hz, x, y);
    MulDivReaches(rate, a + b, hz, x + y);
    MulSum(hz, x + y, 2);
    MulDivReaches(rate, a + b, hz, x + y + 2);
  }

  /**
   Trimming takes away at most one byte and one bio of the quota that is left in the slice, if what it takes off had
   been charged; and it grants none unless the slice is trimmed at its very end.
   */
  lemma TrimQuota(c: Clock, l: Lane, now: nat)
    requires Ticks(c) && !SliceUsed(l, now)
    ensures var l' := Trimmed(c, l, now);
            && l.sliceStart <= l'.sliceStart <= now
            && (MulDiv(l.bps, l'.sliceStart - l.sliceStart, c.hz) <= l.bytesDisp ==>
                  QuotaKept(c, l.bps, l.bytesDisp, now - l.sliceStart, l'.bytesDisp, now - l'.sliceStart))
            && (MulDiv(l.iops, l'.sliceStart - l.sliceStart, c.hz) <= l.ioDisp ==>
                  QuotaKept(c, l.iops, l.ioDisp, now - l.sliceStart, l'.ioDisp, now - l'.sliceStart))
  {
    hide RoundUp, Rounded, Trimmed, MulDiv, QuotaKept;
    var l' := Trimmed(c, l, now);
    TrimShape(c, l, now);
    TrimStart(c, l, now);
    var n := TrimMoves(c, l, now);
    var m := if l'.sliceStart == l.sliceStart then 0 else n;
    assert c.slice * m == l'.sliceStart - l.sliceStart;
    if MulDiv(l.bps, c.slice * m, c.hz) <= l.bytesDisp {
      ShiftKeeps(c, l.bps, l.bytesDisp, now - l.sliceStart, m);
    }
    if MulDiv(l.iops, c.slice * m, c.hz) <= l.ioDisp {
      ShiftKeeps(c, l.iops, l.ioDisp, now - l.sliceStart, m);
    }
  }

  /** What is left of a quota after a trim, against what was left before. */
  predicate QuotaKept(c: Clock, rate: nat, disp: nat, e: nat, disp': nat, e': nat)
    requires Ticks(c)
  {
    var before, after := MulDiv(rate, Rounded(c, e), c.hz) - disp, MulDiv(rate, Rounded(c, e'), c.hz) - disp';
    before - 1 <= after && (e' > 0 || e' == e ==> after <= before)
  }

  lemma ShiftKeeps(c: Clock, rate: nat, disp: nat, e: nat, n: nat)
    requires Ticks(c) && c.slice * n <= e && MulDiv(rate, c.slice * n, c.hz) <= disp
    ensures QuotaKept(c, rate, disp, e, Less(disp, MulDiv(rate, c.slice * n, c.hz)), e - c.slice * n)
  {
    hide Rounded;
    var ticks := c.slice * n;
    RoundedShift(c, e, n);
    EarnedInParts(rate, c.hz, ticks, Rounded(c, e - ticks));
    DivGrows(rate, Rounded(c, e), Rounded(c, e - ticks) + ticks, c.hz);
  }

  // ----- a bio that waits is served

  /** Served at each promised time, the first waiting bio leaves at the n-th service at the latest. */
  predicate LeavesWithin(c: Clock, q: Queue, now: nat, n: nat)
    requires Ticks(c) && Limits(q.run.lane)
    decreases n
  {
    && n > 0 && q.waiting != []
    && var q' := After(c, q, Serves(now));
       q'.waiting == q.waiting[1..]
       || LeavesWithin(c, q', now + MayDispatch(c, q.run.lane, now, q.waiting[0]).wait, n - 1)
  }

  lemma {:induction false} AcceptedLeaves(c: Clock, q: Queue, now: nat, n: nat)
    requires Ticks(c) && Limits(q.run.lane) && q.waiting != [] && AcceptedBy(c, q.run.lane, now, q.waiting[0], n)
    ensures LeavesWithin(c, q, now, n)
    decreases n
  {
    hide MayDispatch, Trimmed;
    var v := MayDispatch(c, q.run.lane, now, q.waiting[0]);
    if !v.ok {
      AcceptedLeaves(c, After(c, q, Serves(now)), now + v.wait, n - 1);
    }
  }

  /**
   The first waiting bio of a direction, served at its promised times, leaves with the fourth service, unless the wait
   of the iops limit overflows; then at most one more service a jiffy is needed until the slice has earned it.
   */
  lemma HeadLeaves(c: Clock, q: Queue, now: nat)
    requires Ticks(c) && Limits(q.run.lane) && q.waiting != []
    ensures Exact(c, q.run.lane) ==> LeavesWithin(c, q, now, 4)
    ensures LeavesWithin(c, q, now, 4 + TrueTicks(c, q.run.lane))
  {
    hide AcceptedBy, LeavesWithin, Exact, TrueTicks;
    AcceptedInTime(c, q.run.lane, now, q.waiting[0]);
    AcceptedLeaves(c, q, now, 4 + TrueTicks(c, q.run.lane));
    if Exact(c, q.run.lane) {
      AcceptedLeaves(c, q, now, 4);
    }
  }

  // ----- a wait that is too short

  /**
   A group limited to 42949670 bios a second: there is a run that uses up the quota of the first slice, after which
   the next bio is told to wait one jiffy and is refused then too.
   */
  lemma IopsWaitTooShort(bps: nat) returns (es: seq<Event>)
    requires bps > 0
    ensures Timely(0, es, 0)
    ensures var c := Clock(1000, 100);
            var l := AfterAll(c, Created(Lane(bps, 42949670, 0, 0, 0, 0), 0), es).run.lane;
            l.sliceStart == 0 && !WithinIops(c, l, 0) && IopsWait(c, l, 0) == 1 && !WithinIops(c, l, 1)
  {
    hide AfterAll, After, WithinIops, IopsWait;
    var c, l := Clock(1000, 100), Lane(bps, 42949670, 0, 0, 0, 0);
    FirstPasses(c, l, 0);
    var q := After(c, Created(l, 0), Arrives(0, 0));
    var n := QuotaLeft(c, q.run.lane);
    ArrivalsPass(c, q, 0, 0, n);
    Prepend(c, Created(l, 0), Arrives(0, 0), 0, Arrivals(0, n), 0);
    es := [Arrives(0, 0)] + Arrivals(0, n);
    QuotaUsedUp(c, AfterAll(c, q, Arrivals(0, n)).run.lane);
  }

  lemma QuotaLeft(c: Clock, l: Lane) returns (n: nat)
    requires c == Clock(1000, 100) && l.iops == 42949670 && l.ioDisp == 1
    ensures l.ioDisp + n == 4294967 && c.hz * (l.ioDisp + n) <= l.iops * Rounded(c, 0)
  {
    hide Rounded;
    FirstSlice(c, 0);
    n := 4294966;
    assert c.hz * (l.ioDisp + n) == 1000 * 4294967 && l.iops * Rounded(c, 0) == 42949670 * 100;
  }

  lemma SliceQuota(c: Clock, l: Lane)
    requires c == Clock(1000, 100) && l.iops == 42949670
    ensures IosAllowed(c, l, 0) == 4294967 && IosAllowed(c, l, 1) == 4294967
  {
    hide RoundUp, MulDiv;
    assert Rounded(c, 0) == 100 && Rounded(c, 1) == 100;
    assert 1000 * MulDiv(l.iops, 100, 1000) <= 42949670 * 100 < 1000 * MulDiv(l.iops, 100, 1000) + 1000;
  }

  lemma QuotaUsedUp(c: Clock, l: Lane)
    requires c == Clock(1000, 100) && Limits(l) && l.iops == 42949670 && l.ioDisp == 4294967 && l.sliceStart == 0
    ensures !WithinIops(c, l, 0) && IopsWait(c, l, 0) == 1 && !WithinIops(c, l, 1)
  {
    hide IosAllowed, Inc, Low, MulDiv;
    SliceQuota(c, l);
    WaitOfOne(c, l);
  }

  lemma WaitOfOne(c: Clock, l: Lane)
    requires c == Clock(1000, 100) && l.iops == 42949670 && l.ioDisp == 4294967
    ensures IopsTicks(c, l) == 1
  {
    hide Inc;
    assert Low(4294968000) == 704;
  }
}
