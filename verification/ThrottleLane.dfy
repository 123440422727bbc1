/**
 The per-direction arithmetic of the I/O throttle: slices, the two limits, trimming and charging,
 and the rate guarantee over every run of one direction of one group.

 Time is measured in jiffies and is an input. `hz` is the number of jiffies in a second and `slice`
 the length of a throttle slice; both are fixed and positive.
 */
module ThrottleLane {
  import opened Arith

  const WORD: nat := 0x1_0000_0000
  const UINT_MAX: nat := 0xFFFF_FFFF
  const ULONG_MAX: nat := 0xFFFF_FFFF_FFFF_FFFF

  datatype Clock = Clock(hz: nat, slice: nat)

  predicate Ticks(c: Clock) {
    c.hz > 0 && c.slice > 0
  }

  /** The entries of one direction in a throtl_grp. A limit equal to the all-ones value is "unlimited". */
  datatype Lane = Lane(bps: nat, iops: nat, bytesDisp: nat, ioDisp: nat, sliceStart: nat, sliceEnd: nat)

  predicate Unlimited(l: Lane) {
    l.bps == ULONG_MAX && l.iops == UINT_MAX
  }

  /** A zero limit never reaches a group: writing zero removes the rule. Counts of bios are 32 bits wide. */
  predicate Limits(l: Lane) {
    l.bps > 0 && 0 < l.iops <= UINT_MAX && l.ioDisp <= UINT_MAX
  }

  /** What 32 bits keep of a number. */
  function Low(n: nat): (r: nat)
    ensures r <= UINT_MAX && (n < WORD ==> r == n)
  {
    n % WORD
  }

  function Inc(n: nat): (r: nat)
    ensures n < UINT_MAX ==> r == n + 1
    ensures n == UINT_MAX ==> r == 0
  {
    Low(n + 1)
  }

  // ----- slices

  predicate SliceUsed(l: Lane, now: nat) {
    !(l.sliceStart <= now <= l.sliceEnd)
  }

  function NewSlice(c: Clock, l: Lane, now: nat): Lane {
    l.(bytesDisp := 0, ioDisp := 0, sliceStart := now, sliceEnd := now + c.slice)
  }

  function ExtendTo(c: Clock, l: Lane, end: nat): Lane
    requires Ticks(c)
  {
    if l.sliceEnd < end then l.(sliceEnd := RoundUp(end, c.slice)) else l
  }

  function Less(x: nat, y: nat): nat {
    if x >= y then x - y else 0
  }

  function Trimmed(c: Clock, l: Lane, now: nat): Lane
    requires Ticks(c)
  {
    if SliceUsed(l, now) then l else
    var l1 := l.(sliceEnd := RoundUp(now + c.slice, c.slice));
    var slices := (now - l.sliceStart) / c.slice;
    if slices == 0 then l1 else
    var bytesTrim := MulDiv(l.bps, c.slice * slices, c.hz);
    var ioTrim := MulDiv(l.iops, c.slice * slices, c.hz);
    if bytesTrim == 0 && ioTrim == 0 then l1 else
    l1.(bytesDisp := Less(l.bytesDisp, bytesTrim), ioDisp := Less(l.ioDisp, ioTrim),
        sliceStart := l.sliceStart + c.slice * slices)
  }

  // ----- the two limits

  /** The elapsed part of the slice, rounded up to whole slices; a slice that just started counts as one. */
  function Rounded(c: Clock, elapsed: nat): (r: nat)
    requires Ticks(c)
    ensures elapsed <= r <= elapsed + c.slice && r > 0 && r % c.slice == 0
  {
    RoundUp(if elapsed == 0 then c.slice else elapsed, c.slice)
  }

  function BytesAllowed(c: Clock, l: Lane, elapsed: nat): nat
    requires Ticks(c)
  {
    MulDiv(l.bps, Rounded(c, elapsed), c.hz)
  }

  function IosAllowed(c: Clock, l: Lane, elapsed: nat): nat
    requires Ticks(c)
  {
    var n := MulDiv(l.iops, Rounded(c, elapsed), c.hz);
    if n > UINT_MAX then UINT_MAX else n
  }

  predicate WithinBps(c: Clock, l: Lane, now: nat, size: nat)
    requires Ticks(c) && l.sliceStart <= now
  {
    l.bytesDisp + size <= BytesAllowed(c, l, now - l.sliceStart)
  }

  predicate WithinIops(c: Clock, l: Lane, now: nat)
    requires Ticks(c) && l.sliceStart <= now
  {
    Inc(l.ioDisp) <= IosAllowed(c, l, now - l.sliceStart)
  }

  /** The jiffies the extra bytes take at the configured rate, before the rounded-up part is added. */
  function BpsExcess(c: Clock, l: Lane, now: nat, size: nat): (jiffies: nat)
    requires Ticks(c) && Limits(l) && l.sliceStart <= now && !WithinBps(c, l, now, size)
  {
    var w := MulDiv(ExtraBytes(c, l, now, size), c.hz, l.bps);
    if w == 0 then 1 else w
  }

  function ExtraBytes(c: Clock, l: Lane, now: nat, size: nat): (bytes: nat)
    requires Ticks(c) && l.sliceStart <= now && !WithinBps(c, l, now, size)
  {
    l.bytesDisp + size - BytesAllowed(c, l, now - l.sliceStart)
  }

  function BpsWait(c: Clock, l: Lane, now: nat, size: nat): (wait: nat)
    requires Ticks(c) && Limits(l) && l.sliceStart <= now
    ensures wait == 0 <==> WithinBps(c, l, now, size)
  {
    if WithinBps(c, l, now, size) then 0 else
    var elapsed := now - l.sliceStart;
    BpsExcess(c, l, now, size) + (Rounded(c, elapsed) - elapsed)
  }

  /** The jiffies after which a slice has earned all its bios and one more, as computed in 32 bits. */
  function IopsTicks(c: Clock, l: Lane): nat
    requires l.iops > 0
  {
    Inc(MulDiv(1, Low(Inc(l.ioDisp) * c.hz), l.iops))
  }

  function IopsWait(c: Clock, l: Lane, now: nat): (wait: nat)
    requires Ticks(c) && Limits(l) && l.sliceStart <= now
    ensures wait == 0 <==> WithinIops(c, l, now)
  {
    if WithinIops(c, l, now) then 0 else
    var elapsed := now - l.sliceStart;
    var w := IopsTicks(c, l);
    if w > elapsed then w - elapsed else 1
  }

  // ----- the decision

  datatype Verdict = Verdict(lane: Lane, ok: bool, wait: nat)

  function Opened(c: Clock, l: Lane, now: nat): Lane
    requires Ticks(c)
  {
    if SliceUsed(l, now) then NewSlice(c, l, now) else ExtendTo(c, l, now + c.slice)
  }

  /** The iops test is consulted only after the bps test has passed, as the conjunction in the source is lazy. */
  function MayDispatch(c: Clock, l: Lane, now: nat, size: nat): (v: Verdict)
    requires Ticks(c) && Limits(l)
    ensures v.ok <==> v.wait == 0
    ensures v.lane.bps == l.bps && v.lane.iops == l.iops && Limits(v.lane)
  {
    if Unlimited(l) then Verdict(l, true, 0) else
    var o := Opened(c, l, now);
    var bpsWait := BpsWait(c, o, now, size);
    var iopsWait := if bpsWait == 0 then IopsWait(c, o, now) else 0;
    if bpsWait == 0 && iopsWait == 0 then Verdict(o, true, 0) else
    var wait := if bpsWait >= iopsWait then bpsWait else iopsWait;
    Verdict(ExtendTo(c, o, now + wait), false, wait)
  }

  function Charged(l: Lane, size: nat): Lane {
    l.(bytesDisp := l.bytesDisp + size, ioDisp := Inc(l.ioDisp))
  }

  // ----- the rate guarantee

  /** What has been charged since the slice that started at `t0`; `last` is the time of the latest charge. */
  datatype Ledger = Ledger(t0: nat, bytes: nat, ios: nat, last: nat)

  /** `done` units were charged since `t0`, of which `disp` are still on the books of the current slice. */
  predicate Paced(c: Clock, rate: nat, disp: nat, done: nat, l: Lane, g: Ledger) {
    && g.t0 <= l.sliceStart && g.t0 <= g.last
    && disp <= done
    && c.hz * (done - disp) <= rate * (l.sliceStart - g.t0)
    && c.hz * done <= rate * (g.last - g.t0 + c.slice)
    && g.last + c.slice <= l.sliceEnd
  }

  /** Up to `now` the quota of bios stays below the width of the counter, so the counter cannot wrap. */
  predicate Roomy(c: Clock, iops: nat, t0: nat, now: nat)
    requires Ticks(c)
  {
    iops * Rounded(c, Less(now, t0)) < c.hz * UINT_MAX
  }

  predicate Accounted(c: Clock, l: Lane, g: Ledger, now: nat)
    requires Ticks(c)
  {
    && Paced(c, l.bps, l.bytesDisp, g.bytes, l, g)
    && (Roomy(c, l.iops, g.t0, now) ==> l.ioDisp < UINT_MAX && Paced(c, l.iops, l.ioDisp, g.ios, l, g))
  }

  /** A group fresh from kzalloc. */
  predicate Fresh(l: Lane) {
    l.bytesDisp == 0 && l.ioDisp == 0 && l.sliceStart == 0 && l.sliceEnd == 0
  }

  /** A new slice begins only after the last one is over, which has earned all that was charged. */
  lemma OpenedPaced(c: Clock, rate: nat, disp: nat, done: nat, l: Lane, g: Ledger, now: nat)
    requires Ticks(c) && Paced(c, rate, disp, done, l, g) && l.sliceStart <= now
    ensures Paced(c, rate, if SliceUsed(l, now) then 0 else disp, done, Opened(c, l, now), g)
  {
    hide RoundUp;
    if SliceUsed(l, now) {
      MulMono(rate, g.last - g.t0 + c.slice, now - g.t0);
    }
  }

  lemma TrimPaced(c: Clock, rate: nat, disp: nat, done: nat, l: Lane, g: Ledger, ticks: nat, l': Lane)
    requires Ticks(c) && Paced(c, rate, disp, done, l, g)
    requires l'.sliceStart == l.sliceStart + ticks && g.last + c.slice <= l'.sliceEnd
    ensures Paced(c, rate, Less(disp, MulDiv(rate, ticks, c.hz)), done, l', g)
  {
    var trim := MulDiv(rate, ticks, c.hz);
    var left := Less(disp, trim);
    MulMono(c.hz, done - left, (done - disp) + trim);
    assert c.hz * ((done - disp) + trim) == c.hz * (done - disp) + c.hz * trim;
    assert rate * (l'.sliceStart - g.t0) == rate * (l.sliceStart - g.t0) + rate * ticks;
  }

  /** Trimming moves the slice forward and takes off what the time before its new start has earned. */
  lemma TrimShape(c: Clock, l: Lane, now: nat)
    requires Ticks(c) && !SliceUsed(l, now)
    ensures var l' := Trimmed(c, l, now);
            && now + c.slice <= l'.sliceEnd && l.sliceStart <= l'.sliceStart
            && l' == l.(sliceEnd := l'.sliceEnd, sliceStart := l'.sliceStart,
                        bytesDisp := Less(l.bytesDisp, MulDiv(l.bps, l'.sliceStart - l.sliceStart, c.hz)),
                        ioDisp := Less(l.ioDisp, MulDiv(l.iops, l'.sliceStart - l.sliceStart, c.hz)))
  {
    assert MulDiv(l.bps, 0, c.hz) == 0 && MulDiv(l.iops, 0, c.hz) == 0;
    hide RoundUp, MulDiv;
    var slices := (now - l.sliceStart) / c.slice;
    var moved := c.slice * slices;
    assert Trimmed(c, l, now).sliceStart == l.sliceStart || Trimmed(c, l, now).sliceStart - l.sliceStart == moved;
  }

  lemma TrimKeeps(c: Clock, l: Lane, g: Ledger, now: nat)
    requires Ticks(c) && Accounted(c, l, g, now) && g.last <= now
    ensures Accounted(c, Trimmed(c, l, now), g, now)
  {
    if !SliceUsed(l, now) {
      TrimShape(c, l, now);
      var l' := Trimmed(c, l, now);
      hide Trimmed, Paced, MulDiv;
      TrimPaced(c, l.bps, l.bytesDisp, g.bytes, l, g, l'.sliceStart - l.sliceStart, l');
      if Roomy(c, l.iops, g.t0, now) {
        TrimPaced(c, l.iops, l.ioDisp, g.ios, l, g, l'.sliceStart - l.sliceStart, l');
      }
    }
  }

  lemma OpenedKeeps(c: Clock, l: Lane, g: Ledger, now: nat)
    requires Ticks(c) && Accounted(c, l, g, now) && l.sliceStart <= now
    ensures Accounted(c, Opened(c, l, now), g, now)
    ensures Opened(c, l, now).sliceStart <= now && now + c.slice <= Opened(c, l, now).sliceEnd
  {
    hide RoundUp, Paced;
    OpenedPaced(c, l.bps, l.bytesDisp, g.bytes, l, g, now);
    if Roomy(c, l.iops, g.t0, now) {
      OpenedPaced(c, l.iops, l.ioDisp, g.ios, l, g, now);
    }
  }

  lemma MayDispatchKeeps(c: Clock, l: Lane, g: Ledger, now: nat, size: nat)
    requires Ticks(c) && Limits(l) && !Unlimited(l) && Accounted(c, l, g, now) && l.sliceStart <= now
    ensures var l' := MayDispatch(c, l, now, size).lane; Accounted(c, l', g, now) && l'.sliceStart <= now
  {
    OpenedKeeps(c, l, g, now);
  }

  lemma ChargePaced(c: Clock, rate: nat, disp: nat, done: nat, n: nat, l: Lane, g: Ledger, now: nat)
    requires Ticks(c) && Paced(c, rate, disp, done, l, g) && g.last <= now
    requires l.sliceStart <= now && now + c.slice <= l.sliceEnd
    requires disp + n <= MulDiv(rate, Rounded(c, now - l.sliceStart), c.hz)
    ensures Paced(c, rate, disp + n, done + n, l, g.(last := now))
  {
    var elapsed := now - l.sliceStart;
    MulDivReaches(rate, Rounded(c, elapsed), c.hz, disp + n);
    MulMono(rate, Rounded(c, elapsed), elapsed + c.slice);
    MulSum(c.hz, done - disp, disp + n);
    MulSum(rate, l.sliceStart - g.t0, elapsed + c.slice);
    assert (done - disp) + (disp + n) == done + n;
    assert (l.sliceStart - g.t0) + (elapsed + c.slice) == now - g.t0 + c.slice;
  }

  lemma MulSum(k: nat, a: nat, b: nat)
    ensures k * (a + b) == k * a + k * b
  {
  }

  function Posted(g: Ledger, now: nat, size: nat): Ledger {
    Ledger(g.t0, g.bytes + size, g.ios + 1, now)
  }

  lemma ChargeKeeps(c: Clock, l: Lane, g: Ledger, now: nat, size: nat)
    requires Ticks(c) && Limits(l) && !Unlimited(l) && Accounted(c, l, g, now)
    requires l.sliceStart <= now && g.last <= now && MayDispatch(c, l, now, size).ok
    ensures Accounted(c, Charged(MayDispatch(c, l, now, size).lane, size), Posted(g, now, size), now)
  {
    OpenedKeeps(c, l, g, now);
    var o := Opened(c, l, now);
    ChargePaced(c, l.bps, o.bytesDisp, g.bytes, size, o, g, now);
    if Roomy(c, l.iops, g.t0, now) {
      ChargePaced(c, l.iops, o.ioDisp, g.ios, 1, o, g, now);
      StaysRoomy(c, o, g.t0, now, o.ioDisp + 1);
    }
  }

  lemma RoundedGrows(c: Clock, a: nat, b: nat)
    requires Ticks(c) && a <= b
    ensures Rounded(c, a) <= Rounded(c, b)
  {
    hide RoundUp;
    if a > 0 {
      RoundUpGrows(a, b, c.slice);
    } else {
      RoundUpGrows(if b == 0 then c.slice else 1, if b == 0 then c.slice else b, c.slice);
    }
  }

  lemma RoomyEarlier(c: Clock, iops: nat, t0: nat, now: nat, later: nat)
    requires Ticks(c) && now <= later && Roomy(c, iops, t0, later)
    ensures Roomy(c, iops, t0, now)
  {
    RoundedGrows(c, Less(now, t0), Less(later, t0));
    MulMono(iops, Rounded(c, Less(now, t0)), Rounded(c, Less(later, t0)));
  }

  /** A count the quota allows is below the width of the counter. */
  lemma StaysRoomy(c: Clock, l: Lane, t0: nat, now: nat, n: nat)
    requires Ticks(c) && t0 <= l.sliceStart <= now && Roomy(c, l.iops, t0, now)
    requires n <= MulDiv(l.iops, Rounded(c, now - l.sliceStart), c.hz)
    ensures n < UINT_MAX
  {
    RoundedGrows(c, now - l.sliceStart, now - t0);
    MulMono(l.iops, Rounded(c, now - l.sliceStart), Rounded(c, now - t0));
    MulDivReaches(l.iops, Rounded(c, now - l.sliceStart), c.hz, n);
    if n >= UINT_MAX {
      MulMono(c.hz, UINT_MAX, n);
    }
  }

  /** The first decision on a fresh lane opens the first slice. */
  lemma FreshOpens(c: Clock, l: Lane, now: nat, size: nat)
    requires Ticks(c) && Limits(l) && !Unlimited(l) && Fresh(l)
    ensures Opened(c, l, now).sliceStart == now
    ensures Accounted(c, Opened(c, l, now), Ledger(now, 0, 0, now), now)
    ensures MayDispatch(c, l, now, size) == MayDispatch(c, Opened(c, l, now), now, size)
  {
    hide RoundUp, MulDiv, Rounded, BpsWait, IopsWait;
  }

  /**
   One locked section of one direction. `Probe` is a decision whose outcome only moves the slice (a bio that
   is looked at and left queued); `Submit` charges an accepted bio; `Drain` charges it and trims the slice.
   */
  datatype Step = Probe(now: nat, size: nat) | Submit(now: nat, size: nat) | Drain(now: nat, size: nat)

  datatype Run = Run(lane: Lane, ledger: Ledger)

  function Stepped(c: Clock, r: Run, e: Step): (r': Run)
    requires Ticks(c) && Limits(r.lane)
    ensures Limits(r'.lane) && r'.lane.bps == r.lane.bps && r'.lane.iops == r.lane.iops
  {
    var v := MayDispatch(c, r.lane, e.now, e.size);
    if e.Probe? || !v.ok then Run(v.lane, r.ledger) else
    var l := Charged(v.lane, e.size);
    Run(if e.Drain? then Trimmed(c, l, e.now) else l, Posted(r.ledger, e.now, e.size))
  }

  function RunOf(c: Clock, r: Run, es: seq<Step>): (r': Run)
    requires Ticks(c) && Limits(r.lane)
    ensures Limits(r'.lane) && r'.lane.bps == r.lane.bps && r'.lane.iops == r.lane.iops
    decreases es
  {
    if es == [] then r else RunOf(c, Stepped(c, r, es[0]), es[1..])
  }

  /** Time never goes back and every step happens between `from` and `to`. */
  predicate Chronological(from: nat, es: seq<Step>, to: nat)
    decreases es
  {
    if es == [] then from <= to else from <= es[0].now && Chronological(es[0].now, es[1..], to)
  }

  predicate Sound(c: Clock, r: Run, now: nat)
    requires Ticks(c)
  {
    Accounted(c, r.lane, r.ledger, now) && r.lane.sliceStart <= now && r.ledger.last <= now
  }

  lemma LaterSound(c: Clock, r: Run, now: nat, later: nat)
    requires Ticks(c) && Sound(c, r, now) && now <= later
    ensures Sound(c, r, later)
  {
    if Roomy(c, r.lane.iops, r.ledger.t0, later) {
      RoomyEarlier(c, r.lane.iops, r.ledger.t0, now, later);
    }
  }

  lemma StepKeeps(c: Clock, r: Run, e: Step)
    requires Ticks(c) && Limits(r.lane) && !Unlimited(r.lane) && Sound(c, r, e.now)
    ensures Sound(c, Stepped(c, r, e), e.now)
    ensures Stepped(c, r, e).ledger.t0 == r.ledger.t0
  {
    MayDispatchKeeps(c, r.lane, r.ledger, e.now, e.size);
    var v := MayDispatch(c, r.lane, e.now, e.size);
    if v.ok && !e.Probe? {
      ChargeKeeps(c, r.lane, r.ledger, e.now, e.size);
      var l := Charged(v.lane, e.size);
      TrimKeeps(c, l, Posted(r.ledger, e.now, e.size), e.now);
      TrimStart(c, l, e.now);
    }
  }

  lemma TrimStart(c: Clock, l: Lane, now: nat)
    requires Ticks(c) && l.sliceStart <= now
    ensures l.sliceStart <= Trimmed(c, l, now).sliceStart <= now
  {
  }

  lemma {:induction false} RunKeeps(c: Clock, r: Run, from: nat, es: seq<Step>, to: nat)
    requires Ticks(c) && Limits(r.lane) && !Unlimited(r.lane)
    requires Sound(c, r, from) && Chronological(from, es, to)
    ensures Sound(c, RunOf(c, r, es), to)
    ensures RunOf(c, r, es).ledger.t0 == r.ledger.t0
    decreases es
  {
    if es == [] {
      LaterSound(c, r, from, to);
    } else {
      LaterSound(c, r, from, es[0].now);
      StepKeeps(c, r, es[0]);
      RunKeeps(c, Stepped(c, r, es[0]), es[0].now, es[1..], to);
    }
  }

  /** What the limit gives from `t0` to `t` and one slice more. */
  predicate WithinRate(c: Clock, rate: nat, done: nat, t0: nat, t: nat)
    requires t0 <= t
  {
    c.hz * done <= rate * (t - t0 + c.slice)
  }

  predicate Obeys(c: Clock, l: Lane, g: Ledger, t: nat)
    requires Ticks(c) && g.t0 <= t
  {
    && WithinRate(c, l.bps, g.bytes, g.t0, t)
    && (Roomy(c, l.iops, g.t0, t) ==> WithinRate(c, l.iops, g.ios, g.t0, t))
  }

  lemma SoundObeys(c: Clock, r: Run, t: nat)
    requires Ticks(c) && Sound(c, r, t)
    ensures Obeys(c, r.lane, r.ledger, t)
  {
    MulMono(r.lane.bps, r.ledger.last - r.ledger.t0 + c.slice, t - r.ledger.t0 + c.slice);
    MulMono(r.lane.iops, r.ledger.last - r.ledger.t0 + c.slice, t - r.ledger.t0 + c.slice);
  }

  function Start(c: Clock, l: Lane, t0: nat): Run {
    Run(NewSlice(c, l, t0), Ledger(t0, 0, 0, t0))
  }

  /**
   The rate guarantee. Take any slice start `t0` and any later run of decisions, charges, trims, extensions
   and restarts: the bytes charged since `t0` fit the configured rate over the elapsed time plus one slice, and so
   do the bios as long as the quota since `t0` is below the width of the counter.
   */
  lemma RateBound(c: Clock, l: Lane, t0: nat, es: seq<Step>, t: nat)
    requires Ticks(c) && Limits(l) && !Unlimited(l) && Chronological(t0, es, t)
    ensures var g := RunOf(c, Start(c, l, t0), es).ledger; g.t0 == t0 <= t && Obeys(c, l, g, t)
  {
    RunKeeps(c, Start(c, l, t0), t0, es, t);
    SoundObeys(c, RunOf(c, Start(c, l, t0), es), t);
  }

  lemma FreshStepKeeps(c: Clock, l: Lane, e: Step)
    requires Ticks(c) && Limits(l) && !Unlimited(l) && Fresh(l)
    ensures var r' := Stepped(c, Run(l, Ledger(e.now, 0, 0, e.now)), e);
            Sound(c, r', e.now) && r'.ledger.t0 == e.now
  {
    FreshOpens(c, l, e.now, e.size);
    StepKeeps(c, Run(Opened(c, l, e.now), Ledger(e.now, 0, 0, e.now)), e);
  }

  /** The same from group creation: the guarantee counts from the first decision, which opens the first slice. */
  lemma RateBoundFromCreation(c: Clock, l: Lane, e: Step, es: seq<Step>, t: nat)
    requires Ticks(c) && Limits(l) && !Unlimited(l) && Fresh(l) && Chronological(e.now, es, t)
    ensures var g := RunOf(c, Stepped(c, Run(l, Ledger(e.now, 0, 0, e.now)), e), es).ledger;
            g.t0 == e.now <= t && Obeys(c, l, g, t)
  {
    var r := Stepped(c, Run(l, Ledger(e.now, 0, 0, e.now)), e);
    FreshStepKeeps(c, l, e);
    RunKeeps(c, r, e.now, es, t);
    SoundObeys(c, RunOf(c, r, es), t);
  }

  // ----- the waits

  /**
   When the wait promised by the iops limit is long enough. Either no 32-bit operation on the way overflows; or the
   slice in which the wait ends pays for what the overflow lost as well; or the wait is cut to one jiffy and that jiffy
   begins a new slice which earns enough.
   */
  predicate IopsWaitReaches(c: Clock, l: Lane, elapsed: nat)
    requires Ticks(c) && Limits(l)
  {
    var p := (l.ioDisp + 1) * c.hz;
    var q := Low(p) / l.iops;
    || (p < WORD && q < UINT_MAX)
    || (elapsed <= q < UINT_MAX && (p - Low(p)) + Low(p) % l.iops <= l.iops * (c.slice - q % c.slice))
    || ((q < elapsed || q == UINT_MAX) && elapsed > 0 && elapsed % c.slice == 0
        && p <= l.iops * (elapsed + c.slice))
  }

  /** A refusal by the iops limit is lifted after the promised wait exactly under that condition. */
  lemma IopsWaitSuffices(c: Clock, l: Lane, now: nat)
    requires Ticks(c) && Limits(l) && l.sliceStart <= now && !WithinIops(c, l, now)
    ensures WithinIops(c, l, now + IopsWait(c, l, now)) <==> IopsWaitReaches(c, l, now - l.sliceStart)
  {
    hide Rounded, Low, Inc, IosAllowed;
    var elapsed := now - l.sliceStart;
    var p, q := (l.ioDisp + 1) * c.hz, Low((l.ioDisp + 1) * c.hz) / l.iops;
    IosEarned(c, l, elapsed);
    RoundedNext(c, elapsed);
    if elapsed <= q < UINT_MAX {
      IosEarned(c, l, q + 1);
      RoundedNext(c, q);
      EarnedAt(l.iops, p, Low(p), c.slice, q);
    } else {
      IosEarned(c, l, elapsed + 1);
      if p < WORD && q < UINT_MAX {
        QuotientReaches(p, l.iops, elapsed);
        MulMono(l.iops, elapsed, Rounded(c, elapsed));
      }
    }
  }

  lemma QuotientReaches(p: nat, iops: nat, elapsed: nat)
    requires iops > 0 && p / iops < elapsed
    ensures p <= iops * elapsed
  {
    MulMono(iops, p / iops + 1, elapsed);
    assert iops * (p / iops + 1) == iops * (p / iops) + iops;
  }

  lemma EarnedAt(iops: nat, p: nat, low: nat, slice: nat, q: nat)
    requires iops > 0 && low <= p && q == low / iops && slice > 0
    ensures p <= iops * (q - q % slice + slice) <==> (p - low) + low % iops <= iops * (slice - q % slice)
    ensures p == low ==> p <= iops * (q - q % slice + slice)
  {
    var rest := slice - q % slice;
    assert q - q % slice + slice == q + rest;
    assert iops * (q + rest) == iops * q + iops * rest;
    assert low == iops * q + low % iops;
    MulMono(iops, 1, rest);
  }

  /** A jiffy later the elapsed time is rounded up to the next multiple of a slice. */
  lemma RoundedNext(c: Clock, elapsed: nat)
    requires Ticks(c)
    ensures Rounded(c, elapsed + 1) == elapsed - elapsed % c.slice + c.slice
    ensures elapsed == 0 || elapsed % c.slice != 0 ==> Rounded(c, elapsed + 1) == Rounded(c, elapsed)
    ensures elapsed > 0 && elapsed % c.slice == 0 ==> Rounded(c, elapsed) == elapsed
  {
    var y := c.slice;
    AddMod(elapsed, y);
    assert elapsed / y * y == elapsed - elapsed % y;
    assert (elapsed / y + 1) * y == elapsed / y * y + y;
    if elapsed == 0 {
      DivUnique(y + (y - 1), y, 1, y - 1);
    } else if elapsed % y != 0 {
      assert elapsed + (y - 1) == y * (elapsed / y + 1) + (elapsed % y - 1);
      DivUnique(elapsed + (y - 1), y, elapsed / y + 1, elapsed % y - 1);
    }
  }

  lemma IosEarned(c: Clock, l: Lane, elapsed: nat)
    requires Ticks(c) && Limits(l)
    ensures Inc(l.ioDisp) <= IosAllowed(c, l, elapsed)
       <==> l.ioDisp == UINT_MAX || (l.ioDisp + 1) * c.hz <= l.iops * Rounded(c, elapsed)
  {
    MulDivReaches(l.iops, Rounded(c, elapsed), c.hz, l.ioDisp + 1);
  }

  lemma BytesReached(c: Clock, l: Lane, elapsed: nat, ticks: nat, bytes: nat)
    requires Ticks(c) && ticks <= Rounded(c, elapsed) && c.hz * bytes <= l.bps * ticks
    ensures bytes <= BytesAllowed(c, l, elapsed)
  {
    MulMono(l.bps, ticks, Rounded(c, elapsed));
    MulDivReaches(l.bps, Rounded(c, elapsed), c.hz, bytes);
  }

  /** One jiffy after the excess has passed, counted from the rounded-up end, the bytes fit. */
  lemma ExcessCovered(c: Clock, l: Lane, now: nat, size: nat)
    requires Ticks(c) && Limits(l) && l.sliceStart <= now && !WithinBps(c, l, now, size)
    ensures c.hz * (l.bytesDisp + size)
         <= l.bps * (Rounded(c, now - l.sliceStart) + BpsExcess(c, l, now, size) + 1)
  {
    hide RoundUp, Rounded, MulDiv;
    var rnd := Rounded(c, now - l.sliceStart);
    var allowed := BytesAllowed(c, l, now - l.sliceStart);
    var extra := l.bytesDisp + size - allowed;
    var w := BpsExcess(c, l, now, size);
    var q := MulDiv(extra, c.hz, l.bps);
    MulMono(l.bps, q + 1, w + 1);
    assert l.bps * (q + 1) == l.bps * q + l.bps;
    assert extra * c.hz <= l.bps * (w + 1);
    assert c.hz * (l.bytesDisp + size) == c.hz * allowed + extra * c.hz;
    assert l.bps * (rnd + w + 1) == l.bps * rnd + l.bps * (w + 1);
  }

  /**
   When the wait promised by the bps limit is long enough: the excess is not a whole number of slices, so the elapsed
   time is rounded up past it; or the excess was less than a jiffy; or the bytes below a jiffy that the division
   dropped from the wait are not more than those it dropped from the allowance.
   */
  predicate BpsWaitReaches(c: Clock, l: Lane, now: nat, size: nat)
    requires Ticks(c) && Limits(l) && l.sliceStart <= now && !WithinBps(c, l, now, size)
  {
    var needed := ExtraBytes(c, l, now, size) * c.hz;
    || BpsExcess(c, l, now, size) % c.slice != 0
    || needed < l.bps
    || needed % l.bps <= l.bps * Rounded(c, now - l.sliceStart) % c.hz
  }

  /**
   A refusal by the bps limit is lifted one jiffy after the promised wait at the latest, and at the promised time
   exactly under that condition.
   */
  lemma BpsWaitSuffices(c: Clock, l: Lane, now: nat, size: nat)
    requires Ticks(c) && Limits(l) && l.sliceStart <= now && !WithinBps(c, l, now, size)
    ensures WithinBps(c, l, now + BpsWait(c, l, now, size) + 1, size)
    ensures WithinBps(c, l, now + BpsWait(c, l, now, size), size) <==> BpsWaitReaches(c, l, now, size)
  {
    var end := Rounded(c, now - l.sliceStart) + BpsExcess(c, l, now, size);
    assert now + BpsWait(c, l, now, size) - l.sliceStart == end;
    ExcessCovered(c, l, now, size);
    BytesReached(c, l, end + 1, end + 1, l.bytesDisp + size);
    SumMod(Rounded(c, now - l.sliceStart), BpsExcess(c, l, now, size), c.slice);
    if BpsExcess(c, l, now, size) % c.slice != 0 {
      BytesReached(c, l, end, end + 1, l.bytesDisp + size);
    } else {
      assert Rounded(c, end) == end;
      MulDivReaches(l.bps, end, c.hz, l.bytesDisp + size);
      DroppedParts(c.hz, l.bps, Rounded(c, now - l.sliceStart), l.bytesDisp + size);
    }
  }

  /** The two remainders decide whether whole jiffies pay for all the bytes. */
  lemma DroppedParts(hz: nat, bps: nat, rnd: nat, bytes: nat)
    requires hz > 0 && bps > 0 && bytes > MulDiv(bps, rnd, hz)
    ensures var needed := (bytes - MulDiv(bps, rnd, hz)) * hz;
            var w := MulDiv(bytes - MulDiv(bps, rnd, hz), hz, bps);
            hz * bytes <= bps * (rnd + if w == 0 then 1 else w) <==> needed < bps || needed % bps <= bps * rnd % hz
  {
    var allowed := MulDiv(bps, rnd, hz);
    var needed := (bytes - allowed) * hz;
    var w := MulDiv(bytes - allowed, hz, bps);
    assert hz * bytes == hz * allowed + needed;
    assert hz * allowed == bps * rnd - bps * rnd % hz;
    assert needed == bps * w + needed % bps;
    if w == 0 {
      assert needed < bps;
      assert bps * (rnd + 1) == bps * rnd + bps;
    } else {
      MulMono(bps, 1, w);
      assert bps * (rnd + w) == bps * rnd + bps * w;
    }
  }

  lemma SumMod(x: nat, w: nat, y: nat)
    requires y > 0 && x % y == 0
    ensures (x + w) % y == w % y
  {
    assert x + w == y * (x / y + w / y) + w % y;
    DivUnique(x + w, y, x / y + w / y, w % y);
  }

  /** At 1001 bytes a second a first bio of 201 bytes is promised 20 jiffies, after which 200 bytes are allowed. */
  lemma BpsWaitOneShort(iops: nat)
    requires 0 < iops <= UINT_MAX
    ensures var c, l := Clock(100, 10), Lane(1001, iops, 0, 0, 0, 10);
            !WithinBps(c, l, 0, 201) && BpsWait(c, l, 0, 201) == 20 && !WithinBps(c, l, 20, 201)
  {
    var c, l := Clock(100, 10), Lane(1001, iops, 0, 0, 0, 10);
    assert BytesAllowed(c, l, 0) == 100 && BytesAllowed(c, l, 20) == 200;
  }

  /** Deciding twice at the same time gives the same answer; so a refused bio is given a later dispatch time. */
  lemma RefusalIsStable(c: Clock, l: Lane, now: nat, size: nat)
    requires Ticks(c) && Limits(l) && !MayDispatch(c, l, now, size).ok
    ensures MayDispatch(c, MayDispatch(c, l, now, size).lane, now, size) == MayDispatch(c, l, now, size)
  {
    var o, l' := Opened(c, l, now), MayDispatch(c, l, now, size).lane;
    SameWaits(c, o, l'.sliceEnd, now, size);
    hide BpsWait, IopsWait, RoundUp;
    assert l' == o.(sliceEnd := l'.sliceEnd);
  }

  /** The waits do not depend on the end of the slice. */
  lemma SameWaits(c: Clock, l: Lane, end: nat, now: nat, size: nat)
    requires Ticks(c) && Limits(l) && l.sliceStart <= now
    ensures BpsWait(c, l.(sliceEnd := end), now, size) == BpsWait(c, l, now, size)
    ensures IopsWait(c, l.(sliceEnd := end), now) == IopsWait(c, l, now)
  {
  }

  // ----- the decision in plain arithmetic

  lemma BytesEarned(c: Clock, l: Lane, elapsed: nat, bytes: nat)
    requires Ticks(c)
    ensures bytes <= BytesAllowed(c, l, elapsed) <==> bytes * c.hz <= l.bps * Rounded(c, elapsed)
  {
    MulDivReaches(l.bps, Rounded(c, elapsed), c.hz, bytes);
  }

  /**
   A bio is accepted exactly if the elapsed time of its slice, in whole slices, earns it at both limits. The slice is
   the present one if the time lies in it, and a new one otherwise.
   */
  lemma AcceptsExactly(c: Clock, l: Lane, now: nat, size: nat)
    requires Ticks(c) && Limits(l) && !Unlimited(l)
    ensures var within := l.sliceStart <= now <= l.sliceEnd;
            var elapsed := if within then now - l.sliceStart else 0;
            var bytes, ios := if within then l.bytesDisp else 0, if within then l.ioDisp else 0;
            MayDispatch(c, l, now, size).ok <==>
              && (bytes + size) * c.hz <= l.bps * Rounded(c, elapsed)
              && (ios == UINT_MAX || (ios + 1) * c.hz <= l.iops * Rounded(c, elapsed))
  {
    hide RoundUp, BytesAllowed, IosAllowed, Rounded;
    var o := Opened(c, l, now);
    BytesEarned(c, o, now - o.sliceStart, o.bytesDisp + size);
    IosEarned(c, o, now - o.sliceStart);
  }

  /** A slice that is extended ends with the first whole slice after the time it has to reach, and is never cut. */
  lemma ExtendedExactly(c: Clock, l: Lane, end: nat)
    requires Ticks(c)
    ensures var l' := ExtendTo(c, l, end);
            && l' == l.(sliceEnd := l'.sliceEnd)
            && (if end <= l.sliceEnd then l' == l else l'.sliceEnd % c.slice == 0 && end <= l'.sliceEnd < end + c.slice)
  {
    hide RoundUp;
  }

  // ----- what a refusal promises

  /** A refused bio finds the same slice open, and the same counts, until the promised time. */
  lemma RefusalHolds(c: Clock, l: Lane, now: nat, size: nat)
    requires Ticks(c) && Limits(l) && !MayDispatch(c, l, now, size).ok
    ensures var v := MayDispatch(c, l, now, size);
            && v.wait > 0 && v.lane.sliceStart <= now && now + v.wait <= v.lane.sliceEnd
            && v.lane == (if l.sliceStart <= now <= l.sliceEnd then l
                          else l.(bytesDisp := 0, ioDisp := 0, sliceStart := now)).(sliceEnd := v.lane.sliceEnd)
  {
    hide RoundUp, BpsWait, IopsWait;
  }

  /** Time only adds to the quotas of a slice. */
  lemma QuotasGrow(c: Clock, l: Lane, now: nat, later: nat, size: nat)
    requires Ticks(c) && l.sliceStart <= now <= later
    ensures WithinBps(c, l, now, size) ==> WithinBps(c, l, later, size)
    ensures WithinIops(c, l, now) ==> WithinIops(c, l, later)
  {
    hide RoundUp, MulDiv, Rounded;
    var a, b := Rounded(c, now - l.sliceStart), Rounded(c, later - l.sliceStart);
    RoundedGrows(c, now - l.sliceStart, later - l.sliceStart);
    DivGrows(l.bps, a, b, c.hz);
    DivGrows(l.iops, a, b, c.hz);
  }

  lemma DivGrows(rate: nat, a: nat, b: nat, hz: nat)
    requires hz > 0 && a <= b
    ensures MulDiv(rate, a, hz) <= MulDiv(rate, b, hz)
  {
    MulMono(rate, a, b);
    MulDivReaches(rate, b, hz, MulDiv(rate, a, hz));
  }

  /** A decision inside a slice asks the two limits of that slice. */
  lemma DecidedInSlice(c: Clock, l: Lane, now: nat, size: nat)
    requires Ticks(c) && Limits(l) && !Unlimited(l) && l.sliceStart <= now <= l.sliceEnd
    ensures var v := MayDispatch(c, l, now, size);
            && (v.ok <==> WithinBps(c, l, now, size) && WithinIops(c, l, now))
            && (!v.ok ==>
                  v.wait == if !WithinBps(c, l, now, size) then BpsWait(c, l, now, size) else IopsWait(c, l, now))
            && v.lane == l.(sliceEnd := v.lane.sliceEnd) && (!v.ok ==> now + v.wait <= v.lane.sliceEnd)
  {
    SameWaits(c, l, ExtendTo(c, l, now + c.slice).sliceEnd, now, size);
    hide RoundUp, BytesAllowed, IosAllowed, Rounded;
  }

  /**
   A refused bio that comes back at the promised time is accepted exactly if the wait of the limit that refused it is
   long enough and, when that was the limit on bytes, the limit on bios has earned it too by then.
   */
  lemma RetryExact(c: Clock, l: Lane, now: nat, size: nat)
    requires Ticks(c) && Limits(l) && !MayDispatch(c, l, now, size).ok
    ensures var v := MayDispatch(c, l, now, size);
            MayDispatch(c, v.lane, now + v.wait, size).ok <==>
              var e := now - v.lane.sliceStart;
              if !WithinBps(c, v.lane, now, size)
              then BpsWaitReaches(c, v.lane, now, size)
                   && (v.lane.ioDisp == UINT_MAX
                       || (v.lane.ioDisp + 1) * c.hz <= l.iops * Rounded(c, e + v.wait))
              else IopsWaitReaches(c, v.lane, e)
  {
    hide RoundUp, BytesAllowed, IosAllowed, Rounded, BpsWaitReaches, IopsWaitReaches, MayDispatch;
    var v := MayDispatch(c, l, now, size);
    RefusalHolds(c, l, now, size);
    RefusalIsStable(c, l, now, size);
    LimitedRefusal(c, l, now, size);
    DecidedInSlice(c, v.lane, now, size);
    DecidedInSlice(c, v.lane, now + v.wait, size);
    QuotasGrow(c, v.lane, now, now + v.wait, size);
    if !WithinBps(c, v.lane, now, size) {
      BpsWaitSuffices(c, v.lane, now, size);
      IosEarned(c, v.lane, now + v.wait - v.lane.sliceStart);
    } else {
      IopsWaitSuffices(c, v.lane, now);
    }
  }

  lemma LimitedRefusal(c: Clock, l: Lane, now: nat, size: nat)
    requires Ticks(c) && Limits(l) && !MayDispatch(c, l, now, size).ok
    ensures !Unlimited(l) && Limits(MayDispatch(c, l, now, size).lane) && !Unlimited(MayDispatch(c, l, now, size).lane)
  {
    hide RoundUp, BpsWait, IopsWait;
  }

  // ----- how often a bio is refused

  /** A bio that comes back at each promised time is accepted by the n-th decision at the latest. */
  predicate AcceptedBy(c: Clock, l: Lane, now: nat, size: nat, n: nat)
    requires Ticks(c) && Limits(l)
    decreases n
  {
    n > 0 &&
    var v := MayDispatch(c, l, now, size);
    v.ok || AcceptedBy(c, v.lane, now + v.wait, size, n - 1)
  }

  lemma {:induction false} AcceptedLater(c: Clock, l: Lane, now: nat, size: nat, n: nat, m: nat)
    requires Ticks(c) && Limits(l) && AcceptedBy(c, l, now, size, n) && n <= m
    ensures AcceptedBy(c, l, now, size, m)
    decreases n
  {
    hide MayDispatch;
    var v := MayDispatch(c, l, now, size);
    if !v.ok {
      AcceptedLater(c, v.lane, now + v.wait, size, n - 1, m - 1);
    }
  }

  /** The whole jiffies in which a limit earns the bios of a slice and one more. */
  function TrueTicks(c: Clock, l: Lane): (n: nat)
    requires l.iops > 0
  {
    MulDiv(l.ioDisp + 1, c.hz, l.iops)
  }

  /** No 32-bit operation on the way to the wait of the iops limit overflows. */
  predicate Exact(c: Clock, l: Lane)
    requires l.iops > 0
  {
    (l.ioDisp + 1) * c.hz < WORD && TrueTicks(c, l) < UINT_MAX
  }

  /** Decisions a bio needs once its bytes are earned: two, or one a jiffy if the wait overflows. */
  function IopsTries(c: Clock, l: Lane, elapsed: nat): nat
    requires l.iops > 0
  {
    if Exact(c, l) then 2 else 1 + Less(TrueTicks(c, l) + 1, elapsed)
  }

  lemma IopsRefusedEarly(c: Clock, l: Lane, now: nat)
    requires Ticks(c) && Limits(l) && l.sliceStart <= now && !WithinIops(c, l, now)
    ensures now - l.sliceStart <= TrueTicks(c, l)
  {
    hide Rounded, IosAllowed;
    var e := now - l.sliceStart;
    IosEarned(c, l, e);
    MulMono(l.iops, e, Rounded(c, e));
    if TrueTicks(c, l) < e {
      QuotientReaches((l.ioDisp + 1) * c.hz, l.iops, e);
    }
  }

  lemma {:induction false} BytesThenBios(c: Clock, l: Lane, now: nat, size: nat)
    requires Ticks(c) && Limits(l) && !Unlimited(l) && l.sliceStart <= now <= l.sliceEnd && WithinBps(c, l, now, size)
    ensures AcceptedBy(c, l, now, size, IopsTries(c, l, now - l.sliceStart))
    decreases Less(TrueTicks(c, l) + 1, now - l.sliceStart)
  {
    hide RoundUp, BytesAllowed, IosAllowed, Rounded, MayDispatch, AcceptedBy, BpsWait, IopsWait, WithinBps, WithinIops;
    DecidedInSlice(c, l, now, size);
    var v := MayDispatch(c, l, now, size);
    var later, n := now + v.wait, IopsTries(c, l, now - l.sliceStart);
    if !v.ok {
      IopsRefusedEarly(c, l, now);
      WaitPositive(c, l, now);
      SameQuotas(c, l, v.lane.sliceEnd, now, size);
      SameQuotas(c, l, v.lane.sliceEnd, later, size);
      QuotasGrow(c, v.lane, now, later, size);
      DecidedInSlice(c, v.lane, later, size);
      if Exact(c, l) {
        IopsWaitSuffices(c, l, now);
        OneDecision(c, v.lane, later, size);
        Retried(c, l, now, size, 1, n - 1);
      } else {
        BytesThenBios(c, v.lane, later, size);
        Retried(c, l, now, size, IopsTries(c, v.lane, later - l.sliceStart), n - 1);
      }
    } else {
      OneDecision(c, l, now, size);
      AcceptedLater(c, l, now, size, 1, n);
    }
  }

  lemma WaitPositive(c: Clock, l: Lane, now: nat)
    requires Ticks(c) && Limits(l) && l.sliceStart <= now && !WithinIops(c, l, now)
    ensures IopsWait(c, l, now) > 0
  {
  }

  lemma OneDecision(c: Clock, l: Lane, now: nat, size: nat)
    requires Ticks(c) && Limits(l) && MayDispatch(c, l, now, size).ok
    ensures AcceptedBy(c, l, now, size, 1)
  {
  }

  lemma Retried(c: Clock, l: Lane, now: nat, size: nat, m: nat, n: nat)
    requires Ticks(c) && Limits(l) && m <= n
    requires var v := MayDispatch(c, l, now, size); AcceptedBy(c, v.lane, now + v.wait, size, m)
    ensures AcceptedBy(c, l, now, size, n + 1)
  {
    hide MayDispatch;
    var v := MayDispatch(c, l, now, size);
    AcceptedLater(c, v.lane, now + v.wait, size, m, n);
  }

  lemma SameTries(c: Clock, l: Lane, end: nat, elapsed: nat)
    requires l.iops > 0
    ensures IopsTries(c, l.(sliceEnd := end), elapsed) == IopsTries(c, l, elapsed) <= IopsTries(c, l, 0)
  {
  }

  /** The tests do not depend on the end of the slice. */
  lemma SameQuotas(c: Clock, l: Lane, end: nat, now: nat, size: nat)
    requires Ticks(c) && l.sliceStart <= now
    ensures WithinBps(c, l.(sliceEnd := end), now, size) == WithinBps(c, l, now, size)
    ensures WithinIops(c, l.(sliceEnd := end), now) == WithinIops(c, l, now)
  {
  }

  /** In an open slice: at most two refusals for the bytes, and then those for the bios. */
  lemma InSliceAccepted(c: Clock, l: Lane, now: nat, size: nat)
    requires Ticks(c) && Limits(l) && !Unlimited(l) && l.sliceStart <= now <= l.sliceEnd
    ensures AcceptedBy(c, l, now, size, 2 + IopsTries(c, l, 0))
  {
    hide RoundUp, BytesAllowed, IosAllowed, Rounded, MayDispatch, AcceptedBy, BpsWait, IopsWait, WithinBps, WithinIops;
    hide IopsTries;
    DecidedInSlice(c, l, now, size);
    var n := IopsTries(c, l, 0);
    if WithinBps(c, l, now, size) {
      BytesThenBios(c, l, now, size);
      SameTries(c, l, l.sliceEnd, now - l.sliceStart);
      AcceptedLater(c, l, now, size, IopsTries(c, l, now - l.sliceStart), 2 + n);
    } else {
      var v := MayDispatch(c, l, now, size);
      var t1 := now + v.wait;
      RefusalInSlice(c, l, now, size);
      BpsWaitSuffices(c, l, now, size);
      SameQuotas(c, l, v.lane.sliceEnd, t1 + 1, size);
      SameTries(c, l, v.lane.sliceEnd, 0);
      BytesRetried(c, v.lane, t1, size);
      Retried(c, l, now, size, 1 + n, 1 + n);
    }
  }

  lemma RefusalInSlice(c: Clock, l: Lane, now: nat, size: nat)
    requires Ticks(c) && Limits(l) && !Unlimited(l) && l.sliceStart <= now <= l.sliceEnd
             && !MayDispatch(c, l, now, size).ok
    ensures var v := MayDispatch(c, l, now, size);
            && v.lane == l.(sliceEnd := v.lane.sliceEnd) && v.wait > 0 && now + v.wait <= v.lane.sliceEnd
            && Limits(v.lane) && !Unlimited(v.lane)
  {
    hide MayDispatch;
    RefusalHolds(c, l, now, size);
  }

  lemma BytesRetried(c: Clock, l: Lane, now: nat, size: nat)
    requires Ticks(c) && Limits(l) && !Unlimited(l) && l.sliceStart <= now <= l.sliceEnd
    requires WithinBps(c, l, now + 1, size)
    ensures AcceptedBy(c, l, now, size, 1 + IopsTries(c, l, 0))
  {
    hide RoundUp, BytesAllowed, IosAllowed, Rounded, MayDispatch, AcceptedBy, BpsWait, IopsWait, WithinBps, WithinIops;
    hide IopsTries;
    DecidedInSlice(c, l, now, size);
    var n := IopsTries(c, l, 0);
    if WithinBps(c, l, now, size) {
      BytesThenBios(c, l, now, size);
      SameTries(c, l, l.sliceEnd, now - l.sliceStart);
      AcceptedLater(c, l, now, size, IopsTries(c, l, now - l.sliceStart), 1 + n);
    } else {
      var v := MayDispatch(c, l, now, size);
      var t1 := now + v.wait;
      RefusalInSlice(c, l, now, size);
      QuotasGrow(c, l, now + 1, t1, size);
      SameQuotas(c, l, v.lane.sliceEnd, t1, size);
      SameTries(c, l, v.lane.sliceEnd, t1 - l.sliceStart);
      BytesThenBios(c, v.lane, t1, size);
      Retried(c, l, now, size, IopsTries(c, v.lane, t1 - l.sliceStart), n);
    }
  }

  /**
   A bio that comes back at each promised time is accepted by the fourth decision, unless the wait of the iops limit
   overflows; then a refusal a jiffy may be added until the slice has earned the bio.
   */
  lemma AcceptedInTime(c: Clock, l: Lane, now: nat, size: nat)
    requires Ticks(c) && Limits(l)
    ensures Exact(c, l) ==> AcceptedBy(c, l, now, size, 4)
    ensures AcceptedBy(c, l, now, size, 4 + TrueTicks(c, l))
  {
    hide AcceptedBy, MayDispatch, IopsTries, Exact, TrueTicks;
    AcceptedInTries(c, l, now, size);
    TriesAre(c, l);
    AcceptedLater(c, l, now, size, 2 + IopsTries(c, l, 0), 4 + TrueTicks(c, l));
  }

  lemma TriesAre(c: Clock, l: Lane)
    requires l.iops > 0
    ensures IopsTries(c, l, 0) == if Exact(c, l) then 2 else 2 + TrueTicks(c, l)
    ensures TrueTicks(c, l) >= 0
  {
  }

  lemma AcceptedInTries(c: Clock, l: Lane, now: nat, size: nat)
    requires Ticks(c) && Limits(l)
    ensures AcceptedBy(c, l, now, size, 2 + IopsTries(c, l, 0))
  {
    hide AcceptedBy, MayDispatch, Opened, IopsTries;
    if Unlimited(l) {
      PassesUnlimited(c, l, now, size);
      OneDecision(c, l, now, size);
      AcceptedLater(c, l, now, size, 1, 2 + IopsTries(c, l, 0));
    } else {
      var o := Opened(c, l, now);
      Reopened(c, l, now, size);
      InSliceAccepted(c, o, now, size);
      FewerTries(c, l, o);
      SameAccepted(c, l, o, now, size, 2 + IopsTries(c, o, 0));
      AcceptedLater(c, l, now, size, 2 + IopsTries(c, o, 0), 2 + IopsTries(c, l, 0));
    }
  }

  lemma PassesUnlimited(c: Clock, l: Lane, now: nat, size: nat)
    requires Ticks(c) && Limits(l) && Unlimited(l)
    ensures MayDispatch(c, l, now, size).ok
  {
  }

  lemma Reopened(c: Clock, l: Lane, now: nat, size: nat)
    requires Ticks(c) && Limits(l) && !Unlimited(l)
    ensures var o := Opened(c, l, now);
            && Limits(o) && !Unlimited(o) && o.sliceStart <= now <= o.sliceEnd
            && o.iops == l.iops && (o.ioDisp == l.ioDisp || o.ioDisp == 0)
            && MayDispatch(c, o, now, size) == MayDispatch(c, l, now, size)
  {
    hide RoundUp, BpsWait, IopsWait;
  }

  lemma SameAccepted(c: Clock, l: Lane, o: Lane, now: nat, size: nat, n: nat)
    requires Ticks(c) && Limits(l) && Limits(o) && MayDispatch(c, o, now, size) == MayDispatch(c, l, now, size)
    requires AcceptedBy(c, o, now, size, n)
    ensures AcceptedBy(c, l, now, size, n)
  {
    hide MayDispatch;
  }

  /** A new slice has charged nothing, so it needs no more. */
  lemma FewerTries(c: Clock, l: Lane, o: Lane)
    requires l.iops > 0 && o.iops == l.iops && (o.ioDisp == l.ioDisp || o.ioDisp == 0)
    ensures IopsTries(c, o, 0) <= IopsTries(c, l, 0)
  {
    MulMono(c.hz, o.ioDisp + 1, l.ioDisp + 1);
    DivMonotone((o.ioDisp + 1) * c.hz, (l.ioDisp + 1) * c.hz, l.iops);
  }
}
