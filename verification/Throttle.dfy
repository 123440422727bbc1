/**
 Throttled groups and the service tree of one request queue. A group holds two bio lists (reads and writes);
 groups with queued bios sit on the service tree, sorted by the time their next bio is expected to fit.
 Each method runs with the queue lock held, so the current time is fixed during a call.
 */
module Throttle {
  import Lists
  import opened Options
  import opened ThrottleLane

  const READ: nat := 0
  const WRITE: nat := 1
  const THROTL_GRP_QUANTUM: nat := 8
  const THROTL_QUANTUM: nat := 32

  datatype Bio = Bio(id: nat, size: nat)

  datatype Limit = Limit(bps: nat, iops: nat)

  ghost function Total(bios: seq<Bio>): nat {
    if bios == [] then 0 else Total(bios[..|bios| - 1]) + bios[|bios| - 1].size
  }

  lemma TotalGrows(bios: seq<Bio>, bio: Bio)
    ensures Total(bios + [bio]) == Total(bios) + bio.size
  {
    assert (bios + [bio])[..|bios|] == bios;
  }

  /**
   `past` are the bios this direction ever let through. Before the first decision there are none; after it the ledger
   counts their number and bytes since that decision, and unless it is unlimited the lane obeys the rate guarantee.
   */
  ghost predicate Settled(c: Clock, l: Lane, g: Option<Ledger>, past: seq<Bio>, now: nat)
    requires Ticks(c)
  {
    match g
    case None => past == [] && Fresh(l)
    case Some(k) =>
      && k.t0 <= now && k.bytes == Total(past) && k.ios == |past|
      && (Unlimited(l) || Sound(c, Run(l, k), now))
  }

  /** The ledger after a decision: the first decision opens it. */
  ghost function Begun(g: Option<Ledger>, now: nat): Ledger {
    if g.None? then Ledger(now, 0, 0, now) else g.value
  }

  /** The time a ledger counts from is the time of the first decision and never moves. */
  ghost predicate Begins(g: Option<Ledger>, g': Option<Ledger>, now: nat) {
    if g.None? then g'.None? || g'.value.t0 == now else g'.Some? && g'.value.t0 == g.value.t0
  }

  lemma DecisionSettles(c: Clock, l: Lane, g: Option<Ledger>, past: seq<Bio>, now: nat, size: nat)
    requires Ticks(c) && Limits(l) && Settled(c, l, g, past, now)
    ensures Settled(c, MayDispatch(c, l, now, size).lane, Some(Begun(g, now)), past, now)
  {
    if Unlimited(l) {
    } else if g.None? {
      FreshStepKeeps(c, l, Probe(now, size));
    } else {
      StepKeeps(c, Run(l, g.value), Probe(now, size));
    }
  }

  lemma ChargeSettles(c: Clock, l: Lane, g: Option<Ledger>, past: seq<Bio>, now: nat, bio: Bio, trim: bool)
    requires Ticks(c) && Limits(l) && Settled(c, l, g, past, now) && MayDispatch(c, l, now, bio.size).ok
    ensures var l1 := Charged(MayDispatch(c, l, now, bio.size).lane, bio.size);
            var l2 := if trim then Trimmed(c, l1, now) else l1;
            Settled(c, l2, Some(Posted(Begun(g, now), now, bio.size)), past + [bio], now)
  {
    var e := if trim then Drain(now, bio.size) else Submit(now, bio.size);
    var k := Begun(g, now);
    TotalGrows(past, bio);
    if Unlimited(l) {
      TrimLimits(c, Charged(l, bio.size), now);
    } else if g.None? {
      FreshStepKeeps(c, l, e);
    } else {
      StepKeeps(c, Run(l, k), e);
    }
    assert Stepped(c, Run(l, k), e).ledger == Posted(k, now, bio.size);
  }

  /** Trimming changes no limit. */
  lemma TrimLimits(c: Clock, l: Lane, now: nat)
    requires Ticks(c)
    ensures var l' := Trimmed(c, l, now); l'.bps == l.bps && l'.iops == l.iops && l'.ioDisp <= l.ioDisp
  {
  }

  lemma LaterSettled(c: Clock, l: Lane, g: Option<Ledger>, past: seq<Bio>, now: nat, later: nat)
    requires Ticks(c) && Settled(c, l, g, past, now) && now <= later
    ensures Settled(c, l, g, past, later)
  {
    if g.Some? && !Unlimited(l) {
      LaterSound(c, Run(l, g.value), now, later);
    }
  }

  /** What a group has let through, what waits in it and since when it counts, for each direction. */
  datatype Books = Books(passed: seq<seq<Bio>>, queued: seq<seq<Bio>>, ledgers: seq<Option<Ledger>>)

  ghost predicate Pairs(b: Books) {
    |b.passed| == 2 && |b.queued| == 2 && |b.ledgers| == 2
  }

  /** One direction let the first `n` waiting bios through and nothing else. */
  ghost predicate LetThrough(a: Books, b: Books, rw: nat, n: nat, now: nat)
    requires Pairs(a) && Pairs(b) && rw < 2
  {
    && n <= |a.queued[rw]|
    && b.passed[rw] == a.passed[rw] + a.queued[rw][..n]
    && b.queued[rw] == a.queued[rw][n..]
    && Begins(a.ledgers[rw], b.ledgers[rw], now)
  }

  /** Bios moved in order from waiting to let through: what arrived is the same, in the same order. */
  ghost predicate Moved(a: Books, b: Books, now: nat) {
    && Pairs(a) && Pairs(b)
    && (forall rw :: 0 <= rw < 2 ==> a.passed[rw] <= b.passed[rw])
    && (forall rw :: 0 <= rw < 2 ==> b.passed[rw] + b.queued[rw] == a.passed[rw] + a.queued[rw])
    && (forall rw :: 0 <= rw < 2 ==> Begins(a.ledgers[rw], b.ledgers[rw], now))
  }

  /** A new bio joins its direction: behind those waiting, or straight behind those let through. */
  ghost predicate Arrived(a: Books, b: Books, rw: nat, bio: Bio, queued: bool, now: nat)
    requires rw < 2
  {
    && Pairs(a) && Pairs(b)
    && b.queued == (if queued then a.queued[rw := a.queued[rw] + [bio]] else a.queued)
    && b.passed == (if queued then a.passed else a.passed[rw := a.passed[rw] + [bio]])
    && (forall d :: 0 <= d < 2 ==> Begins(a.ledgers[d], b.ledgers[d], now))
  }

  lemma PassArrives(a: Books, b: Books, rw: nat, bio: Bio, now: nat)
    requires rw < 2 && Pairs(a) && b.queued == a.queued && b.passed == a.passed[rw := a.passed[rw] + [bio]]
    requires LedgersBegin(a, b, rw, now)
    ensures Arrived(a, b, rw, bio, false, now)
  {
  }

  lemma QueueArrives(a: Books, b: Books, rw: nat, bio: Bio, now: nat)
    requires rw < 2 && Pairs(a) && b.queued == a.queued[rw := a.queued[rw] + [bio]] && b.passed == a.passed
    requires LedgersBegin(a, b, rw, now)
    ensures Arrived(a, b, rw, bio, true, now)
  {
  }

  lemma RefileArrives(a: Books, b: Books, d: Books, rw: nat, bio: Bio, now: nat)
    requires rw < 2 && Arrived(a, b, rw, bio, true, now) && Moved(b, d, now)
    requires d.passed == b.passed && d.queued == b.queued
    ensures Arrived(a, d, rw, bio, true, now)
  {
  }

  lemma DecidedArrives(a: Books, b: Books, d: Books, rw: nat, bio: Bio, now: nat)
    requires rw < 2 && Pairs(a) && LedgersBegin(a, b, rw, now) && b.queued == a.queued && b.passed == a.passed
    requires Arrived(b, d, rw, bio, true, now)
    ensures Arrived(a, d, rw, bio, true, now)
  {
  }

  ghost predicate LedgersBegin(a: Books, b: Books, rw: nat, now: nat)
    requires rw < 2 && Pairs(a)
  {
    |b.ledgers| == 2 && b.ledgers == a.ledgers[rw := b.ledgers[rw]] && Begins(a.ledgers[rw], b.ledgers[rw], now)
  }

  lemma LetThroughMoves(a: Books, b: Books, r: nat, w: nat, now: nat)
    requires Pairs(a) && Pairs(b) && LetThrough(a, b, READ, r, now) && LetThrough(a, b, WRITE, w, now)
    ensures Moved(a, b, now)
  {
    Split(a.passed[READ], a.queued[READ], r);
    Split(a.passed[WRITE], a.queued[WRITE], w);
  }

  lemma Split(p: seq<Bio>, q: seq<Bio>, n: nat)
    requires n <= |q|
    ensures (p + q[..n]) + q[n..] == p + q
  {
    assert q == q[..n] + q[n..];
  }

  lemma NextTaken(p: seq<Bio>, q: seq<Bio>, n: nat)
    requires n < |q|
    ensures (p + q[..n]) + [q[n]] == p + q[..n + 1]
  {
  }

  lemma MovedTwice(a: Books, b: Books, d: Books, now: nat)
    requires Moved(a, b, now) && Moved(b, d, now)
    ensures Moved(a, d, now)
  {
  }

  /** The bios handed out are those a group let through between two states of its books, reads before writes. */
  ghost predicate Handed(a: Books, b: Books, bl: seq<Bio>, bl': seq<Bio>, now: nat) {
    && Moved(a, b, now)
    && bl' == bl + b.passed[READ][|a.passed[READ]|..] + b.passed[WRITE][|a.passed[WRITE]|..]
  }

  lemma LetThroughHands(a: Books, b: Books, r: nat, w: nat, bl: seq<Bio>, bl': seq<Bio>, now: nat)
    requires Pairs(a) && Pairs(b) && LetThrough(a, b, READ, r, now) && LetThrough(a, b, WRITE, w, now)
    requires bl' == bl + a.queued[READ][..r] + a.queued[WRITE][..w]
    ensures Handed(a, b, bl, bl', now)
  {
    LetThroughMoves(a, b, r, w, now);
    assert b.passed[READ][|a.passed[READ]|..] == a.queued[READ][..r];
    assert b.passed[WRITE][|a.passed[WRITE]|..] == a.queued[WRITE][..w];
  }

  lemma HandedOn(a: Books, b: Books, d: Books, bl: seq<Bio>, bl': seq<Bio>, now: nat)
    requires Handed(a, b, bl, bl', now) && Moved(b, d, now) && d.passed == b.passed
    ensures Handed(a, d, bl, bl', now)
  {
    MovedTwice(a, b, d, now);
  }

  lemma HandedMoves(a: Books, b: Books, d: Books, bl: seq<Bio>, bl': seq<Bio>, now: nat)
    requires Moved(a, b, now) && Handed(b, d, bl, bl', now)
    ensures Moved(a, d, now)
  {
    MovedTwice(a, b, d, now);
  }

  lemma MovedLane(p: seq<Bio>, q: seq<Bio>, p': seq<Bio>, q': seq<Bio>)
    requires p <= p' && p' + q' == p + q
    ensures multiset(p'[|p|..]) + multiset(q') == multiset(q)
    ensures multiset(p'[|p|..]) + multiset(p) == multiset(p')
  {
    assert p' == p + p'[|p|..];
    assert q == (p + q)[|p|..] == p'[|p|..] + q';
  }

  /** The bios handed out left the lists and count as let through, each once. */
  lemma HandedCounts(a: Books, b: Books, bl: seq<Bio>, bl': seq<Bio>, now: nat)
    requires Handed(a, b, bl, bl', now)
    ensures multiset(bl') + Held(b.queued) == multiset(bl) + Held(a.queued)
    ensures multiset(bl') + Held(a.passed) == multiset(bl) + Held(b.passed)
  {
    var r, w := b.passed[READ][|a.passed[READ]|..], b.passed[WRITE][|a.passed[WRITE]|..];
    MovedLane(a.passed[READ], a.queued[READ], b.passed[READ], b.queued[READ]);
    MovedLane(a.passed[WRITE], a.queued[WRITE], b.passed[WRITE], b.queued[WRITE]);
    assert multiset(bl') == multiset(bl) + multiset(r) + multiset(w);
    Spread(multiset(bl), multiset(r), multiset(w), multiset(b.queued[READ]), multiset(b.queued[WRITE]));
    Spread(multiset(bl), multiset(r), multiset(w), multiset(a.passed[READ]), multiset(a.passed[WRITE]));
  }

  lemma Spread(b: multiset<Bio>, r: multiset<Bio>, w: multiset<Bio>, x: multiset<Bio>, y: multiset<Bio>)
    ensures (b + r + w) + (x + y) == b + ((r + x) + (w + y))
  {
  }

  class ThrotlGrp {
    const clock: Clock
    var lanes: seq<Lane>
    var bioLists: seq<seq<Bio>>
    var nrQueued: seq<nat>
    var disptime: nat
    var onRr: bool
    ghost const limits: seq<Limit>
    ghost var passed: seq<seq<Bio>>
    ghost var ledgers: seq<Option<Ledger>>

    ghost predicate Valid(now: nat)
      reads `lanes, `bioLists, `nrQueued, `ledgers, `passed
    {
      && Ticks(clock)
      && |lanes| == 2 && |bioLists| == 2 && |nrQueued| == 2 && |ledgers| == 2 && |passed| == 2 && |limits| == 2
      && (forall rw :: 0 <= rw < 2 ==> nrQueued[rw] == |bioLists[rw]|)
      && (forall rw :: 0 <= rw < 2 ==> Limits(lanes[rw]) && limits[rw] == Limit(lanes[rw].bps, lanes[rw].iops))
      && (forall rw :: 0 <= rw < 2 ==> Settled(clock, lanes[rw], ledgers[rw], passed[rw], now))
    }

    ghost function Record(): Books
      reads `passed, `bioLists, `ledgers
    {
      Books(passed, bioLists, ledgers)
    }

    predicate Busy()
      reads this`bioLists
    {
      |bioLists| == 2 && (bioLists[READ] != [] || bioLists[WRITE] != [])
    }

    /** How long the head of this direction has to wait; forever if there is none. */
    ghost function HeadWait(rw: nat, now: nat): nat
      reads `lanes, `bioLists, `nrQueued, `ledgers, `passed
      requires Valid(now) && rw < 2
    {
      if bioLists[rw] == [] then ULONG_MAX
      else ThrottleLane.MayDispatch(clock, lanes[rw], now, bioLists[rw][0].size).wait
    }

    /** When the first of the two heads is expected to fit. */
    ghost function HeadsFit(now: nat): nat
      reads `lanes, `bioLists, `nrQueued, `ledgers, `passed
      requires Valid(now)
    {
      now + if HeadWait(READ, now) <= HeadWait(WRITE, now) then HeadWait(READ, now) else HeadWait(WRITE, now)
    }

    /** The head of this direction does not fit now. */
    ghost predicate Refused(rw: nat, now: nat)
      reads `lanes, `bioLists, `nrQueued, `ledgers, `passed
      requires Valid(now) && rw < 2
    {
      bioLists[rw] != [] ==> !ThrottleLane.MayDispatch(clock, lanes[rw], now, bioLists[rw][0].size).ok
    }

    constructor (c: Clock, bps: seq<nat>, iops: seq<nat>)
      requires Ticks(c) && |bps| == 2 && |iops| == 2
      requires forall rw :: 0 <= rw < 2 ==> bps[rw] > 0 && 0 < iops[rw] <= UINT_MAX
      ensures clock == c && !onRr && !Busy()
      ensures limits == [Limit(bps[0], iops[0]), Limit(bps[1], iops[1])]
      ensures Record() == Books([[], []], [[], []], [None, None])
      ensures forall now :: Valid(now)
      ensures forall rw :: 0 <= rw < 2 ==> Fresh(lanes[rw]) && lanes[rw].bps == bps[rw] && lanes[rw].iops == iops[rw]
    {
      clock := c;
      lanes := [Lane(bps[0], iops[0], 0, 0, 0, 0), Lane(bps[1], iops[1], 0, 0, 0, 0)];
      bioLists, nrQueued := [[], []], [0, 0];
      disptime, onRr := 0, false;
      limits := [Limit(bps[0], iops[0]), Limit(bps[1], iops[1])];
      passed, ledgers := [[], []], [None, None];
    }

    method StartNewSlice(rw: nat, now: nat)
      requires rw < |lanes|
      modifies this`lanes
      ensures lanes == old(lanes)[rw := NewSlice(clock, old(lanes[rw]), now)]
    {
      lanes := lanes[rw := lanes[rw].(bytesDisp := 0)];
      lanes := lanes[rw := lanes[rw].(ioDisp := 0)];
      lanes := lanes[rw := lanes[rw].(sliceStart := now, sliceEnd := now + clock.slice)];
    }

    method TrimSlice(rw: nat, now: nat)
      requires Ticks(clock) && rw < |lanes|
      modifies this`lanes
      ensures lanes == old(lanes)[rw := Trimmed(clock, old(lanes[rw]), now)]
    {
      if SliceUsed(lanes[rw], now) {
        return;
      }
      lanes := lanes[rw := lanes[rw].(sliceEnd := Arith.RoundUp(now + clock.slice, clock.slice))];
      var nrSlices := (now - lanes[rw].sliceStart) / clock.slice;
      if nrSlices == 0 {
        return;
      }
      var bytesTrim := Arith.MulDiv(lanes[rw].bps, clock.slice * nrSlices, clock.hz);
      var ioTrim := Arith.MulDiv(lanes[rw].iops, clock.slice * nrSlices, clock.hz);
      if bytesTrim == 0 && ioTrim == 0 {
        return;
      }
      lanes := lanes[rw := lanes[rw].(bytesDisp := Less(lanes[rw].bytesDisp, bytesTrim))];
      lanes := lanes[rw := lanes[rw].(ioDisp := Less(lanes[rw].ioDisp, ioTrim))];
      lanes := lanes[rw := lanes[rw].(sliceStart := lanes[rw].sliceStart + clock.slice * nrSlices)];
    }

    method MayDispatch(rw: nat, now: nat, bio: Bio) returns (ok: bool, wait: nat)
      requires Valid(now) && rw < 2
      requires nrQueued[rw] > 0 ==> bio == bioLists[rw][0]
      modifies this`lanes, this`ledgers
      ensures Valid(now)
      ensures var v := ThrottleLane.MayDispatch(clock, old(lanes[rw]), now, bio.size);
              lanes == old(lanes)[rw := v.lane] && ok == v.ok && wait == v.wait
      ensures ledgers == old(ledgers)[rw := Some(Begun(old(ledgers[rw]), now))]
    {
      hide Settled, Sound, Arith.RoundUp, Rounded, WithinBps, WithinIops;
      DecisionSettles(clock, lanes[rw], ledgers[rw], passed[rw], now, bio.size);
      ledgers := ledgers[rw := Some(Begun(ledgers[rw], now))];
      if Unlimited(lanes[rw]) {
        return true, 0;
      }
      if SliceUsed(lanes[rw], now) {
        StartNewSlice(rw, now);
      } else {
        lanes := lanes[rw := ExtendTo(clock, lanes[rw], now + clock.slice)];
      }
      var bpsWait := BpsWait(clock, lanes[rw], now, bio.size);
      var iopsWait := 0;
      if bpsWait == 0 {
        iopsWait := IopsWait(clock, lanes[rw], now);
        if iopsWait == 0 {
          return true, 0;
        }
      }
      wait := if bpsWait >= iopsWait then bpsWait else iopsWait;
      lanes := lanes[rw := ExtendTo(clock, lanes[rw], now + wait)];
      ok := false;
    }

    /** Charges the bio the last decision accepted. */
    method ChargeBio(rw: nat, bio: Bio)
      requires rw < |lanes|
      modifies this`lanes
      ensures lanes == old(lanes)[rw := Charged(old(lanes[rw]), bio.size)]
    {
      lanes := lanes[rw := lanes[rw].(bytesDisp := lanes[rw].bytesDisp + bio.size)];
      lanes := lanes[rw := lanes[rw].(ioDisp := Inc(lanes[rw].ioDisp))];
    }

    /** A bio that finds its direction empty passes at once if it fits. */
    method TryPass(rw: nat, now: nat, bio: Bio) returns (ok: bool)
      requires Valid(now) && rw < 2 && bioLists[rw] == []
      modifies this`lanes, this`ledgers, this`passed
      ensures Valid(now)
      ensures var v := ThrottleLane.MayDispatch(clock, old(lanes[rw]), now, bio.size);
              ok == v.ok && lanes == old(lanes)[rw := if ok then Charged(v.lane, bio.size) else v.lane]
      ensures passed == if ok then old(passed)[rw := old(passed[rw]) + [bio]] else old(passed)
      ensures ledgers == old(ledgers)[rw := ledgers[rw]] && Begins(old(ledgers[rw]), ledgers[rw], now)
    {
      hide Settled, Sound;
      ghost var l, g := lanes[rw], ledgers[rw];
      var wait;
      ok, wait := MayDispatch(rw, now, bio);
      if ok {
        ChargeSettles(clock, l, g, passed[rw], now, bio, false);
        ChargeBio(rw, bio);
        ledgers := ledgers[rw := Some(Posted(ledgers[rw].value, now, bio.size))];
        passed := passed[rw := passed[rw] + [bio]];
      }
    }

    /** Tries to move the head of a direction to the dispatch list. */
    method TryDispatchOne(rw: nat, now: nat) returns (ok: bool, bio: Bio)
      requires Valid(now) && rw < 2 && bioLists[rw] != []
      modifies this`lanes, this`ledgers, this`passed, this`bioLists, this`nrQueued
      ensures Valid(now)
      ensures bio == old(bioLists[rw][0])
      ensures bioLists == old(bioLists)[rw := if ok then old(bioLists[rw])[1..] else old(bioLists[rw])]
      ensures var v := ThrottleLane.MayDispatch(clock, old(lanes[rw]), now, bio.size);
              && ok == v.ok
              && lanes == old(lanes)[rw := if ok then Trimmed(clock, Charged(v.lane, bio.size), now) else v.lane]
      ensures passed == if ok then old(passed)[rw := old(passed[rw]) + [bio]] else old(passed)
      ensures ledgers == old(ledgers)[rw := ledgers[rw]] && Begins(old(ledgers[rw]), ledgers[rw], now)
      ensures !ok ==> Refused(rw, now)
    {
      hide Settled, Sound, Trimmed;
      bio := bioLists[rw][0];
      ghost var l, g := lanes[rw], ledgers[rw];
      var wait;
      ok, wait := MayDispatch(rw, now, bio);
      if ok {
        ChargeSettles(clock, l, g, passed[rw], now, bio, true);
        TrimLimits(clock, Charged(lanes[rw], bio.size), now);
        bioLists := bioLists[rw := bioLists[rw][1..]];
        nrQueued := nrQueued[rw := nrQueued[rw] - 1];
        ChargeBio(rw, bio);
        TrimSlice(rw, now);
        ledgers := ledgers[rw := Some(Posted(ledgers[rw].value, now, bio.size))];
        passed := passed[rw := passed[rw] + [bio]];
      } else {
        RefusalIsStable(clock, l, now, bio.size);
      }
    }

    /** Up to `max` bios of one direction, in order. */
    method DispatchLane(rw: nat, max: nat, now: nat, bl: seq<Bio>) returns (nr: nat, bl': seq<Bio>)
      requires Valid(now) && rw < 2 && max > 0
      modifies this`lanes, this`ledgers, this`passed, this`bioLists, this`nrQueued
      ensures Valid(now)
      ensures nr <= max && nr <= old(|bioLists[rw]|)
      ensures bl' == bl + old(bioLists[rw])[..nr]
      ensures passed == old(passed)[rw := old(passed[rw]) + old(bioLists[rw])[..nr]]
      ensures bioLists == old(bioLists)[rw := old(bioLists[rw])[nr..]]
      ensures ledgers == old(ledgers)[rw := ledgers[rw]] && Begins(old(ledgers[rw]), ledgers[rw], now)
      ensures lanes[1 - rw] == old(lanes[1 - rw])
      ensures nr < max ==> Refused(rw, now)
    {
      hide Settled, Limits, Trimmed, Charged;
      nr, bl' := 0, bl;
      assert passed[rw] + [] == passed[rw];
      while bioLists[rw] != []
        invariant Valid(now)
        invariant nr < max && nr <= |old(bioLists[rw])|
        invariant bl' == bl + old(bioLists[rw])[..nr]
        invariant passed == old(passed)[rw := old(passed[rw]) + old(bioLists[rw])[..nr]]
        invariant bioLists == old(bioLists)[rw := old(bioLists[rw])[nr..]]
        invariant ledgers == old(ledgers)[rw := ledgers[rw]] && Begins(old(ledgers[rw]), ledgers[rw], now)
        invariant lanes[1 - rw] == old(lanes[1 - rw])
        decreases |bioLists[rw]|
      {
        var ok, bio := TryDispatchOne(rw, now);
        if !ok {
          return;
        }
        nr, bl' := nr + 1, bl' + [bio];
        NextTaken(old(passed[rw]), old(bioLists[rw]), nr - 1);
        if nr >= max {
          break;
        }
      }
    }

    /** Three quarters of the quantum for reads, the rest for writes. */
    method DispatchTg(now: nat, bl: seq<Bio>) returns (nr: nat, bl': seq<Bio>)
      requires Valid(now)
      modifies this`lanes, this`ledgers, this`passed, this`bioLists, this`nrQueued
      ensures Valid(now)
      ensures nr <= THROTL_GRP_QUANTUM
      ensures |bioLists[READ]| <= old(|bioLists[READ]|) && |bioLists[WRITE]| <= old(|bioLists[WRITE]|)
      ensures var r := old(|bioLists[READ]|) - |bioLists[READ]|;
              var w := old(|bioLists[WRITE]|) - |bioLists[WRITE]|;
              && nr == r + w && r <= THROTL_GRP_QUANTUM * 3 / 4 && w <= THROTL_GRP_QUANTUM - THROTL_GRP_QUANTUM * 3 / 4
              && (r < THROTL_GRP_QUANTUM * 3 / 4 ==> Refused(READ, now))
              && (w < THROTL_GRP_QUANTUM - THROTL_GRP_QUANTUM * 3 / 4 ==> Refused(WRITE, now))
              && bl' == bl + old(bioLists[READ])[..r] + old(bioLists[WRITE])[..w]
              && LetThrough(old(Record()), Record(), READ, r, now) && LetThrough(old(Record()), Record(), WRITE, w, now)
      ensures nr == 0 ==> Refused(READ, now) && Refused(WRITE, now)
    {
      hide Settled, Limits, ThrottleLane.MayDispatch, Begins;
      var maxReads := THROTL_GRP_QUANTUM * 3 / 4;
      var r, b := DispatchLane(READ, maxReads, now, bl);
      var w;
      w, bl' := DispatchLane(WRITE, THROTL_GRP_QUANTUM - maxReads, now, b);
      nr := r + w;
    }

    /** The time at which the first of the two heads is expected to fit. */
    method NextDisptime(now: nat) returns (t: nat)
      requires Valid(now)
      modifies this`lanes, this`ledgers
      ensures Valid(now)
      ensures t == old(HeadsFit(now))
      ensures t >= now
      ensures old(Refused(READ, now) && Refused(WRITE, now)) ==> t > now
      ensures Moved(old(Record()), Record(), now)
    {
      hide Settled;
      var readWait, writeWait := ULONG_MAX, ULONG_MAX;
      var ok;
      if bioLists[READ] != [] {
        ok, readWait := MayDispatch(READ, now, bioLists[READ][0]);
      }
      if bioLists[WRITE] != [] {
        ok, writeWait := MayDispatch(WRITE, now, bioLists[WRITE][0]);
      }
      t := now + if readWait <= writeWait then readWait else writeWait;
    }
  }

  // ----- sums over the groups of a queue

  type BioLists = seq<seq<Bio>>

  ghost function Held(ls: BioLists): multiset<Bio> {
    if |ls| == 2 then multiset(ls[READ]) + multiset(ls[WRITE]) else multiset{}
  }

  ghost function Waiting(ls: BioLists, rw: nat): nat {
    if rw < |ls| then |ls[rw]| else 0
  }

  ghost function QueuedIn(all: seq<BioLists>, rw: nat): nat {
    if all == [] then 0 else Waiting(all[0], rw) + QueuedIn(all[1..], rw)
  }

  ghost function AllIn(all: seq<BioLists>): multiset<Bio> {
    if all == [] then multiset{} else Held(all[0]) + AllIn(all[1..])
  }

  ghost function Queues(gs: seq<ThrotlGrp>): (all: seq<BioLists>)
    reads gs`bioLists
    ensures |all| == |gs| && forall i :: 0 <= i < |gs| ==> all[i] == gs[i].bioLists
  {
    if gs == [] then [] else [gs[0].bioLists] + Queues(gs[1..])
  }

  ghost function Passed(gs: seq<ThrotlGrp>): (all: seq<BioLists>)
    reads gs`passed
    ensures |all| == |gs| && forall i :: 0 <= i < |gs| ==> all[i] == gs[i].passed
  {
    if gs == [] then [] else [gs[0].passed] + Passed(gs[1..])
  }

  lemma ListsAfter(gs: seq<ThrotlGrp>, before: seq<BioLists>, i: nat)
    requires i < |gs| == |before|
    requires forall j :: 0 <= j < |gs| && j != i ==> gs[j].bioLists == before[j]
    ensures Queues(gs) == before[i := gs[i].bioLists]
  {
  }

  lemma PassedAfter(gs: seq<ThrotlGrp>, before: seq<BioLists>, i: nat)
    requires i < |gs| == |before|
    requires forall j :: 0 <= j < |gs| && j != i ==> gs[j].passed == before[j]
    ensures Passed(gs) == before[i := gs[i].passed]
  {
  }

  lemma {:induction false} OneChanged(all: seq<BioLists>, i: nat, ls: BioLists, rw: nat)
    requires i < |all|
    ensures QueuedIn(all[i := ls], rw) + Waiting(all[i], rw) == QueuedIn(all, rw) + Waiting(ls, rw)
  {
    if i == 0 {
      assert all[0 := ls][1..] == all[1..];
    } else {
      OneChanged(all[1..], i - 1, ls, rw);
      assert all[i := ls][1..] == all[1..][i - 1 := ls];
    }
  }

  /** Totals that follow the change of one group stay the totals. */
  lemma StillCounted(all: seq<BioLists>, i: nat, ls: BioLists, queued: seq<nat>, queued': seq<nat>)
    requires i < |all| && |queued| == 2 && |queued'| == 2
    requires forall rw :: 0 <= rw < 2 ==> queued[rw] == QueuedIn(all, rw)
    requires forall rw :: 0 <= rw < 2 ==> queued'[rw] + Waiting(all[i], rw) == queued[rw] + Waiting(ls, rw)
    ensures forall rw :: 0 <= rw < 2 ==> queued'[rw] == QueuedIn(all[i := ls], rw)
  {
    forall rw | 0 <= rw < 2 ensures queued'[rw] == QueuedIn(all[i := ls], rw) {
      OneChanged(all, i, ls, rw);
    }
  }

  lemma {:induction false} OneExchanged(all: seq<BioLists>, i: nat, ls: BioLists)
    requires i < |all|
    ensures AllIn(all[i := ls]) + Held(all[i]) == AllIn(all) + Held(ls)
  {
    var all' := all[i := ls];
    if i == 0 {
      assert all'[1..] == all[1..];
      Swap(Held(ls), AllIn(all[1..]), Held(all[0]));
    } else {
      OneExchanged(all[1..], i - 1, ls);
      assert all'[1..] == all[1..][i - 1 := ls];
      Regroup(Held(all[0]), AllIn(all'[1..]), Held(all[i]), AllIn(all[1..]), Held(ls));
    }
  }

  lemma Swap(x: multiset<Bio>, p: multiset<Bio>, y: multiset<Bio>)
    ensures (x + p) + y == (y + p) + x
  {
  }

  lemma {:induction false} IdleAppended(all: seq<BioLists>, ls: BioLists, rw: nat)
    requires Waiting(ls, rw) == 0
    ensures QueuedIn(all + [ls], rw) == QueuedIn(all, rw)
  {
    if all == [] {
      assert all + [ls] == [ls];
    } else {
      assert (all + [ls])[1..] == all[1..] + [ls];
      IdleAppended(all[1..], ls, rw);
    }
  }

  lemma OneAppended(all: seq<BioLists>, i: nat, rw: nat, bio: Bio)
    requires i < |all| && |all[i]| == 2 && rw < 2
    ensures var all' := all[i := all[i][rw := all[i][rw] + [bio]]];
            && QueuedIn(all', READ) == QueuedIn(all, READ) + (if rw == READ then 1 else 0)
            && QueuedIn(all', WRITE) == QueuedIn(all, WRITE) + (if rw == WRITE then 1 else 0)
  {
    OneChanged(all, i, all[i][rw := all[i][rw] + [bio]], READ);
    OneChanged(all, i, all[i][rw := all[i][rw] + [bio]], WRITE);
  }

  lemma {:induction false} AtMostTotal(all: seq<BioLists>, i: nat, rw: nat)
    requires i < |all|
    ensures Waiting(all[i], rw) <= QueuedIn(all, rw)
  {
    if i > 0 {
      AtMostTotal(all[1..], i - 1, rw);
    }
  }

  lemma Regroup(h: multiset<Bio>, p': multiset<Bio>, x: multiset<Bio>, p: multiset<Bio>, x': multiset<Bio>)
    requires p' + x == p + x'
    ensures (h + p') + x == (h + p) + x'
  {
    assert (h + p') + x == h + (p' + x);
    assert (h + p) + x' == h + (p + x');
  }

  lemma Cancel(a: multiset<Bio>, h: multiset<Bio>, a': multiset<Bio>, h': multiset<Bio>,
               p: multiset<Bio>, p': multiset<Bio>)
    requires a' + h' == a + h && p' + h == p + h'
    ensures a' + p' == a + p
  {
    forall b: Bio ensures (a' + p')[b] == (a + p)[b] {
      assert (a' + h')[b] == (a + h)[b] && (p' + h)[b] == (p + h')[b];
    }
  }

  lemma Gained(a: multiset<Bio>, h: multiset<Bio>, a': multiset<Bio>, h': multiset<Bio>,
               p: multiset<Bio>, p': multiset<Bio>)
    requires a' + h == a + h' && p' + h == p + h'
    ensures a' + p == a + p'
  {
    forall b: Bio ensures (a' + p)[b] == (a + p')[b] {
      assert (a' + h)[b] == (a + h')[b] && (p' + h)[b] == (p + h')[b];
    }
  }

  lemma GainedMore(a: multiset<Bio>, a': multiset<Bio>, p: multiset<Bio>, q: multiset<Bio>, q': multiset<Bio>)
    requires a + p == q && a' + q == a + q'
    ensures a' + p == q'
  {
    forall b: Bio ensures (a' + p)[b] == q'[b] {
      assert (a + p)[b] == q[b] && (a' + q)[b] == (a + q')[b];
    }
  }

  // ----- the service tree

  /** Position behind every group that is due no later. */
  function Place(gs: seq<ThrotlGrp>, key: nat): (p: nat)
    reads gs`disptime
    ensures p <= |gs|
    ensures forall i :: 0 <= i < p ==> gs[i].disptime <= key
    ensures p < |gs| ==> key < gs[p].disptime
  {
    if gs == [] || key < gs[0].disptime then 0 else 1 + Place(gs[1..], key)
  }

  ghost predicate Sorted(gs: seq<ThrotlGrp>)
    reads gs`disptime
  {
    && (forall i, j :: 0 <= i < j < |gs| ==> gs[i].disptime <= gs[j].disptime)
    && (forall i, j :: 0 <= i < j < |gs| ==> gs[i] != gs[j])
  }

  ghost function Due(gs: seq<ThrotlGrp>, now: nat): set<ThrotlGrp>
    reads gs`disptime
  {
    set g | g in gs && g.disptime <= now
  }

  lemma InsertMembers<T>(s: seq<T>, x: T, p: nat)
    requires p <= |s|
    ensures forall y :: y in s[..p] + [x] + s[p..] <==> y == x || y in s
  {
    assert s == s[..p] + s[p..];
  }

  lemma InsertSorted(gs: seq<ThrotlGrp>, tg: ThrotlGrp, p: nat)
    requires Sorted(gs) && tg !in gs && p <= |gs|
    requires forall i :: 0 <= i < p ==> gs[i].disptime <= tg.disptime
    requires p < |gs| ==> tg.disptime < gs[p].disptime
    ensures Sorted(gs[..p] + [tg] + gs[p..])
  {
    var gs' := gs[..p] + [tg] + gs[p..];
    forall i, j | 0 <= i < j < |gs'| ensures gs'[i].disptime <= gs'[j].disptime && gs'[i] != gs'[j] {
      assert gs'[i] == if i < p then gs[i] else if i == p then tg else gs[i - 1];
      assert gs'[j] == if j < p then gs[j] else if j == p then tg else gs[j - 1];
      if i == p {
        assert gs[p].disptime <= gs[j - 1].disptime;
      }
    }
  }

  lemma FirstIsEarliest(gs: seq<ThrotlGrp>, now: nat)
    requires Sorted(gs) && (gs == [] || now < gs[0].disptime)
    ensures forall g :: g in gs ==> now < g.disptime
  {
    forall g | g in gs ensures now < g.disptime {
      var i :| 0 <= i < |gs| && gs[i] == g;
      assert gs[0].disptime <= gs[i].disptime;
    }
  }

  class ThrotlData {
    ghost var groups: seq<ThrotlGrp>
    var tree: seq<ThrotlGrp>
    var nrQueued: seq<nat>

    /** Structure of the tree; `out` holds the group that is off the tree for the moment. */
    ghost predicate Linked(now: nat, out: set<ThrotlGrp>)
      reads this, groups, tree
    {
      && |nrQueued| == 2 && Lists.Distinct(groups)
      && (forall g :: g in groups ==> g.Valid(now))
      && (forall g :: g in tree ==> g in groups && g !in out)
      && Sorted(tree)
      && (forall g :: g in groups ==> (g.onRr <==> g in tree))
      && (forall g :: g in groups && g !in out ==> (g.onRr <==> g.Busy()))
    }

    ghost predicate Counted()
      reads this, groups, tree
    {
      |nrQueued| == 2 && forall rw :: 0 <= rw < 2 ==> nrQueued[rw] == QueuedIn(Queues(groups), rw)
    }

    ghost predicate Valid(now: nat)
      reads this, groups, tree
    {
      Linked(now, {}) && Counted()
    }

    constructor ()
      ensures groups == [] && tree == [] && nrQueued == [0, 0]
      ensures forall now :: Valid(now)
    {
      groups, tree, nrQueued := [], [], [0, 0];
    }

    /** A group that was just created joins the queue. */
    method AddGroup(tg: ThrotlGrp, ghost now: nat)
      requires Valid(now) && tg !in groups && tg.Valid(now) && !tg.onRr && !tg.Busy()
      modifies this`groups
      ensures Valid(now) && groups == old(groups) + [tg]
    {
      hide Settled;
      assert tg !in tree;
      ghost var before := Queues(groups);
      groups := groups + [tg];
      assert Queues(groups) == before + [tg.bioLists];
      IdleAppended(before, tg.bioLists, READ);
      IdleAppended(before, tg.bioLists, WRITE);
    }

    method Enqueue(tg: ThrotlGrp, ghost now: nat)
      requires Linked(now, {tg}) && tg in groups && tg !in tree && tg.Busy()
      modifies this`tree, tg`onRr
      ensures Linked(now, {})
      ensures forall g :: g in tree <==> g == tg || g in old(tree)
    {
      hide Settled;
      var p := Place(tree, tg.disptime);
      InsertSorted(tree, tg, p);
      InsertMembers(tree, tg, p);
      tree := tree[..p] + [tg] + tree[p..];
      tg.onRr := true;
    }

    method DetachFirst(tg: ThrotlGrp, ghost now: nat)
      requires Linked(now, {}) && tree != [] && tg == tree[0]
      modifies this`tree, tg`onRr
      ensures tree == old(tree)[1..]
      ensures Linked(now, {tg}) && tg in groups && tg !in tree
    {
      assert tg in tree;
      tree := tree[1..];
      tg.onRr := false;
    }

    /** Lets a group that is off the tree dispatch, and takes what it dispatched off the totals. */
    method DispatchDetached(tg: ThrotlGrp, now: nat, bl: seq<Bio>) returns (nr: nat, bl': seq<Bio>)
      requires Linked(now, {tg}) && tg in groups && tg !in tree
      requires forall rw :: 0 <= rw < 2 ==> |tg.bioLists[rw]| <= nrQueued[rw]
      modifies this`nrQueued, tg`lanes, tg`ledgers, tg`passed, tg`bioLists, tg`nrQueued
      ensures Linked(now, {tg})
      ensures forall rw :: 0 <= rw < 2 ==>
                nrQueued[rw] + old(|tg.bioLists[rw]|) == old(nrQueued[rw]) + |tg.bioLists[rw]|
      ensures nr <= THROTL_GRP_QUANTUM && |bl'| == |bl| + nr
      ensures Handed(old(tg.Record()), tg.Record(), bl, bl', now)
      ensures nr == 0 ==> tg.Refused(READ, now) && tg.Refused(WRITE, now)
    {
      hide Settled, Moved, Handed;
      var r, w := |tg.bioLists[READ]|, |tg.bioLists[WRITE]|;
      nr, bl' := tg.DispatchTg(now, bl);
      r, w := r - |tg.bioLists[READ]|, w - |tg.bioLists[WRITE]|;
      nrQueued := [nrQueued[READ] - r, nrQueued[WRITE] - w];
      LetThroughHands(old(tg.Record()), tg.Record(), r, w, bl, bl', now);
    }

    /** Puts the group back under its new dispatch time, if it still has bios. */
    method Refile(tg: ThrotlGrp, now: nat)
      requires Linked(now, {tg}) && tg in groups && tg !in tree
      modifies this`tree, tg`lanes, tg`ledgers, tg`disptime, tg`onRr
      ensures Linked(now, {})
      ensures Moved(old(tg.Record()), tg.Record(), now)
      ensures tg.Busy() ==> tg.disptime == old(tg.HeadsFit(now))
      ensures old(tg.Refused(READ, now) && tg.Refused(WRITE, now)) ==> Due(tree, now) <= old(Due(tree, now))
    {
      hide Settled, ThrotlGrp.HeadsFit;
      if tg.nrQueued[READ] > 0 || tg.nrQueued[WRITE] > 0 {
        var t := tg.NextDisptime(now);
        tg.disptime := t;
        Enqueue(tg, now);
      }
    }

    /** One round on the first group, without the totals. */
    method ServeGroup(tg: ThrotlGrp, now: nat, bl: seq<Bio>) returns (nr: nat, bl': seq<Bio>)
      requires Linked(now, {}) && tree != [] && tg == tree[0] && tg.disptime <= now && tg in groups
      requires forall rw :: 0 <= rw < 2 ==> |tg.bioLists[rw]| <= nrQueued[rw]
      modifies this`tree, this`nrQueued, tg
      ensures Linked(now, {})
      ensures forall rw :: 0 <= rw < 2 ==>
                nrQueued[rw] + old(|tg.bioLists[rw]|) == old(nrQueued[rw]) + |tg.bioLists[rw]|
      ensures nr <= THROTL_GRP_QUANTUM && |bl'| == |bl| + nr
      ensures Handed(old(tg.Record()), tg.Record(), bl, bl', now)
      ensures nr == 0 ==> Due(tree, now) < old(Due(tree, now))
    {
      hide Settled, ThrotlGrp.HeadsFit, Moved, Handed;
      assert tg in Due(tree, now);
      DetachFirst(tg, now);
      ghost var before := tg.Record();
      nr, bl' := DispatchDetached(tg, now, bl);
      ghost var between := tg.Record();
      Refile(tg, now);
      HandedOn(before, between, tg.Record(), bl, bl', now);
    }

    /** The same with the totals; `i` is the position of the group served. */
    method ServeCounted(tg: ThrotlGrp, now: nat, bl: seq<Bio>) returns (nr: nat, bl': seq<Bio>, ghost i: nat)
      requires Valid(now) && tree != [] && tg == tree[0] && tg.disptime <= now && tg in groups
      modifies this`tree, this`nrQueued, tg
      ensures Valid(now)
      ensures i < |groups| && groups[i] == tg
      ensures Queues(groups) == old(Queues(groups))[i := tg.bioLists]
      ensures Passed(groups) == old(Passed(groups))[i := tg.passed]
      ensures nr <= THROTL_GRP_QUANTUM && |bl'| == |bl| + nr
      ensures Handed(old(tg.Record()), tg.Record(), bl, bl', now)
      ensures nr == 0 ==> Due(tree, now) < old(Due(tree, now))
    {
      hide Linked, ThrotlGrp.Valid, QueuedIn, Queues, Passed, Handed, Due;
      LinkedFacts(this, tg, now);
      ghost var before, queued, past := Queues(groups), nrQueued, Passed(groups);
      i :| 0 <= i < |groups| && groups[i] == tg;
      AtMostTotal(before, i, READ);
      AtMostTotal(before, i, WRITE);
      nr, bl' := ServeGroup(tg, now, bl);
      LinkedFacts(this, tg, now);
      ListsAfter(groups, before, i);
      PassedAfter(groups, past, i);
      StillCounted(before, i, tg.bioLists, queued, nrQueued);
    }

    /**
     One round of the dispatch loop: it dispatches a bio, or it makes one due group wait. What it hands out is what the
     group served now counts as let through, and the other groups are left alone.
     */
    method ServeFirst(now: nat, bl: seq<Bio>) returns (nr: nat, bl': seq<Bio>)
      requires Valid(now) && tree != [] && tree[0].disptime <= now
      modifies this`tree, this`nrQueued, groups
      ensures Valid(now)
      ensures nr <= THROTL_GRP_QUANTUM && |bl'| == |bl| + nr
      ensures var tg := old(tree[0]);
              && Handed(old(tg.Record()), tg.Record(), bl, bl', now)
              && forall g :: g in groups && g != tg ==> g.Record() == old(g.Record())
      ensures multiset(bl') + AllIn(Queues(groups)) == multiset(bl) + old(AllIn(Queues(groups)))
      ensures multiset(bl') + old(AllIn(Passed(groups))) == multiset(bl) + AllIn(Passed(groups))
      ensures nr == 0 ==> Due(tree, now) < old(Due(tree, now))
    {
      hide Settled, Handed, Linked, QueuedIn, Queues, Passed, Held, AllIn, Due, ThrotlGrp.Valid;
      var tg := tree[0];
      FirstIsGroup(this, now);
      ghost var before, past, i := Queues(groups), Passed(groups), 0;
      ghost var a := tg.Record();
      nr, bl', i := ServeCounted(tg, now, bl);
      HandedCounts(a, tg.Record(), bl, bl', now);
      OneExchanged(before, i, tg.bioLists);
      OneExchanged(past, i, tg.passed);
      Cancel(multiset(bl), Held(a.queued), multiset(bl'), Held(tg.bioLists), AllIn(before), AllIn(Queues(groups)));
      Gained(multiset(bl), Held(a.passed), multiset(bl'), Held(tg.passed), AllIn(past), AllIn(Passed(groups)));
    }

    /**
     The dispatch loop. It always terminates; the bios handed out are exactly those taken off the lists, in order within
     each direction of each group, and exactly those charged since; and unless the quantum was used up, no group left
     on the tree is due any more.
     */
    method SelectDispatch(now: nat) returns (nrDisp: nat, bl: seq<Bio>)
      requires Valid(now)
      modifies this`tree, this`nrQueued, groups
      ensures Valid(now)
      ensures nrDisp == |bl| < THROTL_QUANTUM + THROTL_GRP_QUANTUM
      ensures forall g :: g in groups ==> Moved(old(g.Record()), g.Record(), now)
      ensures multiset(bl) + AllIn(Queues(groups)) == old(AllIn(Queues(groups)))
      ensures multiset(bl) + old(AllIn(Passed(groups))) == AllIn(Passed(groups))
      ensures nrDisp < THROTL_QUANTUM ==> forall g :: g in tree ==> now < g.disptime
    {
      hide Settled, Moved, Handed, AllIn, Linked, Counted, ThrotlGrp.Valid, Queues, Passed;
      nrDisp, bl := 0, [];
      AllMove(this, now);
      while tree != [] && tree[0].disptime <= now
        invariant Valid(now)
        invariant nrDisp == |bl| < THROTL_QUANTUM
        invariant forall g :: g in groups ==> Moved(old(g.Record()), g.Record(), now)
        invariant multiset(bl) + AllIn(Queues(groups)) == old(AllIn(Queues(groups)))
        invariant multiset(bl) + old(AllIn(Passed(groups))) == AllIn(Passed(groups))
        decreases THROTL_QUANTUM - nrDisp, Due(tree, now)
      {
        var nr;
        label Round:
        ghost var tg := tree[0];
        ghost var bl0 := bl;
        nr, bl := ServeFirst(now, bl);
        nrDisp := nrDisp + nr;
        GainedMore(multiset(bl0), multiset(bl), old(AllIn(Passed(groups))), old@Round(AllIn(Passed(groups))),
                   AllIn(Passed(groups)));
        forall g | g in groups ensures Moved(old(g.Record()), g.Record(), now) {
          if g == tg {
            HandedMoves(old(g.Record()), old@Round(g.Record()), g.Record(), bl0, bl, now);
          }
        }
        if nrDisp >= THROTL_QUANTUM {
          return;
        }
      }
      TreeSorted(this, now);
      FirstIsEarliest(tree, now);
    }

    method Dequeue(tg: ThrotlGrp, ghost now: nat)
      requires Linked(now, {tg}) || Linked(now, {})
      requires tg in groups
      modifies this`tree, tg`onRr
      ensures Linked(now, {tg}) && tg !in tree
    {
      hide Settled, Limits;
      if tg.onRr {
        var p :| 0 <= p < |tree| && tree[p] == tg;
        tree := tree[..p] + tree[p + 1..];
        tg.onRr := false;
      }
    }

    /** Appends a bio that has to wait. A group that was idle is not on the tree yet. */
    method QueueBio(tg: ThrotlGrp, rw: nat, bio: Bio, ghost now: nat)
      requires Linked(now, {}) && tg in groups && rw < 2
      modifies this`nrQueued, tg`bioLists, tg`nrQueued
      ensures Linked(now, if tg.onRr then {} else {tg})
      ensures tg.bioLists == old(tg.bioLists)[rw := old(tg.bioLists[rw]) + [bio]]
      ensures nrQueued == old(nrQueued)[rw := old(nrQueued[rw]) + 1]
    {
      hide Settled;
      tg.bioLists := tg.bioLists[rw := tg.bioLists[rw] + [bio]];
      tg.nrQueued := tg.nrQueued[rw := tg.nrQueued[rw] + 1];
      nrQueued := nrQueued[rw := nrQueued[rw] + 1];
    }

    method UpdateDisptime(tg: ThrotlGrp, now: nat)
      requires Linked(now, if tg.onRr then {} else {tg}) && tg in groups && tg.Busy()
      modifies this`tree, tg`lanes, tg`ledgers, tg`disptime, tg`onRr
      ensures Linked(now, {})
      ensures tg.disptime == old(tg.HeadsFit(now))
      ensures Moved(old(tg.Record()), tg.Record(), now)
    {
      hide Settled, Limits, Sorted, ThrotlGrp.HeadsFit, Moved;
      Dequeue(tg, now);
      var t := tg.NextDisptime(now);
      tg.disptime := t;
      Enqueue(tg, now);
    }

    /** Queues a bio and, if it is the first of its direction, files the group under its new dispatch time. */
    method QueueAndFile(tg: ThrotlGrp, rw: nat, bio: Bio, update: bool, now: nat)
      requires Linked(now, {}) && tg in groups && rw < 2 && (update || tg.onRr)
      modifies this`tree, this`nrQueued, tg
      ensures Linked(now, {})
      ensures Arrived(old(tg.Record()), tg.Record(), rw, bio, true, now)
      ensures nrQueued == old(nrQueued)[rw := old(nrQueued[rw]) + 1]
    {
      hide Settled, Limits, ThrotlGrp.HeadsFit, ThrotlGrp.HeadWait, ThrotlGrp.Refused, Arrived, Moved, Sorted;
      QueueBio(tg, rw, bio, now);
      ghost var joined := tg.Record();
      QueueArrives(old(tg.Record()), joined, rw, bio, now);
      if update {
        UpdateDisptime(tg, now);
        RefileArrives(old(tg.Record()), joined, tg.Record(), rw, bio, now);
      }
    }

    /**
     A bio arrives. It passes straight through only if no bio of its direction waits and it fits; otherwise it is
     queued behind the others, so bios of one direction never overtake each other.
     */
    method ThrottleBio(tg: ThrotlGrp, rw: nat, bio: Bio, now: nat) returns (queued: bool)
      requires Valid(now) && tg in groups && rw < 2
      modifies this`tree, this`nrQueued, tg
      ensures Linked(now, {})
      ensures queued == old(tg.bioLists[rw] != []
                            || !ThrottleLane.MayDispatch(tg.clock, tg.lanes[rw], now, bio.size).ok)
      ensures Arrived(old(tg.Record()), tg.Record(), rw, bio, queued, now)
      ensures nrQueued == if queued then old(nrQueued)[rw := old(nrQueued[rw]) + 1] else old(nrQueued)
    {
      hide Settled, Limits, ThrotlGrp.HeadsFit, ThrotlGrp.HeadWait, ThrotlGrp.Refused, Arrived, Moved, Charged, Sorted;
      var update := tg.nrQueued[rw] == 0;
      if update {
        var ok := tg.TryPass(rw, now, bio);
        if ok {
          PassArrives(old(tg.Record()), tg.Record(), rw, bio, now);
          return false;
        }
      }
      ghost var decided := tg.Record();
      QueueAndFile(tg, rw, bio, update, now);
      DecidedArrives(old(tg.Record()), decided, tg.Record(), rw, bio, now);
      queued := true;
    }

    /** Arrival keeps the totals in step with the lists. */
    method SubmitBio(tg: ThrotlGrp, rw: nat, bio: Bio, now: nat) returns (queued: bool)
      requires Valid(now) && tg in groups && rw < 2
      modifies this`tree, this`nrQueued, tg
      ensures Valid(now)
      ensures queued == old(tg.bioLists[rw] != []
                            || !ThrottleLane.MayDispatch(tg.clock, tg.lanes[rw], now, bio.size).ok)
      ensures Arrived(old(tg.Record()), tg.Record(), rw, bio, queued, now)
    {
      hide Settled, Limits, Sorted;
      ghost var before := Queues(groups);
      ghost var i :| 0 <= i < |groups| && groups[i] == tg;
      queued := ThrottleBio(tg, rw, bio, now);
      ListsAfter(groups, before, i);
      if queued {
        OneAppended(before, i, rw, bio);
      } else {
        assert Queues(groups) == before;
      }
    }
  }

  /** The dispatch time is that of a head, and no head has to wait less. */
  lemma HeadsFitMeans(tg: ThrotlGrp, now: nat)
    requires tg.Valid(now) && tg.Busy()
    ensures tg.HeadsFit(now) < now + ULONG_MAX ==>
              exists rw :: 0 <= rw < 2 && tg.bioLists[rw] != [] && Promised(tg, rw, now) == tg.HeadsFit(now)
    ensures forall rw :: 0 <= rw < 2 && tg.bioLists[rw] != [] ==> tg.HeadsFit(now) <= Promised(tg, rw, now)
  {
    hide Settled, Limits, ThrottleLane.MayDispatch;
    assert tg.bioLists[READ] != [] ==> Promised(tg, READ, now) == now + tg.HeadWait(READ, now);
    assert tg.bioLists[WRITE] != [] ==> Promised(tg, WRITE, now) == now + tg.HeadWait(WRITE, now);
  }

  /** When the head of a direction is told to come back. */
  ghost function Promised(tg: ThrotlGrp, rw: nat, now: nat): nat
    reads tg
    requires tg.Valid(now) && rw < 2 && tg.bioLists[rw] != []
  {
    now + ThrottleLane.MayDispatch(tg.clock, tg.lanes[rw], now, tg.bioLists[rw][0].size).wait
  }

  lemma FirstIsGroup(td: ThrotlData, now: nat)
    requires td.Linked(now, {}) && td.tree != []
    ensures td.tree[0] in td.groups
  {
    assert td.tree[0] in td.tree;
  }

  lemma TreeSorted(td: ThrotlData, now: nat)
    requires td.Linked(now, {})
    ensures Sorted(td.tree)
  {
  }

  lemma AllMove(td: ThrotlData, now: nat)
    requires td.Linked(now, {})
    ensures forall g :: g in td.groups ==> Moved(g.Record(), g.Record(), now)
  {
    hide Settled;
  }

  lemma LinkedFacts(td: ThrotlData, tg: ThrotlGrp, now: nat)
    requires td.Linked(now, {}) && tg in td.groups
    ensures Lists.Distinct(td.groups) && |td.nrQueued| == 2 && |tg.bioLists| == 2
  {
    hide Settled;
  }

  lemma {:induction false} IdleQueuesNothing(all: seq<BioLists>, rw: nat)
    requires forall i :: 0 <= i < |all| ==> Waiting(all[i], rw) == 0
    ensures QueuedIn(all, rw) == 0
  {
    if all != [] {
      IdleQueuesNothing(all[1..], rw);
    }
  }

  /** Whenever bios are queued a group is on the tree: the assertion before work is scheduled cannot fail. */
  lemma SomeoneScheduled(td: ThrotlData, now: nat)
    requires td.Valid(now) && td.nrQueued[READ] + td.nrQueued[WRITE] > 0
    ensures td.tree != []
  {
    if td.tree == [] {
      forall i, rw | 0 <= i < |td.groups| && 0 <= rw < 2
        ensures Waiting(Queues(td.groups)[i], rw) == 0
      {
        assert td.groups[i] in td.groups && !td.groups[i].Busy();
      }
      IdleQueuesNothing(Queues(td.groups), READ);
      IdleQueuesNothing(Queues(td.groups), WRITE);
    }
  }

  /**
   In every reachable state, for each direction of each group: the bytes of all bios it ever let through fit its limit
   over the time since its first decision plus one slice, and so does their number while the quota is below the width
   of the counter. Before its first decision it has let nothing through.
   */
  lemma GroupWithinRate(td: ThrotlData, tg: ThrotlGrp, rw: nat, now: nat)
    requires td.Valid(now) && tg in td.groups && rw < 2 && !Unlimited(tg.lanes[rw])
    ensures match tg.ledgers[rw]
            case None => tg.passed[rw] == []
            case Some(g) =>
              && g.t0 <= now
              && WithinRate(tg.clock, tg.limits[rw].bps, Total(tg.passed[rw]), g.t0, now)
              && (Roomy(tg.clock, tg.limits[rw].iops, g.t0, now) ==>
                    WithinRate(tg.clock, tg.limits[rw].iops, |tg.passed[rw]|, g.t0, now))
  {
    if tg.ledgers[rw].Some? {
      SoundObeys(tg.clock, Run(tg.lanes[rw], tg.ledgers[rw].value), now);
    }
  }

  /** Letting time pass keeps everything. */
  lemma TimePasses(td: ThrotlData, now: nat, later: nat)
    requires td.Valid(now) && now <= later
    ensures td.Valid(later)
  {
    forall g, rw | g in td.groups && 0 <= rw < 2
      ensures Settled(g.clock, g.lanes[rw], g.ledgers[rw], g.passed[rw], later)
    {
      LaterSettled(g.clock, g.lanes[rw], g.ledgers[rw], g.passed[rw], now, later);
    }
  }
}
