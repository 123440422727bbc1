/**
 Sharing the disk between CFQ groups by weighted virtual time. The group with the least virtual time is served next;
 what it used is charged to it in inverse proportion to its weight. Virtual times are 64-bit and compared by signed
 difference.
 */
module Fairness {
  import Arith
  import opened Lists

  const SERVICE_SHIFT: nat := 4096
  const WEIGHT_DEFAULT: nat := 500
  const WEIGHT_MIN: nat := 100
  const WEIGHT_MAX: nat := 1000

  const U64: int := 0x1_0000_0000_0000_0000
  const S64: int := 0x8000_0000_0000_0000
  const U32: int := 0x1_0000_0000

  // ----- virtual time on a 64-bit clock

  function Wrap(x: int): nat {
    x % U64
  }

  function Signed(x: nat): int {
    if x >= S64 then x - U64 else x
  }

  /** The difference of two 64-bit times, as the code computes it. */
  function Key(v: nat, min: nat): int {
    Signed(Wrap(v - min))
  }

  /** It is the true difference as long as the times are less than half the range apart. */
  lemma KeyIsDifference(v: int, m: int)
    requires -S64 <= v - m < S64
    ensures Key(Wrap(v), Wrap(m)) == v - m
  {
    var q, r := v / U64, m / U64;
    var d := Wrap(v) - Wrap(m);
    assert v - m == d + (q - r) * U64;
    if v - m >= 0 {
      Arith.DivUnique(d, U64, r - q, v - m);
    } else {
      Arith.DivUnique(d, U64, r - q - 1, v - m + U64);
    }
  }

  /** What a charge of this many time units adds to a group of this weight. */
  function Scaled(charge: nat, weight: nat): nat
    requires weight > 0
  {
    charge * SERVICE_SHIFT * WEIGHT_DEFAULT / weight
  }

  lemma ScaledFits(charge: nat, weight: nat)
    requires charge < U32 && weight >= WEIGHT_MIN
    ensures Scaled(charge, weight) <= charge * 20480 < ROOM
  {
    var s := Scaled(charge, weight);
    assert s * weight <= charge * 2048000;
    if s > charge * 20480 {
      Arith.MulMono(weight, charge * 20480 + 1, s);
      Arith.MulMono(charge * 20480 + 1, 100, weight);
    }
  }

  // ----- the tree of groups

  /** The groups in the order of the tree, their true virtual times, and the floor. */
  datatype Tree = Tree(order: seq<nat>, time: map<nat, int>, min: int)

  ghost predicate Sorted(s: seq<nat>, time: map<nat, int>) {
    && (forall i :: 0 <= i < |s| ==> s[i] in time)
    && (forall i, j :: 0 <= i < j < |s| ==> time[s[i]] <= time[s[j]])
  }

  /** In order, and no group is below the floor. */
  ghost predicate Ordered(t: Tree) {
    Distinct(t.order) && Sorted(t.order, t.time) && (t.order != [] ==> t.min <= t.time[t.order[0]])
  }

  function First(t: Tree): int
    requires t.order != [] && t.order[0] in t.time
  {
    t.time[t.order[0]]
  }

  function Latest(t: Tree): int
    requires t.order != [] && t.order[|t.order| - 1] in t.time
  {
    t.time[t.order[|t.order| - 1]]
  }

  ghost function Spread(t: Tree): int
    requires Ordered(t) && t.order != []
  {
    Latest(t) - First(t)
  }

  /** Behind all groups whose time is not greater. */
  function Place(s: seq<nat>, time: map<nat, int>, v: int): (k: nat)
    requires forall i :: 0 <= i < |s| ==> s[i] in time
    ensures k <= |s|
    ensures forall i :: 0 <= i < k ==> time[s[i]] <= v
    ensures k < |s| ==> v < time[s[k]]
  {
    if s == [] || v < time[s[0]] then 0 else 1 + Place(s[1..], time, v)
  }

  function Inserted(s: seq<nat>, time: map<nat, int>, g: nat): seq<nat>
    requires (forall i :: 0 <= i < |s| ==> s[i] in time) && g in time
  {
    var k := Place(s, time, time[g]);
    s[..k] + [g] + s[k..]
  }

  lemma InsertedOk(s: seq<nat>, time: map<nat, int>, g: nat)
    requires Distinct(s) && Sorted(s, time) && g in time && g !in s
    ensures var r := Inserted(s, time, g);
            Distinct(r) && Sorted(r, time) && |r| == |s| + 1 && (forall x :: x in r <==> x in s || x == g)
  {
    var k, r := Place(s, time, time[g]), Inserted(s, time, g);
    SpliceIs(s, k, g);
    hide Distinct;
    forall i | k <= i < |s| ensures time[g] < time[s[i]] {
      assert time[s[k]] <= time[s[i]];
    }
    forall i, j | 0 <= i < j < |r| ensures time[r[i]] <= time[r[j]] {
      assert r[i] == if i < k then s[i] else if i == k then g else s[i - 1];
      assert r[j] == if j < k then s[j] else if j == k then g else s[j - 1];
    }
  }

  /** The floor follows the first group and never falls. */
  function Picked(t: Tree): Tree
    requires t.order != [] && t.order[0] in t.time
  {
    t.(min := if First(t) > t.min then First(t) else t.min)
  }

  /** The first group is charged. */
  function Served(t: Tree, s: nat): Tree
    requires t.order != [] && forall i :: 0 <= i < |t.order| ==> t.order[i] in t.time
  {
    var g := t.order[0];
    var time := t.time[g := t.time[g] + s];
    Tree(Inserted(t.order[1..], time, g), time, t.min)
  }

  lemma PickedKeeps(t: Tree)
    requires Ordered(t) && t.order != []
    ensures Ordered(Picked(t)) && t.min <= Picked(t).min == First(t)
    ensures forall i :: 0 <= i < |t.order| ==> Picked(t).min <= t.time[t.order[i]]
  {
    forall i | 0 <= i < |t.order| ensures First(t) <= t.time[t.order[i]] {
      assert i > 0 ==> t.time[t.order[0]] <= t.time[t.order[i]];
    }
  }

  lemma AllTimed(t: Tree)
    requires Ordered(t)
    ensures forall i :: 0 <= i < |t.order| ==> t.order[i] in t.time
    ensures forall x :: x in t.order ==> x in t.time
    ensures Distinct(t.order) && Sorted(t.order, t.time)
  {
  }

  lemma RestSorted(o: seq<nat>, time: map<nat, int>, v: int)
    requires o != [] && Sorted(o, time) && o[0] !in o[1..]
    ensures Sorted(o[1..], time[o[0] := v])
  {
  }

  /** The order in which a charge leaves the groups. */
  lemma ServedOrder(o: seq<nat>, time: map<nat, int>, v: int)
    requires o != [] && Distinct(o) && Sorted(o, time)
    ensures forall i :: 0 <= i < |o[1..]| ==> o[1..][i] in time[o[0] := v]
    ensures var r := Inserted(o[1..], time[o[0] := v], o[0]);
            Distinct(r) && Sorted(r, time[o[0] := v]) && |r| == |o| && forall x :: x in r <==> x in o
  {
    hide Distinct, Inserted;
    Tail(o);
    RestSorted(o, time, v);
    InsertedOk(o[1..], time[o[0] := v], o[0]);
  }

  lemma ServedSorted(t: Tree, s: nat)
    requires Ordered(t) && t.order != []
    ensures forall i :: 0 <= i < |t.order| ==> t.order[i] in t.time
    ensures var o, time := Served(t, s).order, Served(t, s).time;
            Distinct(o) && Sorted(o, time) && |o| == |t.order| && forall x :: x in o <==> x in t.order
  {
    hide Ordered, Distinct, Sorted, Inserted;
    AllTimed(t);
    ServedOrder(t.order, t.time, t.time[t.order[0]] + s);
  }

  lemma ServedKeeps(t: Tree, s: nat)
    requires Ordered(t) && t.order != []
    ensures var t' := Served(t, s);
            && Ordered(t') && t'.min == t.min && |t'.order| == |t.order|
            && (forall x :: x in t'.order <==> x in t.order)
  {
    hide Distinct, Sorted, Inserted;
    ServedSorted(t, s);
    var x := Served(t, s).order[0];
    assert x in Served(t, s).order;
    FirstLeast(t, x);
  }

  lemma FirstLeast(t: Tree, x: nat)
    requires Ordered(t) && x in t.order
    ensures First(t) <= t.time[x] <= Latest(t)
  {
    var i :| 0 <= i < |t.order| && t.order[i] == x;
    assert i > 0 ==> t.time[t.order[0]] <= t.time[t.order[i]];
    assert i < |t.order| - 1 ==> t.time[t.order[i]] <= t.time[t.order[|t.order| - 1]];
  }

  function Max(a: int, b: int): int {
    if a >= b then a else b
  }

  lemma ServedTimes(t: Tree, s: nat)
    requires Ordered(t) && t.order != []
    ensures forall i :: 0 <= i < |t.order| ==> t.order[i] in t.time
    ensures Served(t, s).time == t.time[t.order[0] := t.time[t.order[0]] + s] && Served(t, s).min == t.min
  {
    AllTimed(t);
  }

  /** A charge to the first group leaves a spread of at most the old one or the charge. */
  lemma SpreadStep(t: Tree, s: nat)
    requires Ordered(t) && t.order != []
    ensures Ordered(Served(t, s)) && Served(t, s).order != []
    ensures Spread(Served(t, s)) <= Max(Spread(t), s) && First(t) <= First(Served(t, s))
  {
    hide Inserted, Distinct, Sorted, Served;
    ServedKeeps(t, s);
    ServedTimes(t, s);
    var t' := Served(t, s);
    var a, b := t'.order[0], t'.order[|t'.order| - 1];
    assert a in t'.order && b in t'.order && a in t.order && b in t.order;
    FirstLeast(t, a);
    FirstLeast(t, b);
  }

  // ----- runs

  /** A charge and the group it went to. */
  datatype Bill = Bill(group: nat, charge: nat)

  ghost predicate Weighted(t: Tree, w: map<nat, nat>) {
    forall g :: g in t.order ==> g in w && w[g] > 0
  }

  /** Pick the next group and charge it; with fixed groups and weights. */
  ghost function Serve(t: Tree, w: map<nat, nat>, c: nat): Tree
    requires Ordered(t) && t.order != [] && Weighted(t, w)
  {
    PickedKeeps(t);
    AllTimed(t);
    assert t.order[0] in t.order;
    Served(Picked(t), Scaled(c, w[t.order[0]]))
  }

  lemma ServeKeeps(t: Tree, w: map<nat, nat>, c: nat)
    requires Ordered(t) && t.order != [] && Weighted(t, w)
    ensures var t', g := Serve(t, w, c), t.order[0];
            && Ordered(t') && t'.order != [] && Weighted(t', w) && (forall x :: x in t'.order <==> x in t.order)
            && t.min <= t'.min && g in w && w[g] > 0
            && Spread(t') <= Max(Spread(t), Scaled(c, w[g]))
            && (forall x :: x in t.order ==> x in t.time && x in t'.time
                                             && t'.time[x] == t.time[x] + if x == g then Scaled(c, w[g]) else 0)
  {
    PickedKeeps(t);
    AllTimed(t);
    assert t.order[0] in t.order;
    var s := Scaled(c, w[t.order[0]]);
    hide Scaled, Inserted, Served, Ordered;
    ServedKeeps(Picked(t), s);
    ServedTimes(Picked(t), s);
    SpreadStep(Picked(t), s);
  }

  ghost function Run(t: Tree, w: map<nat, nat>, cs: seq<nat>): (r: (Tree, seq<Bill>))
    requires Ordered(t) && t.order != [] && Weighted(t, w)
    ensures Ordered(r.0) && r.0.order != [] && forall x :: x in r.0.order <==> x in t.order
    decreases cs
  {
    if cs == [] then (t, []) else
    ServeKeeps(t, w, cs[0]);
    var (t', log) := Run(Serve(t, w, cs[0]), w, cs[1..]);
    (t', [Bill(t.order[0], cs[0])] + log)
  }

  function Cost(b: Bill, w: map<nat, nat>): nat {
    if b.group in w && w[b.group] > 0 then Scaled(b.charge, w[b.group]) else 0
  }

  function Largest(log: seq<Bill>, w: map<nat, nat>): int {
    if log == [] then 0 else Max(Cost(log[0], w), Largest(log[1..], w))
  }

  /** The spread never exceeds the larger of the first spread and the largest scaled charge; the floor never falls. */
  lemma {:induction false} SpreadBound(t: Tree, w: map<nat, nat>, cs: seq<nat>)
    requires Ordered(t) && t.order != [] && Weighted(t, w)
    ensures var (t', log) := Run(t, w, cs);
            Spread(t') <= Max(Spread(t), Largest(log, w)) && t.min <= t'.min
    decreases cs
  {
    hide Scaled, Serve, Spread, Ordered;
    if cs != [] {
      ServeKeeps(t, w, cs[0]);
      SpreadBound(Serve(t, w, cs[0]), w, cs[1..]);
    }
  }

  /** The floor is at most every group's time, in every state of every run. */
  lemma FloorHolds(t: Tree, w: map<nat, nat>, cs: seq<nat>, g: nat)
    requires Ordered(t) && t.order != [] && Weighted(t, w) && g in t.order
    ensures var t' := Run(t, w, cs).0; g in t'.time && t'.min <= t'.time[g]
  {
    var t' := Run(t, w, cs).0;
    AllTimed(t');
    FirstLeast(t', g);
  }

  // ----- shares of the disk

  function Total(log: seq<Bill>, w: map<nat, nat>, g: nat): nat {
    if log == [] then 0 else (if log[0].group == g then Cost(log[0], w) else 0) + Total(log[1..], w, g)
  }

  function Used(log: seq<Bill>, g: nat): nat {
    if log == [] then 0 else (if log[0].group == g then log[0].charge else 0) + Used(log[1..], g)
  }

  function Turns(log: seq<Bill>, g: nat): nat {
    if log == [] then 0 else (if log[0].group == g then 1 else 0) + Turns(log[1..], g)
  }

  /** A group's time moves by what it was charged. */
  lemma {:induction false} TimeIsCharges(t: Tree, w: map<nat, nat>, cs: seq<nat>, g: nat)
    requires Ordered(t) && t.order != [] && Weighted(t, w) && g in t.order
    ensures var (t', log) := Run(t, w, cs);
            g in t.time && g in t'.time && t'.time[g] == t.time[g] + Total(log, w, g)
    decreases cs
  {
    hide Scaled, Serve, Spread, Ordered;
    ServeKeeps(t, w, 0);
    if cs != [] {
      ServeKeeps(t, w, cs[0]);
      TimeIsCharges(Serve(t, w, cs[0]), w, cs[1..], g);
    }
  }

  /** Over any run, what two groups are charged differs by no more than the spread at its two ends. */
  lemma FairCharges(t: Tree, w: map<nat, nat>, cs: seq<nat>, g: nat, h: nat)
    requires Ordered(t) && t.order != [] && Weighted(t, w) && g in t.order && h in t.order
    ensures var (t', log) := Run(t, w, cs);
            Total(log, w, g) - Total(log, w, h) <= 2 * Max(Spread(t), Largest(log, w))
  {
    var (t', log) := Run(t, w, cs);
    TimeIsCharges(t, w, cs, g);
    TimeIsCharges(t, w, cs, h);
    SpreadBound(t, w, cs);
    FirstLeast(t, g);
    FirstLeast(t, h);
    FirstLeast(t', g);
    FirstLeast(t', h);
    hide Run, Ordered, Total, Largest;
  }

  const UNIT: nat := 2048000

  lemma CostIs(b: Bill, w: map<nat, nat>)
    requires b.group in w && w[b.group] > 0
    ensures Cost(b, w) * w[b.group] <= UNIT * b.charge < (Cost(b, w) + 1) * w[b.group]
  {
    var n, d := b.charge * SERVICE_SHIFT * WEIGHT_DEFAULT, w[b.group];
    assert n == d * (n / d) + n % d;
    assert n == UNIT * b.charge;
  }

  /** What a group is charged is what it used, by its weight, up to one unit of rounding a turn. */
  lemma {:induction false} TotalIs(log: seq<Bill>, w: map<nat, nat>, g: nat)
    requires g in w && w[g] > 0
    ensures Total(log, w, g) * w[g] <= UNIT * Used(log, g) <= (Total(log, w, g) + Turns(log, g)) * w[g]
  {
    if log != [] {
      TotalIs(log[1..], w, g);
      if log[0].group == g {
        CostIs(log[0], w);
        Grown(Cost(log[0], w), Total(log[1..], w, g), Turns(log[1..], g), w[g]);
      }
    }
  }

  lemma Grown(a: nat, b: nat, n: nat, w: nat)
    ensures (a + b) * w == a * w + b * w
    ensures (a + b + n + 1) * w == (a + 1) * w + (b + n) * w
  {
  }

  /**
   Shares follow weights: over any run in which both groups are queued, use per weight differs between two groups by no
   more than a constant that does not grow with the run, apart from the rounding of one unit a turn.
   */
  lemma FairShares(t: Tree, w: map<nat, nat>, cs: seq<nat>, g: nat, h: nat)
    requires Ordered(t) && t.order != [] && Weighted(t, w) && g in t.order && h in t.order
    ensures var log := Run(t, w, cs).1;
            UNIT * Used(log, g) * w[h] <=
            UNIT * Used(log, h) * w[g] + w[g] * w[h] * (2 * Max(Spread(t), Largest(log, w)) + Turns(log, g))
  {
    hide Run, Used, Total, Turns, Largest, Spread, Ordered;
    var log := Run(t, w, cs).1;
    FairCharges(t, w, cs, g, h);
    TotalIs(log, w, g);
    TotalIs(log, w, h);
    var d := 2 * Max(Spread(t), Largest(log, w));
    LargestPositive(log, w);
    Shares(UNIT * Used(log, g), UNIT * Used(log, h), Total(log, w, g), Total(log, w, h), d, Turns(log, g), w[g], w[h]);
  }

  lemma {:induction false} LargestPositive(log: seq<Bill>, w: map<nat, nat>)
    ensures Largest(log, w) >= 0
  {
    if log != [] {
      LargestPositive(log[1..], w);
    }
  }

  lemma Shares(ug: nat, uh: nat, tg: nat, th: nat, d: nat, n: nat, wg: nat, wh: nat)
    requires ug <= (tg + n) * wg && th * wh <= uh && tg <= th + d
    ensures ug * wh <= uh * wg + wg * wh * (d + n)
  {
    Arith.MulMono(wh, ug, (tg + n) * wg);
    Arith.MulMono(wg * wh, tg + n, th + d + n);
    Arith.MulMono(wg, th * wh, uh);
    assert wh * ((tg + n) * wg) == wg * wh * (tg + n);
    assert wg * wh * (th + d + n) == wg * wh * th + wg * wh * (d + n);
    assert wg * wh * th == wg * (th * wh);
  }

  // ----- the 64-bit code

  const ROOM: int := 0x1000_0000_0000_0000

  /** The larger and the smaller of two times, by signed difference. */
  function MaxVdisktime(min: nat, v: nat): nat {
    if Key(v, min) > 0 then v else min
  }

  function MinVdisktime(min: nat, v: nat): nat {
    if Key(v, min) < 0 then v else min
  }

  ghost predicate Near(t: Tree) {
    t.order != [] ==> t.order[|t.order| - 1] in t.time && Latest(t) - t.min < ROOM
  }

  /** The 64-bit times stand for the true ones. */
  ghost predicate Stands(t: Tree, order: seq<nat>, vdisktime: map<nat, nat>, min: nat) {
    && order == t.order && min == Wrap(t.min)
    && forall g :: g in order ==> g in vdisktime && g in t.time && vdisktime[g] == Wrap(t.time[g])
  }

  lemma KeyOf(t: Tree, order: seq<nat>, vdisktime: map<nat, nat>, min: nat, g: nat)
    requires Ordered(t) && Near(t) && Stands(t, order, vdisktime, min) && g in order
    ensures g in vdisktime && g in t.time && Key(vdisktime[g], min) == t.time[g] - t.min
            && 0 <= t.time[g] - t.min < ROOM
  {
    FirstLeast(t, g);
    KeyIsDifference(t.time[g], t.min);
  }

  class GroupTree {
    const idleDelay: nat
    const weight: map<nat, nat>
    var order: seq<nat>
    var vdisktime: map<nat, nat>
    var minVdisktime: nat
    ghost var tree: Tree

    ghost predicate Valid()
      reads this
    {
      idleDelay < ROOM && Ordered(tree) && Near(tree) && Stands(tree, order, vdisktime, minVdisktime)
    }

    /** The true time of the last group. */
    ghost function Last(): int
      requires Valid()
      reads this
    {
      if order == [] then tree.min else Latest(tree)
    }

    constructor (weights: map<nat, nat>, delay: nat)
      requires delay < ROOM
      ensures Valid() && order == [] && tree.min == 0 && weight == weights && idleDelay == delay
    {
      weight, idleDelay, order, vdisktime, minVdisktime := weights, delay, [], map[], 0;
      tree := Tree([], map[], 0);
    }

    /** Finds the place of a time in the tree. */
    method FindPlace(v: nat, ghost time: int) returns (k: nat)
      requires Valid() && v == Wrap(time) && 0 <= time - tree.min < 2 * ROOM
      ensures forall i :: 0 <= i < |order| ==> order[i] in tree.time
      ensures k == Place(order, tree.time, time)
    {
      hide Ordered, Near, Key;
      AllTimed(tree);
      KeyIsDifference(time, tree.min);
      var key := Key(v, minVdisktime);
      k := 0;
      while k < |order|
        invariant 0 <= k <= |order|
        invariant Place(order, tree.time, time) == k + Place(order[k..], tree.time, time)
      {
        assert order[k] in order;
        KeyOf(tree, order, vdisktime, minVdisktime, order[k]);
        assert order[k..][1..] == order[k + 1..];
        if key < Key(vdisktime[order[k]], minVdisktime) {
          return;
        }
        k := k + 1;
      }
    }

    /** Picks the group with the least time and raises the floor to it. */
    method NextGroup() returns (g: nat)
      requires Valid() && order != []
      modifies `minVdisktime, `tree
      ensures Valid() && g == order[0] && tree == Picked(old(tree)) && tree.min == First(tree)
    {
      g := order[0];
      AllTimed(tree);
      PickedKeeps(tree);
      assert g in order;
      hide Ordered;
      KeyOf(tree, order, vdisktime, minVdisktime, g);
      SameKey(tree.time[g]);
      var v := MinVdisktime(vdisktime[g], vdisktime[g]);
      minVdisktime := MaxVdisktime(minVdisktime, v);
      tree := Picked(tree);
    }

    /** The group that was picked is charged and takes its new place. */
    method GroupServed(charge: nat)
      requires Valid() && order != [] && tree.min == First(tree) && charge < U32
      requires order[0] in weight && WEIGHT_MIN <= weight[order[0]] <= WEIGHT_MAX
      modifies `order, `vdisktime, `tree
      ensures Valid() && tree == Served(old(tree), Scaled(charge, weight[old(order)[0]]))
      ensures order != [] && Spread(tree) <= Max(old(Spread(tree)), Scaled(charge, weight[old(order)[0]]))
    {
      hide Ordered, Near, Stands, Scaled, Served, Inserted, Spread, Place;
      var g := order[0];
      var s := Scaled(charge, weight[g]);
      ghost var t := tree;
      StandsAt(t, order, vdisktime, minVdisktime);
      ScaledFits(charge, weight[g]);
      SpreadStep(t, s);
      ServedNear(t, s);
      AllTimed(t);
      Removed(t, order, vdisktime, minVdisktime);
      order := order[1..];
      tree := Tree(t.order[1..], t.time, t.min);
      WrapAdd(t.time[g], s);
      var v := Wrap(vdisktime[g] + s);
      var k := FindPlace(v, t.time[g] + s);
      PlaceInside(order, t.time, t.time[g] + s);
      Replaced(t, s, k, vdisktime, minVdisktime);
      vdisktime := vdisktime[g := v];
      order := order[..k] + [g] + order[k..];
      tree := Served(t, s);
    }

    /** A group that becomes busy goes to the end, a little behind the last one; the tree is in order in any case. */
    method AddGroup(g: nat)
      requires Valid() && g !in order
      modifies `order, `vdisktime, `tree
      ensures Ordered(tree) && Stands(tree, order, vdisktime, minVdisktime) && order == old(order) + [g]
      ensures tree.time == old(tree).time[g := if old(order) == [] then tree.min else old(Last()) + idleDelay]
      ensures tree.min == old(tree).min
      ensures Valid() <==> old(order) == [] || old(Last()) + idleDelay - tree.min < ROOM
    {
      hide Ordered, Stands, Place;
      ghost var t := tree;
      MinStands(t, order, vdisktime, minVdisktime);
      ghost var time := if order == [] then t.min else Latest(t) + idleDelay;
      var v := minVdisktime;
      if order != [] {
        LastStands(t, order, vdisktime, minVdisktime);
        WrapAdd(Latest(t), idleDelay);
        v := Wrap(vdisktime[order[|order| - 1]] + idleDelay);
      }
      var k := FindPlace(v, time);
      Appended(t, order, vdisktime, minVdisktime, g, time);
      assert order[..k] + [g] + order[k..] == order + [g];
      vdisktime := vdisktime[g := v];
      order := order[..k] + [g] + order[k..];
      tree := Tree(t.order + [g], t.time[g := time], t.min);
    }

    /** A group that has no busy queue left leaves the tree. */
    method DelGroup(g: nat)
      requires Valid()
      modifies `order, `tree
      ensures Valid() && order == Without(old(order), g) && tree == old(tree).(order := order)
    {
      hide Ordered, Near, Stands;
      Deleted(tree, order, vdisktime, minVdisktime, g);
      order := Without(order, g);
      tree := tree.(order := order);
    }
  }

  lemma MinStands(t: Tree, order: seq<nat>, vdisktime: map<nat, nat>, min: nat)
    requires Stands(t, order, vdisktime, min)
    ensures min == Wrap(t.min) && t.order == order
  {
  }

  lemma LastStands(t: Tree, order: seq<nat>, vdisktime: map<nat, nat>, min: nat)
    requires Ordered(t) && Stands(t, order, vdisktime, min) && order != []
    ensures var g := order[|order| - 1];
            g in t.time && g in vdisktime && vdisktime[g] == Wrap(Latest(t)) && t.min <= Latest(t)
  {
    assert order[|order| - 1] in order;
    FirstLeast(t, order[|order| - 1]);
  }

  lemma Appended(t: Tree, order: seq<nat>, vdisktime: map<nat, nat>, min: nat, g: nat, v: int)
    requires Ordered(t) && Stands(t, order, vdisktime, min) && g !in order && t.min <= v
    requires order != [] ==> order[|order| - 1] in t.time && Latest(t) <= v
    ensures var t' := Tree(order + [g], t.time[g := v], t.min);
            Ordered(t') && Stands(t', order + [g], vdisktime[g := Wrap(v)], min)
    ensures forall i :: 0 <= i < |order| ==> order[i] in t.time
    ensures Place(order, t.time, v) == |order|
  {
    var o, time := order + [g], t.time[g := v];
    forall i | 0 <= i < |order| ensures t.time[order[i]] <= v {
      assert order[i] in order;
      FirstLeast(t, order[i]);
    }
    SpliceIs(order, |order|, g);
    assert order[..|order|] + [g] + order[|order|..] == o;
    hide Distinct;
  }

  lemma Deleted(t: Tree, order: seq<nat>, vdisktime: map<nat, nat>, min: nat, g: nat)
    requires Ordered(t) && Near(t) && Stands(t, order, vdisktime, min)
    ensures var t' := t.(order := Without(order, g));
            Ordered(t') && Near(t') && Stands(t', Without(order, g), vdisktime, min)
  {
    WithoutIs(order, g);
    SortedWithout(order, g, t.time);
    var o := Without(order, g);
    hide Distinct, Sorted, Without;
    if o != [] {
      assert o[0] in o && o[|o| - 1] in o;
      FirstLeast(t, o[0]);
      FirstLeast(t, o[|o| - 1]);
    }
  }

  lemma SortedWithout(s: seq<nat>, g: nat, time: map<nat, int>)
    requires Sorted(s, time)
    ensures Sorted(Without(s, g), time)
  {
    if g in s {
      var k := Index(s, g);
      hide Index;
      var r := s[..k] + s[k + 1..];
      forall i | 0 <= i < |r| ensures r[i] == s[if i < k then i else i + 1] {
      }
    }
  }

  lemma PlaceInside(s: seq<nat>, time: map<nat, int>, v: int)
    requires forall i :: 0 <= i < |s| ==> s[i] in time
    ensures Place(s, time, v) <= |s|
  {
  }

  lemma StandsAt(t: Tree, order: seq<nat>, vdisktime: map<nat, nat>, min: nat)
    requires Ordered(t) && Near(t) && Stands(t, order, vdisktime, min) && order != []
    ensures t.order == order && order[0] in t.time && order[0] in vdisktime
    ensures vdisktime[order[0]] == Wrap(t.time[order[0]]) && First(t) == t.time[order[0]]
  {
    assert order[0] in order;
  }

  lemma SameKey(v: int)
    ensures Key(Wrap(v), Wrap(v)) == 0
  {
    KeyIsDifference(v, v);
  }

  lemma WrapAdd(v: int, s: int)
    ensures Wrap(Wrap(v) + s) == Wrap(v + s)
  {
    var q := v / U64;
    assert v + s == U64 * ((Wrap(v) + s) / U64 + q) + (Wrap(v) + s) % U64;
    Arith.DivUnique(v + s, U64, (Wrap(v) + s) / U64 + q, (Wrap(v) + s) % U64);
  }

  lemma ServedNear(t: Tree, s: nat)
    requires Ordered(t) && t.order != [] && Near(t) && t.min == First(t) && s < ROOM
    ensures Near(Served(t, s))
  {
    SpreadStep(t, s);
    ServedKeeps(t, s);
    var t' := Served(t, s);
    hide Inserted, Distinct, Sorted;
    var b := t'.order[|t'.order| - 1];
    assert b in t'.order && b in t.order;
    FirstLeast(t, b);
  }

  lemma SortedTail(s: seq<nat>, time: map<nat, int>)
    requires Sorted(s, time) && s != []
    ensures Sorted(s[1..], time)
  {
  }

  /** Taking the first group out of the tree. */
  lemma Removed(t: Tree, order: seq<nat>, vdisktime: map<nat, nat>, min: nat)
    requires Ordered(t) && Near(t) && Stands(t, order, vdisktime, min) && t.order != []
    ensures var t1 := Tree(t.order[1..], t.time, t.min);
            Ordered(t1) && Near(t1) && Stands(t1, order[1..], vdisktime, min)
  {
    Tail(t.order);
    SortedTail(t.order, t.time);
    hide Distinct, Sorted;
    var t1 := Tree(t.order[1..], t.time, t.min);
    if t1.order != [] {
      assert t1.order[0] == t.order[1];
      FirstLeast(t, t1.order[0]);
    }
  }

  lemma Replaced(t: Tree, s: nat, k: nat, vdisktime: map<nat, nat>, min: nat)
    requires Ordered(t) && t.order != [] && (forall x :: x in t.order ==> x in t.time)
    requires Stands(Tree(t.order[1..], t.time, t.min), t.order[1..], vdisktime, min)
    requires (forall i :: 0 <= i < |t.order[1..]| ==> t.order[1..][i] in t.time)
    requires k == Place(t.order[1..], t.time, t.time[t.order[0]] + s)
    ensures var g, rest := t.order[0], t.order[1..];
            && (forall i :: 0 <= i < |t.order| ==> t.order[i] in t.time)
            && Stands(Served(t, s), rest[..k] + [g] + rest[k..], vdisktime[g := Wrap(t.time[g] + s)], min)
  {
    hide Distinct, Sorted, Stands;
    var g, rest := t.order[0], t.order[1..];
    AllTimed(t);
    Tail(t.order);
    PlaceSame(rest, t.time, g, t.time[g] + s, t.time[g] + s);
    SplicedStands(rest, k, g, t.time, t.min, t.time[g] + s, vdisktime, min);
    hide Place;
  }

  lemma SplicedStands(rest: seq<nat>, k: nat, g: nat, time: map<nat, int>, m: int, v: int, vdisktime: map<nat, nat>,
                      min: nat)
    requires Distinct(rest) && k <= |rest| && g !in rest && Stands(Tree(rest, time, m), rest, vdisktime, min)
    ensures var r := rest[..k] + [g] + rest[k..];
            Stands(Tree(r, time[g := v], m), r, vdisktime[g := Wrap(v)], min)
  {
    hide Wrap, Distinct;
    SpliceIs(rest, k, g);
  }

  /** The place does not depend on the time of a group that is not in the list. */
  lemma {:induction false} PlaceSame(s: seq<nat>, time: map<nat, int>, g: nat, v: int, u: int)
    requires (forall i :: 0 <= i < |s| ==> s[i] in time) && g !in s
    ensures Place(s, time[g := u], v) == Place(s, time, v)
  {
    if s != [] {
      PlaceSame(s[1..], time, g, v, u);
    }
  }
}
