/**
 The deadline scheduler: each direction keeps the same requests twice, in sector order and in order of arrival. Batches
 follow the sector order, a new batch starts at an expired request, and reads may overtake waiting writes only so often.
 */
module Deadline {
  import Arith
  import opened Lists
  import opened Options

  datatype Dir = Read | Write

  /**
   One direction: the sort tree as the list of its requests in sector order, the fifo, and the next in sector order.
   */
  datatype Side = Side(sort: seq<nat>, fifo: seq<nat>, next: Option<nat>)

  /** The settings. */
  datatype Tunables = Tunables(readExpire: nat, writeExpire: nat, batch: nat, starve: nat)

  datatype State = State(read: Side, write: Side, pos: map<nat, int>, expire: map<nat, int>,
                         batching: nat, starved: nat, dispatched: seq<nat>, now: int)
  {
    function Of(d: Dir): Side {
      if d == Read then read else write
    }

    function With(d: Dir, x: Side): State {
      if d == Read then this.(read := x) else this.(write := x)
    }
  }

  const EMPTY: Side := Side([], [], None)

  function Start(now: int): State {
    State(EMPTY, EMPTY, map[], map[], 0, 0, [], now)
  }

  function Expiry(t: Tunables, d: Dir): nat {
    if d == Read then t.readExpire else t.writeExpire
  }

  ghost predicate Keyed(s: seq<nat>, key: map<nat, int>) {
    forall x :: x in s ==> x in key
  }

  /** In sector order, no two at the same sector. */
  ghost predicate Ascending(s: seq<nat>, key: map<nat, int>) {
    Keyed(s, key) && forall i, j :: 0 <= i < j < |s| ==> key[s[i]] < key[s[j]]
  }

  ghost predicate Sorted(s: seq<nat>, key: map<nat, int>) {
    Keyed(s, key) && forall i, j :: 0 <= i < j < |s| ==> key[s[i]] <= key[s[j]]
  }

  lemma WithoutSorted(s: seq<nat>, x: nat, key: map<nat, int>)
    requires Distinct(s)
    ensures Ascending(s, key) ==> Ascending(Without(s, x), key)
    ensures Sorted(s, key) ==> Sorted(Without(s, x), key)
  {
    WithoutIs(s, x);
    hide Distinct;
    if x in s {
      CutSorted(s, Index(s, x), key);
    }
  }

  lemma CutSorted(s: seq<nat>, k: nat, key: map<nat, int>)
    requires k < |s|
    ensures Ascending(s, key) ==> Ascending(s[..k] + s[k + 1..], key)
    ensures Sorted(s, key) ==> Sorted(s[..k] + s[k + 1..], key)
  {
    var r := s[..k] + s[k + 1..];
    forall i | 0 <= i < |r| ensures r[i] == s[if i < k then i else i + 1] && r[i] in s {
    }
  }

  // ----- the sort tree

  /** Where a request at this sector belongs: after all those at lower sectors. */
  function Place(s: seq<nat>, key: map<nat, int>, p: int): (k: nat)
    requires forall x :: x in s ==> x in key
    ensures k <= |s|
    ensures forall i :: 0 <= i < k ==> key[s[i]] < p
    ensures k < |s| ==> key[s[k]] >= p
  {
    if s == [] || key[s[0]] >= p then 0 else 1 + Place(s[1..], key, p)
  }

  /** The request already at this sector. */
  function Alias(s: seq<nat>, key: map<nat, int>, p: int): Option<nat>
    requires forall x :: x in s ==> x in key
  {
    var k := Place(s, key, p);
    if k < |s| && key[s[k]] == p then Some(s[k]) else None
  }

  lemma AliasMeans(s: seq<nat>, key: map<nat, int>, p: int)
    requires Ascending(s, key)
    ensures Alias(s, key, p).None? ==> forall x :: x in s ==> key[x] != p
    ensures Alias(s, key, p).Some? ==>
              var a := Alias(s, key, p).value;
              a in s && key[a] == p && forall x :: x in s && x != a ==> key[x] != p
  {
    var k := Place(s, key, p);
    forall x | x in s && k < |s| && x != s[k] ensures key[x] != p {
      var i := Index(s, x);
    }
  }

  function Inserted(s: seq<nat>, key: map<nat, int>, x: nat): seq<nat>
    requires (forall y :: y in s ==> y in key) && x in key
  {
    var k := Place(s, key, key[x]);
    s[..k] + [x] + s[k..]
  }

  lemma InsertedIs(s: seq<nat>, key: map<nat, int>, x: nat)
    requires Distinct(s) && Ascending(s, key) && x in key && x !in s && forall y :: y in s ==> key[y] != key[x]
    ensures var r := Inserted(s, key, x);
            Distinct(r) && Ascending(r, key) && forall y :: y in r <==> y in s || y == x
  {
    var k := Place(s, key, key[x]);
    hide Place;
    SpliceIs(s, k, x);
    forall i | k <= i < |s| ensures key[s[i]] > key[x] {
      assert s[i] in s && key[s[k]] <= key[s[i]];
    }
    hide Distinct;
    SpliceAscending(s, k, x, key);
  }

  lemma SpliceAscending(s: seq<nat>, k: nat, x: nat, key: map<nat, int>)
    requires Ascending(s, key) && k <= |s| && x in key
    requires forall i :: 0 <= i < k ==> key[s[i]] < key[x]
    requires forall i :: k <= i < |s| ==> key[s[i]] > key[x]
    ensures Ascending(s[..k] + [x] + s[k..], key)
  {
    var r := s[..k] + [x] + s[k..];
    forall i | 0 <= i < |r| ensures r[i] == (if i < k then s[i] else if i == k then x else s[i - 1]) && r[i] in key {
      assert i != k ==> r[i] in s;
    }
  }

  /** The request after this one in sector order. */
  function Latter(s: seq<nat>, x: nat): Option<nat> {
    if x in s && Index(s, x) + 1 < |s| then Some(s[Index(s, x) + 1]) else None
  }

  // ----- the operations

  function Removed(s: Side, x: nat): Side {
    Side(Without(s.sort, x), Without(s.fifo, x), if s.next == Some(x) then Latter(s.sort, x) else s.next)
  }

  function Move(s: State, d: Dir, x: nat): State {
    var side := s.Of(d).(next := Latter(s.Of(d).sort, x));
    var s1 := s.(read := s.read.(next := None), write := s.write.(next := None));
    s1.With(d, Removed(side, x)).(dispatched := s.dispatched + [x])
  }

  /** A request at the same sector is dispatched to make room. */
  function AddSorted(s: State, d: Dir, x: nat): State
    requires x in s.pos && forall y :: y in s.Of(d).sort ==> y in s.pos
  {
    var a := Alias(s.Of(d).sort, s.pos, s.pos[x]);
    var s1 := if a.Some? then Move(s, d, a.value) else s;
    WithoutKeyed(s.Of(d).sort, if a.Some? then a.value else 0, s.pos);
    s1.With(d, s1.Of(d).(sort := Inserted(s1.Of(d).sort, s.pos, x)))
  }

  lemma WithoutKeyed(s: seq<nat>, x: nat, key: map<nat, int>)
    requires forall y :: y in s ==> y in key
    ensures forall y :: y in Without(s, x) ==> y in key
  {
  }

  function Add(t: Tunables, s: State, d: Dir, x: nat, sector: int): State
    requires x !in s.Of(d).sort && forall y :: y in s.Of(d).sort ==> y in s.pos
  {
    var s1 := AddSorted(s.(pos := s.pos[x := sector]), d, x);
    s1.With(d, s1.Of(d).(fifo := s1.Of(d).fifo + [x])).(expire := s1.expire[x := s.now + Expiry(t, d)])
  }

  /** A bio was merged in front of the request, which moves it to a lower sector. */
  function FrontMerged(s: State, d: Dir, x: nat, sector: int): State
    requires forall y :: y in s.Of(d).sort ==> y in s.pos
  {
    WithoutKeyed(s.Of(d).sort, x, s.pos);
    AddSorted(s.With(d, s.Of(d).(sort := Without(s.Of(d).sort, x))).(pos := s.pos[x := sector]), d, x)
  }

  /** The fifo when a request is moved right behind another. */
  function Reordered(s: Side, x: nat, gone: nat): seq<nat> {
    var f := Without(s.fifo, x);
    var k := if gone in f then Index(f, gone) + 1 else 0;
    f[..k] + [x] + f[k..]
  }

  /** The second request was merged into the first; the one that expires earlier determines the place in the fifo. */
  function Merged(s: State, d: Dir, x: nat, gone: nat): State {
    var side := s.Of(d);
    if x in side.fifo && gone in side.fifo && x in s.expire && gone in s.expire && s.expire[gone] < s.expire[x] then
      s.With(d, Removed(side.(fifo := Reordered(side, x, gone)), gone)).(expire := s.expire[x := s.expire[gone]])
    else s.With(d, Removed(side, gone))
  }

  datatype Choice = Idle | Continue(d: Dir, x: nat) | Begin(d: Dir, x: nat, starved: nat)

  predicate Expired(s: State, x: nat) {
    x in s.expire && s.now > s.expire[x]
  }

  function First(s: State, d: Dir): nat
    requires s.Of(d).fifo != []
  {
    if Expired(s, s.Of(d).fifo[0]) || s.Of(d).next.None? then s.Of(d).fifo[0] else s.Of(d).next.value
  }

  function Choose(t: Tunables, s: State): Choice {
    if s.write.next.Some? && s.batching < t.batch then Continue(Write, s.write.next.value)
    else if s.write.next.None? && s.read.next.Some? && s.batching < t.batch then Continue(Read, s.read.next.value)
    else if s.read.fifo != [] && s.write.fifo == [] then Begin(Read, First(s, Read), s.starved)
    else if s.read.fifo != [] && s.starved < t.starve then Begin(Read, First(s, Read), s.starved + 1)
    else if s.write.fifo != [] then Begin(Write, First(s, Write), 0)
    else Idle
  }

  function Dispatch(t: Tunables, s: State): State {
    match Choose(t, s)
    case Idle => s
    case Continue(d, x) => Move(s.(batching := s.batching + 1), d, x)
    case Begin(d, x, starved) => Move(s.(batching := 1, starved := starved), d, x)
  }

  // ----- what every operation keeps

  /** Sort tree and fifo hold the same requests, each in its order; one request may be in between. */
  ghost predicate SideBut(x: Side, pos: map<nat, int>, expire: map<nat, int>, limit: int, o: Option<nat>) {
    && Distinct(x.sort) && Distinct(x.fifo)
    && (forall y :: Some(y) != o ==> (y in x.sort <==> y in x.fifo))
    && Ascending(x.sort, pos) && Sorted(x.fifo, expire)
    && (forall y :: y in x.fifo ==> expire[y] <= limit)
    && (x.next.Some? ==> x.next.value in x.sort || x.next == o)
  }

  ghost predicate SideOk(x: Side, pos: map<nat, int>, expire: map<nat, int>, limit: int) {
    SideBut(x, pos, expire, limit, None)
  }

  ghost predicate Apart(a: seq<nat>, b: seq<nat>) {
    forall y :: y in a ==> y !in b
  }

  ghost predicate Inv(t: Tunables, s: State) {
    && SideOk(s.read, s.pos, s.expire, s.now + t.readExpire)
    && SideOk(s.write, s.pos, s.expire, s.now + t.writeExpire)
    && Apart(s.read.fifo, s.write.fifo) && Apart(s.dispatched, s.read.fifo) && Apart(s.dispatched, s.write.fifo)
    && Distinct(s.dispatched) && Keyed(s.dispatched, s.pos)
    && !(s.read.next.Some? && s.write.next.Some?)
    && s.starved <= t.starve && s.batching <= t.batch
  }

  lemma LatterIs(s: seq<nat>, x: nat)
    requires Distinct(s)
    ensures Latter(s, x).Some? ==> Latter(s, x).value in s && Latter(s, x).value != x
  {
  }

  lemma RemovedOk(x: Side, pos: map<nat, int>, expire: map<nat, int>, limit: int, o: Option<nat>, a: nat)
    requires SideBut(x, pos, expire, limit, o) && Some(a) != o
    ensures SideBut(Removed(x, a), pos, expire, limit, o)
    ensures forall y :: y in Removed(x, a).sort <==> y in x.sort && y != a
    ensures forall y :: y in Removed(x, a).fifo <==> y in x.fifo && y != a
  {
    WithoutIs(x.sort, a);
    WithoutIs(x.fifo, a);
    WithoutSorted(x.sort, a, pos);
    WithoutSorted(x.fifo, a, expire);
    LatterIs(x.sort, a);
  }

  lemma NoNextOk(x: Side, pos: map<nat, int>, expire: map<nat, int>, limit: int, o: Option<nat>, n: Option<nat>)
    requires SideBut(x, pos, expire, limit, o) && (n.Some? ==> n.value in x.sort)
    ensures SideBut(x.(next := n), pos, expire, limit, o)
  {
  }

  /** Adding to the sort tree: the request at the same sector, if any, leaves both lists, and one removal is enough. */
  lemma AddSortedOk(s: State, d: Dir, x: nat, limit: int)
    requires SideBut(s.Of(d), s.pos, s.expire, limit, Some(x)) && x in s.pos && x !in s.Of(d).sort
    ensures var s' := AddSorted(s, d, x); var a := Alias(s.Of(d).sort, s.pos, s.pos[x]);
            && SideBut(s'.Of(d), s.pos, s.expire, limit, Some(x))
            && x in s'.Of(d).sort && (a.Some? ==> a.value in s.Of(d).fifo && a.value != x)
            && (forall y :: y in s'.Of(d).fifo <==> y in s.Of(d).fifo && Some(y) != a)
  {
    var a := Alias(s.Of(d).sort, s.pos, s.pos[x]);
    AliasMeans(s.Of(d).sort, s.pos, s.pos[x]);
    var s1 := if a.Some? then Move(s, d, a.value) else s;
    if a.Some? {
      LatterIs(s.Of(d).sort, a.value);
      NoNextOk(s.Of(d), s.pos, s.expire, limit, Some(x), Latter(s.Of(d).sort, a.value));
      RemovedOk(s.Of(d).(next := Latter(s.Of(d).sort, a.value)), s.pos, s.expire, limit, Some(x), a.value);
    }
    InsertedIs(s1.Of(d).sort, s.pos, x);
  }

  function Other(d: Dir): Dir {
    if d == Read then Write else Read
  }

  ghost predicate DirOk(t: Tunables, s: State, d: Dir) {
    SideOk(s.Of(d), s.pos, s.expire, s.now + Expiry(t, d))
  }

  /** The part of the invariant that relates the two directions and the counters. */
  ghost predicate Shared(t: Tunables, s: State) {
    && Apart(s.read.fifo, s.write.fifo) && Apart(s.dispatched, s.read.fifo) && Apart(s.dispatched, s.write.fifo)
    && Distinct(s.dispatched) && Keyed(s.dispatched, s.pos)
    && !(s.read.next.Some? && s.write.next.Some?)
    && s.starved <= t.starve && s.batching <= t.batch
  }

  lemma InvParts(t: Tunables, s: State, d: Dir)
    ensures Inv(t, s) <==> DirOk(t, s, d) && DirOk(t, s, Other(d)) && Shared(t, s)
  {
  }

  /** A side is not affected by what happens to requests it does not hold. */
  lemma SideFrame(x: Side, pos: map<nat, int>, expire: map<nat, int>, limit: int, pos': map<nat, int>,
                  expire': map<nat, int>)
    requires SideOk(x, pos, expire, limit)
    requires forall y :: y in x.sort ==> y in pos' && pos'[y] == pos[y]
    requires forall y :: y in x.fifo ==> y in expire' && expire'[y] == expire[y]
    ensures SideOk(x, pos', expire', limit) && SideOk(x.(next := None), pos', expire', limit)
  {
    hide Distinct;
  }

  lemma AddSortedFrame(s: State, d: Dir, x: nat)
    requires x in s.pos && forall y :: y in s.Of(d).sort ==> y in s.pos
    ensures var s' := AddSorted(s, d, x); var a := Alias(s.Of(d).sort, s.pos, s.pos[x]);
            && s'.pos == s.pos && s'.expire == s.expire && s'.now == s.now
            && s'.batching == s.batching && s'.starved == s.starved
            && s'.dispatched == (if a.Some? then s.dispatched + [a.value] else s.dispatched)
            && s'.Of(Other(d)) == (if a.Some? then s.Of(Other(d)).(next := None) else s.Of(Other(d)))
  {
  }

  /** A new request expires last. */
  lemma QueuedOk(x: Side, pos: map<nat, int>, expire: map<nat, int>, limit: int, a: nat)
    requires SideBut(x, pos, expire, limit, Some(a)) && a in x.sort && a !in x.fifo
    ensures SideOk(x.(fifo := x.fifo + [a]), pos, expire[a := limit], limit)
    ensures forall y :: y in x.fifo + [a] <==> y in x.fifo || y == a
  {
    hide Ascending;
    var f, e := x.fifo + [a], expire[a := limit];
    assert forall y :: y in f <==> y in x.fifo || y == a;
    forall i, j | 0 <= i < j < |f| ensures f[i] != f[j] && e[f[i]] <= e[f[j]] {
      assert f[i] in x.fifo && f[i] == x.fifo[i];
    }
  }

  lemma FreshOk(x: Side, pos: map<nat, int>, expire: map<nat, int>, limit: int, a: nat, sector: int)
    requires SideOk(x, pos, expire, limit) && a !in x.fifo
    ensures SideBut(x, pos[a := sector], expire, limit, Some(a)) && a !in x.sort && Keyed(x.sort, pos)
  {
  }

  lemma AddOk(t: Tunables, s: State, d: Dir, x: nat, sector: int)
    requires DirOk(t, s, d) && x !in s.Of(d).fifo
    ensures x !in s.Of(d).sort
    ensures DirOk(t, Add(t, s, d, x, sector), d)
    ensures Keyed(s.Of(d).sort, s.pos[x := sector])
    ensures var a := Alias(s.Of(d).sort, s.pos[x := sector], sector);
            && (a.Some? ==> a.value in s.Of(d).fifo)
            && (forall y :: y in Add(t, s, d, x, sector).Of(d).fifo <==> (y in s.Of(d).fifo && Some(y) != a) || y == x)
    ensures Add(t, s, d, x, sector).expire
            == s.expire[x := s.now + if d == Read then t.readExpire else t.writeExpire]
  {
    hide SideBut, Alias, Place, Inserted, Without;
    var s0 := s.(pos := s.pos[x := sector]);
    var limit := s.now + Expiry(t, d);
    FreshOk(s.Of(d), s.pos, s.expire, limit, x, sector);
    AddSortedOk(s0, d, x, limit);
    AddSortedFrame(s0, d, x);
    QueuedOk(AddSorted(s0, d, x).Of(d), s0.pos, s.expire, limit, x);
  }

  lemma FrontMergedOk(t: Tunables, s: State, d: Dir, x: nat, sector: int)
    requires DirOk(t, s, d) && x in s.Of(d).fifo
    ensures DirOk(t, FrontMerged(s, d, x, sector), d)
    ensures Keyed(Without(s.Of(d).sort, x), s.pos[x := sector])
    ensures var a := Alias(Without(s.Of(d).sort, x), s.pos[x := sector], sector);
            && (a.Some? ==> a.value in s.Of(d).fifo && a.value != x)
            && (forall y :: y in FrontMerged(s, d, x, sector).Of(d).fifo <==> y in s.Of(d).fifo && Some(y) != a)
  {
    var limit := s.now + Expiry(t, d);
    var side := s.Of(d).(sort := Without(s.Of(d).sort, x));
    WithoutIs(s.Of(d).sort, x);
    WithoutSorted(s.Of(d).sort, x, s.pos);
    var s0 := s.With(d, side).(pos := s.pos[x := sector]);
    assert Ascending(side.sort, s0.pos);
    assert SideBut(s0.Of(d), s0.pos, s0.expire, limit, Some(x));
    AddSortedOk(s0, d, x, limit);
    AliasMeans(side.sort, s0.pos, sector);
  }

  /** The merged request takes the place of the one that is gone. */
  lemma TakesPlace(f: seq<nat>, x: nat, gone: nat)
    requires Distinct(f) && x !in f && gone in f
    ensures var k := Index(f, gone) + 1;
            Without(f[..k] + [x] + f[k..], gone) == f[k - 1 := x]
  {
    hide Distinct, Index;
    var k := Index(f, gone) + 1;
    var g := f[..k] + [x] + f[k..];
    SpliceIs(f, k, x);
    assert g[k - 1] == gone;
    IndexUnique(g, k - 1);
    assert g[..k - 1] + g[k..] == f[k - 1 := x];
  }

  lemma ReplacedOk(f: seq<nat>, key: map<nat, int>, k: nat, x: nat)
    requires Distinct(f) && Sorted(f, key) && k < |f| && x !in f
    ensures Distinct(f[k := x]) && Sorted(f[k := x], key[x := key[f[k]]])
    ensures forall y :: y in f[k := x] <==> (y in f && y != f[k]) || y == x
  {
    var g := f[k := x];
    forall y | (y in f && y != f[k]) || y == x ensures y in g {
      if y == x {
        assert g[k] == x;
      } else {
        var i :| 0 <= i < |f| && f[i] == y;
        assert g[i] == y;
      }
    }
  }

  lemma KnownExpiry(s: Side, pos: map<nat, int>, expire: map<nat, int>, limit: int)
    requires SideOk(s, pos, expire, limit)
    ensures Keyed(s.fifo, expire) && Keyed(s.sort, pos)
  {
  }

  lemma ReorderedOk(s: Side, pos: map<nat, int>, expire: map<nat, int>, limit: int, x: nat, gone: nat)
    requires SideOk(s, pos, expire, limit) && x in s.fifo && gone in s.fifo && x != gone && gone in expire
    ensures SideOk(Removed(s.(fifo := Reordered(s, x, gone)), gone), pos, expire[x := expire[gone]], limit)
    ensures forall y :: y in Removed(s.(fifo := Reordered(s, x, gone)), gone).fifo <==> y in s.fifo && y != gone
  {
    hide Distinct, Ascending, Sorted, Without, Index, Latter;
    KnownExpiry(s, pos, expire, limit);
    var f := Without(s.fifo, x);
    WithoutIs(s.fifo, x);
    WithoutSorted(s.fifo, x, expire);
    TakesPlace(f, x, gone);
    ReplacedOk(f, expire, Index(f, gone), x);
    RemovedOk(s, pos, expire, limit, None, gone);
  }

  lemma MergedOk(t: Tunables, s: State, d: Dir, x: nat, gone: nat)
    requires DirOk(t, s, d) && x in s.Of(d).fifo && gone in s.Of(d).fifo && x != gone
    ensures DirOk(t, Merged(s, d, x, gone), d)
    ensures forall y :: y in Merged(s, d, x, gone).Of(d).fifo <==> y in s.Of(d).fifo && y != gone
    ensures x in s.expire && gone in s.expire
    ensures Merged(s, d, x, gone).expire
            == if s.expire[gone] < s.expire[x] then s.expire[x := s.expire[gone]] else s.expire
  {
    var side, limit := s.Of(d), s.now + Expiry(t, d);
    hide SideBut, Index, Without;
    KnownExpiry(side, s.pos, s.expire, limit);
    RemovedOk(side, s.pos, s.expire, limit, None, gone);
    ReorderedOk(side, s.pos, s.expire, limit, x, gone);
  }

  // ----- the invariant over every run

  /** What an operation on one direction may do to the rest. */
  lemma Framed(t: Tunables, s: State, s': State, d: Dir)
    requires Inv(t, s) && DirOk(t, s', d) && s'.now == s.now
    requires s'.Of(Other(d)) == s.Of(Other(d)) || s'.Of(Other(d)) == s.Of(Other(d)).(next := None)
    requires forall y :: y in s.Of(Other(d)).fifo ==> y in s.pos && y in s'.pos && s'.pos[y] == s.pos[y]
    requires forall y :: y in s.Of(Other(d)).fifo ==> y in s.expire && y in s'.expire && s'.expire[y] == s.expire[y]
    requires Shared(t, s')
    ensures Inv(t, s')
  {
    hide Shared;
    InvParts(t, s, d);
    InvParts(t, s', d);
    assert forall y :: y in s.Of(Other(d)).sort <==> y in s.Of(Other(d)).fifo;
    SideFrame(s.Of(Other(d)), s.pos, s.expire, s.now + Expiry(t, Other(d)), s'.pos, s'.expire);
  }

  /** One request at most is dispatched, from this direction, and only requests of this direction change. */
  ghost predicate Local(s: State, s': State, d: Dir, a: Option<nat>) {
    && s'.dispatched == (if a.Some? then s.dispatched + [a.value] else s.dispatched)
    && (a.Some? ==> a.value in s.Of(d).fifo && a.value !in s'.Of(d).fifo && a.value in s'.pos)
    && (s'.Of(Other(d)) == s.Of(Other(d)).(next := None)
        || (s'.Of(Other(d)) == s.Of(Other(d)) && (s'.Of(d).next.Some? ==> s.Of(d).next.Some?)))
    && (forall y :: y in s.pos ==> y in s'.pos)
    && s'.now == s.now
  }

  lemma SharedKept(t: Tunables, s: State, s': State, d: Dir, a: Option<nat>)
    requires Shared(t, s) && Local(s, s', d, a) && s'.starved <= t.starve && s'.batching <= t.batch
    requires forall y :: y in s'.Of(d).fifo ==> y in s.Of(d).fifo || (y !in s.Of(Other(d)).fifo && y !in s.dispatched)
    ensures Shared(t, s')
  {
    assert forall y :: y in s'.dispatched <==> y in s.dispatched || Some(y) == a;
    if a.Some? {
      assert a.value !in s.dispatched;
      forall i, j | 0 <= i < j < |s'.dispatched| ensures s'.dispatched[i] != s'.dispatched[j] {
        assert s'.dispatched[i] == s.dispatched[i] && s.dispatched[i] in s.dispatched;
      }
    }
  }

  lemma Known(t: Tunables, s: State, d: Dir)
    requires Inv(t, s)
    ensures Keyed(s.Of(d).sort, s.pos) && Keyed(s.Of(d).fifo, s.pos) && Keyed(s.Of(d).fifo, s.expire)
    ensures forall y :: y in s.Of(d).fifo <==> y in s.Of(d).sort
    ensures forall y :: y in s.Of(d).fifo ==> y !in s.Of(Other(d)).fifo && y !in s.dispatched
  {
  }

  lemma AddInv(t: Tunables, s: State, d: Dir, x: nat, sector: int)
    requires Inv(t, s) && x !in s.pos && x !in s.Of(d).sort && Keyed(s.Of(d).sort, s.pos)
    ensures Inv(t, Add(t, s, d, x, sector))
  {
    hide SideBut, Alias, Inserted, Distinct;
    var s' := Add(t, s, d, x, sector);
    Known(t, s, d);
    Known(t, s, Other(d));
    InvParts(t, s, d);
    AddOk(t, s, d, x, sector);
    AddSortedFrame(s.(pos := s.pos[x := sector]), d, x);
    var a := Alias(s.Of(d).sort, s.pos[x := sector], sector);
    SharedKept(t, s, s', d, a);
    Framed(t, s, s', d);
  }

  lemma FrontMergedInv(t: Tunables, s: State, d: Dir, x: nat, sector: int)
    requires Inv(t, s) && x in s.Of(d).fifo && Keyed(s.Of(d).sort, s.pos)
    ensures Inv(t, FrontMerged(s, d, x, sector))
  {
    hide SideBut, Alias, Inserted, Distinct, Without;
    var s' := FrontMerged(s, d, x, sector);
    Known(t, s, d);
    Known(t, s, Other(d));
    InvParts(t, s, d);
    FrontMergedOk(t, s, d, x, sector);
    AddSortedFrame(s.With(d, s.Of(d).(sort := Without(s.Of(d).sort, x))).(pos := s.pos[x := sector]), d, x);
    SharedKept(t, s, s', d, Alias(Without(s.Of(d).sort, x), s.pos[x := sector], sector));
    Framed(t, s, s', d);
  }

  lemma MergedInv(t: Tunables, s: State, d: Dir, x: nat, gone: nat)
    requires Inv(t, s) && x in s.Of(d).fifo && gone in s.Of(d).fifo && x != gone
    ensures Inv(t, Merged(s, d, x, gone))
  {
    hide SideBut, Latter, Distinct, Without, Reordered;
    var s' := Merged(s, d, x, gone);
    Known(t, s, d);
    Known(t, s, Other(d));
    InvParts(t, s, d);
    MergedOk(t, s, d, x, gone);
    SharedKept(t, s, s', d, None);
    Framed(t, s, s', d);
  }

  lemma MovedOk(x: Side, pos: map<nat, int>, expire: map<nat, int>, limit: int, a: nat)
    requires SideOk(x, pos, expire, limit)
    ensures var y := Removed(x.(next := Latter(x.sort, a)), a);
            SideOk(y, pos, expire, limit) && forall z :: z in y.fifo <==> z in x.fifo && z != a
  {
    LatterIs(x.sort, a);
    hide Latter, Distinct, Without;
    NoNextOk(x, pos, expire, limit, None, Latter(x.sort, a));
    RemovedOk(x.(next := Latter(x.sort, a)), pos, expire, limit, None, a);
  }

  lemma MoveInv(t: Tunables, s: State, d: Dir, x: nat)
    requires Inv(t, s) && x in s.Of(d).fifo
    ensures Inv(t, Move(s, d, x))
    ensures forall y :: y in Move(s, d, x).Of(d).fifo <==> y in s.Of(d).fifo && y != x
  {
    hide SideBut, Latter, Distinct, Without;
    InvParts(t, s, d);
    Known(t, s, d);
    Known(t, s, Other(d));
    MovedOk(s.Of(d), s.pos, s.expire, s.now + Expiry(t, d), x);
    SharedKept(t, s, Move(s, d, x), d, Some(x));
    Framed(t, s, Move(s, d, x), d);
  }

  /** What is chosen is queued, and a request is chosen whenever there is one. */
  lemma ChooseIs(t: Tunables, s: State)
    requires Inv(t, s)
    ensures Choose(t, s).Idle? ==> s.read.fifo == [] && s.write.fifo == []
    ensures !Choose(t, s).Idle? ==> Choose(t, s).x in s.Of(Choose(t, s).d).fifo
  {
    Known(t, s, Read);
    Known(t, s, Write);
    hide Distinct, Ascending, Sorted;
  }

  lemma DispatchInv(t: Tunables, s: State)
    requires Inv(t, s) && t.batch >= 1
    ensures Inv(t, Dispatch(t, s))
  {
    hide SideBut, Distinct, Latter, Without, Apart;
    ChooseIs(t, s);
    match Choose(t, s) {
      case Idle =>
      case Continue(d, x) => MoveInv(t, s.(batching := s.batching + 1), d, x);
      case Begin(d, x, starved) => MoveInv(t, s.(batching := 1, starved := starved), d, x);
    }
  }

  datatype Step =
    | Adds(d: Dir, x: nat, sector: int)
    | FrontMerges(d: Dir, x: nat, sector: int)
    | Merges(d: Dir, x: nat, gone: nat)
    | Dispatches
    | Ticks(n: nat)

  /** New requests are new; only queued requests are merged. */
  ghost function Next(t: Tunables, s: State, p: Step): State
    requires Inv(t, s)
  {
    Known(t, s, Read);
    Known(t, s, Write);
    match p
    case Adds(d, x, sector) => if x in s.pos then s else Add(t, s, d, x, sector)
    case FrontMerges(d, x, sector) => if x in s.Of(d).fifo then FrontMerged(s, d, x, sector) else s
    case Merges(d, x, gone) =>
      if x in s.Of(d).fifo && gone in s.Of(d).fifo && x != gone then Merged(s, d, x, gone) else s
    case Dispatches => Dispatch(t, s)
    case Ticks(n) => s.(now := s.now + n)
  }

  lemma TickInv(t: Tunables, s: State, n: nat)
    requires Inv(t, s)
    ensures Inv(t, s.(now := s.now + n))
  {
    hide Distinct, Ascending, Sorted;
    Known(t, s, Read);
    Known(t, s, Write);
  }

  lemma NextInv(t: Tunables, s: State, p: Step)
    requires Inv(t, s) && t.batch >= 1
    ensures Inv(t, Next(t, s, p))
  {
    hide Inv;
    Known(t, s, Read);
    Known(t, s, Write);
    match p {
      case Adds(d, x, sector) => if x !in s.pos { AddInv(t, s, d, x, sector); }
      case FrontMerges(d, x, sector) => if x in s.Of(d).fifo { FrontMergedInv(t, s, d, x, sector); }
      case Merges(d, x, gone) =>
        if x in s.Of(d).fifo && gone in s.Of(d).fifo && x != gone { MergedInv(t, s, d, x, gone); }
      case Dispatches => DispatchInv(t, s);
      case Ticks(n) => TickInv(t, s, n);
    }
  }

  /** A batch goes on with the request at the next higher sector: none lies between. */
  lemma NextInOrder(s: seq<nat>, pos: map<nat, int>, x: nat, y: nat)
    requires Distinct(s) && Ascending(s, pos) && x in s && y in s && pos[x] < pos[y]
    ensures var n := Latter(s, x); n.Some? && n.value in s && pos[x] < pos[n.value] <= pos[y]
  {
    var i, j := Index(s, x), Index(s, y);
    assert i < j;
    assert i + 1 < j ==> pos[s[i + 1]] < pos[s[j]];
  }

  ghost function Everyone(s: State): set<nat> {
    (set y | y in s.read.fifo) + (set y | y in s.write.fifo) + (set y | y in s.dispatched)
  }

  /** A request at the same sector moves from a queue to the dispatched ones. */
  lemma OneMoved(s: State, s': State, d: Dir, a: Option<nat>, extra: set<nat>)
    requires s'.Of(Other(d)).fifo == s.Of(Other(d)).fifo
    requires s'.dispatched == if a.Some? then s.dispatched + [a.value] else s.dispatched
    requires a.Some? ==> a.value in s.Of(d).fifo
    requires forall y :: y in s'.Of(d).fifo <==> (y in s.Of(d).fifo && Some(y) != a) || y in extra
    ensures Everyone(s') == Everyone(s) + extra
  {
  }

  lemma AddLosesNothing(t: Tunables, s: State, d: Dir, x: nat, sector: int)
    requires Inv(t, s) && x !in s.pos && x !in s.Of(d).sort && Keyed(s.Of(d).sort, s.pos)
    ensures Everyone(Add(t, s, d, x, sector)) == Everyone(s) + {x}
  {
    Known(t, s, d);
    InvParts(t, s, d);
    hide Inv, SideBut, Alias, Inserted, Distinct, Everyone, Latter, Without, Shared;
    AddOk(t, s, d, x, sector);
    AddSortedFrame(s.(pos := s.pos[x := sector]), d, x);
    OneMoved(s, Add(t, s, d, x, sector), d, Alias(s.Of(d).sort, s.pos[x := sector], sector), {x});
  }

  lemma FrontMergeLosesNothing(t: Tunables, s: State, d: Dir, x: nat, sector: int)
    requires Inv(t, s) && x in s.Of(d).fifo && Keyed(s.Of(d).sort, s.pos)
    ensures Everyone(FrontMerged(s, d, x, sector)) == Everyone(s)
  {
    InvParts(t, s, d);
    hide Inv, SideBut, Alias, Inserted, Distinct, Everyone, Latter, Without, Shared;
    FrontMergedOk(t, s, d, x, sector);
    AddSortedFrame(s.With(d, s.Of(d).(sort := Without(s.Of(d).sort, x))).(pos := s.pos[x := sector]), d, x);
    OneMoved(s, FrontMerged(s, d, x, sector), d, Alias(Without(s.Of(d).sort, x), s.pos[x := sector], sector), {});
  }

  lemma MergeLosesOne(t: Tunables, s: State, d: Dir, x: nat, gone: nat)
    requires Inv(t, s) && x in s.Of(d).fifo && gone in s.Of(d).fifo && x != gone
    ensures Everyone(Merged(s, d, x, gone)) == Everyone(s) - {gone}
  {
    Known(t, s, d);
    InvParts(t, s, d);
    hide Inv, SideBut, Distinct, Latter, Without, Reordered, Shared, Everyone;
    MergedOk(t, s, d, x, gone);
    OneGone(s, Merged(s, d, x, gone), d, gone);
  }

  lemma OneGone(s: State, s': State, d: Dir, gone: nat)
    requires s'.Of(Other(d)).fifo == s.Of(Other(d)).fifo && s'.dispatched == s.dispatched
    requires gone !in s.Of(Other(d)).fifo && gone !in s.dispatched
    requires forall y :: y in s'.Of(d).fifo <==> y in s.Of(d).fifo && y != gone
    ensures Everyone(s') == Everyone(s) - {gone}
  {
  }

  lemma DispatchLosesNothing(t: Tunables, s: State)
    requires Inv(t, s)
    ensures Everyone(Dispatch(t, s)) == Everyone(s)
  {
    hide Inv, Latter, Without, Everyone;
    ChooseIs(t, s);
    var c := Choose(t, s);
    if !c.Idle? {
      var s1 := s.(batching := if c.Continue? then s.batching + 1 else 1,
                   starved := if c.Continue? then s.starved else c.starved);
      assert Dispatch(t, s) == Move(s1, c.d, c.x);
      MoveInvBut(t, s, s1, c.d, c.x);
      OneMoved(s, Dispatch(t, s), c.d, Some(c.x), {});
    }
  }

  /** No request is lost: each is queued or dispatched, unless it was merged into another. */
  lemma NothingLost(t: Tunables, s: State, p: Step)
    requires Inv(t, s)
    ensures var s' := Next(t, s, p);
            match p
            case Adds(d, x, sector) => x !in s.pos ==> Everyone(s') == Everyone(s) + {x}
            case Merges(d, x, gone) =>
              x in s.Of(d).fifo && gone in s.Of(d).fifo && x != gone ==> Everyone(s') == Everyone(s) - {gone}
            case _ => Everyone(s') == Everyone(s)
  {
    Known(t, s, Read);
    Known(t, s, Write);
    hide Inv, Everyone, Add, FrontMerged, Merged, Dispatch;
    match p {
      case Adds(d, x, sector) => if x !in s.pos { AddLosesNothing(t, s, d, x, sector); }
      case FrontMerges(d, x, sector) => if x in s.Of(d).fifo { FrontMergeLosesNothing(t, s, d, x, sector); }
      case Merges(d, x, gone) =>
        if x in s.Of(d).fifo && gone in s.Of(d).fifo && x != gone { MergeLosesOne(t, s, d, x, gone); }
      case Dispatches => DispatchLosesNothing(t, s);
      case Ticks(n) => TickKeepsAll(s, n);
    }
  }

  lemma TickKeepsAll(s: State, n: nat)
    ensures Everyone(s.(now := s.now + n)) == Everyone(s)
  {
  }

  // ----- bounded waiting of writes

  /**
   The most dispatch calls until a write batch begins: the rest of the batch, then the batches reads may still have.
   */
  function Patience(t: Tunables, s: State): int {
    t.batch - s.batching + (t.starve - s.starved) * t.batch + 1
  }

  function Bound(t: Tunables): nat {
    (t.starve + 1) * t.batch
  }

  ghost predicate Begins(t: Tunables, s: State, k: Dir) {
    Choose(t, s).Begin? && Choose(t, s).d == k
  }

  /**
   Requests of a direction are queued at every dispatch call of the run, and none of the calls begins a batch of it.
   */
  ghost predicate Starving(t: Tunables, s: State, k: Dir, steps: seq<Step>)
    requires Inv(t, s) && t.batch >= 1
    decreases steps
  {
    steps == [] ||
    (NextInv(t, s, steps[0]);
     && (steps[0].Dispatches? ==> s.Of(k).fifo != [] && !Begins(t, s, k))
     && Starving(t, Next(t, s, steps[0]), k, steps[1..]))
  }

  function Calls(steps: seq<Step>): nat {
    if steps == [] then 0 else (if steps[0].Dispatches? then 1 else 0) + Calls(steps[1..])
  }

  lemma OneBatchLess(w: int, b: int)
    ensures (w - 1) * b == w * b - b
  {
  }

  lemma PatienceShrinks(t: Tunables, s: State)
    requires Inv(t, s) && t.batch >= 1 && s.write.fifo != [] && !Begins(t, s, Write)
    ensures Patience(t, Dispatch(t, s)) <= Patience(t, s) - 1
  {
    hide SideBut, Apart, Distinct, Latter, Without;
    OneBatchLess(t.starve - s.starved, t.batch);
    assert t.starve - (s.starved + 1) == t.starve - s.starved - 1;
  }

  /** Only dispatch calls change the counters, and time does not go back. */
  lemma CountersKept(t: Tunables, s: State, p: Step)
    requires Inv(t, s) && !p.Dispatches?
    ensures var s' := Next(t, s, p); s'.batching == s.batching && s'.starved == s.starved && s'.now >= s.now
  {
    Known(t, s, Read);
    Known(t, s, Write);
    hide Inv, Latter, Without, Inserted, Alias, Reordered;
    match p {
      case Adds(d, x, sector) => if x !in s.pos { AddSortedFrame(s.(pos := s.pos[x := sector]), d, x); }
      case FrontMerges(d, x, sector) =>
        if x in s.Of(d).fifo {
          WithoutKeyed(s.Of(d).sort, x, s.pos);
          AddSortedFrame(s.With(d, s.Of(d).(sort := Without(s.Of(d).sort, x))).(pos := s.pos[x := sector]), d, x);
        }
      case Merges(d, x, gone) =>
      case Dispatches =>
      case Ticks(n) =>
    }
  }

  lemma PatiencePositive(t: Tunables, s: State)
    requires Inv(t, s)
    ensures Patience(t, s) >= 1
  {
    hide SideBut, Apart, Distinct;
    assert (t.starve - s.starved) * t.batch >= 0;
  }

  /** Reads are passed over for one write batch at most, if reads may pass over writes at all. */
  function ReadPatience(t: Tunables, s: State): int {
    t.batch - s.batching + (if s.starved == t.starve then t.batch else 0) + 1
  }

  function PatienceOf(t: Tunables, s: State, k: Dir): int {
    if k == Write then Patience(t, s) else ReadPatience(t, s)
  }

  /** What the patience is at most after a batch of the direction has begun. */
  function BoundOf(t: Tunables, k: Dir): nat {
    if k == Write then Bound(t) else 2 * t.batch
  }

  /** A batch of the direction is sure to begin: writes are always let in, reads unless they may pass over no write. */
  predicate Fair(t: Tunables, k: Dir) {
    k == Write || t.starve >= 1
  }

  lemma ReadPatienceShrinks(t: Tunables, s: State)
    requires Inv(t, s) && t.batch >= 1 && t.starve >= 1 && s.read.fifo != [] && !Begins(t, s, Read)
    ensures ReadPatience(t, Dispatch(t, s)) <= ReadPatience(t, s) - 1
  {
    hide SideBut, Apart, Distinct, Latter, Without;
  }

  lemma PatienceKeeps(t: Tunables, s: State, k: Dir, p: Step)
    requires Inv(t, s) && t.batch >= 1 && Fair(t, k)
    ensures PatienceOf(t, s, k) >= 1
    ensures !p.Dispatches? ==> PatienceOf(t, Next(t, s, p), k) == PatienceOf(t, s, k)
    ensures p.Dispatches? && s.Of(k).fifo != [] && !Begins(t, s, k) ==>
              PatienceOf(t, Next(t, s, p), k) <= PatienceOf(t, s, k) - 1
  {
    PatiencePositive(t, s);
    ReadPatiencePositive(t, s);
    hide Inv, Next, Begins, Patience;
    if !p.Dispatches? {
      CountersKept(t, s, p);
      SamePatience(t, s, p);
    } else {
      DispatchIsNext(t, s);
      if s.Of(k).fifo != [] && !Begins(t, s, k) {
        if k == Write { PatienceShrinks(t, s); } else { ReadPatienceShrinks(t, s); }
      }
    }
  }

  lemma ReadPatiencePositive(t: Tunables, s: State)
    requires Inv(t, s)
    ensures ReadPatience(t, s) >= 1
  {
  }

  /** In every run, a batch of a direction begins within its patience. */
  lemma {:induction false} BatchBegins(t: Tunables, s: State, k: Dir, steps: seq<Step>)
    requires Inv(t, s) && t.batch >= 1 && Fair(t, k) && Starving(t, s, k, steps)
    ensures Calls(steps) < PatienceOf(t, s, k)
    decreases steps
  {
    hide Inv, Next, Begins, PatienceOf, Fair;
    PatienceKeeps(t, s, k, if steps == [] then Ticks(0) else steps[0]);
    if steps != [] {
      NextInv(t, s, steps[0]);
      BatchBegins(t, Next(t, s, steps[0]), k, steps[1..]);
    }
  }

  /** In every run, a write batch begins within Patience dispatch calls. */
  lemma WritesBegin(t: Tunables, s: State, steps: seq<Step>)
    requires Inv(t, s) && t.batch >= 1 && Starving(t, s, Write, steps)
    ensures Calls(steps) < Patience(t, s)
  {
    hide Inv, Starving, Patience, Calls;
    BatchBegins(t, s, Write, steps);
  }

  lemma DispatchIsNext(t: Tunables, s: State)
    requires Inv(t, s)
    ensures Next(t, s, Dispatches) == Dispatch(t, s)
  {
  }

  /** That is the bound the settings promise, exactly when a dispatch call has been made before. */
  lemma BoundHolds(t: Tunables, s: State)
    requires Inv(t, s) && t.batch >= 1
    ensures Patience(t, s) <= Bound(t) <==> s.batching >= 1 || s.starved >= 1
  {
    hide SideBut, Apart, Distinct;
    assert (t.starve - s.starved) * t.batch == t.starve * t.batch - s.starved * t.batch;
    assert (t.starve + 1) * t.batch == t.starve * t.batch + t.batch;
    if s.starved >= 1 {
      assert s.starved * t.batch >= t.batch;
    }
  }

  // ----- an expired write

  /** The request that carries the data of w after a step: another one, if w was merged into it. */
  function Track(s: State, p: Step, k: Dir, w: nat): nat {
    if p.Merges? && p.d == k && p.gone == w && p.x in s.Of(k).fifo && p.x != w then p.x else w
  }

  /** The queued writes that expire no later than w, with w itself. */
  function Ahead(s: State, k: Dir, w: nat): set<nat> {
    NoLater(s.Of(k).fifo, s.expire, w)
  }

  function NoLater(f: seq<nat>, e: map<nat, int>, w: nat): set<nat> {
    set y | y in f && y in e && w in e && e[y] <= e[w]
  }

  lemma {:induction false} Fewer(a: set<nat>, b: set<nat>)
    requires a <= b
    ensures |a| <= |b|
  {
    if a != {} {
      var x :| x in a;
      Fewer(a - {x}, b - {x});
    }
  }

  lemma AheadAdd(t: Tunables, s: State, d: Dir, x: nat, sector: int, k: Dir, w: nat)
    requires Inv(t, s) && w in s.Of(k).fifo && Expired(s, w) && x !in s.pos
    requires x !in s.Of(d).sort && Keyed(s.Of(d).sort, s.pos)
    ensures Expired(Add(t, s, d, x, sector), w) && Ahead(Add(t, s, d, x, sector), k, w) <= Ahead(s, k, w)
  {
    hide Inv, SideBut, Latter, Without, Inserted, Alias, Shared, NoLater;
    Known(t, s, d);
    Known(t, s, k);
    InvParts(t, s, d);
    AddOk(t, s, d, x, sector);
    AddSortedFrame(s.(pos := s.pos[x := sector]), d, x);
    var s' := Add(t, s, d, x, sector);
    NotLater(s.Of(k).fifo, s.expire, s'.Of(k).fifo, s'.expire, x, w);
  }

  lemma NotLater(f: seq<nat>, e: map<nat, int>, f': seq<nat>, e': map<nat, int>, x: nat, w: nat)
    requires w in e && w != x && x in e' && e' == e[x := e'[x]] && e'[x] > e[w]
    requires forall y :: y in f' ==> y in f || y == x
    ensures NoLater(f', e', w) <= NoLater(f, e, w)
  {
  }

  lemma AheadFront(t: Tunables, s: State, d: Dir, x: nat, sector: int, k: Dir, w: nat)
    requires Inv(t, s) && w in s.Of(k).fifo && Expired(s, w) && x in s.Of(d).fifo && Keyed(s.Of(d).sort, s.pos)
    ensures Expired(FrontMerged(s, d, x, sector), w) && Ahead(FrontMerged(s, d, x, sector), k, w) <= Ahead(s, k, w)
  {
    InvParts(t, s, d);
    hide Inv, SideBut, Latter, Without, Inserted, Alias, Shared;
    FrontMergedOk(t, s, d, x, sector);
    AddSortedFrame(s.With(d, s.Of(d).(sort := Without(s.Of(d).sort, x))).(pos := s.pos[x := sector]), d, x);
  }

  /** The merged request has the earlier expiry of the two, and counts once. */
  lemma MergeSets(f: seq<nat>, f': seq<nat>, e: map<nat, int>, e': map<nat, int>, x: nat, gone: nat, w: nat)
    requires Keyed(f, e) && x in f && gone in f && w in f && x != gone
    requires forall y :: y in f' <==> y in f && y != gone
    requires e' == if e[gone] < e[x] then e[x := e[gone]] else e
    ensures var w' := if gone == w then x else w;
            w' in f' && w' in e' && e'[w'] <= e[w] && |NoLater(f', e', w')| <= |NoLater(f, e, w)|
  {
    var w' := if gone == w then x else w;
    var a, a' := NoLater(f, e, w), NoLater(f', e', w');
    assert e'[w'] <= e[w];
    assert a' - {x} <= a - {gone};
    if x in a' && x !in a {
      assert gone in a;
      Fewer(a' - {x}, a - {gone});
    } else {
      assert a' <= a;
      Fewer(a', a);
    }
  }

  lemma AheadMerge(t: Tunables, s: State, k: Dir, x: nat, gone: nat, w: nat)
    requires Inv(t, s) && x in s.Of(k).fifo && gone in s.Of(k).fifo && x != gone && w in s.Of(k).fifo && Expired(s, w)
    ensures var s', w' := Merged(s, k, x, gone), if gone == w then x else w;
            w' in s'.Of(k).fifo && Expired(s', w') && |Ahead(s', k, w')| <= |Ahead(s, k, w)|
  {
    hide SideBut, Latter, Without, Reordered, Apart, Distinct, NoLater;
    Known(t, s, k);
    MergedOk(t, s, k, x, gone);
    var s' := Merged(s, k, x, gone);
    MergeSets(s.Of(k).fifo, s'.Of(k).fifo, s.expire, s'.expire, x, gone, w);
  }

  lemma AheadMergeOther(t: Tunables, s: State, k: Dir, x: nat, gone: nat, w: nat)
    requires Inv(t, s) && x in s.Of(Other(k)).fifo && gone in s.Of(Other(k)).fifo && x != gone && w in s.Of(k).fifo
             && Expired(s, w)
    ensures var s' := Merged(s, Other(k), x, gone);
            w in s'.Of(k).fifo && Expired(s', w) && Ahead(s', k, w) == Ahead(s, k, w)
  {
    hide SideBut, Latter, Without, Reordered, Distinct;
    Known(t, s, k);
    MergedOk(t, s, Other(k), x, gone);
  }

  lemma AheadDispatch(t: Tunables, s: State, k: Dir, w: nat)
    requires Inv(t, s) && w in s.Of(k).fifo && Expired(s, w) && w in Dispatch(t, s).Of(k).fifo
    ensures Expired(Dispatch(t, s), w) && Ahead(Dispatch(t, s), k, w) <= Ahead(s, k, w)
    ensures Begins(t, s, k) ==> |Ahead(Dispatch(t, s), k, w)| <= |Ahead(s, k, w)| - 1
  {
    hide Inv, Latter, Without, NoLater;
    ChooseIs(t, s);
    Oldest(t, s, k, w);
    var c := Choose(t, s);
    if !c.Idle? {
      var s1 := s.(batching := if c.Continue? then s.batching + 1 else 1,
                   starved := if c.Continue? then s.starved else c.starved);
      assert Dispatch(t, s) == Move(s1, c.d, c.x);
      MoveInvBut(t, s, s1, c.d, c.x);
      var s' := Dispatch(t, s);
      Dropped(s.Of(k).fifo, s'.Of(k).fifo, s.expire, w, c.x);
      if Begins(t, s, k) {
        Fewer(Ahead(s', k, w), Ahead(s, k, w) - {c.x});
      }
    }
  }

  lemma Dropped(f: seq<nat>, f': seq<nat>, e: map<nat, int>, w: nat, x: nat)
    requires forall y :: y in f' ==> y in f
    ensures NoLater(f', e, w) <= NoLater(f, e, w) && (x !in f' ==> NoLater(f', e, w) <= NoLater(f, e, w) - {x})
  {
  }

  /** The fifo is in order of expiry, so its head has expired too and a write batch begins with it. */
  lemma Oldest(t: Tunables, s: State, k: Dir, w: nat)
    requires Inv(t, s) && w in s.Of(k).fifo && Expired(s, w)
    ensures s.Of(k).fifo[0] in Ahead(s, k, w) && First(s, k) == s.Of(k).fifo[0]
  {
    var i := Index(s.Of(k).fifo, w);
  }

  lemma MoveInvBut(t: Tunables, s: State, s1: State, d: Dir, x: nat)
    requires Inv(t, s) && s1 == s.(batching := s1.batching, starved := s1.starved) && x in s.Of(d).fifo
    ensures var s' := Move(s1, d, x);
            && s'.expire == s.expire && s'.now == s.now
            && (forall y :: y in s'.Of(d).fifo <==> y in s.Of(d).fifo && y != x)
            && s'.Of(Other(d)).fifo == s.Of(Other(d)).fifo
  {
    WithoutIs(s.Of(d).fifo, x);
  }

  lemma AheadStep(t: Tunables, s: State, p: Step, k: Dir, w: nat)
    requires Inv(t, s) && w in s.Of(k).fifo && Expired(s, w) && Track(s, p, k, w) in Next(t, s, p).Of(k).fifo
    ensures var s', w' := Next(t, s, p), Track(s, p, k, w);
            && Expired(s', w') && |Ahead(s', k, w')| <= |Ahead(s, k, w)|
            && (p.Dispatches? && Begins(t, s, k) ==> |Ahead(s', k, w')| <= |Ahead(s, k, w)| - 1)
  {
    hide Inv, Ahead, Begins, Dispatch, Add, FrontMerged, Merged;
    Known(t, s, Read);
    Known(t, s, Write);
    match p {
      case Adds(d, x, sector) =>
        if x !in s.pos {
          AheadAdd(t, s, d, x, sector, k, w);
          Fewer(Ahead(Add(t, s, d, x, sector), k, w), Ahead(s, k, w));
        }
      case FrontMerges(d, x, sector) =>
        if x in s.Of(d).fifo {
          AheadFront(t, s, d, x, sector, k, w);
          Fewer(Ahead(FrontMerged(s, d, x, sector), k, w), Ahead(s, k, w));
        }
      case Merges(d, x, gone) =>
        if x in s.Of(d).fifo && gone in s.Of(d).fifo && x != gone {
          if d == k { AheadMerge(t, s, k, x, gone, w); } else { AheadMergeOther(t, s, k, x, gone, w); }
        }
      case Dispatches =>
        AheadDispatch(t, s, k, w);
        Fewer(Ahead(Dispatch(t, s), k, w), Ahead(s, k, w));
      case Ticks(n) => AheadTick(s, n, k, w);
    }
  }

  lemma AheadTick(s: State, n: nat, k: Dir, w: nat)
    requires Expired(s, w)
    ensures Expired(s.(now := s.now + n), w) && Ahead(s.(now := s.now + n), k, w) == Ahead(s, k, w)
  {
  }

  /** The write, or the one it was merged into, is still queued after every step of the run. */
  ghost predicate Lingers(t: Tunables, s: State, k: Dir, w: nat, steps: seq<Step>)
    requires Inv(t, s) && t.batch >= 1
    decreases steps
  {
    && w in s.Of(k).fifo
    && (steps == [] ||
        (NextInv(t, s, steps[0]); Lingers(t, Next(t, s, steps[0]), k, Track(s, steps[0], k, w), steps[1..])))
  }

  lemma AfterBegin(t: Tunables, s: State)
    requires Inv(t, s) && Begins(t, s, Write)
    ensures Patience(t, Dispatch(t, s)) == Bound(t)
  {
    hide Inv, Latter, Without;
    assert (t.starve + 1) * t.batch == t.starve * t.batch + t.batch;
  }

  lemma LessByOne(n: nat, n': nat, b: nat)
    requires 1 <= n' <= n
    ensures (n' - 1) * b <= (n - 1) * b
    ensures n' < n ==> (n' - 1) * b + b <= (n - 1) * b
  {
    Arith.MulMono(b, n' - 1, n - 1);
    if n' < n {
      Arith.MulMono(b, n', n - 1);
    }
  }

  lemma AheadCounts(t: Tunables, s: State, k: Dir, w: nat)
    requires Inv(t, s) && w in s.Of(k).fifo
    ensures |Ahead(s, k, w)| >= 1
  {
    Known(t, s, k);
    assert w in Ahead(s, k, w);
  }

  lemma AfterBeginOf(t: Tunables, s: State, k: Dir)
    requires Inv(t, s) && Begins(t, s, k)
    ensures PatienceOf(t, Dispatch(t, s), k) <= BoundOf(t, k)
  {
    if k == Write {
      AfterBegin(t, s);
    } else {
      hide Inv, Latter, Without;
    }
  }

  /** In every run, an expired request leaves before every one queued with it that expires no later had its turn. */
  lemma {:induction false} ExpiredLeaves(t: Tunables, s: State, k: Dir, w: nat, steps: seq<Step>)
    requires Inv(t, s) && t.batch >= 1 && Fair(t, k)
    requires w in s.Of(k).fifo && Expired(s, w) && Lingers(t, s, k, w, steps)
    ensures Calls(steps) < (|Ahead(s, k, w)| - 1) * BoundOf(t, k) + PatienceOf(t, s, k)
    decreases steps
  {
    hide Inv, Next, Begins, Ahead, BoundOf, PatienceOf, Expired, Fair;
    PatienceKeeps(t, s, k, if steps == [] then Ticks(0) else steps[0]);
    AheadCounts(t, s, k, w);
    if steps == [] {
      assert (|Ahead(s, k, w)| - 1) * BoundOf(t, k) >= 0;
    } else {
      var p := steps[0];
      NextInv(t, s, p);
      var s', w' := Next(t, s, p), Track(s, p, k, w);
      AheadStep(t, s, p, k, w);
      AheadCounts(t, s', k, w');
      LessByOne(|Ahead(s, k, w)|, |Ahead(s', k, w')|, BoundOf(t, k));
      ExpiredLeaves(t, s', k, w', steps[1..]);
      NonEmpty(s, k, w);
      if p.Dispatches? && Begins(t, s, k) {
        DispatchIsNext(t, s);
        AfterBeginOf(t, s, k);
      }
    }
  }

  /** An expired write leaves within as many bounds of the settings as there are writes that expire no later. */
  lemma ExpiredWriteLeaves(t: Tunables, s: State, w: nat, steps: seq<Step>)
    requires Inv(t, s) && t.batch >= 1 && w in s.write.fifo && Expired(s, w) && Lingers(t, s, Write, w, steps)
    ensures Calls(steps) < (|Ahead(s, Write, w)| - 1) * Bound(t) + Patience(t, s)
  {
    hide Inv, Lingers, Patience, Bound, Calls, Ahead;
    ExpiredLeaves(t, s, Write, w, steps);
  }

  /**
   If reads may pass over writes at all, an expired read leaves within twice the batch for every read that expires no
   later, after the first batch of reads has begun.
   */
  lemma ExpiredReadLeaves(t: Tunables, s: State, w: nat, steps: seq<Step>)
    requires Inv(t, s) && t.batch >= 1 && t.starve >= 1
    requires w in s.read.fifo && Expired(s, w) && Lingers(t, s, Read, w, steps)
    ensures Calls(steps) < (|Ahead(s, Read, w)| - 1) * (2 * t.batch)
                           + t.batch - s.batching + (if s.starved == t.starve then t.batch else 0) + 1
  {
    hide Inv, Lingers, Calls, Ahead;
    ExpiredLeaves(t, s, Read, w, steps);
  }

  /** A batch begins with the oldest request of its direction if one has expired or none is next in sector order. */
  lemma BatchBeginsWith(t: Tunables, s: State)
    requires Inv(t, s) && Choose(t, s).Begin?
    ensures var d, x, f := Choose(t, s).d, Choose(t, s).x, s.Of(Choose(t, s).d).fifo;
            && x in f && (forall y :: y in f ==> y in s.expire)
            && (if s.Of(d).next.None? || exists y :: y in f && s.now > s.expire[y]
                then forall y :: y in f ==> s.expire[x] <= s.expire[y]
                else s.Of(d).next == Some(x))
  {
    var d := Choose(t, s).d;
    Known(t, s, d);
    ChooseIs(t, s);
    FifoInOrder(t, s, d);
    hide Inv, Distinct, Sorted;
    assert s.Of(d).fifo[0] in s.Of(d).fifo;
  }

  lemma FifoInOrder(t: Tunables, s: State, d: Dir)
    requires Inv(t, s) && s.Of(d).fifo != []
    ensures forall y :: y in s.Of(d).fifo ==> y in s.expire && s.Of(d).fifo[0] in s.expire
    ensures forall y :: y in s.Of(d).fifo ==> s.expire[s.Of(d).fifo[0]] <= s.expire[y]
  {
    var f := s.Of(d).fifo;
    assert Sorted(f, s.expire) && f[0] in f;
    hide Inv, Distinct;
    forall y | y in f ensures s.expire[f[0]] <= s.expire[y] {
      var i := Index(f, y);
    }
  }

  lemma NonEmpty(s: State, k: Dir, w: nat)
    requires w in s.Of(k).fifo
    ensures s.Of(k).fifo != []
  {
  }

  lemma SamePatience(t: Tunables, s: State, p: Step)
    requires Inv(t, s) && !p.Dispatches?
    ensures Patience(t, Next(t, s, p)) == Patience(t, s)
  {
    hide Inv, Next;
    CountersKept(t, s, p);
  }

  // ----- the bound cannot be improved

  /**
   A write waits, and enough reads are lined up in sector order: from the batch position, which is at index j, and from
   every expired read, where a batch may begin instead.
   */
  ghost predicate Lined(t: Tunables, s: State, j: nat) {
    && Inv(t, s) && t.batch >= 1 && s.write.fifo != [] && j <= |s.read.sort|
    && s.read.next == (if j == |s.read.sort| then None else Some(s.read.sort[j]))
    && (forall y :: y in s.read.sort && Expired(s, y) ==> |s.read.sort| - Index(s.read.sort, y) >= Patience(t, s) - 1)
    && |s.read.sort| - j >= Patience(t, s) - 1
  }

  lemma LinedChoice(t: Tunables, s: State, j: nat)
    requires Lined(t, s, j)
    ensures Patience(t, s) == 1 ==> Begins(t, s, Write)
    ensures Patience(t, s) > 1 ==>
              && !Choose(t, s).Idle? && Choose(t, s).d == Read && Choose(t, s).x in s.read.sort
              && |s.read.sort| - Index(s.read.sort, Choose(t, s).x) >= Patience(t, s) - 1
    ensures Patience(t, s) > 1 ==> Patience(t, Dispatch(t, s)) == Patience(t, s) - 1
  {
    hide SideBut, Apart, Latter, Without, Patience;
    Known(t, s, Read);
    PatienceLeft(t, s);
    SortDistinct(t, s);
    if j < |s.read.sort| {
      assert s.read.sort[j] in s.read.sort;
      IndexUnique(s.read.sort, j);
    }
    if Patience(t, s) > 1 {
      PatienceSpent(t, s);
    }
  }

  lemma SortDistinct(t: Tunables, s: State)
    requires Inv(t, s)
    ensures Distinct(s.read.sort) && Distinct(s.write.fifo)
  {
  }

  lemma PatienceLeft(t: Tunables, s: State)
    requires s.starved <= t.starve && s.batching <= t.batch && t.batch >= 1
    ensures Patience(t, s) >= 1
    ensures Patience(t, s) == 1 <==> s.starved == t.starve && s.batching == t.batch
  {
    Arith.MulMono(t.batch, if s.starved < t.starve then 1 else 0, t.starve - s.starved);
  }

  /** A batch that goes on, or a batch of reads that begins when the last one was full, uses up one call. */
  lemma PatienceSpent(t: Tunables, s: State)
    requires s.starved <= t.starve && s.batching <= t.batch && s.write.fifo != [] && Patience(t, s) > 1
    requires Choose(t, s).Continue? || (Choose(t, s).Begin? && Choose(t, s).d == Read && s.batching == t.batch)
    ensures Patience(t, Dispatch(t, s)) == Patience(t, s) - 1
  {
    hide Latter, Without;
    OneBatchLess(t.starve - s.starved, t.batch);
    assert t.starve - (s.starved + 1) == t.starve - s.starved - 1;
  }

  lemma LinedMove(t: Tunables, s: State, s1: State, j: nat)
    requires Inv(t, s) && j < |s.read.sort| && s.read.sort[j] in s.read.fifo
    requires s1 == s.(batching := s1.batching, starved := s1.starved)
    ensures var s' := Move(s1, Read, s.read.sort[j]);
            && s'.read.sort == s.read.sort[..j] + s.read.sort[j + 1..] && s'.write.fifo == s.write.fifo
            && s'.read.next == (if j == |s'.read.sort| then None else Some(s'.read.sort[j]))
            && s'.now == s.now && s'.expire == s.expire
  {
    SortDistinct(t, s);
    hide Inv;
    CutAt(s.read.sort, j);
    hide Without, Latter, Distinct;
  }

  lemma CutAt(s: seq<nat>, j: nat)
    requires Distinct(s) && j < |s|
    ensures Without(s, s[j]) == s[..j] + s[j + 1..]
    ensures Latter(s, s[j]) == (if j + 1 == |s| then None else Some(s[j + 1]))
    ensures Latter(s, s[j]) != Some(s[j])
  {
    IndexUnique(s, j);
  }

  lemma EarlierIndex(s: seq<nat>, k: nat, y: nat)
    requires Distinct(s) && k < |s| && y in s[..k] + s[k + 1..]
    ensures y in s && Index(s[..k] + s[k + 1..], y) <= Index(s, y)
  {
    CutIs(s, k);
    var r, i := s[..k] + s[k + 1..], Index(s, y);
    IndexUnique(r, if i < k then i else i - 1);
  }

  lemma LinedNext(t: Tunables, s: State, j: nat) returns (k: nat)
    requires Lined(t, s, j) && Patience(t, s) > 1
    ensures Lined(t, Dispatch(t, s), k) && Patience(t, Dispatch(t, s)) == Patience(t, s) - 1
    ensures Dispatch(t, s).write.fifo == s.write.fifo && Dispatch(t, s).expire == s.expire
    ensures Dispatch(t, s).now == s.now && !Begins(t, s, Write)
  {
    hide Inv, Patience, Move;
    LinedChoice(t, s, j);
    DispatchInv(t, s);
    ChooseIs(t, s);
    SortDistinct(t, s);
    var c := Choose(t, s);
    k := Index(s.read.sort, c.x);
    var s1 := s.(batching := if c.Continue? then s.batching + 1 else 1,
                 starved := if c.Continue? then s.starved else c.starved);
    assert Dispatch(t, s) == Move(s1, Read, c.x);
    LinedMove(t, s, s1, k);
    forall y | y in Dispatch(t, s).read.sort
      ensures y in s.read.sort && Index(Dispatch(t, s).read.sort, y) <= Index(s.read.sort, y)
    {
      EarlierIndex(s.read.sort, k, y);
    }
  }

  /** Putting a step that is no dispatch call in front of a run. */
  lemma Before(t: Tunables, s: State, p: Step, steps: seq<Step>)
    requires Inv(t, s) && t.batch >= 1
    ensures Inv(t, Next(t, s, p)) && Calls([p] + steps) == Calls(steps) + if p.Dispatches? then 1 else 0
    ensures && Starving(t, Next(t, s, p), Write, steps)
            && (p.Dispatches? ==> s.write.fifo != [] && !Begins(t, s, Write)) ==>
              Starving(t, s, Write, [p] + steps)
    ensures forall k, w :: w in s.Of(k).fifo && Lingers(t, Next(t, s, p), k, Track(s, p, k, w), steps) ==>
              Lingers(t, s, k, w, [p] + steps)
  {
    hide Inv, Next, Begins;
    NextInv(t, s, p);
    assert ([p] + steps)[1..] == steps;
  }

  // ----- lining up reads from any state

  /** The ids from x on and the sectors from m on are free. */
  ghost predicate Free(s: State, x: nat, m: int) {
    && (forall y :: y in s.pos ==> y < x)
    && (forall y :: y in s.read.sort ==> y in s.pos && s.pos[y] < m)
    && (forall y :: y in s.write.sort ==> y in s.pos && s.pos[y] < m)
  }

  /** The batch position is at index j and no expired read is behind it. */
  ghost predicate Lining(t: Tunables, s: State, j: nat) {
    && Inv(t, s) && t.batch >= 1 && j < |s.read.sort| && s.read.next == Some(s.read.sort[j])
    && (forall y :: y in s.read.sort && Expired(s, y) ==> Index(s.read.sort, y) <= j)
  }

  lemma {:induction false} SomeFree(s: State, ids: set<nat>) returns (x: nat, m: int)
    ensures forall y :: y in ids ==> y < x && (y in s.pos ==> s.pos[y] < m)
    decreases ids
  {
    x, m := 0, 0;
    if ids != {} {
      var y :| y in ids;
      x, m := SomeFree(s, ids - {y});
      x := if x > y then x else y + 1;
      m := if y in s.pos && s.pos[y] >= m then s.pos[y] + 1 else m;
      assert forall z :: z in ids ==> z == y || z in ids - {y};
    }
  }

  lemma PlacedAtEnd(o: seq<nat>, p: map<nat, int>, x: nat)
    requires x in p && forall y :: y in o ==> y in p && p[y] < p[x]
    ensures Alias(o, p, p[x]).None? && Inserted(o, p, x) == o + [x]
  {
    assert Place(o, p, p[x]) == |o|;
    assert o[..|o|] + [x] + o[|o|..] == o + [x];
  }

  /** A request beyond all others of its direction goes to the end of both lists. */
  lemma AddedAtEnd(t: Tunables, s: State, d: Dir, x: nat, sector: int)
    requires Inv(t, s) && Free(s, x, sector)
    ensures Next(t, s, Adds(d, x, sector))
            == s.With(d, Side(s.Of(d).sort + [x], s.Of(d).fifo + [x], s.Of(d).next))
               .(pos := s.pos[x := sector], expire := s.expire[x := s.now + Expiry(t, d)])
  {
    hide Inv, Place, Move, Alias, Inserted;
    assert x !in s.pos;
    PlacedAtEnd(s.Of(d).sort, s.pos[x := sector], x);
  }

  lemma FreeAfter(s: State, s': State, x: nat, m: int)
    requires Free(s, x, m) && s'.pos == s.pos[x := m]
    requires forall y :: y in s'.read.sort ==> y in s.read.sort || y == x
    requires forall y :: y in s'.write.sort ==> y in s.write.sort || y == x
    ensures Free(s', x + 1, m + 1)
  {
  }

  lemma IndexPrefix(s: seq<nat>, x: nat, y: nat)
    requires y in s
    ensures y in s + [x] && Index(s + [x], y) == Index(s, y)
  {
    if s[0] != y {
      IndexPrefix(s[1..], x, y);
      assert (s + [x])[1..] == s[1..] + [x];
    }
  }

  /** One more read at the end of the line. */
  lemma LineGrows(t: Tunables, s: State, j: nat, x: nat, m: int)
    requires Lining(t, s, j) && Free(s, x, m)
    ensures var s' := Next(t, s, Adds(Read, x, m));
            && Lining(t, s', j) && Free(s', x + 1, m + 1) && s'.write == s.write
            && |s'.read.sort| == |s.read.sort| + 1
  {
    var s' := Next(t, s, Adds(Read, x, m));
    hide Inv, Next;
    NextInv(t, s, Adds(Read, x, m));
    AddedAtEnd(t, s, Read, x, m);
    FreeAfter(s, s', x, m);
    forall y | y in s'.read.sort && Expired(s', y) ensures Index(s'.read.sort, y) <= j {
      assert y != x;
      IndexPrefix(s.read.sort, x, y);
    }
  }

  /** A read at the sector of the last but one makes that one go, and the batch position moves to the last. */
  lemma RoomMade(t: Tunables, s: State, o: seq<nat>, a: nat, b: nat, x: nat)
    requires Inv(t, s) && t.batch >= 1 && s.read.sort == o + [a, b] && x !in s.pos
    ensures a in s.pos
    ensures var s' := Next(t, s, Adds(Read, x, s.pos[a]));
            && s'.read.sort == o + [x, b] && s'.read.next == Some(b) && s'.write == s.write.(next := None)
            && s'.pos == s.pos[x := s.pos[a]] && s'.now == s.now && s'.expire == s.expire[x := s.now + t.readExpire]
  {
    hide Place, Alias, Inserted, Latter, Without, Apart;
    Known(t, s, Read);
    assert s.read.sort[|o|] == a;
    assert a in s.read.sort;
    var p := s.pos[x := s.pos[a]];
    RoomFound(o, a, b, p, x);
  }

  lemma PlaceAt(s: seq<nat>, key: map<nat, int>, p: int, k: nat)
    requires Keyed(s, key) && k < |s| && key[s[k]] >= p && forall i :: 0 <= i < k ==> key[s[i]] < p
    ensures Place(s, key, p) == k
  {
  }

  lemma RoomFound(o: seq<nat>, a: nat, b: nat, p: map<nat, int>, x: nat)
    requires Distinct(o + [a, b]) && Ascending(o + [a, b], p) && x in p && x !in o + [a, b]
    requires a in o + [a, b] && p[x] == p[a]
    ensures Alias(o + [a, b], p, p[x]) == Some(a)
    ensures Latter(o + [a, b], a) == Some(b)
    ensures Without(o + [a, b], a) == o + [b] && Keyed(o + [b], p) && Inserted(o + [b], p, x) == o + [x, b]
  {
    hide Place, Index;
    var s, r := o + [a, b], o + [b];
    TailSorted(o, a, b, p);
    IndexUnique(s, |o|);
    PlaceAt(s, p, p[x], |o|);
    PlaceAt(r, p, p[x], |o|);
    assert s[..|o|] + s[|o| + 1..] == r;
    assert r[..|o|] + [x] + r[|o|..] == o + [x, b];
  }

  lemma TailSorted(o: seq<nat>, a: nat, b: nat, p: map<nat, int>)
    requires Ascending(o + [a, b], p)
    ensures Keyed(o + [b], p) && a in p && b in p && p[a] < p[b]
    ensures forall i :: 0 <= i < |o| ==> o[i] in p && p[o[i]] < p[a]
    ensures (o + [a, b])[|o|] == a && (o + [a, b])[|o| + 1] == b && (o + [b])[|o|] == b
  {
    var s := o + [a, b];
    assert s[|o|] == a && s[|o| + 1] == b && a in s && b in s;
    forall i | 0 <= i < |o| ensures o[i] in p && p[o[i]] < p[a] {
      assert s[i] == o[i] && s[i] in s;
    }
    forall y | y in o + [b] ensures y in s {
    }
  }

  /** Two reads at the end of the tree. */
  lemma TwoMore(t: Tunables, s: State, x: nat, m: int)
    requires Inv(t, s) && t.batch >= 1 && Free(s, x, m)
    ensures var s1 := Next(t, s, Adds(Read, x, m));
            Inv(t, s1) &&
            var s2 := Next(t, s1, Adds(Read, x + 1, m + 1));
            && Inv(t, s2) && s2.read.sort == s.read.sort + [x, x + 1] && s2.write == s.write
            && Free(s2, x + 2, m + 2) && x in s2.pos && s2.pos[x] == m && s2.now == s.now
  {
    hide Inv, Next;
    var s1 := Next(t, s, Adds(Read, x, m));
    NextInv(t, s, Adds(Read, x, m));
    AddedAtEnd(t, s, Read, x, m);
    FreeAfter(s, s1, x, m);
    var s2 := Next(t, s1, Adds(Read, x + 1, m + 1));
    NextInv(t, s1, Adds(Read, x + 1, m + 1));
    AddedAtEnd(t, s1, Read, x + 1, m + 1);
    FreeAfter(s1, s2, x + 1, m + 1);
  }

  lemma FreeAgain(s: State, s': State, x: nat, m: int, p: int)
    requires Free(s, x, m) && s'.pos == s.pos[x := p] && p < m
    requires forall y :: y in s'.read.sort ==> y in s.read.sort || y == x
    requires forall y :: y in s'.write.sort ==> y in s.write.sort || y == x
    ensures Free(s', x + 1, m)
  {
  }

  /** Three reads at the end of the tree put the batch position there. */
  lemma LineBegins(t: Tunables, s: State, x: nat, m: int)
    requires Inv(t, s) && t.batch >= 1 && Free(s, x, m)
    ensures var s1 := Next(t, s, Adds(Read, x, m));
            Inv(t, s1) &&
            var s2 := Next(t, s1, Adds(Read, x + 1, m + 1));
            Inv(t, s2) &&
            var s3 := Next(t, s2, Adds(Read, x + 2, m));
            && Lining(t, s3, |s.read.sort| + 1) && Free(s3, x + 3, m + 2)
            && s3.write == s.write.(next := None) && |s3.read.sort| == |s.read.sort| + 2
            && s3.now == s.now
  {
    hide Inv, Next;
    TwoMore(t, s, x, m);
    var s2 := Next(t, Next(t, s, Adds(Read, x, m)), Adds(Read, x + 1, m + 1));
    var s3 := Next(t, s2, Adds(Read, x + 2, m));
    NextInv(t, s2, Adds(Read, x + 2, m));
    RoomMade(t, s2, s.read.sort, x, x + 1, x + 2);
    FreeAgain(s2, s3, x + 2, m + 2, m);
  }

  lemma LineReady(t: Tunables, s: State, j: nat, x: nat, m: int)
    requires Lining(t, s, j) && Free(s, x, m) && |s.read.sort| - j >= Patience(t, s)
    ensures var s' := Next(t, s, Adds(Write, x, m));
            && Lined(t, s', j) && Patience(t, s') == Patience(t, s) && s'.write.fifo == s.write.fifo + [x]
            && s'.now == s.now && s'.expire == s.expire[x := s.now + t.writeExpire]
  {
    hide Inv, Patience, Next;
    SamePatience(t, s, Adds(Write, x, m));
    NextInv(t, s, Adds(Write, x, m));
    AddedAtEnd(t, s, Write, x, m);
    var s' := Next(t, s, Adds(Write, x, m));
    assert forall y :: y in s.read.sort ==> y in s.pos;
    assert x !in s.read.sort;
  }

  // ----- the longest runs

  /** The write to wait for has expired, and those behind it in the fifo expire later; or there is none to wait for. */
  ghost predicate Overdue(s: State, o: Option<nat>) {
    o.Some? ==>
      && o.value in s.write.fifo && Expired(s, o.value) && Keyed(s.write.fifo, s.expire)
      && forall k, i :: 0 <= k < i < |s.write.fifo| && s.write.fifo[k] == o.value ==>
           s.expire[s.write.fifo[i]] > s.expire[o.value]
  }

  /** Either no write batch begins, or the write does not leave. */
  ghost predicate Waits(t: Tunables, s: State, o: Option<nat>, steps: seq<Step>)
    requires Inv(t, s) && t.batch >= 1
  {
    if o.None? then Starving(t, s, Write, steps) else Lingers(t, s, Write, o.value, steps)
  }

  /** How many write batches must begin before the wait is over. */
  function Turns(s: State, o: Option<nat>): nat {
    if o.None? then 1 else |Ahead(s, Write, o.value)|
  }

  ghost function Longest(t: Tunables, s: State, o: Option<nat>): int {
    (Turns(s, o) - 1) * Bound(t) + Patience(t, s) - 1
  }

  lemma StillOverdue(s: State, s': State, o: Option<nat>, more: seq<nat>)
    requires Overdue(s, o) && s'.now == s.now && s'.write.fifo == s.write.fifo + more
    requires forall y :: y in s.write.fifo && y in s.expire ==> y in s'.expire && s'.expire[y] == s.expire[y]
    requires forall y :: y in more ==> y in s'.expire && s'.expire[y] >= s.now
    ensures Overdue(s', o) && Turns(s', o) == Turns(s, o)
  {
    if o.Some? {
      assert Ahead(s', Write, o.value) == Ahead(s, Write, o.value);
    }
  }

  /** Requests added by one step that leave the writes as they are, or add one that expires later. */
  lemma AddsKeep(t: Tunables, s: State, o: Option<nat>, x: nat, more: seq<nat>, s': State)
    requires Inv(t, s) && Overdue(s, o) && x !in s.pos && s'.now == s.now
    requires s'.write.fifo == s.write.fifo + more && (more == [] || more == [x])
    requires s'.expire == s.expire[x := s.now + Expiry(t, if more == [] then Read else Write)]
    ensures Overdue(s', o) && Turns(s', o) == Turns(s, o)
  {
    Known(t, s, Write);
    hide Inv, Overdue;
    StillOverdue(s, s', o, more);
  }

  lemma FreeIn(t: Tunables, s: State) returns (x: nat, m: int)
    requires Inv(t, s)
    ensures Free(s, x, m)
  {
    Known(t, s, Read);
    Known(t, s, Write);
    hide Inv;
    x, m := SomeFree(s, s.pos.Keys);
  }

  /** When the patience is used up, the oldest write goes and the next round begins. */
  lemma OldestGoes(t: Tunables, s: State, w: nat)
    requires Inv(t, s) && Overdue(s, Some(w)) && Begins(t, s, Write) && |Ahead(s, Write, w)| > 1
    ensures var s' := Dispatch(t, s);
            Overdue(s', Some(w)) && |Ahead(s', Write, w)| == |Ahead(s, Write, w)| - 1 && Patience(t, s') == Bound(t)
  {
    AfterBegin(t, s);
    Oldest(t, s, Write, w);
    SortDistinct(t, s);
    var f, s' := s.write.fifo, Dispatch(t, s);
    hide Inv, Patience, Bound, Latter;
    FirstOut(s, w);
    assert s'.write.fifo == Without(f, f[0]) && s'.expire == s.expire && s'.now == s.now;
    WithoutFirst(f);
    OneLessAhead(s, s', w);
  }

  lemma WithoutFirst(f: seq<nat>)
    requires f != []
    ensures Without(f, f[0]) == f[1..]
  {
    assert Index(f, f[0]) == 0;
  }

  lemma FirstOut(s: State, w: nat)
    requires Overdue(s, Some(w)) && |Ahead(s, Write, w)| > 1
    ensures s.write.fifo[0] != w
  {
    if s.write.fifo[0] == w {
      assert Ahead(s, Write, w) <= {w} by {
        forall y | y in Ahead(s, Write, w) ensures y == w {
          var i :| 0 <= i < |s.write.fifo| && s.write.fifo[i] == y;
        }
      }
      Fewer(Ahead(s, Write, w), {w});
    }
  }

  lemma OneLessAhead(s: State, s': State, w: nat)
    requires Overdue(s, Some(w)) && Distinct(s.write.fifo) && s.write.fifo[0] != w
             && s.write.fifo[0] in Ahead(s, Write, w)
    requires s'.write.fifo == s.write.fifo[1..] && s'.expire == s.expire && s'.now == s.now
    ensures Overdue(s', Some(w)) && |Ahead(s', Write, w)| == |Ahead(s, Write, w)| - 1
  {
    var f := s.write.fifo;
    Tail(f);
    assert forall i :: 0 <= i < |f[1..]| ==> f[1..][i] == f[i + 1];
    assert Ahead(s', Write, w) == Ahead(s, Write, w) - {f[0]};
  }

  lemma NextTurn(t: Tunables, s: State, o: Option<nat>)
    requires Inv(t, s) && t.batch >= 1 && Overdue(s, o) && Begins(t, s, Write) && Turns(s, o) > 1
    ensures var s' := Dispatch(t, s);
            Inv(t, s') && Overdue(s', o) && Turns(s', o) == Turns(s, o) - 1 && Patience(t, s') == Bound(t) && o.Some?
  {
    hide Inv, Begins, Dispatch, Ahead, Overdue, Patience, Bound;
    OldestGoes(t, s, o.value);
    DispatchInv(t, s);
  }

  /** From lined-up reads. */
  lemma {:induction false} LinedWaits(t: Tunables, s: State, j: nat, o: Option<nat>) returns (steps: seq<Step>)
    requires Lined(t, s, j) && Overdue(s, o)
    ensures Waits(t, s, o, steps) && Calls(steps) == Longest(t, s, o)
    decreases Turns(s, o), 0, Patience(t, s)
  {
    hide Inv, Patience, Choose, Dispatch, Overdue, Begins, Turns, Bound, Waits, Calls;
    PatiencePositive(t, s);
    LinedChoice(t, s, j);
    if Patience(t, s) > 1 {
      var k := LinedNext(t, s, j);
      StillOverdue(s, Dispatch(t, s), o, []);
      var rest := LinedWaits(t, Dispatch(t, s), k, o);
      steps := CallBefore(t, s, o, rest);
    } else if Turns(s, o) > 1 {
      NextTurn(t, s, o);
      var rest := WorstCase(t, Dispatch(t, s), o);
      steps := CallBefore(t, s, o, rest);
      OneTurnLess(Turns(s, o), Bound(t));
    } else {
      steps := [];
      AtLeastOneTurn(t, s, o);
    }
  }

  lemma OneTurnLess(n: nat, b: nat)
    requires n > 1
    ensures (n - 2) * b + b == (n - 1) * b
  {
  }

  lemma AtLeastOneTurn(t: Tunables, s: State, o: Option<nat>)
    requires Inv(t, s) && t.batch >= 1 && Overdue(s, o)
    ensures Turns(s, o) >= 1 && Waits(t, s, o, []) && Calls([]) == 0
  {
    if o.Some? {
      AheadCounts(t, s, Write, o.value);
    }
  }

  lemma CallBefore(t: Tunables, s: State, o: Option<nat>, rest: seq<Step>) returns (steps: seq<Step>)
    requires Inv(t, s) && t.batch >= 1 && s.write.fifo != [] && Inv(t, Dispatch(t, s)) && Overdue(s, o)
    requires Waits(t, Dispatch(t, s), o, rest) && (o.None? ==> !Begins(t, s, Write))
    ensures Waits(t, s, o, steps) && Calls(steps) == 1 + Calls(rest) && AtCall(steps)
  {
    DispatchIsNext(t, s);
    hide Inv, Next, Dispatch, Begins, Starving, Lingers;
    Before(t, s, Dispatches, rest);
    steps := [Dispatches] + rest;
  }

  lemma AddBefore(t: Tunables, s: State, o: Option<nat>, p: Step, rest: seq<Step>) returns (steps: seq<Step>)
    requires Inv(t, s) && t.batch >= 1 && p.Adds? && Inv(t, Next(t, s, p)) && Overdue(s, o)
    requires Waits(t, Next(t, s, p), o, rest)
    ensures Waits(t, s, o, steps) && Calls(steps) == Calls(rest)
  {
    hide Inv, Next, Starving, Lingers;
    Before(t, s, p, rest);
    steps := [p] + rest;
  }

  /** While reads are being lined up. */
  lemma {:induction false} LiningWaits(t: Tunables, s: State, j: nat, x: nat, m: int, o: Option<nat>)
    returns (steps: seq<Step>)
    requires Lining(t, s, j) && Free(s, x, m) && Overdue(s, o)
    ensures Waits(t, s, o, steps) && Calls(steps) == Longest(t, s, o)
    decreases Turns(s, o), 1, Patience(t, s) - (|s.read.sort| - j)
  {
    hide Inv, Patience, Next, Waits, Overdue, Calls, Bound, Turns;
    var p := Adds(if |s.read.sort| - j < Patience(t, s) then Read else Write, x, m);
    AddedAtEnd(t, s, p.d, x, m);
    NextInv(t, s, p);
    AddsKeep(t, s, o, x, if p.d == Read then [] else [x], Next(t, s, p));
    var rest;
    if p.d == Read {
      LineGrows(t, s, j, x, m);
      SamePatience(t, s, p);
      rest := LiningWaits(t, Next(t, s, p), j, x + 1, m + 1, o);
    } else {
      LineReady(t, s, j, x, m);
      rest := LinedWaits(t, Next(t, s, p), j, o);
    }
    steps := AddBefore(t, s, o, p, rest);
  }

  /**
   From every state there is a run in which no write batch begins until the patience is used up, and one in which an
   overdue write stays for as long as ExpiredWriteLeaves allows: neither bound can be improved.
   */
  lemma {:induction false} WorstCase(t: Tunables, s: State, o: Option<nat>) returns (steps: seq<Step>)
    requires Inv(t, s) && t.batch >= 1 && Overdue(s, o)
    ensures Waits(t, s, o, steps) && Calls(steps) == Longest(t, s, o)
    decreases Turns(s, o), 2, 0
  {
    hide Inv, Patience, Next, Waits, Overdue, Calls, Bound, Turns;
    var x, m := FreeIn(t, s);
    LineBegins(t, s, x, m);
    var p1, p2, p3 := Adds(Read, x, m), Adds(Read, x + 1, m + 1), Adds(Read, x + 2, m);
    var s1 := Next(t, s, p1);
    var s2 := Next(t, s1, p2);
    var s3 := Next(t, s2, p3);
    LineBeginsKeeps(t, s, o, x, m);
    SamePatience(t, s, p1);
    SamePatience(t, s1, p2);
    SamePatience(t, s2, p3);
    steps := LiningWaits(t, s3, |s.read.sort| + 1, x + 3, m + 2, o);
    steps := AddBefore(t, s2, o, p3, steps);
    steps := AddBefore(t, s1, o, p2, steps);
    steps := AddBefore(t, s, o, p1, steps);
  }

  lemma LineBeginsKeeps(t: Tunables, s: State, o: Option<nat>, x: nat, m: int)
    requires Inv(t, s) && t.batch >= 1 && Free(s, x, m) && Overdue(s, o)
    ensures var s1 := Next(t, s, Adds(Read, x, m));
            Inv(t, s1) && Overdue(s1, o) &&
            var s2 := Next(t, s1, Adds(Read, x + 1, m + 1));
            Inv(t, s2) && Overdue(s2, o) &&
            var s3 := Next(t, s2, Adds(Read, x + 2, m));
            Inv(t, s3) && Overdue(s3, o) && Turns(s3, o) == Turns(s, o)
  {
    hide Inv, Next, Overdue, Turns;
    var p1, p2, p3 := Adds(Read, x, m), Adds(Read, x + 1, m + 1), Adds(Read, x + 2, m);
    var s1 := Next(t, s, p1);
    NextInv(t, s, p1);
    AddedAtEnd(t, s, Read, x, m);
    FreeAfter(s, s1, x, m);
    AddsKeep(t, s, o, x, [], s1);
    var s2 := Next(t, s1, p2);
    NextInv(t, s1, p2);
    AddedAtEnd(t, s1, Read, x + 1, m + 1);
    AddsKeep(t, s1, o, x + 1, [], s2);
    FreeAfter(s1, s2, x + 1, m + 1);
    NextInv(t, s2, p3);
    RoomMade(t, s2, s.read.sort, x, x + 1, x + 2);
    AddsKeep(t, s2, o, x + 2, [], Next(t, s2, p3));
  }

  // ----- reads that may pass over no write

  /** A write at the sector of the last one makes that one go, and no read is next any more. */
  lemma WriteAliased(t: Tunables, s: State, o: seq<nat>, a: nat, x: nat)
    requires Inv(t, s) && t.batch >= 1 && s.write.sort == o + [a] && x !in s.pos
    ensures a in s.pos
    ensures var s' := Next(t, s, Adds(Write, x, s.pos[a]));
            && s'.read == s.read.(next := None) && s'.pos == s.pos[x := s.pos[a]]
            && (forall y :: y in s'.write.sort ==> y in s.write.sort || y == x)
  {
    hide Place, Alias, Inserted, Latter, Without, Apart;
    Known(t, s, Write);
    assert s.write.sort[|o|] == a;
    assert a in s.write.sort;
    var p := s.pos[x := s.pos[a]];
    AliasLast(o, a, p, p[x]);
    WithoutIs(s.write.sort, a);
    WithoutKeyed(s.write.sort, a, p);
    Members(Without(s.write.sort, a), p, x);
  }

  lemma AliasLast(o: seq<nat>, a: nat, p: map<nat, int>, v: int)
    requires Ascending(o + [a], p) && a in o + [a] && p[a] == v
    ensures Keyed(o + [a], p) && Alias(o + [a], p, v) == Some(a)
  {
    var s := o + [a];
    assert s[|o|] == a;
    forall i | 0 <= i < |o| ensures p[s[i]] < v {
      assert s[i] in s;
    }
    PlaceAt(s, p, v, |o|);
  }

  lemma Members(s: seq<nat>, p: map<nat, int>, x: nat)
    requires Keyed(s, p) && x in p
    ensures forall y :: y in Inserted(s, p, x) ==> y in s || y == x
  {
  }

  /** Without a next read, and with writes queued, the call serves a write. */
  lemma WriteServed(t: Tunables, s: State)
    requires Inv(t, s) && t.starve == 0 && s.read.next.None? && s.write.fifo != []
    ensures var s' := Dispatch(t, s);
            && s'.read == s.read && s'.pos == s.pos && (forall y :: y in s'.write.sort ==> y in s.write.sort)
  {
    ChooseIs(t, s);
    var c := Choose(t, s);
    WithoutIs(s.write.sort, c.x);
    hide Inv, Latter, Without, Distinct;
  }

  /** While writes keep coming, a read stays for any number of calls. */
  lemma {:induction false} ReadStays(t: Tunables, s: State, w: nat, x: nat, m: int, n: nat) returns (steps: seq<Step>)
    requires Inv(t, s) && t.batch >= 1 && t.starve == 0 && s.read.next.None? && w in s.read.fifo && Free(s, x, m)
    ensures Lingers(t, s, Read, w, steps) && Calls(steps) == n
    decreases n
  {
    hide Inv, Next, Dispatch;
    steps := [];
    if n > 0 {
      var p := Adds(Write, x, m);
      var s1 := Next(t, s, p);
      NextInv(t, s, p);
      AddedAtEnd(t, s, Write, x, m);
      FreeAfter(s, s1, x, m);
      var s2 := Dispatch(t, s1);
      NextInv(t, s1, Dispatches);
      DispatchIsNext(t, s1);
      WriteServed(t, s1);
      var rest := ReadStays(t, s2, w, x + 1, m + 1, n - 1);
      Before(t, s1, Dispatches, rest);
      Before(t, s, p, [Dispatches] + rest);
      steps := [p] + ([Dispatches] + rest);
    }
  }

  /**
   Settings under which reads may pass over no write give a read no bound at all: from every state, for any number.
   */
  lemma ReadsUnbounded(t: Tunables, s: State, w: nat, n: nat) returns (steps: seq<Step>)
    requires Inv(t, s) && t.batch >= 1 && t.starve == 0 && w in s.read.fifo
    ensures Lingers(t, s, Read, w, steps) && Calls(steps) == n
  {
    hide Inv, Next;
    var x, m := FreeIn(t, s);
    var p1, p2 := Adds(Write, x, m), Adds(Write, x + 1, m);
    var s1 := Next(t, s, p1);
    NextInv(t, s, p1);
    AddedAtEnd(t, s, Write, x, m);
    FreeAfter(s, s1, x, m);
    var s2 := Next(t, s1, p2);
    NextInv(t, s1, p2);
    WriteAliased(t, s1, s.write.sort, x, x + 1);
    FreeAgain(s1, s2, x + 1, m + 1, m);
    var rest := ReadStays(t, s2, w, x + 2, m + 1, n);
    Before(t, s1, p2, rest);
    Before(t, s, p1, [p2] + rest);
    steps := [p1] + ([p2] + rest);
  }

  /** So a bound on how long an expired read stays exists exactly if reads may pass over a write. */
  lemma ReadBoundExact(t: Tunables, s: State, w: nat)
    requires Inv(t, s) && t.batch >= 1 && w in s.read.fifo && Expired(s, w)
    ensures (exists b :: ReadBound(t, s, w, b)) <==> t.starve >= 1
  {
    hide Inv, Lingers, Calls, Ahead;
    if t.starve >= 1 {
      var b := (|Ahead(s, Read, w)| - 1) * (2 * t.batch) + 2 * t.batch + 1;
      forall steps | Lingers(t, s, Read, w, steps) ensures Calls(steps) < b {
        ExpiredReadLeaves(t, s, w, steps);
      }
      assert ReadBound(t, s, w, b);
    } else {
      forall b: int ensures !ReadBound(t, s, w, b) {
        var steps := ReadsUnbounded(t, s, w, if b >= 0 then b else 0);
        assert Lingers(t, s, Read, w, steps) && !(Calls(steps) < b);
      }
    }
  }

  /** In every run in which the read stays there are fewer calls than this. */
  ghost predicate ReadBound(t: Tunables, s: State, w: nat, b: int)
    requires Inv(t, s) && t.batch >= 1
  {
    forall steps :: Lingers(t, s, Read, w, steps) ==> Calls(steps) < b
  }

  // ----- the promise

  /** The run begins with a dispatch call. */
  predicate AtCall(steps: seq<Step>) {
    steps != [] && steps[0].Dispatches?
  }

  predicate NoBatch(s: State) {
    s.read.next.None? && s.write.next.None?
  }

  /**
   Once a dispatch call has been made, and also from the first one on if no batch position is set then, every run begins
   a write batch within (starve + 1) * batch calls while writes are queued, and an expired write with k others that
   expire no later leaves within k + 1 times that.
   */
  lemma Promise(t: Tunables, s: State, w: nat, steps: seq<Step>)
    requires Inv(t, s) && t.batch >= 1
    requires s.batching >= 1 || s.starved >= 1 || (NoBatch(s) && AtCall(steps))
    ensures Starving(t, s, Write, steps) ==> Calls(steps) < Bound(t)
    ensures w in s.write.fifo && Expired(s, w) && Lingers(t, s, Write, w, steps) ==>
              Calls(steps) < |Ahead(s, Write, w)| * Bound(t)
  {
    hide Inv, Next, Bound, Patience, Ahead, Starving, Lingers;
    if s.batching >= 1 || s.starved >= 1 {
      BoundHolds(t, s);
      PromiseLater(t, s, w, steps);
    } else {
      PromiseFirst(t, s, w, steps);
    }
  }

  lemma PromiseLater(t: Tunables, s: State, w: nat, steps: seq<Step>)
    requires Inv(t, s) && t.batch >= 1 && Patience(t, s) <= Bound(t)
    ensures Starving(t, s, Write, steps) ==> Calls(steps) < Bound(t)
    ensures w in s.write.fifo && Expired(s, w) && Lingers(t, s, Write, w, steps) ==>
              Calls(steps) < |Ahead(s, Write, w)| * Bound(t)
  {
    hide Inv, Next, Bound, Patience, Ahead, Starving, Lingers;
    if Starving(t, s, Write, steps) {
      WritesBegin(t, s, steps);
    }
    if w in s.write.fifo && Expired(s, w) && Lingers(t, s, Write, w, steps) {
      ExpiredWriteLeaves(t, s, w, steps);
      var n := |Ahead(s, Write, w)|;
      assert (n - 1) * Bound(t) + Bound(t) == n * Bound(t);
    }
  }

  /** A first call without batch position begins a batch, which leaves less patience than a full bound. */
  lemma FirstBegins(t: Tunables, s: State)
    requires Inv(t, s) && t.batch >= 1 && s.batching == 0 && s.starved == 0 && NoBatch(s) && s.write.fifo != []
    ensures !Begins(t, s, Write) ==> Patience(t, Dispatch(t, s)) < Bound(t)
  {
    hide Inv, Latter, Without;
    OneBatchLess(t.starve, t.batch);
    assert (t.starve + 1) * t.batch == t.starve * t.batch + t.batch;
  }

  lemma PromiseFirst(t: Tunables, s: State, w: nat, steps: seq<Step>)
    requires Inv(t, s) && t.batch >= 1 && s.batching == 0 && s.starved == 0 && NoBatch(s) && AtCall(steps)
    ensures Starving(t, s, Write, steps) ==> Calls(steps) < Bound(t)
    ensures w in s.write.fifo && Expired(s, w) && Lingers(t, s, Write, w, steps) ==>
              Calls(steps) < |Ahead(s, Write, w)| * Bound(t)
  {
    hide Inv, Next, Bound, Patience, Ahead, Begins, Expired, Dispatch, Choose, NoBatch;
    var rest := steps[1..];
    FirstStep(t, s, w, steps);
    if Starving(t, s, Write, steps) {
      FirstBegins(t, s);
      WritesBegin(t, Dispatch(t, s), rest);
    }
    if w in s.write.fifo && Expired(s, w) && Lingers(t, s, Write, w, steps) {
      LingersFirst(t, s, w, rest);
    }
  }

  /** A run that begins with a dispatch call goes on from the state after it. */
  lemma FirstStep(t: Tunables, s: State, w: nat, steps: seq<Step>)
    requires Inv(t, s) && t.batch >= 1 && AtCall(steps)
    ensures Inv(t, Dispatch(t, s)) && Calls(steps) == 1 + Calls(steps[1..])
    ensures Starving(t, s, Write, steps) ==>
              s.write.fifo != [] && !Begins(t, s, Write) && Starving(t, Dispatch(t, s), Write, steps[1..])
    ensures Lingers(t, s, Write, w, steps) ==>
              w in Dispatch(t, s).write.fifo && Lingers(t, Dispatch(t, s), Write, w, steps[1..])
  {
    NextInv(t, s, Dispatches);
    DispatchIsNext(t, s);
    hide Inv, Next, Begins, Dispatch, Choose;
    if Lingers(t, s, Write, w, steps) {
      assert Lingers(t, Dispatch(t, s), Write, w, steps[1..]);
    }
  }

  lemma FirstAhead(t: Tunables, s: State, w: nat)
    requires Inv(t, s) && t.batch >= 1 && s.batching == 0 && s.starved == 0 && NoBatch(s)
    requires w in s.write.fifo && Expired(s, w) && Inv(t, Dispatch(t, s)) && w in Dispatch(t, s).write.fifo
    ensures var s1 := Dispatch(t, s);
            && Expired(s1, w) && 1 <= |Ahead(s1, Write, w)| <= |Ahead(s, Write, w)|
            && (|| Patience(t, s1) < Bound(t)
                || (Patience(t, s1) == Bound(t) && |Ahead(s1, Write, w)| < |Ahead(s, Write, w)|))
  {
    hide Inv, Next, Bound, Patience, Ahead, Begins, Expired, Dispatch, Choose, NoBatch;
    DispatchIsNext(t, s);
    NonEmpty(s, Write, w);
    FirstBegins(t, s);
    AheadStep(t, s, Dispatches, Write, w);
    AheadCounts(t, Dispatch(t, s), Write, w);
    if Begins(t, s, Write) {
      AfterBegin(t, s);
    }
  }

  lemma LingersFirst(t: Tunables, s: State, w: nat, rest: seq<Step>)
    requires Inv(t, s) && t.batch >= 1 && s.batching == 0 && s.starved == 0 && NoBatch(s)
    requires w in s.write.fifo && Expired(s, w) && Inv(t, Dispatch(t, s))
    requires w in Dispatch(t, s).write.fifo && Lingers(t, Dispatch(t, s), Write, w, rest)
    ensures Calls(rest) + 1 < |Ahead(s, Write, w)| * Bound(t)
  {
    hide Inv, Bound, Patience, Ahead, Expired, Dispatch, NoBatch, Lingers, Calls;
    var s1 := Dispatch(t, s);
    BoundPositive(t);
    FirstAhead(t, s, w);
    ExpiredWriteLeaves(t, s1, w, rest);
    FirstSums(|Ahead(s, Write, w)|, |Ahead(s1, Write, w)|, Bound(t), Patience(t, s1), Calls(rest));
  }

  lemma FirstSums(n: nat, n': nat, b: nat, p: int, calls: nat)
    requires 1 <= n' <= n && b >= 1 && calls < (n' - 1) * b + p
    requires p < b || (p == b && n' < n)
    ensures calls + 1 < n * b
  {
    LessByOne(n, n', b);
    assert (n - 1) * b + b == n * b;
  }

  lemma BoundPositive(t: Tunables)
    requires t.batch >= 1
    ensures Bound(t) >= 1
  {
    assert (t.starve + 1) * t.batch == t.starve * t.batch + t.batch;
  }

  /** The promise holds for every run exactly if a dispatch call has been made before. */
  lemma PromiseExact(t: Tunables, s: State)
    requires Inv(t, s) && t.batch >= 1
    ensures (forall steps :: Starving(t, s, Write, steps) ==> Calls(steps) < Bound(t))
       <==> s.batching >= 1 || s.starved >= 1
  {
    hide Inv, Bound, Patience, Starving, Calls;
    BoundHolds(t, s);
    if s.batching >= 1 || s.starved >= 1 {
      forall steps | Starving(t, s, Write, steps) ensures Calls(steps) < Bound(t) {
        WritesBegin(t, s, steps);
      }
    } else {
      var steps := WorstCase(t, s, None);
      assert Starving(t, s, Write, steps) && !(Calls(steps) < Bound(t));
    }
  }

  /** The same for how long a write stays that has expired, if those behind it in the fifo expire later. */
  lemma ExpiredExact(t: Tunables, s: State, w: nat)
    requires Inv(t, s) && t.batch >= 1 && Overdue(s, Some(w))
    ensures (forall steps :: Lingers(t, s, Write, w, steps) ==> Calls(steps) < |Ahead(s, Write, w)| * Bound(t))
       <==> s.batching >= 1 || s.starved >= 1
  {
    hide Inv, Bound, Patience, Lingers, Calls, Ahead;
    BoundHolds(t, s);
    if s.batching >= 1 || s.starved >= 1 {
      forall steps | Lingers(t, s, Write, w, steps) ensures Calls(steps) < |Ahead(s, Write, w)| * Bound(t) {
        PromiseLater(t, s, w, steps);
      }
    } else {
      var steps := WorstCase(t, s, Some(w));
      var n := |Ahead(s, Write, w)|;
      assert (n - 1) * Bound(t) + Bound(t) == n * Bound(t);
      assert Lingers(t, s, Write, w, steps) && !(Calls(steps) < n * Bound(t));
    }
  }

  /** Counted from a call with writes queued, it holds exactly if one was made before or no batch position is set. */
  lemma PromiseExactAtCall(t: Tunables, s: State)
    requires Inv(t, s) && t.batch >= 1 && s.write.fifo != []
    ensures (forall steps :: AtCall(steps) && Starving(t, s, Write, steps) ==> Calls(steps) < Bound(t))
       <==> s.batching >= 1 || s.starved >= 1 || NoBatch(s)
  {
    hide Inv, Next, Bound, Patience, Starving, Calls, Begins;
    if s.batching >= 1 || s.starved >= 1 || NoBatch(s) {
      forall steps | AtCall(steps) && Starving(t, s, Write, steps) ensures Calls(steps) < Bound(t) {
        Promise(t, s, 0, steps);
      }
    } else {
      NextInv(t, s, Dispatches);
      DispatchIsNext(t, s);
      FirstContinues(t, s);
      var rest := WorstCase(t, Dispatch(t, s), None);
      var steps := CallBefore(t, s, None, rest);
      assert Starving(t, s, Write, steps) && !(Calls(steps) < Bound(t));
    }
  }

  lemma FirstContinues(t: Tunables, s: State)
    requires Inv(t, s) && t.batch >= 1 && s.batching == 0 && s.starved == 0 && !NoBatch(s)
    ensures !Begins(t, s, Write) && Patience(t, Dispatch(t, s)) == Bound(t)
  {
    hide Inv, Latter, Without;
    assert (t.starve + 1) * t.batch == t.starve * t.batch + t.batch;
  }

  /** The queue starts without requests and so without a batch position. */
  lemma StartInv(t: Tunables, now: int)
    ensures Inv(t, Start(now)) && NoBatch(Start(now))
  {
  }

  // ----- the scheduler's data, updated in place

  lemma AddReady(t: Tunables, s: State, d: Dir, x: nat, sector: int)
    requires Inv(t, s) && x !in s.pos
    ensures Distinct(s.Of(d).sort) && Ascending(s.Of(d).sort, s.pos[x := sector])
  {
  }

  lemma FrontReady(t: Tunables, s: State, d: Dir, x: nat, sector: int)
    requires Inv(t, s)
    ensures var r := Without(s.Of(d).sort, x); Distinct(r) && Ascending(r, s.pos[x := sector])
  {
    WithoutIs(s.Of(d).sort, x);
    WithoutSorted(s.Of(d).sort, x, s.pos);
    hide Without;
  }

  class DeadlineData {
    const settings: Tunables
    var read: Side
    var write: Side
    var pos: map<nat, int>
    var expire: map<nat, int>
    var batching: nat
    var starved: nat
    var dispatched: seq<nat>
    var jiffies: int

    ghost function Value(): State
      reads this
    {
      State(read, write, pos, expire, batching, starved, dispatched, jiffies)
    }

    ghost predicate Valid()
      reads this
    {
      settings.batch >= 1 && Inv(settings, Value())
    }

    constructor (t: Tunables, now: int)
      requires t.batch >= 1
      ensures Valid() && settings == t && Value() == Start(now)
    {
      settings := t;
      read, write, pos, expire, batching, starved, dispatched := EMPTY, EMPTY, map[], map[], 0, 0, [];
      jiffies := now;
    }

    function Of(d: Dir): Side
      reads this
      ensures Of(d) == Value().Of(d)
    {
      if d == Read then read else write
    }

    method Set(d: Dir, x: Side)
      modifies `read, `write
      ensures Value() == old(Value()).With(d, x)
    {
      if d == Read {
        read := x;
      } else {
        write := x;
      }
    }

    method DelRqRb(d: Dir, x: nat)
      modifies `read, `write
      ensures var side := old(Value()).Of(d);
              Value() == old(Value()).With(d, Removed(side, x).(fifo := side.fifo))
    {
      var side := Of(d);
      if side.next == Some(x) {
        side := side.(next := Latter(side.sort, x));
      }
      Set(d, side.(sort := Without(side.sort, x)));
    }

    method RemoveRequest(d: Dir, x: nat)
      modifies `read, `write
      ensures Value() == old(Value()).With(d, Removed(old(Value()).Of(d), x))
    {
      var side := Of(d);
      Set(d, side.(fifo := Without(side.fifo, x)));
      DelRqRb(d, x);
    }

    method MoveRequest(d: Dir, x: nat)
      modifies `read, `write, `dispatched
      ensures Value() == Move(old(Value()), d, x)
    {
      read, write := read.(next := None), write.(next := None);
      var side := Of(d);
      Set(d, side.(next := Latter(side.sort, x)));
      RemoveRequest(d, x);
      dispatched := dispatched + [x];
    }

    /** The loop makes room at the sector; it never has to move more than one request. */
    method AddRqRb(d: Dir, x: nat)
      requires Distinct(Of(d).sort) && Ascending(Of(d).sort, pos) && x in pos
      modifies `read, `write, `dispatched
      ensures Value() == AddSorted(old(Value()), d, x)
    {
      ghost var s := Value();
      var a := Alias(Of(d).sort, pos, pos[x]);
      AliasMeans(Of(d).sort, pos, pos[x]);
      ghost var first := a;
      while a.Some?
        invariant pos == old(pos)
        invariant if a.Some? then Value() == s && a == first
                  else Value() == if first.Some? then Move(s, d, first.value) else s
        decreases a.Some?
      {
        MoveRequest(d, a.value);
        WithoutIs(s.Of(d).sort, a.value);
        WithoutSorted(s.Of(d).sort, a.value, pos);
        a := Alias(Of(d).sort, pos, pos[x]);
        AliasMeans(Of(d).sort, pos, pos[x]);
      }
      WithoutKeyed(s.Of(d).sort, if first.Some? then first.value else 0, pos);
      Set(d, Of(d).(sort := Inserted(Of(d).sort, pos, x)));
    }

    method AddRequest(d: Dir, x: nat, sector: int)
      requires Valid() && x !in pos
      modifies this
      ensures Valid()
      ensures x !in old(Value()).Of(d).sort && Keyed(old(Value()).Of(d).sort, old(pos))
      ensures Value() == Add(settings, old(Value()), d, x, sector)
    {
      hide Inv, Distinct, Ascending, Alias, Inserted, Move;
      ghost var s := Value();
      Known(settings, s, d);
      AddInv(settings, s, d, x, sector);
      AddReady(settings, s, d, x, sector);
      pos := pos[x := sector];
      AddRqRb(d, x);
      expire := expire[x := jiffies + Expiry(settings, d)];
      Set(d, Of(d).(fifo := Of(d).fifo + [x]));
    }

    method MergedRequest(d: Dir, x: nat, sector: int)
      requires Valid() && x in Of(d).fifo
      modifies this
      ensures Valid()
      ensures Keyed(old(Value()).Of(d).sort, old(pos))
      ensures Value() == FrontMerged(old(Value()), d, x, sector)
    {
      hide Inv, Distinct, Ascending, Alias, Inserted, Move, Without;
      ghost var s := Value();
      Known(settings, s, d);
      FrontMergedInv(settings, s, d, x, sector);
      FrontReady(settings, s, d, x, sector);
      pos := pos[x := sector];
      Set(d, Of(d).(sort := Without(Of(d).sort, x)));
      AddRqRb(d, x);
    }

    method MergedRequests(d: Dir, x: nat, gone: nat)
      requires Valid() && x in Of(d).fifo && gone in Of(d).fifo && x != gone
      modifies this
      ensures Valid() && Value() == Merged(old(Value()), d, x, gone)
    {
      ghost var s := Value();
      Known(settings, s, d);
      MergedInv(settings, s, d, x, gone);
      if expire[gone] < expire[x] {
        Set(d, Of(d).(fifo := Reordered(Of(d), x, gone)));
        expire := expire[x := expire[gone]];
      }
      RemoveRequest(d, gone);
    }

    /** Not in a batch: reads go first unless writes have been passed over often enough. */
    method PickDirection() returns (d: Dir)
      requires read.fifo != [] || write.fifo != []
      modifies `starved
      ensures Of(d).fifo != []
      ensures d == Read ==> starved == if write.fifo == [] then old(starved) else old(starved) + 1
      ensures d == Read ==> (write.fifo != [] ==> old(starved) < settings.starve)
      ensures d == Write ==> starved == 0 && (read.fifo != [] ==> old(starved) >= settings.starve)
    {
      if read.fifo != [] {
        if write.fifo != [] {
          starved := starved + 1;
          if starved - 1 >= settings.starve {
            starved := 0;
            return Write;
          }
        }
        return Read;
      }
      starved := 0;
      return Write;
    }

    method StartBatch()
      requires Valid() && Choose(settings, Value()).Begin?
      modifies this
      ensures Value() == Dispatch(settings, old(Value()))
    {
      hide Inv, Latter, Without;
      Known(settings, Value(), Read);
      Known(settings, Value(), Write);
      var d := PickDirection();
      assert Of(d).fifo[0] in Of(d).sort;
      var first := Of(d).fifo[0];
      var x := if (first in expire && jiffies > expire[first]) || Of(d).next.None? then first else Of(d).next.value;
      batching := 1;
      MoveRequest(d, x);
    }

    /**
     Picks the direction and the request; the two assertions in the source are about sort trees that are not empty.
     */
    method DispatchRequests() returns (found: bool)
      requires Valid()
      modifies this
      ensures Valid() && Value() == Dispatch(settings, old(Value()))
      ensures found <==> old(read.fifo != [] || write.fifo != [])
      ensures found ==> |dispatched| == |old(dispatched)| + 1
    {
      hide Inv, Latter, Without;
      ghost var s := Value();
      Known(settings, s, Read);
      Known(settings, s, Write);
      ChooseIs(settings, s);
      DispatchInv(settings, s);
      var rq := if write.next.Some? then write.next else read.next;
      if rq.Some? && batching < settings.batch {
        var d := if write.next.Some? then Write else Read;
        batching := batching + 1;
        MoveRequest(d, rq.value);
        return true;
      }
      if read.fifo == [] && write.fifo == [] {
        return false;
      }
      StartBatch();
      found := true;
    }
  }
}
