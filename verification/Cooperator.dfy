/**
 Merging of CFQ queues whose processes work on nearby sectors. A queue that is to be merged points to the queue that
 takes over; processes follow the chain one link per request. Every process holds a reference on each queue of its
 chain.
 */
module Cooperator {
  import opened Options

  /** A sync queue: its reference count, the requests allocated on it, and the queue it is to be merged into. */
  datatype Queue = Queue(ref: int, readRqs: int, writeRqs: int, next: Option<nat>)

  /** The queue and the direction of a request. */
  datatype Held = Held(queue: nat, write: bool)

  // ----- chains

  /** Follows the links from the first queue to one that has none; every queue on the way exists. */
  ghost predicate Chained(queues: map<nat, Queue>, s: seq<nat>) {
    && s != []
    && (forall i :: 0 <= i < |s| ==> s[i] in queues)
    && (forall i, j :: 0 <= i < j < |s| && j == i + 1 ==> queues[s[i]].next == Some(s[j]))
    && queues[s[|s| - 1]].next.None?
  }

  /** Two positions with the same queue would be followed by the same queues, but one is nearer to the end. */
  lemma {:induction false} Acyclic(queues: map<nat, Queue>, s: seq<nat>, i: nat, j: nat)
    requires Chained(queues, s) && i < j < |s|
    ensures s[i] != s[j]
    decreases |s| - j
  {
    assert queues[s[i]].next == Some(s[i + 1]);
    if s[i] == s[j] && j + 1 < |s| {
      assert queues[s[j]].next == Some(s[j + 1]);
      Acyclic(queues, s, i + 1, j + 1);
    }
  }

  lemma ChainDistinct(queues: map<nat, Queue>, s: seq<nat>)
    requires Chained(queues, s)
    ensures forall i, j :: 0 <= i < j < |s| ==> s[i] != s[j]
  {
    forall i, j | 0 <= i < j < |s| ensures s[i] != s[j] {
      Acyclic(queues, s, i, j);
    }
  }

  /** A queue without a link is the last of every chain it is on. */
  lemma LastOne(queues: map<nat, Queue>, s: seq<nat>, q: nat)
    requires Chained(queues, s) && q in s && queues[q].next.None?
    ensures q == s[|s| - 1]
  {
    var i :| 0 <= i < |s| && s[i] == q;
    if i < |s| - 1 {
      NotLast(queues, s, i);
    }
  }

  lemma NotLast(queues: map<nat, Queue>, s: seq<nat>, i: nat)
    requires Chained(queues, s) && i < |s| - 1
    ensures queues[s[i]].next == Some(s[i + 1])
  {
  }

  lemma StepOn(queues: map<nat, Queue>, s: seq<nat>, i: nat)
    requires Chained(queues, s) && i < |s|
    ensures s[i] in queues
    ensures queues[s[i]].next.Some? ==> i < |s| - 1 && queues[s[i]].next == Some(s[i + 1]) && s[i + 1] in queues
  {
  }

  // ----- the invariant

  /** Every process that has a queue has a chain that starts there. */
  ghost predicate Paths(queues: map<nat, Queue>, cic: map<nat, nat>, path: map<nat, seq<nat>>) {
    path.Keys == cic.Keys && forall p :: p in path ==> Chained(queues, path[p]) && path[p][0] == cic[p]
  }

  /** The processes whose chain passes through a queue. */
  ghost function Through(path: map<nat, seq<nat>>, q: nat): set<nat> {
    set p | p in path && q in path[p]
  }

  ghost function On(requests: map<nat, Held>, h: Held): set<nat> {
    set r | r in requests && requests[r] == h
  }

  ghost function Extra(owed: set<nat>, q: nat): nat {
    if q in owed then 1 else 0
  }

  ghost predicate CountOk(x: Queue, q: nat, path: map<nat, seq<nat>>, requests: map<nat, Held>, owed: set<nat>) {
    && x.readRqs == |On(requests, Held(q, false))| && x.writeRqs == |On(requests, Held(q, true))|
    && x.ref == x.readRqs + x.writeRqs + |Through(path, q)| + Extra(owed, q)
    && x.ref > 0
  }

  /** Reference counts, while one more reference on each of some queues is about to be dropped. */
  ghost predicate Counted(queues: map<nat, Queue>, path: map<nat, seq<nat>>, requests: map<nat, Held>, owed: set<nat>) {
    && (forall q :: q in queues ==> CountOk(queues[q], q, path, requests, owed))
    && (forall q :: q in owed ==> q in queues)
    && (forall r :: r in requests ==> requests[r].queue in queues)
  }

  // ----- dropping a reference

  function Dropped(queues: map<nat, Queue>, q: nat): map<nat, Queue>
    requires q in queues
  {
    if queues[q].ref == 1 then queues - {q} else queues[q := queues[q].(ref := queues[q].ref - 1)]
  }

  lemma Empty(s: set<nat>, x: nat)
    requires |s| == 0
    ensures x !in s
  {
  }

  /** The queue is freed only when no request and no chain needs it. */
  lemma DropKeeps(queues: map<nat, Queue>, path: map<nat, seq<nat>>, requests: map<nat, Held>, owed: set<nat>, q: nat)
    requires Counted(queues, path, requests, owed) && q in owed
    ensures Counted(Dropped(queues, q), path, requests, owed - {q})
    ensures queues[q].ref == 1 ==> queues[q].readRqs == 0 && queues[q].writeRqs == 0 && Through(path, q) == {}
  {
    if queues[q].ref == 1 {
      forall r | r in requests ensures requests[r].queue in Dropped(queues, q) {
        Empty(On(requests, Held(q, requests[r].write)), r);
      }
    }
  }

  /** Chains survive a drop of a queue that they need. */
  lemma DropPaths(queues: map<nat, Queue>, cic: map<nat, nat>, path: map<nat, seq<nat>>, requests: map<nat, Held>,
                  owed: set<nat>, q: nat)
    requires Counted(queues, path, requests, owed) && q in owed && Paths(queues, cic, path)
    ensures Paths(Dropped(queues, q), cic, path)
  {
    DropKeeps(queues, path, requests, owed, q);
    var r := Dropped(queues, q);
    forall p | p in path ensures Chained(r, path[p]) {
      if queues[q].ref == 1 {
        assert p !in Through(path, q);
      }
    }
  }

  // ----- linking two chains

  function Linked(queues: map<nat, Queue>, c: nat, e: nat, n: int): map<nat, Queue>
    requires c in queues && e in queues
  {
    var q1 := queues[c := queues[c].(next := Some(e))];
    q1[e := q1[e].(ref := q1[e].ref + n)]
  }

  ghost function Extended(path: map<nat, seq<nat>>, c: nat, e: nat): map<nat, seq<nat>> {
    map p | p in path :: if c in path[p] then path[p] + [e] else path[p]
  }

  lemma LinkedChain(queues: map<nat, Queue>, s: seq<nat>, c: nat, e: nat, n: int)
    requires Chained(queues, s) && c in queues && e in queues && c != e
    requires queues[c].next.None? && queues[e].next.None?
    ensures Chained(Linked(queues, c, e, n), if c in s then s + [e] else s)
    ensures c in s ==> e !in s
  {
    if c in s {
      LastOne(queues, s, c);
      if e in s {
        LastOne(queues, s, e);
      }
    }
    var q', s' := Linked(queues, c, e, n), if c in s then s + [e] else s;
    forall i | 0 <= i < |s'| - 1 ensures q'[s'[i]].next == Some(s'[i + 1]) {
      if i < |s| - 1 {
        assert queues[s[i]].next == Some(s[i + 1]);
      }
    }
  }

  lemma LinkedPaths(queues: map<nat, Queue>, cic: map<nat, nat>, path: map<nat, seq<nat>>, c: nat, e: nat, n: int)
    requires Paths(queues, cic, path) && c in queues && e in queues && c != e
    requires queues[c].next.None? && queues[e].next.None?
    ensures Paths(Linked(queues, c, e, n), cic, Extended(path, c, e))
    ensures Through(path, c) !! Through(path, e)
  {
    forall p | p in path ensures Chained(Linked(queues, c, e, n), Extended(path, c, e)[p])
                         ensures c in path[p] ==> e !in path[p] {
      LinkedChain(queues, path[p], c, e, n);
    }
  }

  lemma Union(a: set<nat>, b: set<nat>)
    requires a !! b
    ensures |a + b| == |a| + |b|
  {
  }

  lemma ExtendedThrough(path: map<nat, seq<nat>>, c: nat, e: nat, q: nat)
    ensures Through(Extended(path, c, e), q) == if q == e then Through(path, e) + Through(path, c) else Through(path, q)
  {
  }

  /** The queue that takes over gets a reference for every process whose chain it joins. */
  lemma LinkKeeps(queues: map<nat, Queue>, path: map<nat, seq<nat>>, requests: map<nat, Held>, c: nat, e: nat)
    requires Counted(queues, path, requests, {}) && c in queues && e in queues && c != e
    requires Through(path, c) !! Through(path, e)
    ensures Counted(Linked(queues, c, e, |Through(path, c)|), Extended(path, c, e), requests, {})
  {
    var q' := Linked(queues, c, e, |Through(path, c)|);
    forall q | q in q' ensures CountOk(q'[q], q, Extended(path, c, e), requests, {}) {
      ExtendedThrough(path, c, e, q);
      Union(Through(path, e), Through(path, c));
      assert CountOk(queues[q], q, path, requests, {});
    }
  }

  // ----- a process moves along its chain, gets a queue, or leaves

  lemma MovedThrough(path: map<nat, seq<nat>>, queues: map<nat, Queue>, p: nat, q: nat)
    requires p in path && Chained(queues, path[p]) && |path[p]| > 1
    ensures var path' := path[p := path[p][1..]];
            Through(path', q) == if q == path[p][0] then Through(path, q) - {p} else Through(path, q)
  {
    ChainDistinct(queues, path[p]);
    var s := path[p];
    assert q in s[1..] <==> q in s && q != s[0] by {
      if q in s && q != s[0] {
        var i :| 0 <= i < |s| && s[i] == q;
        assert s[1..][i - 1] == q;
      }
    }
  }

  lemma ChainTail(queues: map<nat, Queue>, s: seq<nat>)
    requires Chained(queues, s) && |s| > 1
    ensures Chained(queues, s[1..])
  {
    forall i | 0 <= i < |s[1..]| - 1 ensures queues[s[1..][i]].next == Some(s[1..][i + 1]) {
      assert queues[s[i + 1]].next == Some(s[i + 2]);
    }
  }

  /** Following one link leaves one reference on the queue that is left behind. */
  lemma MoveKeeps(queues: map<nat, Queue>, path: map<nat, seq<nat>>, requests: map<nat, Held>, p: nat)
    requires Counted(queues, path, requests, {}) && p in path && Chained(queues, path[p]) && |path[p]| > 1
    ensures Counted(queues, path[p := path[p][1..]], requests, {path[p][0]})
  {
    var path' := path[p := path[p][1..]];
    forall q | q in queues ensures CountOk(queues[q], q, path', requests, {path[p][0]}) {
      MovedThrough(path, queues, p, q);
      assert CountOk(queues[q], q, path, requests, {});
      assert p in Through(path, path[p][0]);
    }
  }

  lemma LeftThrough(path: map<nat, seq<nat>>, p: nat, q: nat)
    requires p in path
    ensures Through(path - {p}, q) == if q in path[p] then Through(path, q) - {p} else Through(path, q)
  {
  }

  ghost function Elements(s: seq<nat>): set<nat> {
    set q | q in s
  }

  /** A process that leaves owes one reference on every queue of its chain. */
  lemma LeaveKeeps(queues: map<nat, Queue>, path: map<nat, seq<nat>>, requests: map<nat, Held>, p: nat)
    requires Counted(queues, path, requests, {}) && p in path && Chained(queues, path[p])
    ensures Counted(queues, path - {p}, requests, Elements(path[p]))
  {
    forall q | q in queues ensures CountOk(queues[q], q, path - {p}, requests, Elements(path[p])) {
      LeftThrough(path, p, q);
      assert CountOk(queues[q], q, path, requests, {});
      if q in path[p] {
        assert p in Through(path, q);
      }
    }
  }

  const FRESH: Queue := Queue(1, 0, 0, None)

  lemma NewPaths(queues: map<nat, Queue>, cic: map<nat, nat>, path: map<nat, seq<nat>>, p: nat, q: nat)
    requires Paths(queues, cic, path) && p !in cic && q !in queues
    ensures Paths(queues[q := FRESH], cic[p := q], path[p := [q]])
    ensures Through(path, q) == {} && p !in path
  {
    forall x | x in path ensures Chained(queues[q := FRESH], path[x]) && q !in path[x] {
      assert Chained(queues, path[x]);
    }
  }

  /** A new queue has one reference, for the process it was made for. */
  lemma NewKeeps(queues: map<nat, Queue>, path: map<nat, seq<nat>>, requests: map<nat, Held>, p: nat, q: nat)
    requires Counted(queues, path, requests, {}) && p !in path && q !in queues && Through(path, q) == {}
    ensures Counted(queues[q := FRESH], path[p := [q]], requests, {})
  {
    var queues', path' := queues[q := FRESH], path[p := [q]];
    forall x | x in queues' ensures CountOk(queues'[x], x, path', requests, {}) {
      NewThrough(path, p, q, x);
      if x == q {
        assert On(requests, Held(q, false)) == {} && On(requests, Held(q, true)) == {};
      } else {
        assert CountOk(queues[x], x, path, requests, {});
      }
    }
  }

  lemma NewThrough(path: map<nat, seq<nat>>, p: nat, q: nat, x: nat)
    requires p !in path
    ensures Through(path[p := [q]], x) == Through(path, x) + if x == q then {p} else {}
  {
  }

  // ----- requests

  function Charged(x: Queue, write: bool, n: int): Queue {
    if write then x.(ref := x.ref + n, writeRqs := x.writeRqs + n) else x.(ref := x.ref + n, readRqs := x.readRqs + n)
  }

  lemma ChargeKeeps(queues: map<nat, Queue>, path: map<nat, seq<nat>>, requests: map<nat, Held>, r: nat, h: Held)
    requires Counted(queues, path, requests, {}) && r !in requests && h.queue in queues
    ensures Counted(queues[h.queue := Charged(queues[h.queue], h.write, 1)], path, requests[r := h], {})
  {
    var queues' := queues[h.queue := Charged(queues[h.queue], h.write, 1)];
    forall q | q in queues' ensures CountOk(queues'[q], q, path, requests[r := h], {}) {
      OnAdded(requests, r, h, Held(q, false));
      OnAdded(requests, r, h, Held(q, true));
      assert CountOk(queues[q], q, path, requests, {});
    }
  }

  lemma OnAdded(requests: map<nat, Held>, r: nat, h: Held, k: Held)
    requires r !in requests
    ensures |On(requests[r := h], k)| == |On(requests, k)| + if k == h then 1 else 0
  {
    assert On(requests[r := h], k) == On(requests, k) + if k == h then {r} else {};
  }

  lemma OnRemoved(requests: map<nat, Held>, r: nat, k: Held)
    requires r in requests
    ensures |On(requests, k)| == |On(requests - {r}, k)| + if k == requests[r] then 1 else 0
  {
    assert On(requests, k) == On(requests - {r}, k) + if k == requests[r] then {r} else {};
  }

  function Uncounted(x: Queue, write: bool): Queue {
    if write then x.(writeRqs := x.writeRqs - 1) else x.(readRqs := x.readRqs - 1)
  }

  /** A request that is freed is counted on its queue, and owes the reference it held. */
  lemma UnchargeKeeps(queues: map<nat, Queue>, path: map<nat, seq<nat>>, requests: map<nat, Held>, r: nat)
    requires Counted(queues, path, requests, {}) && r in requests
    ensures var h := requests[r];
            && h.queue in queues && (if h.write then queues[h.queue].writeRqs else queues[h.queue].readRqs) > 0
            && Counted(queues[h.queue := Uncounted(queues[h.queue], h.write)], path, requests - {r}, {h.queue})
  {
    var h := requests[r];
    var queues' := queues[h.queue := Uncounted(queues[h.queue], h.write)];
    OnRemoved(requests, r, h);
    forall q | q in queues' ensures CountOk(queues'[q], q, path, requests - {r}, {h.queue}) {
      OnRemoved(requests, r, Held(q, false));
      OnRemoved(requests, r, Held(q, true));
      assert CountOk(queues[q], q, path, requests, {});
    }
  }

  lemma SameLinks(queues: map<nat, Queue>, queues': map<nat, Queue>, cic: map<nat, nat>, path: map<nat, seq<nat>>)
    requires Paths(queues, cic, path)
    requires queues'.Keys == queues.Keys && forall q :: q in queues ==> queues'[q].next == queues[q].next
    ensures Paths(queues', cic, path)
  {
    forall p | p in path ensures Chained(queues', path[p]) {
      assert Chained(queues, path[p]);
    }
  }

  // ----- the operations

  /** References that do not belong to requests. */
  function ProcessRefs(x: Queue): int {
    x.ref - x.readRqs - x.writeRqs
  }

  /** From a common queue on, two chains are the same. */
  lemma {:induction false} SameEnd(queues: map<nat, Queue>, s: seq<nat>, i: nat, t: seq<nat>, j: nat)
    requires Chained(queues, s) && Chained(queues, t) && i < |s| && j < |t| && s[i] == t[j]
    ensures s[|s| - 1] == t[|t| - 1]
    decreases |s| - i
  {
    if i < |s| - 1 {
      NotLast(queues, s, i);
      if j < |t| - 1 {
        NotLast(queues, t, j);
        SameEnd(queues, s, i + 1, t, j + 1);
      }
    } else if j < |t| - 1 {
      NotLast(queues, t, j);
    }
  }

  /** The effect of dropping one reference on each of these queues. */
  ghost predicate DroppedAll(queues: map<nat, Queue>, queues': map<nat, Queue>, s: set<nat>) {
    && (forall q :: q in queues' ==> q in queues)
    && (forall q :: q in queues ==> if q in s then (q in queues' <==> queues[q].ref != 1) else q in queues')
    && (forall q :: q in queues' ==> queues'[q] == queues[q].(ref := queues[q].ref - Extra(s, q)))
  }

  lemma DroppedMore(queues: map<nat, Queue>, queues': map<nat, Queue>, s: set<nat>, q: nat)
    requires DroppedAll(queues, queues', s) && q !in s && q in queues'
    ensures DroppedAll(queues, Dropped(queues', q), s + {q})
  {
  }

  class CfqData {
    var queues: map<nat, Queue>
    var cic: map<nat, nat>
    var requests: map<nat, Held>
    ghost var path: map<nat, seq<nat>>

    ghost predicate Owing(owed: set<nat>)
      reads this
    {
      Paths(queues, cic, path) && Counted(queues, path, requests, owed)
    }

    ghost predicate Valid()
      reads this
    {
      Owing({})
    }

    constructor ()
      ensures Valid() && queues == map[] && cic == map[] && requests == map[]
    {
      queues, cic, requests, path := map[], map[], map[], map[];
    }

    /** The assertions on the reference count and, when the queue is freed, on its requests hold. */
    method PutQueue(q: nat, ghost owed: set<nat>)
      requires Owing(owed) && q in owed
      modifies `queues
      ensures Owing(owed - {q}) && q in old(queues) && queues == Dropped(old(queues), q)
    {
      DropKeeps(queues, path, requests, owed, q);
      DropPaths(queues, cic, path, requests, owed, q);
      assert queues[q].ref > 0 by { assert CountOk(queues[q], q, path, requests, owed); }
      if queues[q].ref != 1 {
        queues := queues[q := queues[q].(ref := queues[q].ref - 1)];
        return;
      }
      assert queues[q].readRqs + queues[q].writeRqs == 0;
      queues := queues - {q};
    }

    /**
     Links two chains, unless the candidate has no process left, its chain already ends at the queue, or the queue
     itself has no process left. The queue with fewer processes is merged into the other.
     */
    method SetupMerge(c: nat, n: nat) returns (link: Option<(nat, nat)>)
      requires Valid() && c in queues && n in queues && c != n && queues[c].next.None?
      modifies `queues, `path
      ensures Valid()
      ensures link.None? ==> queues == old(queues)
      ensures link.Some? <==>
                && Through(old(path), n) != {} && Through(old(path), c) != {}
                && forall p :: p in Through(old(path), n) ==> p in old(path) && c !in old(path)[p]
      ensures link.Some? ==>
                var (a, b) := link.value;
                && a in old(queues) && b in old(queues) && a != b && (a == c || b == c)
                && queues == Linked(old(queues), a, b, |Through(old(path), a)|)
                && |Through(old(path), a)| <= |Through(old(path), b)|
                && (|Through(old(path), a)| == |Through(old(path), b)| ==> a == c)
                && path == Extended(old(path), a, b)
                && (forall p :: p in Through(old(path), n) ==>
                      && p in old(path) && old(path)[p] != []
                      && old(path)[p][|old(path)[p]| - 1] == if a == c then b else a)
    {
      hide Paths, Counted, Through, Extended, Linked, ProcessRefs, On;
      RefsMean(queues, path, requests, {}, n);
      RefsMean(queues, path, requests, {}, c);
      if ProcessRefs(queues[n]) == 0 {
        return None;
      }
      ghost var p :| p in Through(path, n);
      var end := FindEnd(c, n, p);
      if end.None? {
        return None;
      }
      var e := end.value;
      PassesOn(path, p, e);
      EndOfAll(queues, cic, path, p, n, e, c);
      RefsMean(queues, path, requests, {}, e);
      var refs, newRefs := ProcessRefs(queues[c]), ProcessRefs(queues[e]);
      if refs == 0 || newRefs == 0 {
        return None;
      }
      if newRefs >= refs {
        LinkTo(c, e, refs);
        link := Some((c, e));
      } else {
        LinkTo(e, c, newRefs);
        link := Some((e, c));
      }
    }

    /** Follows the candidate's chain to its end; a process on it keeps all of it alive. */
    method FindEnd(c: nat, n: nat, ghost p: nat) returns (e: Option<nat>)
      requires Valid() && c in queues && n in queues && c != n && queues[c].next.None? && p in Through(path, n)
      ensures p in path && (e.None? ==> c in path[p])
      ensures e.Some? ==> e.value in path[p] && e.value in queues && queues[e.value].next.None? && e.value != c
    {
      ghost var j :| 0 <= j < |path[p]| && path[p][j] == n;
      assert Chained(queues, path[p]);
      hide Paths, Counted, Chained, Through;
      var x := n;
      while queues[x].next.Some?
        invariant 0 <= j < |path[p]| && x == path[p][j] && x in queues && x != c
        decreases |path[p]| - j
      {
        StepOn(queues, path[p], j);
        if queues[x].next.value == c {
          return None;
        }
        x := queues[x].next.value;
        j := j + 1;
      }
      e := Some(x);
    }

    method LinkTo(a: nat, b: nat, refs: int)
      requires Valid() && a in queues && b in queues && a != b && queues[a].next.None? && queues[b].next.None?
      requires refs == |Through(path, a)|
      modifies `queues, `path
      ensures Valid() && queues == Linked(old(queues), a, b, refs) && path == Extended(old(path), a, b)
    {
      hide Paths, Counted, Through, Extended;
      LinkedPaths(queues, cic, path, a, b, refs);
      LinkKeeps(queues, path, requests, a, b);
      path := Extended(path, a, b);
      queues := queues[a := queues[a].(next := Some(b))];
      queues := queues[b := queues[b].(ref := queues[b].ref + refs)];
    }

    /** Drops the references on the queues behind c; the loop check in the source never fires. */
    method PutCooperator(c: nat, ghost s: seq<nat>, ghost owed: set<nat>)
      requires Owing(owed) && Chained(queues, s) && s != [] && s[0] == c && Elements(s) <= owed
      modifies `queues
      ensures Owing(owed - Elements(s[1..]))
      ensures DroppedAll(old(queues), queues, Elements(s[1..])) && c !in s[1..]
    {
      hide Paths, Counted, Chained, DroppedAll;
      ChainDistinct(queues, s);
      StepOn(queues, s, 0);
      var q := queues[c].next;
      ghost var i := 1;
      DroppedNone(queues);
      NextOf(queues, s, 0);
      assert owed - Elements(s[1..1]) == owed && Elements(s[1..1]) == {};
      while q.Some?
        invariant 1 <= i <= |s| && q == if i < |s| then Some(s[i]) else None
        invariant Owing(owed - Elements(s[1..i]))
        invariant DroppedAll(old(queues), queues, Elements(s[1..i]))
        decreases |s| - i
      {
        ghost var left := owed - Elements(s[1..i]);
        OneMore(s, i);
        assert s[i] in Elements(s);
        assert q.value != c;
        OwedExists(queues, path, requests, left, q.value);
        Untouched(old(queues), queues, Elements(s[1..i]), q.value);
        NextOf(old(queues), s, i);
        var next := queues[q.value].next;
        DroppedMore(old(queues), queues, Elements(s[1..i]), q.value);
        PutQueue(q.value, left);
        assert left - {q.value} == owed - Elements(s[1..i + 1]);
        q, i := next, i + 1;
      }
      assert s[1..i] == s[1..];
    }

    /** The process leaves: its chain is given up from the second queue on, then the first. */
    method ExitCfqq(p: nat)
      requires Valid() && p in cic
      modifies this
      ensures Valid() && cic == old(cic) - {p} && path == old(path) - {p} && requests == old(requests)
      ensures p in old(path) && DroppedAll(old(queues), queues, Elements(old(path)[p]))
    {
      hide Paths, Counted, Chained, DroppedAll;
      Leaving(queues, cic, path, requests, p);
      ghost var s := path[p];
      var c := cic[p];
      path, cic := path - {p}, cic - {p};
      PutCooperator(c, s, Elements(s));
      assert Elements(s) - Elements(s[1..]) == {c};
      assert Elements(s[1..]) + {c} == Elements(s);
      OwedExists(queues, path, requests, {c}, c);
      DroppedMore(old(queues), queues, Elements(s[1..]), c);
      PutQueue(c, {c});
      assert {c} - {c} == {};
    }

    /** The process moves on to the queue its queue is to be merged into. */
    method MergeCfqqs(p: nat) returns (q: nat)
      requires Valid() && p in cic && cic[p] in queues && queues[cic[p]].next.Some?
      modifies this
      ensures Valid() && q in queues && q == old(queues)[old(cic)[p]].next.value && cic == old(cic)[p := q]
      ensures queues == Dropped(old(queues), old(cic)[p]) && requests == old(requests)
    {
      hide Paths, Counted, Chained;
      Moving(queues, cic, path, requests, p);
      var c := cic[p];
      q := queues[c].next.value;
      cic, path := cic[p := q], path[p := path[p][1..]];
      PutQueue(c, {c});
      assert {c} - {c} == {};
      Owned(queues, cic, path, p);
    }

    /** A queue that several processes use is left; one that only this process uses is kept. */
    method SplitCfqq(p: nat) returns (kept: bool)
      requires Valid() && p in cic && cic[p] in queues
      modifies this
      ensures Valid() && requests == old(requests)
      ensures kept <==> |Through(old(path), old(cic)[p])| == 1
      ensures kept ==> queues == old(queues) && cic == old(cic) && path == old(path)
      ensures !kept ==> cic == old(cic) - {p} && path == old(path) - {p} && p in old(path)
                        && DroppedAll(old(queues), queues, Elements(old(path)[p]))
    {
      RefsMean(queues, path, requests, {}, cic[p]);
      hide Paths, Counted, Chained, DroppedAll, Through;
      if ProcessRefs(queues[cic[p]]) == 1 {
        return true;
      }
      ExitCfqq(p);
      kept := false;
    }

    method GetQueue(p: nat, unused: nat)
      requires Valid() && p !in cic && unused !in queues
      modifies this
      ensures Valid() && cic == old(cic)[p := unused] && queues == old(queues)[unused := FRESH]
              && requests == old(requests)
    {
      NewPaths(queues, cic, path, p, unused);
      NewKeeps(queues, path, requests, p, unused);
      queues, cic, path := queues[unused := FRESH], cic[p := unused], path[p := [unused]];
    }

    /** Finds the queue for a request of the process: a new one, the merge target, or the one it has. */
    method FindQueue(p: nat, breakApart: bool, unused: nat) returns (q: nat)
      requires Valid() && unused !in queues
      modifies this
      ensures Valid() && p in cic && q == cic[p] && q in queues && requests == old(requests)
      ensures p !in old(cic) ==> q == unused
      ensures p in old(cic) ==>
                var c := old(cic)[p];
                && c in old(queues)
                && q == if breakApart && |Through(old(path), c)| != 1 then unused
                        else if old(queues)[c].next.Some? then old(queues)[c].next.value else c
    {
      hide Paths, Counted, Chained, DroppedAll, Through;
      if p !in cic {
        GetQueue(p, unused);
        return unused;
      }
      Owned(queues, cic, path, p);
      if breakApart {
        var kept := SplitCfqq(p);
        if !kept {
          StillFresh(old(queues), queues, Elements(old(path)[p]), unused);
          GetQueue(p, unused);
          return unused;
        }
      }
      q := cic[p];
      if queues[q].next.Some? {
        q := MergeCfqqs(p);
      }
    }

    method SetRequest(p: nat, r: nat, write: bool, breakApart: bool, unused: nat) returns (q: nat)
      requires Valid() && r !in requests && unused !in queues
      modifies this
      ensures Valid() && p in cic && q == cic[p] && requests == old(requests)[r := Held(q, write)]
      ensures p !in old(cic) ==> q == unused
      ensures p in old(cic) ==>
                var c := old(cic)[p];
                && c in old(queues)
                && q == if breakApart && |Through(old(path), c)| != 1 then unused
                        else if old(queues)[c].next.Some? then old(queues)[c].next.value else c
    {
      hide Paths, Counted, Chained, Through;
      q := FindQueue(p, breakApart, unused);
      var charged := queues[q := Charged(queues[q], write, 1)];
      ChargeKeeps(queues, path, requests, r, Held(q, write));
      SameLinks(queues, charged, cic, path);
      queues, requests := charged, requests[r := Held(q, write)];
    }

    /** The request is counted on its queue when it is freed. */
    method PutRequest(r: nat)
      requires Valid() && r in requests
      modifies this
      ensures Valid() && requests == old(requests) - {r} && cic == old(cic) && path == old(path)
      ensures var h := old(requests)[r];
              && h.queue in old(queues)
              && queues == Dropped(old(queues)[h.queue := Uncounted(old(queues)[h.queue], h.write)], h.queue)
    {
      hide Paths, Counted;
      var h := requests[r];
      UnchargeKeeps(queues, path, requests, r);
      var q' := queues[h.queue := Uncounted(queues[h.queue], h.write)];
      SameLinks(queues, q', cic, path);
      queues, requests := q', requests - {r};
      PutQueue(h.queue, {h.queue});
      assert {h.queue} - {h.queue} == {};
    }

    /**
     A process that changes its control group drops its queue but not the rest of its chain: one reference too many
     stays on every further queue, so the counts are right afterwards exactly when the queue was not to be merged.
     */
    method ChangedCgroup(p: nat)
      requires Valid() && p in cic
      modifies this
      ensures p in old(path) && cic == old(cic) - {p} && path == old(path) - {p} && requests == old(requests)
      ensures Owing(Elements(old(path)[p]) - {old(cic)[p]})
      ensures Valid() <==> |old(path)[p]| == 1
    {
      hide Paths, Counted, Chained;
      Leaving(queues, cic, path, requests, p);
      ChainDistinct(queues, path[p]);
      ghost var s := path[p];
      var c := cic[p];
      path, cic := path - {p}, cic - {p};
      PutQueue(c, Elements(s));
      if |s| > 1 {
        assert s[1] in Elements(s) - {c};
        Overdue(queues, path, requests, Elements(s) - {c}, s[1]);
      } else {
        assert Elements(s) - {c} == {};
      }
    }
  }

  lemma Overdue(queues: map<nat, Queue>, path: map<nat, seq<nat>>, requests: map<nat, Held>, owed: set<nat>, q: nat)
    requires Counted(queues, path, requests, owed) && q in owed
    ensures !Counted(queues, path, requests, {})
  {
    assert CountOk(queues[q], q, path, requests, owed);
    assert !CountOk(queues[q], q, path, requests, {});
  }

  lemma DroppedNone(queues: map<nat, Queue>)
    ensures DroppedAll(queues, queues, {})
  {
  }

  lemma NextOf(queues: map<nat, Queue>, s: seq<nat>, i: nat)
    requires Chained(queues, s) && i < |s|
    ensures s[i] in queues && queues[s[i]].next == if i + 1 < |s| then Some(s[i + 1]) else None
  {
  }

  lemma OneMore(s: seq<nat>, i: nat)
    requires 1 <= i < |s| && forall a, b :: 0 <= a < b < |s| ==> s[a] != s[b]
    ensures Elements(s[1..i + 1]) == Elements(s[1..i]) + {s[i]} && s[i] !in Elements(s[1..i])
  {
    assert s[1..i + 1] == s[1..i] + [s[i]];
  }

  lemma OwedExists(queues: map<nat, Queue>, path: map<nat, seq<nat>>, requests: map<nat, Held>, owed: set<nat>, q: nat)
    requires Counted(queues, path, requests, owed) && q in owed
    ensures q in queues
  {
  }

  lemma Untouched(queues: map<nat, Queue>, queues': map<nat, Queue>, s: set<nat>, q: nat)
    requires DroppedAll(queues, queues', s) && q in queues'
    ensures q in queues && queues'[q].next == queues[q].next
  {
  }

  lemma StillFresh(queues: map<nat, Queue>, queues': map<nat, Queue>, s: set<nat>, q: nat)
    requires DroppedAll(queues, queues', s) && q !in queues
    ensures q !in queues'
  {
  }

  lemma Owned(queues: map<nat, Queue>, cic: map<nat, nat>, path: map<nat, seq<nat>>, p: nat)
    requires Paths(queues, cic, path) && p in cic
    ensures p in path && cic[p] in queues
  {
    assert path[p][0] in queues;
  }

  lemma Leaving(queues: map<nat, Queue>, cic: map<nat, nat>, path: map<nat, seq<nat>>, requests: map<nat, Held>, p: nat)
    requires Paths(queues, cic, path) && Counted(queues, path, requests, {}) && p in cic
    ensures p in path && Chained(queues, path[p]) && path[p][0] == cic[p] && cic[p] in Elements(path[p])
    ensures Paths(queues, cic - {p}, path - {p})
    ensures Counted(queues, path - {p}, requests, Elements(path[p]))
  {
    hide Chained, Counted;
    HasChain(queues, cic, path, p);
    LeftPaths(queues, cic, path, p);
    LeaveKeeps(queues, path, requests, p);
  }

  lemma LeftPaths(queues: map<nat, Queue>, cic: map<nat, nat>, path: map<nat, seq<nat>>, p: nat)
    requires Paths(queues, cic, path)
    ensures Paths(queues, cic - {p}, path - {p})
  {
    hide Chained;
    assert (path - {p}).Keys == path.Keys - {p} && (cic - {p}).Keys == cic.Keys - {p};
  }

  lemma Moving(queues: map<nat, Queue>, cic: map<nat, nat>, path: map<nat, seq<nat>>, requests: map<nat, Held>, p: nat)
    requires Paths(queues, cic, path) && Counted(queues, path, requests, {})
    requires p in cic && cic[p] in queues && queues[cic[p]].next.Some?
    ensures p in path && |path[p]| > 1
    ensures Paths(queues, cic[p := queues[cic[p]].next.value], path[p := path[p][1..]])
    ensures Counted(queues, path[p := path[p][1..]], requests, {cic[p]})
  {
    hide Chained, Counted;
    HasChain(queues, cic, path, p);
    StepOn(queues, path[p], 0);
    ChainTail(queues, path[p]);
    MoveKeeps(queues, path, requests, p);
    MovedPaths(queues, cic, path, p, path[p][1..]);
  }

  lemma HasChain(queues: map<nat, Queue>, cic: map<nat, nat>, path: map<nat, seq<nat>>, p: nat)
    requires Paths(queues, cic, path) && p in cic
    ensures p in path && Chained(queues, path[p]) && path[p] != [] && path[p][0] == cic[p]
  {
  }

  lemma HasPath(queues: map<nat, Queue>, cic: map<nat, nat>, path: map<nat, seq<nat>>, p: nat)
    requires Paths(queues, cic, path) && p in path
    ensures p in cic && Chained(queues, path[p])
  {
  }

  lemma MovedPaths(queues: map<nat, Queue>, cic: map<nat, nat>, path: map<nat, seq<nat>>, p: nat, s: seq<nat>)
    requires Paths(queues, cic, path) && p in cic && s != [] && Chained(queues, s)
    ensures Paths(queues, cic[p := s[0]], path[p := s])
  {
  }

  /** What is left when the requests' references are taken off are the processes whose chains pass. */
  lemma RefsMean(queues: map<nat, Queue>, path: map<nat, seq<nat>>, requests: map<nat, Held>, owed: set<nat>, q: nat)
    requires Counted(queues, path, requests, owed) && q in queues
    ensures ProcessRefs(queues[q]) == |Through(path, q)| + Extra(owed, q)
    ensures queues[q].readRqs == |On(requests, Held(q, false))| && queues[q].writeRqs == |On(requests, Held(q, true))|
    ensures Through(path, q) == {} <==> |Through(path, q)| == 0
  {
    assert CountOk(queues[q], q, path, requests, owed);
  }

  lemma PassesOn(path: map<nat, seq<nat>>, p: nat, e: nat)
    requires p in path && e in path[p]
    ensures p in Through(path, e) && |Through(path, e)| > 0
  {
  }

  /** All chains through a queue end alike. */
  lemma EndOfAll(queues: map<nat, Queue>, cic: map<nat, nat>, path: map<nat, seq<nat>>, p: nat, n: nat, e: nat, c: nat)
    requires Paths(queues, cic, path) && p in Through(path, n) && e in path[p] && e in queues && queues[e].next.None?
    requires c in queues && queues[c].next.None? && c != e
    ensures forall x :: x in Through(path, n) ==>
                          x in path && path[x] != [] && path[x][|path[x]| - 1] == e && c !in path[x]
  {
    LastOne(queues, path[p], e);
    var i :| 0 <= i < |path[p]| && path[p][i] == n;
    forall x | x in Through(path, n) ensures path[x] != [] && path[x][|path[x]| - 1] == e && c !in path[x] {
      var j :| 0 <= j < |path[x]| && path[x][j] == n;
      SameEnd(queues, path[x], j, path[p], i);
      if c in path[x] {
        LastOne(queues, path[x], c);
      }
    }
  }

  lemma {:induction false} ChainSuffix(queues: map<nat, Queue>, s: seq<nat>, i: nat)
    requires Chained(queues, s) && i < |s|
    ensures Chained(queues, s[i..])
  {
    if i > 0 {
      ChainTail(queues, s);
      ChainSuffix(queues, s[1..], i - 1);
      assert s[1..][i - 1..] == s[i..];
    } else {
      assert s[0..] == s;
    }
  }

  /**
   The law of merge chains: a queue that has process references starts a chain of existing queues that ends, visits no
   queue twice, and every queue of which has process references.
   */
  lemma Followable(queues: map<nat, Queue>, cic: map<nat, nat>, path: map<nat, seq<nat>>,
                   requests: map<nat, Held>, q: nat)
    requires Paths(queues, cic, path) && Counted(queues, path, requests, {}) && q in queues
             && ProcessRefs(queues[q]) > 0
    ensures exists s :: Chained(queues, s) && s != [] && s[0] == q
                        && (forall i, j :: 0 <= i < j < |s| ==> s[i] != s[j])
                        && (forall i :: 0 <= i < |s| ==> s[i] in queues && ProcessRefs(queues[s[i]]) > 0)
  {
    hide Counted, Paths, Chained;
    RefsMean(queues, path, requests, {}, q);
    var p :| p in Through(path, q);
    HasPath(queues, cic, path, p);
    var k :| 0 <= k < |path[p]| && path[p][k] == q;
    ChainSuffix(queues, path[p], k);
    var s := path[p][k..];
    ChainDistinct(queues, s);
    forall i | 0 <= i < |s| ensures s[i] in queues && ProcessRefs(queues[s[i]]) > 0 {
      StepOn(queues, s, i);
      PassesOn(path, p, s[i]);
      RefsMean(queues, path, requests, {}, s[i]);
    }
  }
}
