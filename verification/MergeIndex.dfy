/**
 The merge index of the elevator: requests that the scheduler holds and that may still grow are in a hash table under
 the sector at which they end, so that a bio can be appended to one. The table works for any hash function.
 */
module MergeIndex {
  import opened Lists
  import opened Options

  datatype Rq = Rq(pos: int, len: nat, mergeable: bool)

  function End(r: Rq): int {
    r.pos + r.len
  }

  /** The chains of the table, and the chain each request is linked in. */
  type Chains = seq<seq<nat>>
  type Links = map<nat, nat>

  ghost predicate Linked(chains: Chains, links: Links) {
    && (forall b :: 0 <= b < |chains| ==> Distinct(chains[b]))
    && (forall b, x :: 0 <= b < |chains| && x in chains[b] ==> x in links && links[x] == b)
    && (forall x :: x in links ==> links[x] < |chains| && x in chains[links[x]])
  }

  /** Linked requests are held and in the chain of their end; all that may grow are linked. */
  ghost predicate Keyed(held: map<nat, Rq>, links: Links, hash: int -> nat) {
    && (forall x :: x in links ==> x in held && links[x] == hash(End(held[x])))
    && (forall x :: x in held && held[x].mergeable ==> x in links)
  }

  function Added(chains: Chains, b: nat, x: nat): Chains
    requires b < |chains|
  {
    chains[b := [x] + chains[b]]
  }

  function Removed(chains: Chains, b: nat, x: nat): Chains
    requires b < |chains|
  {
    chains[b := Without(chains[b], x)]
  }

  lemma AddLinked(chains: Chains, links: Links, b: nat, x: nat)
    requires Linked(chains, links) && x !in links && b < |chains|
    ensures Linked(Added(chains, b, x), links[x := b])
  {
    Cons(x, chains[b]);
    hide Distinct;
  }

  lemma RemoveLinked(chains: Chains, links: Links, x: nat)
    requires Linked(chains, links) && x in links
    ensures links[x] < |chains| && Linked(Removed(chains, links[x], x), links - {x})
  {
    WithoutIs(chains[links[x]], x);
    hide Distinct, Without;
  }

  /** What a linear scan over the held requests would look for. */
  ghost predicate Ends(held: map<nat, Rq>, x: nat, offset: int) {
    x in held && held[x].mergeable && End(held[x]) == offset
  }

  lemma Forget(held: map<nat, Rq>, links: Links, hash: int -> nat, x: nat)
    requires Keyed(held, links, hash) && x in held
    ensures Keyed(held - {x}, links - {x}, hash) && |held - {x}| == |held| - 1
  {
    assert (held - {x}).Keys == held.Keys - {x};
  }

  /** A held request that may grow is linked, and may be given a new end together with a new chain. */
  lemma Rekey(held: map<nat, Rq>, links: Links, hash: int -> nat, x: nat, r: Rq)
    requires Keyed(held, links, hash) && x in held && held[x].mergeable
    ensures x in links && Keyed(held[x := r], links[x := hash(End(r))], hash) && |held[x := r]| == |held|
  {
    assert held[x := r].Keys == held.Keys;
  }

  lemma Absorbed(held: map<nat, Rq>, x: nat, next: nat, r: Rq)
    requires x in held && next in held && x != next
    ensures held[x := r] - {next} == (held - {next})[x := r]
  {
  }

  /** A new request that may grow is linked under its end; one that may not is not linked. */
  lemma Hold(held: map<nat, Rq>, links: Links, hash: int -> nat, x: nat, r: Rq)
    requires Keyed(held, links, hash) && x !in held
    ensures x !in links && |held[x := r]| == |held| + 1
    ensures Keyed(held[x := r], if r.mergeable then links[x := hash(End(r))] else links, hash)
  {
    assert held[x := r].Keys == held.Keys + {x};
  }

  class Elevator {
    const hash: int -> nat
    const size: nat
    var held: map<nat, Rq>
    var chains: Chains
    var links: Links
    var lastMerge: Option<nat>
    var nrSorted: int
    var dispatched: seq<nat>

    ghost predicate Table()
      reads `chains, `links
    {
      |chains| == size && (forall k :: hash(k) < size) && Linked(chains, links)
    }

    ghost predicate Valid()
      reads this
    {
      && Table() && Keyed(held, links, hash) && nrSorted == |held|
      && (lastMerge.Some? ==> lastMerge.value in held)
      && (forall x :: x in dispatched ==> x !in held)
    }

    constructor (h: int -> nat, n: nat)
      requires forall k :: h(k) < n
      ensures Valid() && held == map[] && hash == h && size == n
    {
      hash, size, held, chains, links := h, n, map[], seq(n, _ => []), map[];
      lastMerge, nrSorted, dispatched := None, 0, [];
    }

    method RqhashDel(x: nat)
      requires Table()
      modifies `chains, `links
      ensures Table() && links == old(links) - {x}
    {
      if x in links {
        RemoveLinked(chains, links, x);
        chains, links := Removed(chains, links[x], x), links - {x};
      }
    }

    method RqhashAdd(x: nat)
      requires Table() && x in held && x !in links
      modifies `chains, `links
      ensures Table() && links == old(links)[x := hash(End(held[x]))]
    {
      var b := hash(End(held[x]));
      AddLinked(chains, links, b, x);
      chains, links := Added(chains, b, x), links[x := b];
    }

    method RqhashReposition(x: nat)
      requires Table() && x in held && x in links
      modifies `chains, `links
      ensures Table() && links == old(links)[x := hash(End(held[x]))]
    {
      RqhashDel(x);
      RqhashAdd(x);
    }

    /** Agrees with a linear scan. Requests that may not grow any more are dropped from the chain on the way. */
    method RqhashFind(offset: int) returns (r: Option<nat>)
      requires Valid()
      modifies `chains, `links
      ensures Valid()
      ensures r.Some? ==> Ends(held, r.value, offset)
      ensures r.None? ==> forall x :: !Ends(held, x, offset)
    {
      var b := hash(offset);
      var todo := chains[b];
      while todo != []
        invariant Valid() && Distinct(todo)
        invariant forall x :: x in todo ==> x in links && links[x] == b
        invariant forall x :: Ends(held, x, offset) ==> x in todo
        decreases |todo|
      {
        var x := todo[0];
        Tail(todo);
        todo := todo[1..];
        if !held[x].mergeable {
          RqhashDel(x);
        } else if End(held[x]) == offset {
          return Some(x);
        }
      }
      r := None;
    }

    /** A new request goes to the scheduler. */
    method InsertSort(x: nat, r: Rq)
      requires Valid() && x !in held && x !in dispatched
      modifies this
      ensures Valid() && held == old(held)[x := r] && dispatched == old(dispatched)
      ensures lastMerge == if r.mergeable && old(lastMerge).None? then Some(x) else old(lastMerge)
    {
      hide Distinct, Linked, Keyed;
      Hold(held, links, hash, x, r);
      held := held[x := r];
      nrSorted := nrSorted + 1;
      if r.mergeable {
        RqhashAdd(x);
        if lastMerge.None? {
          lastMerge := Some(x);
        }
      }
    }

    /** A bio was appended, so the request ends later and changes its chain. */
    method BackMerged(x: nat, n: nat)
      requires Valid() && x in held && held[x].mergeable
      modifies this
      ensures Valid() && held == old(held)[x := old(held)[x].(len := old(held)[x].len + n)]
      ensures lastMerge == Some(x) && dispatched == old(dispatched)
    {
      hide Distinct, Linked, Keyed;
      Rekey(held, links, hash, x, held[x].(len := held[x].len + n));
      held := held[x := held[x].(len := held[x].len + n)];
      RqhashReposition(x);
      lastMerge := Some(x);
    }

    /** A bio was put in front, so the request begins earlier and ends where it did. */
    method FrontMerged(x: nat, n: nat)
      requires Valid() && x in held && held[x].mergeable
      modifies this
      ensures Valid() && held == old(held)[x := Rq(old(held)[x].pos - n, old(held)[x].len + n, true)]
      ensures lastMerge == Some(x) && dispatched == old(dispatched)
    {
      hide Distinct, Linked;
      held := held[x := held[x].(pos := held[x].pos - n, len := held[x].len + n)];
      lastMerge := Some(x);
    }

    /** The request that follows is taken over; nothing refers to it afterwards. */
    method MergeRequests(x: nat, next: nat)
      requires Valid() && x in held && next in held && x != next
      requires held[x].mergeable && held[next].mergeable && End(held[x]) == held[next].pos
      modifies this
      ensures Valid() && dispatched == old(dispatched) && lastMerge == Some(x) && next !in links
      ensures held == (old(held) - {next})[x := old(held)[x].(len := old(held)[x].len + old(held)[next].len)]
      ensures End(held[x]) == End(old(held)[next])
    {
      hide Distinct, Linked, Keyed, Elevator.Table;
      ghost var r := held[x].(len := held[x].len + held[next].len);
      Absorbed(held, x, next, r);
      Rekey(held, links, hash, x, r);
      Forget(held[x := r], links[x := hash(End(r))], hash, next);
      held := held[x := held[x].(len := held[x].len + held[next].len)];
      RqhashReposition(x);
      RqhashDel(next);
      held := held - {next};
      nrSorted := nrSorted - 1;
      lastMerge := Some(x);
    }

    /** A limit was hit: the request may not grow any more. It stays linked until a search meets it. */
    method NoMerge(x: nat)
      requires Valid() && x in held
      modifies this
      ensures Valid() && held == old(held)[x := old(held)[x].(mergeable := false)] && dispatched == old(dispatched)
      ensures lastMerge == if old(lastMerge) == Some(x) then None else old(lastMerge)
    {
      hide Distinct, Linked;
      held := held[x := held[x].(mergeable := false)];
      if lastMerge == Some(x) {
        lastMerge := None;
      }
    }

    /** The scheduler hands a request over for dispatch; the index forgets it. */
    method Dispatch(x: nat)
      requires Valid() && x in held
      modifies this
      ensures Valid() && held == old(held) - {x} && dispatched == old(dispatched) + [x] && x !in links
      ensures lastMerge == if old(lastMerge) == Some(x) then None else old(lastMerge)
    {
      hide Distinct, Linked, Keyed;
      Forget(held, links, hash, x);
      if lastMerge == Some(x) {
        lastMerge := None;
      }
      RqhashDel(x);
      nrSorted := nrSorted - 1;
      held := held - {x};
      dispatched := dispatched + [x];
    }

    /** Finds the request to which a bio at this sector can be added at the back; any that exists is found. */
    method FindBack(sector: int) returns (r: Option<nat>)
      requires Valid()
      modifies `chains, `links
      ensures Valid()
      ensures r.Some? ==> Ends(held, r.value, sector)
      ensures r.Some? <==> exists x :: Ends(held, x, sector)
      ensures lastMerge.Some? && Ends(held, lastMerge.value, sector) ==> r == lastMerge
    {
      if lastMerge.Some? && held[lastMerge.value].mergeable && End(held[lastMerge.value]) == sector {
        assert Ends(held, lastMerge.value, sector);
        return lastMerge;
      }
      r := RqhashFind(sector);
    }

    /** Dispatches everything, in the order the scheduler chooses; then nothing is indexed. */
    method Drain(order: seq<nat>)
      requires Valid() && Distinct(order) && forall x :: x in order <==> x in held
      modifies this
      ensures Valid() && held == map[] && nrSorted == 0 && lastMerge == None && links == map[]
      ensures dispatched == old(dispatched) + order
    {
      var i := 0;
      hide Valid, Distinct;
      while i < |order|
        invariant 0 <= i <= |order| && Valid() && dispatched == old(dispatched) + order[..i]
        invariant forall x :: x in held <==> x in order[i..]
      {
        Rest(order, i);
        Dispatch(order[i]);
        assert order[..i + 1] == order[..i] + [order[i]];
        i := i + 1;
      }
      assert order[i..] == [] && order[..i] == order;
      NothingLinked(this);
    }
  }

  lemma NothingLinked(e: Elevator)
    requires e.Valid() && forall x :: x !in e.held
    ensures e.held == map[] && e.links == map[] && e.nrSorted == 0 && e.lastMerge == None
  {
    hide Linked;
    assert e.held == map[];
  }

  lemma Rest(s: seq<nat>, i: nat)
    requires Distinct(s) && i < |s|
    ensures s[i] in s[i..] && forall x :: x in s[i + 1..] <==> x in s[i..] && x != s[i]
  {
    assert s[i..] == [s[i]] + s[i + 1..];
  }
}
