/**
 Unregistering an algorithm. Instances of templates are built on other algorithms; each use is a spawn, kept on the list
 of users of the algorithm it uses. Removing an algorithm walks over everything built on it, directly or not, with a
 stack made of the spawns themselves, and then marks the instances it met as dead.
 */
module Spawns {
  import opened Lists
  import opened Options

  const ENOENT: int := 2

  /** The spawns on the list of each algorithm. */
  type Users = map<nat, seq<nat>>

  ghost predicate On(lists: Users, x: nat, s: nat) {
    x in lists && s in lists[x]
  }

  /** Every spawn is on one list at most, and the instance it belongs to has a list. */
  ghost predicate WellFormed(lists: Users, inst: map<nat, nat>) {
    && (forall x :: x in lists ==> Distinct(lists[x]))
    && (forall x, y, s :: On(lists, x, s) && On(lists, y, s) ==> x == y)
    && (forall x, s :: On(lists, x, s) ==> s in inst)
    && (forall s :: s in inst ==> inst[s] in lists)
  }

  // ----- what is built on an algorithm

  /** The second spawn uses the instance of the first. */
  ghost predicate Link(lists: Users, inst: map<nat, nat>, s: nat, t: nat) {
    s in inst && On(lists, inst[s], t)
  }

  /** Each spawn of the path uses the instance of the one before, and the first one uses the algorithm. */
  ghost predicate Path(lists: Users, inst: map<nat, nat>, a: nat, p: seq<nat>) {
    && p != [] && On(lists, a, p[0])
    && forall i :: 0 < i < |p| ==> Link(lists, inst, p[i - 1], p[i])
  }

  ghost predicate Reachable(lists: Users, inst: map<nat, nat>, a: nat, s: nat) {
    exists p :: Path(lists, inst, a, p) && p[|p| - 1] == s
  }

  /** The instance uses the algorithm, directly or through other instances. */
  ghost predicate Uses(lists: Users, inst: map<nat, nat>, a: nat, x: nat) {
    exists s :: s in inst && inst[s] == x && Reachable(lists, inst, a, s)
  }

  lemma ReachFirst(lists: Users, inst: map<nat, nat>, a: nat, s: nat)
    requires On(lists, a, s)
    ensures Reachable(lists, inst, a, s)
  {
    assert Path(lists, inst, a, [s]) && [s][|[s]| - 1] == s;
  }

  lemma ReachNext(lists: Users, inst: map<nat, nat>, a: nat, t: nat, s: nat)
    requires Reachable(lists, inst, a, t) && Link(lists, inst, t, s)
    ensures Reachable(lists, inst, a, s)
  {
    var p :| Path(lists, inst, a, p) && p[|p| - 1] == t;
    var q := p + [s];
    assert Path(lists, inst, a, q) && q[|q| - 1] == s;
  }

  /** Whatever contains the users of the algorithm and is closed under use contains all that is reachable. */
  lemma {:induction false} ClosedContains(lists: Users, inst: map<nat, nat>, a: nat, v: set<nat>, p: seq<nat>)
    requires Path(lists, inst, a, p)
    requires forall s :: On(lists, a, s) ==> s in v
    requires forall s, t :: s in v && Link(lists, inst, s, t) ==> t in v
    ensures p[|p| - 1] in v
  {
    if |p| > 1 {
      var q := p[..|p| - 1];
      assert Path(lists, inst, a, q);
      ClosedContains(lists, inst, a, v, q);
      assert Link(lists, inst, q[|q| - 1], p[|p| - 1]);
    }
  }

  // ----- the walk

  /**
   The state of the walk against the lists at the start. The key of the algorithm stands for the list of its users that
   were set aside. Spawns on the stack or done have been met; the rest are still on their lists.
   */
  ghost predicate Walking(from: Users, inst: map<nat, nat>, a: nat, lists: Users, stack: seq<nat>, done: seq<nat>) {
    && a in from && lists.Keys == from.Keys
    && Distinct(stack) && Distinct(done)
    && (forall x :: x in lists ==> Distinct(lists[x]))
    && (forall x, s :: On(lists, x, s) ==> On(from, x, s) && s !in stack && s !in done)
    && (forall x, s :: On(from, x, s) ==> On(lists, x, s) || s in stack || s in done)
    && (forall s :: s in stack ==> s !in done)
  }

  /** What was met is reachable and no instance of it is the algorithm; what is done has no users left. */
  ghost predicate Met(from: Users, inst: map<nat, nat>, a: nat, lists: Users, stack: seq<nat>, done: seq<nat>) {
    && (forall s :: s in stack || s in done ==>
          s in inst && inst[s] in lists && inst[s] != a && Reachable(from, inst, a, s))
    && (forall s :: s in done && s in inst && inst[s] in lists ==> lists[inst[s]] == [])
  }

  lemma PushWalking(from: Users, inst: map<nat, nat>, a: nat, lists: Users, stack: seq<nat>, done: seq<nat>, x: nat)
    requires WellFormed(from, inst) && Walking(from, inst, a, lists, stack, done) && x in lists && lists[x] != []
    ensures Walking(from, inst, a, lists[x := lists[x][1..]], [lists[x][0]] + stack, done)
  {
    Tail(lists[x]);
    Cons(lists[x][0], stack);
    var s, lists', stack' := lists[x][0], lists[x := lists[x][1..]], [lists[x][0]] + stack;
    assert On(lists, x, s);
    hide Distinct;
    forall y, t | On(lists', y, t) ensures On(from, y, t) && t !in stack' && t !in done {
      assert On(lists, y, t);
    }
    forall y, t | On(from, y, t) ensures On(lists', y, t) || t in stack' || t in done {
      assert On(lists, y, t) || t in stack || t in done;
    }
  }

  lemma PushMet(from: Users, inst: map<nat, nat>, a: nat, lists: Users, stack: seq<nat>, done: seq<nat>, x: nat)
    requires Met(from, inst, a, lists, stack, done) && x in lists && lists[x] != []
    requires var s := lists[x][0]; s in inst && inst[s] in lists && inst[s] != a && Reachable(from, inst, a, s)
    ensures Met(from, inst, a, lists[x := lists[x][1..]], [lists[x][0]] + stack, done)
  {
    hide Reachable;
  }

  /** The top of the stack is done when the list of its instance is empty. */
  lemma PopKeeps(from: Users, inst: map<nat, nat>, a: nat, lists: Users, stack: seq<nat>, done: seq<nat>)
    requires Walking(from, inst, a, lists, stack, done) && Met(from, inst, a, lists, stack, done) && stack != []
    requires stack[0] in inst && inst[stack[0]] in lists && lists[inst[stack[0]]] == []
    ensures Walking(from, inst, a, lists, stack[1..], [stack[0]] + done)
    ensures Met(from, inst, a, lists, stack[1..], [stack[0]] + done)
  {
    hide Reachable;
    Tail(stack);
    Cons(stack[0], done);
    assert stack[0] in stack;
    hide Distinct;
    forall y, t | On(from, y, t) ensures On(lists, y, t) || t in stack[1..] || t in [stack[0]] + done {
      assert On(lists, y, t) || t in stack || t in done;
    }
  }

  /** The walk ends when the stack and the users that were set aside are used up: all that is reachable was met. */
  lemma WalkComplete(from: Users, inst: map<nat, nat>, a: nat, lists: Users, done: seq<nat>, s: nat)
    requires WellFormed(from, inst) && Walking(from, inst, a, lists, [], done) && Met(from, inst, a, lists, [], done)
    requires lists[a] == []
    ensures Reachable(from, inst, a, s) <==> s in done
  {
    if Reachable(from, inst, a, s) {
      var p :| Path(from, inst, a, p) && p[|p| - 1] == s;
      ClosedContains(from, inst, a, (set t | t in done), p);
    }
  }

  /** Spawns that were not met yet. */
  ghost function Unmet(inst: map<nat, nat>, stack: seq<nat>, done: seq<nat>): set<nat> {
    set s | s in inst && s !in stack && s !in done
  }

  lemma PushUnmet(inst: map<nat, nat>, stack: seq<nat>, done: seq<nat>, s: nat)
    requires s in inst && s !in stack && s !in done
    ensures |Unmet(inst, [s] + stack, done)| < |Unmet(inst, stack, done)|
  {
    assert Unmet(inst, [s] + stack, done) == Unmet(inst, stack, done) - {s};
  }

  lemma PopUnmet(inst: map<nat, nat>, stack: seq<nat>, done: seq<nat>)
    requires stack != []
    ensures |Unmet(inst, stack[1..], [stack[0]] + done)| == |Unmet(inst, stack, done)|
  {
    assert stack == [stack[0]] + stack[1..];
    assert Unmet(inst, stack[1..], [stack[0]] + done) == Unmet(inst, stack, done);
  }

  /** Only the lists of the algorithm and of instances that use it change. */
  ghost predicate Touched(from: Users, inst: map<nat, nat>, a: nat, lists: Users) {
    lists.Keys == from.Keys && forall x :: x in lists && x != a ==> lists[x] == from[x] || Uses(from, inst, a, x)
  }

  /** The users of the algorithm, set aside in the order in which moving them one by one leaves them. */
  ghost function Reversed(s: seq<nat>): seq<nat> {
    if s == [] then [] else Reversed(s[1..]) + [s[0]]
  }

  lemma {:induction false} ReversedIs(s: seq<nat>)
    requires Distinct(s)
    ensures |Reversed(s)| == |s| && Distinct(Reversed(s)) && forall t :: t in Reversed(s) <==> t in s
  {
    if s != [] {
      Tail(s);
      ReversedIs(s[1..]);
      var r := Reversed(s[1..]);
      forall t ensures t in r + [s[0]] <==> t in r || t == s[0] {
      }
    }
  }

  lemma SetAside(from: Users, inst: map<nat, nat>, a: nat)
    requires WellFormed(from, inst) && a in from
    ensures var lists := from[a := Reversed(from[a])];
            Walking(from, inst, a, lists, [], []) && Met(from, inst, a, lists, [], []) && Touched(from, inst, a, lists)
  {
    ReversedIs(from[a]);
    hide Distinct, Uses, Reachable;
    var lists := from[a := Reversed(from[a])];
    assert forall x, s :: On(lists, x, s) <==> On(from, x, s);
  }

  /** The walk is at the users of the instance on top of the stack, or at those that were set aside. */
  ghost predicate At(inst: map<nat, nat>, a: nat, stack: seq<nat>, x: nat) {
    if stack == [] then x == a else stack[0] in inst && x == inst[stack[0]]
  }

  lemma TopOk(from: Users, inst: map<nat, nat>, a: nat, lists: Users, stack: seq<nat>, done: seq<nat>)
    requires Met(from, inst, a, lists, stack, done) && stack != []
    ensures stack[0] in inst && inst[stack[0]] in lists
  {
    hide Reachable;
    assert stack[0] in stack;
  }

  /** The spawn at the front of the list where the walk is. */
  lemma Front(from: Users, inst: map<nat, nat>, a: nat, lists: Users, stack: seq<nat>, done: seq<nat>, x: nat)
    requires WellFormed(from, inst) && Walking(from, inst, a, lists, stack, done)
             && Met(from, inst, a, lists, stack, done)
    requires x in lists && lists[x] != [] && At(inst, a, stack, x)
    ensures var s := lists[x][0];
            && s in inst && inst[s] in lists && s !in stack && s !in done && Reachable(from, inst, a, s)
            && Uses(from, inst, a, inst[s]) && (x != a ==> Uses(from, inst, a, x))
  {
    var s := lists[x][0];
    assert On(lists, x, s) && On(from, x, s);
    if stack == [] {
      ReachFirst(from, inst, a, s);
    } else {
      assert stack[0] in stack;
      ReachNext(from, inst, a, stack[0], s);
    }
  }

  class Registry {
    const inst: map<nat, nat>
    var users: Users
    var target: map<nat, Option<nat>>
    var dead: set<nat>
    var hashed: set<nat>
    var listed: set<nat>

    ghost predicate Valid()
      reads this
    {
      && WellFormed(users, inst)
      && target.Keys == inst.Keys && forall x: nat, s: nat :: On(users, x, s) && s in target ==> target[s] == Some(x)
    }

    constructor (inst: map<nat, nat>, users: Users, target: map<nat, Option<nat>>, hashed: set<nat>, listed: set<nat>)
      requires WellFormed(users, inst) && target.Keys == inst.Keys
      requires forall x: nat, s: nat :: On(users, x, s) && s in target ==> target[s] == Some(x)
      ensures Valid() && this.inst == inst && this.users == users && this.target == target && this.hashed == hashed
      ensures this.listed == listed && dead == {}
    {
      this.inst, this.users, this.target, this.hashed, this.listed := inst, users, target, hashed, listed;
      dead := {};
    }

    /** Moves the users of the algorithm to a list of their own, one by one. */
    method SetUsersAside(a: nat) returns (top: seq<nat>)
      requires a in users
      modifies `users
      ensures users == old(users)[a := []] && top == Reversed(old(users)[a])
    {
      var rest := users[a];
      top := [];
      while rest != []
        invariant Reversed(old(users)[a]) == Reversed(rest) + top
        decreases |rest|
      {
        top, rest := [rest[0]] + top, rest[1..];
      }
      users := users[a := []];
    }

    /** The walk. It stops where the assertion in the source would fail: an instance that is the algorithm itself. */
    method Walk(a: nat) returns (ok: bool, done: seq<nat>)
      requires Valid() && a in users
      modifies `users, `target
      ensures ok <==> !Uses(old(users), inst, a, a)
      ensures ok ==> Distinct(done) && forall s :: s in done <==> Reachable(old(users), inst, a, s)
      ensures ok ==> Met(old(users), inst, a, users, [], done) && Touched(old(users), inst, a, users)
      ensures ok ==> a in users && users[a] == []
      ensures ok ==> Cleared(old(target), target, [], done)
    {
      hide WellFormed, Walking, Met, Touched, Reachable, Uses, Distinct, Cleared, Unmet;
      ghost var from := users;
      SetAside(from, inst, a);
      ClearedNone(target);
      var top := SetUsersAside(a);
      var lists: Users := users[a := top];
      var stack: seq<nat>, x: nat := [], a;
      done := [];
      ok := true;
      assert lists == from[a := Reversed(from[a])];
      while true
        invariant Walking(from, inst, a, lists, stack, done) && Met(from, inst, a, lists, stack, done)
        invariant Touched(from, inst, a, lists) && x in lists && At(inst, a, stack, x)
        invariant Cleared(old(target), target, stack, done)
        decreases |Unmet(inst, stack, done)|, |stack|
      {
        ghost var unmet, depth := |Unmet(inst, stack, done)|, |stack|;
        while lists[x] != []
          invariant Walking(from, inst, a, lists, stack, done) && Met(from, inst, a, lists, stack, done)
          invariant Touched(from, inst, a, lists) && x in lists && At(inst, a, stack, x)
          invariant Cleared(old(target), target, stack, done)
          invariant |Unmet(inst, stack, done)| < unmet || (|Unmet(inst, stack, done)| == unmet && |stack| == depth)
          decreases |Unmet(inst, stack, done)|
        {
          var s := lists[x][0];
          Front(from, inst, a, lists, stack, done, x);
          if inst[s] == a {
            return false, [];
          }
          PushWalking(from, inst, a, lists, stack, done, x);
          PushMet(from, inst, a, lists, stack, done, x);
          PushUnmet(inst, stack, done, s);
          TouchedMore(from, inst, a, lists, x, lists[x][1..]);
          ClearedKeys(old(target), target, stack, done);
          ClearedMore(old(target), target, stack, done, s);
          lists := lists[x := lists[x][1..]];
          stack := [s] + stack;
          target := target[s := None];
          x := inst[s];
        }
        if stack == [] {
          break;
        }
        PopKeeps(from, inst, a, lists, stack, done);
        PopUnmet(inst, stack, done);
        ClearedSame(old(target), target, stack, done);
        stack, done := stack[1..], [stack[0]] + done;
        if stack == [] {
          x := a;
          AlgListed(from, inst, a, lists, stack, done);
        } else {
          TopOk(from, inst, a, lists, stack, done);
          x := inst[stack[0]];
        }
      }
      forall s ensures s in done <==> Reachable(from, inst, a, s) {
        WalkComplete(from, inst, a, lists, done, s);
      }
      NotSelf(from, inst, a, lists, done);
      AlgListed(from, inst, a, lists, stack, done);
      users := lists;
    }

    /**
     Marks the instance dead; if it can be looked up and its template is there, it goes to the list for destruction.
     */
    method RemoveSpawn(s: nat, gettable: set<nat>, list: seq<nat>) returns (list': seq<nat>)
      requires s in inst && inst[s] in users && users[inst[s]] == []
      modifies `dead, `hashed
      ensures dead == old(dead) + {inst[s]}
      ensures var x := inst[s];
              if x !in old(dead) && x in old(hashed) && x in gettable
              then list' == [x] + list && hashed == old(hashed) - {x}
              else list' == list && hashed == old(hashed)
    {
      var x := inst[s];
      list' := list;
      if x in dead {
        assert dead + {x} == dead;
        return;
      }
      dead := dead + {x};
      if x !in hashed {
        return;
      }
      if x !in gettable {
        return;
      }
      list' := [x] + list;
      hashed := hashed - {x};
      assert users[x] == [];
    }

    /** Marks the instances of all spawns that were met, each once. */
    method RemoveAll(done: seq<nat>, gettable: set<nat>) returns (list: seq<nat>)
      requires forall s :: s in done ==> s in inst && inst[s] in users && users[inst[s]] == []
      modifies `dead, `hashed
      ensures dead == old(dead) + Insts(inst, done)
      ensures Distinct(list) && hashed == old(hashed) - Elements(list)
      ensures Elements(list) == (Insts(inst, done) - old(dead)) * old(hashed) * gettable
    {
      list := [];
      var i := 0;
      while i < |done|
        invariant 0 <= i <= |done|
        invariant dead == old(dead) + Insts(inst, done[..i])
        invariant Distinct(list) && hashed == old(hashed) - Elements(list)
        invariant Elements(list) == (Insts(inst, done[..i]) - old(dead)) * old(hashed) * gettable
      {
        assert done[i] in done;
        InstsMore(inst, done, i);
        Cons(inst[done[i]], list);
        ElementsCons(inst[done[i]], list);
        list := RemoveSpawn(done[i], gettable, list);
        i := i + 1;
      }
      assert done[..i] == done;
    }

    method RemoveSpawns(a: nat, gettable: set<nat>) returns (ok: bool, list: seq<nat>)
      requires Valid() && a in users
      modifies `users, `target, `dead, `hashed
      ensures ok <==> !Uses(old(users), inst, a, a)
      ensures ok ==> Valid() && users.Keys == old(users).Keys
      ensures ok ==> forall x :: x in users ==>
                       users[x] == if x == a || Uses(old(users), inst, a, x) then [] else old(users)[x]
      ensures ok ==> forall s :: s in target ==>
                       target[s] == if Reachable(old(users), inst, a, s) then None else old(target)[s]
      ensures ok ==> forall x :: x in dead <==> x in old(dead) || Uses(old(users), inst, a, x)
      ensures ok ==> Distinct(list) && hashed == old(hashed) - Elements(list)
      ensures ok ==> forall x :: x in list <==>
                       Uses(old(users), inst, a, x) && x !in old(dead) && x in old(hashed) && x in gettable
    {
      hide WellFormed, Reachable, Uses, Distinct, Touched, Met, Cleared;
      ghost var from, before := users, target;
      var done;
      ok, done := Walk(a);
      list := [];
      if !ok {
        return;
      }
      Finished(from, inst, a, users, done);
      list := RemoveAll(done, gettable);
      forall s | s in target
        ensures s in before && target[s] == if Reachable(from, inst, a, s) then None else before[s]
      {
        ClearedAt(before, target, done, s);
      }
      ClearedKeys(before, target, [], done);
      StillWellFormed(from, inst, a, users);
      StillAimed(from, before, inst, a, users, target, done);
      forall x ensures x in list <==> x in Elements(list) {
      }
    }

    /**
     Unregisters an algorithm: it and exactly the instances that use it are dead afterwards, and nobody uses those.
     */
    method RemoveAlg(a: nat, gettable: set<nat>) returns (err: int, ok: bool, list: seq<nat>)
      requires Valid() && a in users
      modifies this
      ensures err == if a in old(listed) then 0 else -ENOENT
      ensures err != 0 ==> unchanged(this) && ok && list == []
      ensures err == 0 ==> listed == old(listed) - {a} && (ok <==> !Uses(old(users), inst, a, a))
      ensures err == 0 && ok ==> Valid() && users.Keys == old(users).Keys
      ensures err == 0 && ok ==> forall x :: x in dead <==> x in old(dead) || x == a || Uses(old(users), inst, a, x)
      ensures err == 0 && ok ==>
                forall x :: x in users ==>
                  users[x] == if x == a || Uses(old(users), inst, a, x) then [] else old(users)[x]
    {
      if a !in listed {
        return -ENOENT, true, [];
      }
      hide Uses, Reachable, WellFormed;
      dead := dead + {a};
      listed := listed - {a};
      err := 0;
      ok, list := RemoveSpawns(a, gettable);
    }
  }

  ghost function Insts(inst: map<nat, nat>, done: seq<nat>): set<nat>
    requires forall s :: s in done ==> s in inst
  {
    set s | s in done :: inst[s]
  }

  ghost function Elements(s: seq<nat>): set<nat> {
    set x | x in s
  }

  lemma ElementsCons(x: nat, s: seq<nat>)
    ensures Elements([x] + s) == {x} + Elements(s)
  {
  }

  lemma InstsMore(inst: map<nat, nat>, done: seq<nat>, i: nat)
    requires (forall s :: s in done ==> s in inst) && i < |done|
    ensures Insts(inst, done[..i + 1]) == Insts(inst, done[..i]) + {inst[done[i]]}
  {
    assert done[..i + 1] == done[..i] + [done[i]];
  }

  /** What the end of the walk says about instances and lists. */
  lemma Finished(from: Users, inst: map<nat, nat>, a: nat, lists: Users, done: seq<nat>)
    requires Met(from, inst, a, lists, [], done) && Touched(from, inst, a, lists) && a in lists && lists[a] == []
    requires forall s :: s in done <==> Reachable(from, inst, a, s)
    ensures forall s :: s in done ==> s in inst && inst[s] in lists && lists[inst[s]] == []
    ensures forall x :: x in Insts(inst, done) <==> Uses(from, inst, a, x)
    ensures lists.Keys == from.Keys
    ensures forall x :: x in lists ==> lists[x] == if x == a || Uses(from, inst, a, x) then [] else from[x]
  {
    hide Reachable;
  }

  lemma ClearedAt(before: map<nat, Option<nat>>, target: map<nat, Option<nat>>, done: seq<nat>, s: nat)
    requires Cleared(before, target, [], done) && s in target
    ensures s in before && target[s] == if s in done then None else before[s]
  {
  }

  lemma StillWellFormed(from: Users, inst: map<nat, nat>, a: nat, lists: Users)
    requires WellFormed(from, inst) && lists.Keys == from.Keys
    requires forall x :: x in lists ==> lists[x] == if x == a || Uses(from, inst, a, x) then [] else from[x]
    ensures WellFormed(lists, inst)
  {
    hide Uses;
    assert forall x, s :: On(lists, x, s) ==> On(from, x, s);
  }

  lemma StillAimed(from: Users, before: map<nat, Option<nat>>, inst: map<nat, nat>, a: nat, lists: Users,
                   target: map<nat, Option<nat>>, done: seq<nat>)
    requires WellFormed(from, inst) && lists.Keys == from.Keys && Cleared(before, target, [], done)
    requires forall s :: s in done <==> Reachable(from, inst, a, s)
    requires forall x :: x in lists ==> lists[x] == if x == a || Uses(from, inst, a, x) then [] else from[x]
    requires forall x: nat, s: nat :: On(from, x, s) && s in before ==> before[s] == Some(x)
    ensures forall x: nat, s: nat :: On(lists, x, s) && s in target ==> target[s] == Some(x)
  {
    forall x: nat, s: nat | On(lists, x, s) && s in target ensures target[s] == Some(x) {
      assert On(from, x, s);
      if s in done {
        ListEmptied(from, inst, a, x, s);
      }
    }
  }

  /** A spawn that is reachable is on the list of the algorithm or of an instance that uses it. */
  lemma ListEmptied(from: Users, inst: map<nat, nat>, a: nat, x: nat, s: nat)
    requires WellFormed(from, inst) && On(from, x, s) && Reachable(from, inst, a, s)
    ensures x == a || Uses(from, inst, a, x)
  {
    var p :| Path(from, inst, a, p) && p[|p| - 1] == s;
    if |p| > 1 {
      var q := p[..|p| - 1];
      assert Path(from, inst, a, q) && Link(from, inst, q[|q| - 1], s);
      assert Reachable(from, inst, a, q[|q| - 1]);
    }
  }

  lemma AlgListed(from: Users, inst: map<nat, nat>, a: nat, lists: Users, stack: seq<nat>, done: seq<nat>)
    requires Walking(from, inst, a, lists, stack, done)
    ensures a in lists && Distinct(done)
  {
  }

  /** A spawn that was met has no algorithm any more. */
  ghost predicate Cleared(before: map<nat, Option<nat>>, target: map<nat, Option<nat>>, stack: seq<nat>,
                          done: seq<nat>) {
    && target.Keys == before.Keys
    && forall s :: s in target ==> target[s] == if s in stack || s in done then None else before[s]
  }

  lemma ClearedMore(before: map<nat, Option<nat>>, target: map<nat, Option<nat>>, stack: seq<nat>, done: seq<nat>,
                    s: nat)
    requires Cleared(before, target, stack, done) && s in target
    ensures Cleared(before, target[s := None], [s] + stack, done)
  {
  }

  lemma ClearedNone(target: map<nat, Option<nat>>)
    ensures Cleared(target, target, [], [])
  {
  }

  lemma ClearedKeys(before: map<nat, Option<nat>>, target: map<nat, Option<nat>>, stack: seq<nat>, done: seq<nat>)
    requires Cleared(before, target, stack, done)
    ensures target.Keys == before.Keys
  {
  }

  lemma ClearedSame(before: map<nat, Option<nat>>, target: map<nat, Option<nat>>, stack: seq<nat>, done: seq<nat>)
    requires Cleared(before, target, stack, done) && stack != []
    ensures Cleared(before, target, stack[1..], [stack[0]] + done)
  {
    assert stack == [stack[0]] + stack[1..];
  }

  lemma TouchedMore(from: Users, inst: map<nat, nat>, a: nat, lists: Users, x: nat, l: seq<nat>)
    requires Touched(from, inst, a, lists) && x in lists && (x != a ==> Uses(from, inst, a, x))
    ensures Touched(from, inst, a, lists[x := l])
  {
    hide Uses;
  }

  lemma NotSelf(from: Users, inst: map<nat, nat>, a: nat, lists: Users, done: seq<nat>)
    requires Met(from, inst, a, lists, [], done) && forall s :: s in done <==> Reachable(from, inst, a, s)
    ensures !Uses(from, inst, a, a)
  {
    hide Reachable;
  }
}
