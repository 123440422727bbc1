/**
 The two levels of CFQ's service trees: a busy queue is on one of the seven trees of its group, and a group with busy
 queues is on the tree of groups. Queues move between their own group and the root group when their access pattern
 changes.
 */
module Accounting {
  import opened Options

  datatype Prio = BestEffort | RealTime | Idle

  datatype Type = Async | SyncNoIdle | Sync

  /** The trees of a group: three for each of two priorities, and one for idle queues. */
  function Slot(p: Prio, t: Type): (k: nat)
    ensures k < 7
  {
    if p.Idle? then 6 else (if p.RealTime? then 3 else 0) + (if t.Async? then 0 else if t.SyncNoIdle? then 1 else 2)
  }

  datatype Group = Group(nr: int, onSt: bool, count: seq<int>)

  const EMPTY: Group := Group(0, false, [0, 0, 0, 0, 0, 0, 0])

  /** A tree of a group. */
  datatype Tree = Tree(group: nat, slot: nat)

  datatype Queue = Queue(group: nat, orig: Option<nat>, tree: Option<Tree>, key: int, onRr: bool)

  // ----- counting

  ghost function On(queues: map<nat, Queue>, t: Tree): set<nat> {
    set q | q in queues && queues[q].tree == Some(t)
  }

  ghost function Busy(queues: map<nat, Queue>): set<nat> {
    set q | q in queues && queues[q].onRr
  }

  function At(p: Option<Tree>, t: Tree): nat {
    if p == Some(t) then 1 else 0
  }

  function In(p: Option<Tree>, g: nat): nat {
    if p.Some? && p.value.group == g then 1 else 0
  }

  lemma OnChanged(queues: map<nat, Queue>, q: nat, x: Queue, t: Tree)
    requires q in queues
    ensures |On(queues[q := x], t)| == |On(queues, t)| - At(queues[q].tree, t) + At(x.tree, t)
  {
    var a, b := On(queues, t), On(queues[q := x], t);
    assert a - {q} == b - {q};
    assert |a| == |a - {q}| + At(queues[q].tree, t);
    assert |b| == |b - {q}| + At(x.tree, t);
  }

  lemma BusyChanged(queues: map<nat, Queue>, q: nat, x: Queue)
    requires q in queues
    ensures |Busy(queues[q := x])| == |Busy(queues)| - (if queues[q].onRr then 1 else 0) + (if x.onRr then 1 else 0)
  {
    var a, b := Busy(queues), Busy(queues[q := x]);
    assert a - {q} == b - {q};
    assert |a| == |a - {q}| + if queues[q].onRr then 1 else 0;
    assert |b| == |b - {q}| + if x.onRr then 1 else 0;
  }

  function Sum(c: seq<int>): int
    requires |c| == 7
  {
    c[0] + c[1] + c[2] + c[3] + c[4] + c[5] + c[6]
  }

  // ----- the invariant

  /** The counts of a group are right, and its number of queues is off by a given amount. */
  ghost predicate GroupOk(x: Group, g: nat, queues: map<nat, Queue>, off: int) {
    && |x.count| == 7
    && (forall k :: 0 <= k < 7 ==> x.count[k] == |On(queues, Tree(g, k))|)
    && x.nr == Sum(x.count) + off
    && (x.onSt <==> x.nr > 0) && x.nr >= 0
  }

  ghost predicate QueueOk(x: Queue, groups: map<nat, Group>, root: nat) {
    && x.group in groups
    && (x.tree.Some? <==> x.onRr)
    && (x.tree.Some? ==> x.tree.value.group == x.group && x.tree.value.slot < 7)
    && (x.orig.Some? ==> x.group == root && x.orig.value in groups && x.orig.value != root)
  }

  ghost predicate Inv(groups: map<nat, Group>, queues: map<nat, Queue>, busy: int, root: nat) {
    && root in groups
    && (forall g :: g in groups ==> GroupOk(groups[g], g, queues, 0))
    && (forall q :: q in queues ==> QueueOk(queues[q], groups, root))
    && busy == |Busy(queues)|
  }

  // ----- where queues belong

  /** A queue is in the group it was created in, or in the root with that group remembered. */
  ghost predicate Homed(x: Queue, home: nat, root: nat) {
    || (x.group == home && x.orig.None?)
    || (x.group == root && x.orig == Some(home) && home != root)
  }

  ghost predicate AllHomed(queues: map<nat, Queue>, home: map<nat, nat>, root: nat) {
    queues.Keys == home.Keys && forall q :: q in queues ==> Homed(queues[q], home[q], root)
  }

  /**
   Where a queue goes when it is filed. Isolated groups keep their queues, and so does an asynchronous queue its group;
   otherwise random readers share the root group, and a sequential reader is in the group it was created in.
   */
  ghost predicate Filed(x: Queue, x': Queue, home: nat, isolation: bool, t: Type, root: nat) {
    && Homed(x', home, root)
    && (isolation || t.Async? ==> x'.group == x.group && x'.orig == x.orig)
    && (!isolation && t.SyncNoIdle? ==> x'.group == root)
    && (!isolation && t.Sync? ==> x'.group == home)
  }

  lemma HomeFiles(x: Queue, x': Queue, home: nat, isolation: bool, t: Type, root: nat)
    requires Homed(x, home, root) && (x'.group, x'.orig) == CfqData.Home(x, isolation, t, root)
    ensures Filed(x, x', home, isolation, t, root)
  {
  }

  /** The trees of a group are apart: only idle queues share one whatever their type. */
  lemma SlotsApart(p: Prio, t: Type, p': Prio, t': Type)
    ensures Slot(p, t) == Slot(p', t') <==> p == p' && (p.Idle? || t == t')
  {
  }

  // ----- the steps on groups

  function Erased(x: Group, k: nat): Group
    requires k < |x.count|
  {
    x.(count := x.count[k := x.count[k] - 1])
  }

  function Inserted(x: Group, k: nat): Group
    requires k < |x.count|
  {
    x.(count := x.count[k := x.count[k] + 1])
  }

  /** One queue more: the group goes on the tree of groups if it was not there. */
  function Added(x: Group): Group {
    x.(nr := x.nr + 1, onSt := true)
  }

  /** One queue less: the group leaves the tree of groups with its last one. */
  function Deleted(x: Group): Group {
    x.(nr := x.nr - 1, onSt := x.onSt && x.nr - 1 != 0)
  }

  lemma ErasedOk(x: Group, g: nat, k: nat, queues: map<nat, Queue>, q: nat, y: Queue, off: int)
    requires GroupOk(x, g, queues, off) && k < 7 && q in queues && queues[q].tree == Some(Tree(g, k)) && y.tree.None?
    ensures GroupOk(Erased(x, k), g, queues[q := y], off + 1)
  {
    forall j | 0 <= j < 7 ensures Erased(x, k).count[j] == |On(queues[q := y], Tree(g, j))| {
      OnChanged(queues, q, y, Tree(g, j));
    }
    hide On;
  }

  lemma InsertedOk(x: Group, g: nat, k: nat, queues: map<nat, Queue>, q: nat, y: Queue, off: int)
    requires GroupOk(x, g, queues, off) && k < 7 && q in queues && queues[q].tree.None? && y.tree == Some(Tree(g, k))
    ensures GroupOk(Inserted(x, k), g, queues[q := y], off - 1)
  {
    forall j | 0 <= j < 7 ensures Inserted(x, k).count[j] == |On(queues[q := y], Tree(g, j))| {
      OnChanged(queues, q, y, Tree(g, j));
    }
    hide On;
  }

  lemma ElsewhereOk(x: Group, g: nat, queues: map<nat, Queue>, q: nat, y: Queue, off: int)
    requires GroupOk(x, g, queues, off) && q in queues && In(queues[q].tree, g) == 0 && In(y.tree, g) == 0
    ensures GroupOk(x, g, queues[q := y], off)
  {
    forall j | 0 <= j < 7 ensures x.count[j] == |On(queues[q := y], Tree(g, j))| {
      OnChanged(queues, q, y, Tree(g, j));
    }
    hide On;
  }

  lemma AddedOk(x: Group, g: nat, queues: map<nat, Queue>)
    requires GroupOk(x, g, queues, -1)
    ensures GroupOk(Added(x), g, queues, 0)
  {
    hide On;
  }

  /** A group that has a queue on one of its trees has at least one queue. */
  lemma DeletedOk(x: Group, g: nat, queues: map<nat, Queue>, off: int)
    requires GroupOk(x, g, queues, off) && x.nr >= 1
    ensures GroupOk(Deleted(x), g, queues, off - 1)
  {
    hide On;
  }

  lemma HasQueues(x: Group, g: nat, queues: map<nat, Queue>, q: nat, k: nat)
    requires GroupOk(x, g, queues, 0) && q in queues && k < 7 && queues[q].tree == Some(Tree(g, k))
    ensures x.nr >= 1 && x.count[k] >= 1
  {
    assert q in On(queues, Tree(g, k));
    forall j | 0 <= j < 7 ensures x.count[j] >= 0 {
    }
  }

  /** The queues that are neither asynchronous nor idle are not negative in number. */
  lemma SyncQueues(x: Group, g: nat, queues: map<nat, Queue>)
    requires GroupOk(x, g, queues, 0)
    ensures var async := x.count[Slot(RealTime, Async)] + x.count[Slot(BestEffort, Async)];
            x.nr - async - x.count[Slot(Idle, Sync)] >= 0
  {
    forall j | 0 <= j < 7 ensures x.count[j] >= 0 {
    }
  }

  // ----- the steps on all groups

  /** Every group is right, except that the number of queues of one is off. */
  ghost predicate AllOk(groups: map<nat, Group>, queues: map<nat, Queue>, h: nat, off: int) {
    forall g :: g in groups ==> GroupOk(groups[g], g, queues, if g == h then off else 0)
  }

  lemma EraseAll(groups: map<nat, Group>, queues: map<nat, Queue>, q: nat, t: Tree, y: Queue, off: int)
    requires AllOk(groups, queues, t.group, off) && q in queues && queues[q].tree == Some(t) && y.tree.None?
    requires t.group in groups && t.slot < 7
    ensures |groups[t.group].count| == 7
    ensures AllOk(groups[t.group := Erased(groups[t.group], t.slot)], queues[q := y], t.group, off + 1)
  {
    hide GroupOk;
    GroupSized(groups[t.group], t.group, queues, off);
    forall g | g in groups
      ensures GroupOk(groups[t.group := Erased(groups[t.group], t.slot)][g], g, queues[q := y],
                      if g == t.group then off + 1 else 0) {
      if g == t.group {
        ErasedOk(groups[g], g, t.slot, queues, q, y, off);
      } else {
        ElsewhereOk(groups[g], g, queues, q, y, 0);
      }
    }
  }

  lemma InsertAll(groups: map<nat, Group>, queues: map<nat, Queue>, q: nat, t: Tree, y: Queue, off: int)
    requires AllOk(groups, queues, t.group, off) && q in queues && queues[q].tree.None? && y.tree == Some(t)
    requires t.group in groups && t.slot < 7
    ensures |groups[t.group].count| == 7
    ensures AllOk(groups[t.group := Inserted(groups[t.group], t.slot)], queues[q := y], t.group, off - 1)
  {
    hide GroupOk;
    GroupSized(groups[t.group], t.group, queues, off);
    forall g | g in groups
      ensures GroupOk(groups[t.group := Inserted(groups[t.group], t.slot)][g], g, queues[q := y],
                      if g == t.group then off - 1 else 0) {
      if g == t.group {
        InsertedOk(groups[g], g, t.slot, queues, q, y, off);
      } else {
        ElsewhereOk(groups[g], g, queues, q, y, 0);
      }
    }
  }

  lemma GroupSized(x: Group, g: nat, queues: map<nat, Queue>, off: int)
    requires GroupOk(x, g, queues, off)
    ensures |x.count| == 7
  {
  }

  /** A change to a queue that does not touch its tree. */
  lemma SameTrees(groups: map<nat, Group>, queues: map<nat, Queue>, q: nat, y: Queue, h: nat, off: int)
    requires AllOk(groups, queues, h, off) && q in queues && y.tree == queues[q].tree
    ensures AllOk(groups, queues[q := y], h, off)
  {
    forall g, j | g in groups && 0 <= j < 7 ensures |On(queues[q := y], Tree(g, j))| == |On(queues, Tree(g, j))| {
      OnChanged(queues, q, y, Tree(g, j));
    }
    hide On;
  }

  class CfqData {
    const root: nat
    var groups: map<nat, Group>
    var queues: map<nat, Queue>
    var busyQueues: int
    ghost var home: map<nat, nat>

    ghost predicate Valid()
      reads this
    {
      Inv(groups, queues, busyQueues, root) && AllHomed(queues, home, root)
    }

    constructor (rootGroup: nat)
      ensures Valid() && root == rootGroup && groups.Keys == {rootGroup} && queues == map[] && home == map[]
    {
      root := rootGroup;
      groups := map[rootGroup := EMPTY];
      queues, busyQueues, home := map[], 0, map[];
    }

    /** A group is set up for a cgroup that does I/O for the first time. */
    method NewGroup(g: nat)
      requires Valid() && g !in groups
      modifies `groups
      ensures Valid() && groups == old(groups)[g := EMPTY]
    {
      NewGroupOk(groups, queues, busyQueues, root, g);
      groups := groups[g := EMPTY];
    }

    method GroupServiceTreeAdd(g: nat)
      requires g in groups && AllOk(groups, queues, g, -1)
      modifies `groups
      ensures groups == old(groups)[g := Added(old(groups)[g])] && AllOk(groups, queues, g, 0)
    {
      hide GroupOk;
      AddedOk(groups[g], g, queues);
      var x := groups[g].(nr := groups[g].nr + 1);
      if !x.onSt {
        x := x.(onSt := true);
      }
      groups := groups[g := x];
    }

    /** The assertion on the number of queues holds. */
    method GroupServiceTreeDel(g: nat, ghost off: int)
      requires g in groups && AllOk(groups, queues, g, off) && groups[g].nr >= 1
      modifies `groups
      ensures groups == old(groups)[g := Deleted(old(groups)[g])] && AllOk(groups, queues, g, off - 1)
    {
      hide GroupOk;
      DeletedOk(groups[g], g, queues, off);
      var x := groups[g].(nr := groups[g].nr - 1);
      if x.nr == 0 {
        x := x.(onSt := false);
      }
      groups := groups[g := x];
    }

    method Erase(q: nat, ghost off: int)
      requires q in queues && queues[q].tree.Some?
      requires var t := queues[q].tree.value; t.group in groups && t.slot < 7 && AllOk(groups, queues, t.group, off)
      modifies `groups, `queues
      ensures groups.Keys == old(groups).Keys && queues == old(queues)[q := old(queues)[q].(tree := None)]
      ensures AllOk(groups, queues, old(queues)[q].tree.value.group, off + 1)
    {
      hide GroupOk;
      var t := queues[q].tree.value;
      EraseAll(groups, queues, q, t, queues[q].(tree := None), off);
      groups := groups[t.group := Erased(groups[t.group], t.slot)];
      queues := queues[q := queues[q].(tree := None)];
    }

    method Insert(q: nat, t: Tree, key: int, ghost off: int)
      requires q in queues && queues[q].tree.None? && t.group in groups && t.slot < 7
               && AllOk(groups, queues, t.group, off)
      modifies `groups, `queues
      ensures groups.Keys == old(groups).Keys
              && queues == old(queues)[q := old(queues)[q].(tree := Some(t), key := key)]
      ensures AllOk(groups, queues, t.group, off - 1)
    {
      hide GroupOk;
      InsertAll(groups, queues, q, t, queues[q].(tree := Some(t), key := key), off);
      groups := groups[t.group := Inserted(groups[t.group], t.slot)];
      queues := queues[q := queues[q].(tree := Some(t), key := key)];
    }

    /** Where a queue belongs: random readers share the root group unless groups are isolated. */
    static function Home(x: Queue, isolation: bool, t: Type, root: nat): (nat, Option<nat>) {
      if !isolation && t.SyncNoIdle? && x.group != root then (root, Some(x.group))
      else if !isolation && t.Sync? && x.orig.Some? then (x.orig.value, None)
      else (x.group, x.orig)
    }

    /** Puts a busy queue on the tree of the group that Home names. */
    method PutOnTree(q: nat, isolation: bool, p: Prio, t: Type, key: int, front: bool)
      requires root in groups && q in queues && AllOk(groups, queues, root, 0)
      requires QueueOk(queues[q].(onRr := queues[q].tree.Some?), groups, root) && (front ==> queues[q].tree.Some?)
      modifies `groups, `queues
      ensures AllOk(groups, queues, root, 0) && groups.Keys == old(groups).Keys
      ensures var (g, o) := Home(old(queues)[q], isolation, t, root);
              queues == old(queues)[q := old(queues)[q].(group := g, orig := o, key := key,
                                                         tree := Some(Tree(g, Slot(p, t))))]
    {
      hide GroupOk;
      SameOff(groups, queues, root, queues[q].group);
      var x := queues[q];
      var changed := false;
      var (g, o) := Home(x, isolation, t, root);
      ghost var off := 0;
      if g != x.group {
        if x.tree.Some? {
          QueuesOf(groups, queues, q);
          GroupServiceTreeDel(x.group, 0);
          off := -1;
        }
        SameTrees(groups, queues, q, x.(group := g, orig := o), x.group, off);
        queues := queues[q := x.(group := g, orig := o)];
        changed := true;
      }
      var tree := Tree(g, Slot(p, t));
      var isNew := true;
      if x.tree.Some? {
        isNew := false;
        if key == x.key && x.tree == Some(tree) {
          return;
        }
        Erase(q, off);
        off := off + 1;
      }
      SameOff(groups, queues, x.group, g);
      Insert(q, tree, key, if changed then 0 else off);
      if (front || !isNew) && !changed {
        SameOff(groups, queues, g, root);
        return;
      }
      GroupServiceTreeAdd(g);
      SameOff(groups, queues, g, root);
    }

    /** Puts a busy queue on the tree where it belongs now. */
    method ServiceTreeAdd(q: nat, isolation: bool, p: Prio, t: Type, key: int, front: bool)
      requires root in groups && q in queues && AllOk(groups, queues, root, 0)
      requires QueueOk(queues[q].(onRr := queues[q].tree.Some?), groups, root) && (front ==> queues[q].tree.Some?)
      requires q in home && Homed(queues[q], home[q], root)
      modifies `groups, `queues
      ensures AllOk(groups, queues, root, 0) && groups.Keys == old(groups).Keys
      ensures q in queues && queues == old(queues)[q := queues[q]] && queues[q].onRr == old(queues)[q].onRr
      ensures Filed(old(queues)[q], queues[q], home[q], isolation, t, root)
      ensures queues[q].tree == Some(Tree(queues[q].group, Slot(p, t))) && queues[q].key == key
    {
      hide AllOk, QueueOk, Homed, Filed;
      PutOnTree(q, isolation, p, t, key, front);
      HomeFiles(old(queues)[q], queues[q], home[q], isolation, t, root);
    }

    /** A queue gets its first request. */
    method AddCfqqRr(q: nat, isolation: bool, p: Prio, t: Type, key: int)
      requires Valid() && q in queues && !queues[q].onRr
      modifies `groups, `queues, `busyQueues
      ensures Valid() && busyQueues == old(busyQueues) + 1
              && Settled(old(queues), queues, home, q, isolation, p, t, key, root)
    {
      hide GroupOk, Busy, Inv, AllOk, QueueOk;
      PartsOf(groups, queues, busyQueues, root, q);
      ghost var x := queues[q];
      SameTrees(groups, queues, q, x.(onRr := true), root, 0);
      queues := queues[q := queues[q].(onRr := true)];
      busyQueues := busyQueues + 1;
      ServiceTreeAdd(q, isolation, p, t, key, false);
      ghost var y := queues[q];
      FiledOk(x, y, home[q], old(groups), root, isolation, p, t);
      assert queues == old(queues)[q := y];
      Rebuilt(old(groups), old(queues), old(busyQueues), groups, y, root, q);
    }

    /** A busy queue takes a new place; the one that preempts goes to the front. */
    method Resort(q: nat, isolation: bool, p: Prio, t: Type, key: int, front: bool)
      requires Valid() && q in queues && queues[q].onRr
      modifies `groups, `queues
      ensures Valid() && Settled(old(queues), queues, home, q, isolation, p, t, key, root)
    {
      hide GroupOk, Busy, Inv, AllOk, QueueOk;
      PartsOf(groups, queues, busyQueues, root, q);
      ghost var x := queues[q];
      ServiceTreeAdd(q, isolation, p, t, key, front);
      ghost var y := queues[q];
      FiledOk(x, y, home[q], old(groups), root, isolation, p, t);
      assert queues == old(queues)[q := y];
      Rebuilt(old(groups), old(queues), old(busyQueues), groups, y, root, q);
    }

    /** A queue has no requests left; the assertions on it, on its group and on the number of busy queues hold. */
    method DelCfqqRr(q: nat)
      requires Valid() && q in queues && queues[q].onRr
      modifies `groups, `queues, `busyQueues
      ensures Valid() && busyQueues == old(busyQueues) - 1 && old(busyQueues) > 0
      ensures queues == old(queues)[q := old(queues)[q].(onRr := false, tree := None)]
    {
      hide GroupOk, Busy, Inv, AllOk, QueueOk;
      PartsOf(groups, queues, busyQueues, root, q);
      SomeBusy(queues, q);
      var g := queues[q].group;
      SameOff(groups, queues, root, g);
      QueuesOf(groups, queues, q);
      SameTrees(groups, queues, q, queues[q].(onRr := false), g, 0);
      queues := queues[q := queues[q].(onRr := false)];
      Erase(q, 0);
      OffPositive(groups, queues, g);
      GroupServiceTreeDel(g, 1);
      SameOff(groups, queues, g, root);
      busyQueues := busyQueues - 1;
      ghost var y := queues[q];
      assert queues == old(queues)[q := y];
      Rebuilt(old(groups), old(queues), old(busyQueues), groups, y, root, q);
    }

    method NewQueue(q: nat, g: nat)
      requires Valid() && q !in queues && g in groups
      modifies `queues, `home
      ensures Valid() && queues == old(queues)[q := Queue(g, None, None, 0, false)] && home == old(home)[q := g]
    {
      hide Inv;
      NewQueueOk(groups, queues, busyQueues, root, q, g);
      queues := queues[q := Queue(g, None, None, 0, false)];
      home := home[q := g];
    }
  }

  lemma SomeBusy(queues: map<nat, Queue>, q: nat)
    requires q in queues && queues[q].onRr
    ensures |Busy(queues)| > 0
  {
    assert q in Busy(queues);
  }

  lemma NewQueueOk(groups: map<nat, Group>, queues: map<nat, Queue>, busy: int, root: nat, q: nat, g: nat)
    requires Inv(groups, queues, busy, root) && q !in queues && g in groups
    ensures Inv(groups, queues[q := Queue(g, None, None, 0, false)], busy, root)
  {
    var queues' := queues[q := Queue(g, None, None, 0, false)];
    assert Busy(queues') == Busy(queues);
    forall h, k | h in groups && 0 <= k < 7 ensures On(queues', Tree(h, k)) == On(queues, Tree(h, k)) {
    }
    hide On, Busy;
  }

  /** No queue is on a tree of a group that is not there yet. */
  lemma NewGroupOk(groups: map<nat, Group>, queues: map<nat, Queue>, busy: int, root: nat, g: nat)
    requires Inv(groups, queues, busy, root) && g !in groups
    ensures Inv(groups[g := EMPTY], queues, busy, root)
  {
    forall k | 0 <= k < 7 ensures On(queues, Tree(g, k)) == {} {
      assert forall q :: q in queues ==> QueueOk(queues[q], groups, root) && queues[q].tree != Some(Tree(g, k));
    }
    hide On, Busy;
  }

  /** What is known of one queue. */
  lemma PartsOf(groups: map<nat, Group>, queues: map<nat, Queue>, busy: int, root: nat, q: nat)
    requires Inv(groups, queues, busy, root) && q in queues
    ensures AllOk(groups, queues, root, 0) && root in groups && busy == |Busy(queues)|
    ensures var x := queues[q];
            && QueueOk(x, groups, root) && QueueOk(x.(onRr := x.tree.Some?), groups, root)
            && QueueOk(x.(onRr := false, tree := None), groups, root)
            && (x.tree.Some? <==> x.onRr) && x.group in groups
            && (x.tree.Some? ==> x.tree.value.group == x.group && x.tree.value.slot < 7)
  {
    hide GroupOk;
  }

  lemma FiledOk(x: Queue, y: Queue, home: nat, groups: map<nat, Group>, root: nat, isolation: bool, p: Prio, t: Type)
    requires QueueOk(x, groups, root) && root in groups && Homed(x, home, root)
    requires Filed(x, y, home, isolation, t, root) && y.onRr && y.tree == Some(Tree(y.group, Slot(p, t)))
    ensures QueueOk(y, groups, root)
  {
  }

  /** The queue is busy, on the right tree of the group where it belongs; the others are as they were. */
  ghost predicate Settled(queues: map<nat, Queue>, queues': map<nat, Queue>, home: map<nat, nat>, q: nat,
                          isolation: bool, p: Prio, t: Type, key: int, root: nat) {
    && q in queues && q in queues' && q in home && queues' == queues[q := queues'[q]] && queues'[q].onRr
    && Filed(queues[q], queues'[q], home[q], isolation, t, root)
    && queues'[q].tree == Some(Tree(queues'[q].group, Slot(p, t))) && queues'[q].key == key
  }

  /** The invariant from its parts after one queue changed. */
  lemma Rebuilt(groups: map<nat, Group>, queues: map<nat, Queue>, busy: int, groups': map<nat, Group>, y: Queue,
                root: nat, q: nat)
    requires Inv(groups, queues, busy, root) && q in queues
    requires groups'.Keys == groups.Keys && AllOk(groups', queues[q := y], root, 0) && QueueOk(y, groups, root)
    ensures Inv(groups', queues[q := y], busy - (if queues[q].onRr then 1 else 0) + (if y.onRr then 1 else 0), root)
  {
    BusyChanged(queues, q, y);
    QueuesKept(groups, queues, groups', queues[q := y], root, q);
    hide GroupOk, QueueOk, Busy;
  }

  lemma QueuesKept(groups: map<nat, Group>, queues: map<nat, Queue>, groups': map<nat, Group>, queues': map<nat, Queue>,
                   root: nat, q: nat)
    requires forall x :: x in queues ==> QueueOk(queues[x], groups, root)
    requires q in queues' && QueueOk(queues'[q], groups, root) && groups'.Keys == groups.Keys
    requires forall x :: x in queues' && x != q ==> x in queues && queues'[x] == queues[x]
    ensures forall x :: x in queues' ==> QueueOk(queues'[x], groups', root)
  {
    forall x | x in queues' ensures QueueOk(queues'[x], groups', root) {
      assert QueueOk(queues'[x], groups, root);
    }
  }

  lemma OffPositive(groups: map<nat, Group>, queues: map<nat, Queue>, g: nat)
    requires g in groups && AllOk(groups, queues, g, 1)
    ensures groups[g].nr >= 1
  {
    assert GroupOk(groups[g], g, queues, 1);
    forall j | 0 <= j < 7 ensures groups[g].count[j] >= 0 {
    }
  }

  lemma SameOff(groups: map<nat, Group>, queues: map<nat, Queue>, h: nat, h': nat)
    ensures AllOk(groups, queues, h, 0) <==> AllOk(groups, queues, h', 0)
  {
    hide GroupOk;
  }

  lemma QueuesOf(groups: map<nat, Group>, queues: map<nat, Queue>, q: nat)
    requires q in queues && queues[q].tree.Some? && queues[q].tree.value.slot < 7
    requires var g := queues[q].tree.value.group; g in groups && AllOk(groups, queues, g, 0)
    ensures groups[queues[q].tree.value.group].nr >= 1
  {
    var t := queues[q].tree.value;
    HasQueues(groups[t.group], t.group, queues, q, t.slot);
  }
}
