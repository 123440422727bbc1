/**
 Requests and the live switch of the scheduler. A request may carry data of the scheduler it was allocated under, and
 the lock is dropped between reserving a request and allocating it. All interleavings of these steps with a switch.
 */
module Switch {

  /** How far a request is: reserved while the lock is dropped, allocated, held by the scheduler, or past it. */
  datatype Stage = Reserved | Allocated | Held | Out

  /** Whether the request is to carry scheduler data, whether the scheduler has held it, and whose data it carries. */
  datatype Rq = Rq(sync: bool, priv: bool, sorted: bool, stage: Stage, owner: nat)

  /** A switch in progress: the old scheduler is drained, or the new one is in place and can still be taken back. */
  datatype Phase = Normal | Draining | Attached(previous: nat)

  datatype State = State(rqs: map<nat, Rq>, count: map<bool, int>, elvpriv: int, elevator: nat, phase: Phase,
                         touched: seq<(nat, nat)>)

  const START: State := State(map[], map[false := 0, true := 0], 0, 0, Normal, [])

  /** A batching process may go half over the limit. */
  function Limit(nr: nat): nat {
    3 * nr / 2
  }

  // ----- steps

  /** Code of the current scheduler works on the data of a request. */
  function Touch(s: State, i: nat): State
    requires i in s.rqs
  {
    if s.rqs[i].priv then s.(touched := s.touched + [(s.rqs[i].owner, s.elevator)]) else s
  }

  /** The scheduler is told of a request it has held, whatever its other flags say. */
  function Notify(s: State, i: nat): State {
    if i in s.rqs && s.rqs[i].stage.Out? && s.rqs[i].sorted
    then s.(touched := s.touched + [(s.rqs[i].owner, s.elevator)]) else s
  }

  function Move(s: State, i: nat, t: Stage): State
    requires i in s.rqs
  {
    s.(rqs := s.rqs[i := s.rqs[i].(stage := t, sorted := s.rqs[i].sorted || t.Held?)])
  }

  /** The locked part of an allocation. While a switch is on, requests get no scheduler data. */
  function Reserve(s: State, nr: nat, i: nat, sync: bool): State {
    if i in s.rqs || sync !in s.count || s.count[sync] >= Limit(nr) then s else
    var priv := s.phase.Normal?;
    s.(rqs := s.rqs[i := Rq(sync, priv, false, Reserved, 0)], count := s.count[sync := s.count[sync] + 1],
       elvpriv := s.elvpriv + if priv then 1 else 0)
  }

  /** The scheduler sets up its data, without the lock: it is the one in place now. */
  function Allocate(s: State, i: nat): State {
    if i !in s.rqs || !s.rqs[i].stage.Reserved? then s else
    s.(rqs := s.rqs[i := s.rqs[i].(stage := Allocated, owner := s.elevator)])
  }

  /** The request goes away, and its reservation with it. */
  function Freed(s: State, i: nat): State
    requires i in s.rqs
  {
    var r := s.rqs[i];
    s.(rqs := s.rqs - {i}, count := if r.sync in s.count then s.count[r.sync := s.count[r.sync] - 1] else s.count,
       elvpriv := s.elvpriv - if r.priv then 1 else 0)
  }

  /** Requests without scheduler data bypass the scheduler. */
  function Insert(s: State, i: nat, front: bool): State {
    if i !in s.rqs || !s.rqs[i].stage.Allocated? then s
    else if front || !s.rqs[i].priv then Move(s, i, Out)
    else Move(Touch(s, i), i, Held)
  }

  datatype Step =
    | Reserves(i: nat, sync: bool)
    | Allocates(i: nat)
    | AllocationFails(i: nat)
    | Inserts(i: nat, front: bool)
    | Dispatches(i: nat)
    | Activates(i: nat)
    | Requeues(i: nat)
    | Completes(i: nat)
    | Frees(i: nat)
    | SwitchStarts
    | Attaches(e: nat)
    | SwitchEnds
    | SwitchFails

  function Next(s: State, nr: nat, p: Step): State {
    match p
    case Reserves(i, sync) => Reserve(s, nr, i, sync)
    case Allocates(i) => Allocate(s, i)
    case AllocationFails(i) => if i in s.rqs && s.rqs[i].stage.Reserved? then Freed(s, i) else s
    case Inserts(i, front) => Insert(s, i, front)
    case Dispatches(i) => if i in s.rqs && s.rqs[i].stage.Held? then Move(Touch(s, i), i, Out) else s
    case Activates(i) => Notify(s, i)
    case Requeues(i) => Notify(s, i)
    case Completes(i) => Notify(s, i)
    case Frees(i) => if i in s.rqs && !s.rqs[i].stage.Reserved? then Freed(Touch(s, i), i) else s
    case SwitchStarts => if s.phase.Normal? then s.(phase := Draining) else s
    case Attaches(e) =>
      if s.phase.Draining? && s.elvpriv == 0 then s.(phase := Attached(s.elevator), elevator := e) else s
    case SwitchEnds => if s.phase.Attached? then s.(phase := Normal) else s
    case SwitchFails => if s.phase.Attached? then s.(phase := Normal, elevator := s.phase.previous) else s
  }

  // ----- the invariant

  ghost function Priv(rqs: map<nat, Rq>): set<nat> {
    set i | i in rqs && rqs[i].priv
  }

  ghost function Of(rqs: map<nat, Rq>, sync: bool): set<nat> {
    set i | i in rqs && rqs[i].sync == sync
  }

  /** Counters count, and scheduler data belongs to the scheduler in place. */
  ghost predicate Inv(s: State, nr: nat) {
    && s.elvpriv == |Priv(s.rqs)|
    && s.count.Keys == {false, true}
    && (forall b :: b in s.count ==> s.count[b] == |Of(s.rqs, b)| && s.count[b] <= Limit(nr))
    && (forall i :: i in s.rqs && s.rqs[i].priv && !s.rqs[i].stage.Reserved? ==> s.rqs[i].owner == s.elevator)
    && (forall i :: i in s.rqs && (s.rqs[i].stage.Held? || s.rqs[i].sorted) ==> s.rqs[i].priv)
    && (s.phase.Attached? ==> s.elvpriv == 0)
    && (forall k :: 0 <= k < |s.touched| ==> s.touched[k].0 == s.touched[k].1)
  }

  lemma Changed(rqs: map<nat, Rq>, i: nat, r: Rq, b: bool)
    ensures |Priv(rqs[i := r])| == |Priv(rqs)| - (if i in rqs && rqs[i].priv then 1 else 0) + (if r.priv then 1 else 0)
    ensures |Of(rqs[i := r], b)|
            == |Of(rqs, b)| - (if i in rqs && rqs[i].sync == b then 1 else 0) + (if r.sync == b then 1 else 0)
  {
    OneDiffers(Priv(rqs), Priv(rqs[i := r]), i);
    OneDiffers(Of(rqs, b), Of(rqs[i := r], b), i);
  }

  lemma OneDiffers(a: set<nat>, b: set<nat>, i: nat)
    requires forall x :: x != i ==> (x in a <==> x in b)
    ensures |b| == |a| - (if i in a then 1 else 0) + (if i in b then 1 else 0)
  {
    assert a - {i} == b - {i};
    assert |a - {i}| == |a| - if i in a then 1 else 0;
    assert |b - {i}| == |b| - if i in b then 1 else 0;
  }

  lemma Gone(rqs: map<nat, Rq>, i: nat, b: bool)
    requires i in rqs
    ensures |Priv(rqs - {i})| == |Priv(rqs)| - (if rqs[i].priv then 1 else 0)
    ensures |Of(rqs - {i}, b)| == |Of(rqs, b)| - (if rqs[i].sync == b then 1 else 0)
  {
    OneDiffers(Priv(rqs), Priv(rqs - {i}), i);
    OneDiffers(Of(rqs, b), Of(rqs - {i}, b), i);
  }

  /** No scheduler data is about when none is counted. */
  lemma NoneLeft(s: State, nr: nat)
    requires Inv(s, nr) && s.elvpriv == 0
    ensures forall i :: i in s.rqs ==> !s.rqs[i].priv && !s.rqs[i].stage.Held? && !s.rqs[i].sorted
  {
    assert Priv(s.rqs) == {};
    forall i | i in s.rqs ensures !s.rqs[i].priv {
      assert i !in Priv(s.rqs);
    }
  }

  lemma ReserveKeeps(s: State, nr: nat, i: nat, sync: bool)
    requires Inv(s, nr)
    ensures Inv(Reserve(s, nr, i, sync), nr)
  {
    var r := Rq(sync, s.phase.Normal?, false, Reserved, 0);
    Changed(s.rqs, i, r, false);
    Changed(s.rqs, i, r, true);
    hide Priv, Of;
  }

  /** A change of stage keeps the counts. */
  lemma StageKeeps(s: State, nr: nat, i: nat, r: Rq)
    requires Inv(s, nr) && i in s.rqs && r.sync == s.rqs[i].sync && r.priv == s.rqs[i].priv
    requires r.priv ==> r.owner == s.elevator
    requires !r.stage.Reserved? && (r.stage.Held? || r.sorted ==> r.priv)
    ensures Inv(s.(rqs := s.rqs[i := r]), nr)
  {
    Changed(s.rqs, i, r, false);
    Changed(s.rqs, i, r, true);
    hide Priv, Of;
  }

  lemma TouchKeeps(s: State, nr: nat, i: nat)
    requires Inv(s, nr) && i in s.rqs && !s.rqs[i].stage.Reserved?
    ensures Inv(Touch(s, i), nr)
  {
  }

  lemma NotifyKeeps(s: State, nr: nat, i: nat)
    requires Inv(s, nr)
    ensures Inv(Notify(s, i), nr)
  {
  }

  lemma FreedKeeps(s: State, nr: nat, i: nat)
    requires Inv(s, nr) && i in s.rqs
    ensures Inv(Freed(s, i), nr)
  {
    Gone(s.rqs, i, false);
    Gone(s.rqs, i, true);
    hide Priv, Of;
  }

  lemma AttachKeeps(s: State, nr: nat, e: nat, p: Phase)
    requires Inv(s, nr) && s.elvpriv == 0
    ensures Inv(s.(phase := p, elevator := e), nr)
  {
    NoneLeft(s, nr);
  }

  lemma NextKeeps(s: State, nr: nat, p: Step)
    requires Inv(s, nr)
    ensures Inv(Next(s, nr, p), nr)
  {
    match p {
      case Reserves(i, sync) => ReserveKeeps(s, nr, i, sync);
      case Allocates(i) =>
        if i in s.rqs && s.rqs[i].stage.Reserved? {
          StageKeeps(s, nr, i, s.rqs[i].(stage := Allocated, owner := s.elevator));
        }
      case AllocationFails(i) => if i in s.rqs && s.rqs[i].stage.Reserved? { FreedKeeps(s, nr, i); }
      case Inserts(i, front) =>
        if i in s.rqs && s.rqs[i].stage.Allocated? {
          TouchKeeps(s, nr, i);
          if front || !s.rqs[i].priv {
            StageKeeps(s, nr, i, s.rqs[i].(stage := Out));
          } else {
            StageKeeps(Touch(s, i), nr, i, s.rqs[i].(stage := Held, sorted := true));
          }
        }
      case Dispatches(i) =>
        if i in s.rqs && s.rqs[i].stage.Held? {
          TouchKeeps(s, nr, i);
          StageKeeps(Touch(s, i), nr, i, s.rqs[i].(stage := Out));
        }
      case Activates(i) => NotifyKeeps(s, nr, i);
      case Requeues(i) => NotifyKeeps(s, nr, i);
      case Completes(i) => NotifyKeeps(s, nr, i);
      case Frees(i) =>
        if i in s.rqs && !s.rqs[i].stage.Reserved? {
          TouchKeeps(s, nr, i);
          FreedKeeps(Touch(s, i), nr, i);
        }
      case SwitchStarts =>
      case Attaches(e) => if s.phase.Draining? && s.elvpriv == 0 { AttachKeeps(s, nr, e, Attached(s.elevator)); }
      case SwitchEnds =>
      case SwitchFails => if s.phase.Attached? { AttachKeeps(s, nr, s.phase.previous, Normal); }
    }
  }

  // ----- runs

  function RunOf(s: State, nr: nat, steps: seq<Step>): State
    decreases steps
  {
    if steps == [] then s else RunOf(Next(s, nr, steps[0]), nr, steps[1..])
  }

  lemma {:induction false} RunKeeps(s: State, nr: nat, steps: seq<Step>)
    requires Inv(s, nr)
    ensures Inv(RunOf(s, nr, steps), nr)
    decreases steps
  {
    hide Inv, Next;
    if steps != [] {
      NextKeeps(s, nr, steps[0]);
      RunKeeps(Next(s, nr, steps[0]), nr, steps[1..]);
    }
  }

  lemma StartInv(nr: nat)
    ensures Inv(START, nr)
  {
  }

  /** Every run: whenever a scheduler's code works on the data of a request, that data is its own. */
  lemma OwnDataOnly(nr: nat, steps: seq<Step>, k: nat)
    requires k < |RunOf(START, nr, steps).touched|
    ensures RunOf(START, nr, steps).touched[k].0 == RunOf(START, nr, steps).touched[k].1
  {
    StartInv(nr);
    RunKeeps(START, nr, steps);
  }

  /**
   Every run: the counter of scheduler data counts the requests that hold or are obtaining it. When a new scheduler
   takes over, none does, and the old one holds no request.
   */
  lemma SwitchSafe(nr: nat, steps: seq<Step>, e: nat)
    ensures var s := RunOf(START, nr, steps);
            && s.elvpriv == |Priv(s.rqs)|
            && (Next(s, nr, Attaches(e)) != s ==>
                  forall i :: i in s.rqs ==> !s.rqs[i].priv && !s.rqs[i].stage.Held? && !s.rqs[i].sorted)
  {
    StartInv(nr);
    RunKeeps(START, nr, steps);
    var s := RunOf(START, nr, steps);
    if Next(s, nr, Attaches(e)) != s {
      NoneLeft(s, nr);
    }
  }

  /** Every run: each direction has as many requests as counted, and no more than the limit and a half. */
  lemma CountBounded(nr: nat, steps: seq<Step>, sync: bool)
    ensures var s := RunOf(START, nr, steps);
            |Of(s.rqs, sync)| <= Limit(nr) && sync in s.count && s.count[sync] == |Of(s.rqs, sync)|
  {
    StartInv(nr);
    RunKeeps(START, nr, steps);
    assert sync in RunOf(START, nr, steps).count;
  }

  // ----- which scheduler is in place

  predicate Switches(p: Step) {
    p.SwitchStarts? || p.Attaches? || p.SwitchEnds? || p.SwitchFails?
  }

  /** No step of the run is part of a switch. */
  predicate Ordinary(steps: seq<Step>) {
    forall k :: 0 <= k < |steps| ==> !Switches(steps[k])
  }

  lemma OrdinaryStep(s: State, nr: nat, p: Step)
    ensures !p.Attaches? && !p.SwitchFails? ==> Next(s, nr, p).elevator == s.elevator
    ensures !Switches(p) ==> Next(s, nr, p).phase == s.phase
  {
  }

  /** Only the steps of a switch change the scheduler in place or how far the switch is. */
  lemma {:induction false} OrdinaryRun(s: State, nr: nat, steps: seq<Step>)
    requires Ordinary(steps)
    ensures RunOf(s, nr, steps).elevator == s.elevator && RunOf(s, nr, steps).phase == s.phase
    decreases steps
  {
    hide Next;
    if steps != [] {
      OrdinaryStep(s, nr, steps[0]);
      assert forall k :: 0 <= k < |steps[1..]| ==> steps[1..][k] == steps[k + 1];
      OrdinaryRun(Next(s, nr, steps[0]), nr, steps[1..]);
    }
  }

  lemma {:induction false} RunConcat(s: State, nr: nat, a: seq<Step>, b: seq<Step>)
    ensures RunOf(s, nr, a + b) == RunOf(RunOf(s, nr, a), nr, b)
    decreases a
  {
    if a == [] {
      assert a + b == b;
    } else {
      assert (a + b)[1..] == a[1..] + b;
      RunConcat(Next(s, nr, a[0]), nr, a[1..], b);
    }
  }

  /** A switch to e that got as far as attaching it, and the ordinary steps since. */
  function AttachedFor(s: State, nr: nat, e: nat, more: seq<Step>): State {
    RunOf(Next(s, nr, Attaches(e)), nr, more)
  }

  /**
   From every state: once the old scheduler is drained, attaching e puts e in place. It stays there whatever requests
   do, and if the switch ends it stays for good; if the switch fails exactly the scheduler that was in place before is
   back.
   */
  lemma SwitchTakesEffect(s: State, nr: nat, e: nat, more: seq<Step>)
    requires s.phase.Draining? && s.elvpriv == 0 && Ordinary(more)
    ensures var s1 := AttachedFor(s, nr, e, more);
            && s1.elevator == e
            && Next(s1, nr, SwitchEnds).elevator == e && Next(s1, nr, SwitchEnds).phase.Normal?
            && Next(s1, nr, SwitchFails).elevator == s.elevator && Next(s1, nr, SwitchFails).phase.Normal?
  {
    OrdinaryRun(Next(s, nr, Attaches(e)), nr, more);
  }

  /** Attaching has no effect before the old scheduler is drained, nor outside a switch. */
  lemma AttachWaits(s: State, nr: nat, e: nat)
    ensures Next(s, nr, Attaches(e)) == s <==> !(s.phase.Draining? && s.elvpriv == 0)
  {
  }

  // ----- a request under the scheduler in place

  /** Outside a switch and below the limit, a request gets the data of the scheduler in place and is held by it. */
  lemma ServedByScheduler(s: State, nr: nat, i: nat, sync: bool)
    requires s.phase.Normal? && i !in s.rqs && sync in s.count && s.count[sync] < 3 * nr / 2
    ensures RunOf(s, nr, [Reserves(i, sync), Allocates(i), Inserts(i, false)])
            == s.(rqs := s.rqs[i := Rq(sync, true, true, Held, s.elevator)], elvpriv := s.elvpriv + 1,
                  count := s.count[sync := s.count[sync] + 1], touched := s.touched + [(s.elevator, s.elevator)])
  {
    var s1 := Next(s, nr, Reserves(i, sync));
    var s2 := Next(s1, nr, Allocates(i));
    var s3 := Next(s2, nr, Inserts(i, false));
    assert s2.rqs == s.rqs[i := Rq(sync, true, false, Allocated, s.elevator)];
    assert s3.rqs == s.rqs[i := Rq(sync, true, true, Held, s.elevator)];
    ThreeSteps(s, nr, Reserves(i, sync), Allocates(i), Inserts(i, false));
  }

  lemma ThreeSteps(s: State, nr: nat, p: Step, q: Step, r: Step)
    ensures RunOf(s, nr, [p, q, r]) == Next(Next(Next(s, nr, p), nr, q), nr, r)
  {
    hide Next;
    assert [p, q, r][1..] == [q, r] && [q, r][1..] == [r] && [r][1..] == [];
    assert RunOf(Next(s, nr, p), nr, [q, r]) == RunOf(Next(Next(s, nr, p), nr, q), nr, [r]);
    assert RunOf(Next(Next(s, nr, p), nr, q), nr, [r]) == RunOf(Next(Next(Next(s, nr, p), nr, q), nr, r), nr, []);
  }

  /**
   The scheduler in place is told of a request it held when it is dispatched, activated, requeued, completed or freed.
   */
  lemma SchedulerIsTold(s: State, nr: nat, i: nat)
    requires i in s.rqs
    ensures var told := s.touched + [(s.rqs[i].owner, s.elevator)];
            && (s.rqs[i].stage.Held? && s.rqs[i].priv ==>
                  && Next(s, nr, Dispatches(i)).touched == told
                  && Next(s, nr, Dispatches(i)).rqs == s.rqs[i := s.rqs[i].(stage := Out)])
            && (s.rqs[i].stage.Out? && s.rqs[i].sorted ==>
                  && Next(s, nr, Activates(i)).touched == told && Next(s, nr, Requeues(i)).touched == told
                  && Next(s, nr, Completes(i)).touched == told)
            && (!s.rqs[i].stage.Reserved? && s.rqs[i].priv ==> Next(s, nr, Frees(i)).touched == told)
            && (!s.rqs[i].stage.Reserved? ==> i !in Next(s, nr, Frees(i)).rqs)
  {
  }

  /** A request that is put in front, or that carries no scheduler data, bypasses the scheduler. */
  lemma Bypasses(s: State, nr: nat, i: nat, front: bool)
    requires i in s.rqs && s.rqs[i].stage.Allocated? && (front || !s.rqs[i].priv)
    ensures Next(s, nr, Inserts(i, front)) == s.(rqs := s.rqs[i := s.rqs[i].(stage := Out)])
  {
  }

  /** At the limit, or for a request that is there already, nothing is reserved. */
  lemma ReservesExactly(s: State, nr: nat, i: nat, sync: bool)
    requires s.count.Keys == {false, true}
    ensures Next(s, nr, Reserves(i, sync)) == s <==> i in s.rqs || s.count[sync] >= 3 * nr / 2
    ensures i !in s.rqs && s.count[sync] < 3 * nr / 2 ==>
              var s' := Next(s, nr, Reserves(i, sync));
              i in s'.rqs && s'.rqs[i] == Rq(sync, s.phase.Normal?, false, Reserved, 0)
  {
    if i !in s.rqs && s.count[sync] < 3 * nr / 2 {
      assert i in Next(s, nr, Reserves(i, sync)).rqs;
    }
  }

  /**
   Every run: a request that is reserved and allocated after a switch to e has ended, with ordinary steps in between,
   carries data of e.
   */
  lemma NewDataIsNew(s: State, nr: nat, e: nat, a: seq<Step>, b: seq<Step>, i: nat, sync: bool)
    requires s.phase.Draining? && s.elvpriv == 0 && Ordinary(a) && Ordinary(b)
    ensures var s1 := RunOf(Next(AttachedFor(s, nr, e, a), nr, SwitchEnds), nr, b);
            && s1.elevator == e && s1.phase.Normal?
            && (i !in s1.rqs && sync in s1.count && s1.count[sync] < 3 * nr / 2 ==>
                  var s2 := Next(Next(s1, nr, Reserves(i, sync)), nr, Allocates(i));
                  i in s2.rqs && s2.rqs[i] == Rq(sync, true, false, Allocated, e))
  {
    SwitchTakesEffect(s, nr, e, a);
    OrdinaryRun(Next(AttachedFor(s, nr, e, a), nr, SwitchEnds), nr, b);
  }

  // ----- a switch can always be completed

  /** The step with which a request with scheduler data goes away. */
  function Release(s: State, i: nat): Step
    requires i in s.rqs
  {
    if s.rqs[i].stage.Reserved? then AllocationFails(i) else Frees(i)
  }

  lemma ReleaseFrees(s: State, nr: nat, i: nat)
    requires i in s.rqs
    ensures var s' := Next(s, nr, Release(s, i));
            s'.rqs == s.rqs - {i} && s'.phase == s.phase && s'.elevator == s.elevator
            && s'.elvpriv == s.elvpriv - if s.rqs[i].priv then 1 else 0
  {
  }

  lemma {:induction false} Drained(s: State, nr: nat) returns (steps: seq<Step>)
    requires Inv(s, nr)
    ensures Ordinary(steps) && RunOf(s, nr, steps).elvpriv == 0
    decreases s.elvpriv
  {
    hide Inv, Next;
    Counted(s, nr);
    if s.elvpriv == 0 {
      steps := [];
    } else {
      var i :| i in Priv(s.rqs);
      var p := Release(s, i);
      ReleaseFrees(s, nr, i);
      NextKeeps(s, nr, p);
      Counted(Next(s, nr, p), nr);
      var rest := Drained(Next(s, nr, p), nr);
      steps := [p] + rest;
      assert steps[1..] == rest;
    }
  }

  lemma Counted(s: State, nr: nat)
    requires Inv(s, nr)
    ensures s.elvpriv == |Priv(s.rqs)|
  {
  }

  /** After every run, a switch to any scheduler can be carried through. */
  lemma SwitchReached(nr: nat, steps: seq<Step>, e: nat) returns (more: seq<Step>)
    ensures var s := RunOf(START, nr, steps + more); s.elevator == e && s.phase.Normal?
  {
    hide Inv, Next, RunOf;
    StartInv(nr);
    RunKeeps(START, nr, steps);
    var s := RunOf(START, nr, steps);
    var begin := Begins(s, nr);
    RunKeeps(s, nr, begin);
    var s1 := RunOf(s, nr, begin);
    var drain := Drained(s1, nr);
    OrdinaryRun(s1, nr, drain);
    var s2 := RunOf(s1, nr, drain);
    SwitchTakesEffect(s2, nr, e, []);
    Finishes(s2, nr, e);
    more := begin + drain + [Attaches(e), SwitchEnds];
    RunConcat(START, nr, steps, more);
    RunConcat(s, nr, begin + drain, [Attaches(e), SwitchEnds]);
    RunConcat(s, nr, begin, drain);
  }

  lemma Begins(s: State, nr: nat) returns (steps: seq<Step>)
    ensures RunOf(s, nr, steps).phase.Draining?
  {
    if s.phase.Draining? {
      steps := [];
    } else if s.phase.Normal? {
      steps := [SwitchStarts];
      assert steps[1..] == [];
    } else {
      steps := [SwitchEnds, SwitchStarts];
      assert steps[1..] == [SwitchStarts] && steps[1..][1..] == [];
      assert RunOf(Next(s, nr, SwitchEnds), nr, [SwitchStarts])
          == RunOf(Next(Next(s, nr, SwitchEnds), nr, SwitchStarts), nr, []);
    }
  }

  lemma Finishes(s: State, nr: nat, e: nat)
    ensures RunOf(s, nr, [Attaches(e), SwitchEnds]) == Next(AttachedFor(s, nr, e, []), nr, SwitchEnds)
  {
    hide Next;
    assert [Attaches(e), SwitchEnds][1..] == [SwitchEnds] && [SwitchEnds][1..] == [];
    var s1 := Next(s, nr, Attaches(e));
    assert RunOf(s1, nr, [SwitchEnds]) == RunOf(Next(s1, nr, SwitchEnds), nr, []);
  }
}
