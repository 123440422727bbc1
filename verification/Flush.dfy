/**
 Sequencing of FLUSH and FUA requests. A request that asks for a cache flush or for forced unit access is turned into up
 to three device operations: a flush before, the data write, a flush after. One sequence runs at a time and uses the one
 flush request embedded in the queue; others wait on the pending list.
 */
module Flush {
  import opened Options

  // The bits of flush_seq. The current step is the lowest bit that is still clear.
  const STARTED: nat := 0
  const PREFLUSH: nat := 1
  const DATA: nat := 2
  const POSTFLUSH: nat := 3
  const DONE: nat := 4

  /** What the device supports; forced unit access is only ever announced together with flushing. */
  datatype Caps = Caps(flush: bool, fua: bool)

  predicate Legal(c: Caps) {
    c.fua ==> c.flush
  }

  datatype Rq = Rq(id: nat, flush: bool, fua: bool, data: bool)

  predicate Flagged(r: Rq) {
    r.flush || r.fua
  }

  /** An entry of the dispatch list: a request, or the queue's own flush request. */
  datatype Entry = Orig(rq: Rq) | FlushRq

  datatype Completion = Completion(id: nat, err: int)

  datatype Queue = Queue(head: seq<Entry>, pending: seq<Rq>, bits: set<nat>, err: int, orig: Option<Rq>,
                         done: seq<Completion>)

  function CurSeq(bits: set<nat>): nat {
    if STARTED !in bits then STARTED
    else if PREFLUSH !in bits then PREFLUSH
    else if DATA !in bits then DATA
    else if POSTFLUSH !in bits then POSTFLUSH
    else DONE
  }

  predicate DoPreflush(c: Caps, r: Rq) {
    c.flush && r.flush
  }

  predicate DoPostflush(c: Caps, r: Rq) {
    c.flush && !c.fua && r.fua
  }

  /** Data that needs no flush around it goes to the driver directly; everything else flagged is sequenced. */
  predicate Sequenced(c: Caps, r: Rq) {
    Flagged(r) && !(r.data && !DoPreflush(c, r) && !DoPostflush(c, r))
  }

  function Stripped(c: Caps, r: Rq): Rq {
    r.(flush := false, fua := r.fua && c.fua)
  }

  function Skipped(c: Caps, r: Rq): set<nat> {
    (if DoPreflush(c, r) then {} else {PREFLUSH}) + (if r.data then {} else {DATA})
    + (if DoPostflush(c, r) then {} else {POSTFLUSH})
  }

  /** The steps a sequence has to run, in order. */
  function Needed(c: Caps, r: Rq): seq<nat> {
    (if DoPreflush(c, r) then [PREFLUSH] else []) + (if r.data then [DATA] else [])
    + (if DoPostflush(c, r) then [POSTFLUSH] else [])
  }

  // ----- the two functions that move the machine

  function CompleteSeq(q: Queue, stages: set<nat>, error: int): (Queue, Option<Entry>) {
    var q1 := q.(err := if error != 0 && q.err == 0 then error else q.err, bits := q.bits + stages);
    if CurSeq(q1.bits) != DONE then
      (q1.(head := [FlushRq] + q1.head), Some(FlushRq))
    else
      var q2 := q1.(done := q1.done + (if q1.orig.Some? then [Completion(q1.orig.value.id, q1.err)] else []),
                    orig := None, bits := {});
      if q2.pending == [] then (q2, None) else
      (q2.(head := [Orig(q2.pending[0])] + q2.head, pending := q2.pending[1..]), Some(Orig(q2.pending[0])))
  }

  /** Called for the flagged request at the front of the dispatch list. */
  function DoFlush(c: Caps, q: Queue, r: Rq): (Queue, Option<Entry>)
    requires q.head != []
  {
    if !Sequenced(c, r) then (q.(head := [Orig(Stripped(c, r))] + q.head[1..]), Some(Orig(Stripped(c, r))))
    else if q.bits != {} then (q.(head := q.head[1..], pending := q.pending + [r]), None)
    else CompleteSeq(q.(err := 0, bits := {STARTED}, orig := Some(Stripped(c, r)), head := q.head[1..]),
                     Skipped(c, r), 0)
  }

  /** The loop that finds the next request for the driver. What it returns is at the front of the list. */
  function NextRequest(c: Caps, q: Queue): (Queue, Option<Entry>)
    decreases |q.head|
  {
    if q.head == [] then (q, None)
    else if q.head[0].FlushRq? || !Flagged(q.head[0].rq) then (q, Some(q.head[0]))
    else
      var r := q.head[0].rq;
      var (q1, e) := DoFlush(c, q, r);
      if e.Some? || |q1.head| >= |q.head| then (q1, e) else NextRequest(c, q1)
  }

  lemma NextIsFirst(c: Caps, q: Queue)
    ensures var (q1, e) := NextRequest(c, q); e.Some? ==> q1.head != [] && q1.head[0] == e.value
    decreases |q.head|
  {
    if q.head != [] && q.head[0].Orig? && Flagged(q.head[0].rq) {
      var (q1, e) := DoFlush(c, q, q.head[0].rq);
      if e.None? && |q1.head| < |q.head| {
        NextIsFirst(c, q1);
      }
    }
  }

  /** The loop always has a shorter list to go on with: the guard in the function is only for termination. */
  lemma LoopProgress(c: Caps, q: Queue, r: Rq)
    requires q.head != []
    ensures var (q1, e) := DoFlush(c, q, r); e.None? ==> |q1.head| < |q.head|
  {
  }

  /** The queue fields that the sequencing code updates in place. */
  class FlushQueue {
    var head: seq<Entry>
    var pending: seq<Rq>
    var flushSeq: set<nat>
    var flushErr: int
    var origFlushRq: Option<Rq>
    var completed: seq<Completion>

    ghost function Value(): Queue
      reads this
    {
      Queue(head, pending, flushSeq, flushErr, origFlushRq, completed)
    }

    constructor ()
      ensures Value() == Queue([], [], {}, 0, None, [])
    {
      head, pending, flushSeq, flushErr, origFlushRq, completed := [], [], {}, 0, None, [];
    }

    method CompleteSequence(stages: set<nat>, error: int) returns (next: Option<Entry>)
      modifies this
      ensures (Value(), next) == CompleteSeq(old(Value()), stages, error)
    {
      next := None;
      if error != 0 && flushErr == 0 {
        flushErr := error;
      }
      flushSeq := flushSeq + stages;
      if CurSeq(flushSeq) != DONE {
        head := [FlushRq] + head;
        next := Some(FlushRq);
      } else {
        if origFlushRq.Some? {
          completed := completed + [Completion(origFlushRq.value.id, flushErr)];
        } else {
          assert completed == completed + [];
        }
        origFlushRq := None;
        flushSeq := {};
        if pending != [] {
          next := Some(Orig(pending[0]));
          head := [Orig(pending[0])] + head;
          pending := pending[1..];
        }
      }
    }

    method Flush(c: Caps, rq: Rq) returns (next: Option<Entry>)
      requires head != [] && head[0] == Orig(rq)
      modifies this
      ensures (Value(), next) == DoFlush(c, old(Value()), rq)
    {
      var preflush, postflush := c.flush && rq.flush, c.flush && !c.fua && rq.fua;
      var stripped := rq.(flush := false, fua := rq.fua && c.fua);
      if !(rq.flush || rq.fua) || (rq.data && !preflush && !postflush) {
        head := [Orig(stripped)] + head[1..];
        return Some(Orig(stripped));
      }
      if flushSeq != {} {
        head, pending := head[1..], pending + [rq];
        return None;
      }
      flushErr, flushSeq := 0, {STARTED};
      head, origFlushRq := head[1..], Some(stripped);
      var skip := {};
      if !preflush {
        skip := skip + {PREFLUSH};
      }
      if !rq.data {
        skip := skip + {DATA};
      }
      if !postflush {
        skip := skip + {POSTFLUSH};
      }
      assert skip == Skipped(c, rq);
      next := CompleteSequence(skip, 0);
    }

    /** The loop of the driver interface: what it returns is the entry at the front, and the list shrinks until then. */
    method Peek(c: Caps) returns (next: Option<Entry>)
      modifies this
      ensures (Value(), next) == NextRequest(c, old(Value()))
      ensures next.Some? ==> head != [] && head[0] == next.value
      ensures next.None? ==> head == []
    {
      while head != []
        invariant NextRequest(c, Value()) == NextRequest(c, old(Value()))
        decreases |head|
      {
        if head[0].FlushRq? || !Flagged(head[0].rq) {
          return Some(head[0]);
        }
        ghost var q := Value();
        LoopProgress(c, q, head[0].rq);
        NextIsFirst(c, q);
        next := Flush(c, head[0].rq);
        if next.Some? {
          return;
        }
      }
      next := None;
    }
  }
}
