/**
 Segmentations of a vector list. Building a scatterlist greedily from the left uses no more entries than any
 segmentation that respects the same limits; this is what makes an incrementally kept count an upper bound.
 */
module Segments {
  import opened Arith

  /** A memory vector by physical address; `high` says that its page lies above the bounce limit of the queue. */
  datatype Vec = Vec(addr: nat, len: nat, high: bool)

  /** Segment limits of a queue: clustering, largest segment, and boundary window (mask plus one). */
  datatype Limits = Limits(cluster: bool, maxSize: nat, window: nat, maxSegments: nat, maxSectors: nat)

  type Segment = seq<Vec>

  ghost predicate Proper(q: Limits, vecs: seq<Vec>) {
    q.window > 0 && forall i :: 0 <= i < |vecs| ==> vecs[i].len > 0
  }

  function Last<T>(s: seq<T>): T
    requires s != []
  {
    s[|s| - 1]
  }

  function Front<T>(s: seq<T>): seq<T>
    requires s != []
  {
    s[..|s| - 1]
  }

  function Size(s: Segment): nat {
    if s == [] then 0 else Size(Front(s)) + Last(s).len
  }

  /** Physically contiguous, and the second vector ends in the boundary window in which the first one starts. */
  predicate Joinable(q: Limits, a: Vec, b: Vec)
    requires q.window > 0
  {
    a.addr + a.len == b.addr && a.addr / q.window == (b.addr + b.len - 1) / q.window
  }

  predicate Extends(q: Limits, s: Segment, v: Vec)
    requires q.window > 0
  {
    s != [] && q.cluster && Size(s) + v.len <= q.maxSize && Joinable(q, Last(s), v)
  }

  /** One vector, or several that may share a scatterlist entry. */
  predicate ValidSegment(q: Limits, s: Segment)
    requires q.window > 0
  {
    s != [] && (|s| > 1 ==> ValidSegment(q, Front(s)) && Extends(q, Front(s), Last(s)))
  }

  function Flatten(ss: seq<Segment>): seq<Vec> {
    if ss == [] then [] else Flatten(Front(ss)) + Last(ss)
  }

  ghost predicate Segmentation(q: Limits, vecs: seq<Vec>, ss: seq<Segment>)
    requires q.window > 0
  {
    Flatten(ss) == vecs && forall i :: 0 <= i < |ss| ==> ValidSegment(q, ss[i])
  }

  // ----- the two left-to-right scans

  /** Adds a vector to the last segment or opens a new one. */
  function Placed(join: bool, ss: seq<Segment>, v: Vec): seq<Segment>
    requires join ==> ss != []
  {
    if join then Front(ss) + [Last(ss) + [v]] else ss + [[v]]
  }

  predicate JoinsMapped(q: Limits, ss: seq<Segment>, v: Vec)
    requires q.window > 0
  {
    ss != [] && Extends(q, Last(ss), v)
  }

  /** The counting scan never joins high pages. */
  predicate JoinsCounted(q: Limits, ss: seq<Segment>, v: Vec)
    requires q.window > 0
  {
    JoinsMapped(q, ss, v) && !v.high && !Last(Last(ss)).high
  }

  function Mapped(q: Limits, vecs: seq<Vec>): (ss: seq<Segment>)
    requires q.window > 0
  {
    if vecs == [] then [] else
    var ss := Mapped(q, Front(vecs));
    Placed(JoinsMapped(q, ss, Last(vecs)), ss, Last(vecs))
  }

  function Counted(q: Limits, vecs: seq<Vec>): (ss: seq<Segment>)
    requires q.window > 0
  {
    if vecs == [] then [] else
    var ss := Counted(q, Front(vecs));
    Placed(JoinsCounted(q, ss, Last(vecs)), ss, Last(vecs))
  }

  lemma PlacedKeeps(q: Limits, vecs: seq<Vec>, ss: seq<Segment>, v: Vec, join: bool)
    requires q.window > 0 && Segmentation(q, vecs, ss) && (join ==> JoinsMapped(q, ss, v))
    ensures Segmentation(q, vecs + [v], Placed(join, ss, v))
  {
    var ss' := Placed(join, ss, v);
    if join {
      assert Front(ss') == Front(ss) && Last(ss') == Last(ss) + [v];
      assert Front(Last(ss) + [v]) == Last(ss);
      assert Flatten(ss') == Flatten(Front(ss)) + (Last(ss) + [v]) == vecs + [v];
    } else {
      assert Front(ss') == ss;
    }
  }

  lemma {:induction false} MappedIsSegmentation(q: Limits, vecs: seq<Vec>)
    requires q.window > 0
    ensures Segmentation(q, vecs, Mapped(q, vecs))
  {
    if vecs != [] {
      MappedIsSegmentation(q, Front(vecs));
      var ss := Mapped(q, Front(vecs));
      PlacedKeeps(q, Front(vecs), ss, Last(vecs), JoinsMapped(q, ss, Last(vecs)));
      assert vecs == Front(vecs) + [Last(vecs)];
    }
  }

  lemma {:induction false} CountedIsSegmentation(q: Limits, vecs: seq<Vec>)
    requires q.window > 0
    ensures Segmentation(q, vecs, Counted(q, vecs))
  {
    if vecs != [] {
      CountedIsSegmentation(q, Front(vecs));
      var ss := Counted(q, Front(vecs));
      PlacedKeeps(q, Front(vecs), ss, Last(vecs), JoinsCounted(q, ss, Last(vecs)));
      assert vecs == Front(vecs) + [Last(vecs)];
    }
  }

  // ----- what the scans join, in addresses and lengths

  /**
   A vector may share the entry that ends with another: clustering is on, the entry stays within the size limit, the
   vector begins where the other ends, and it ends in the boundary window in which the other begins. The count also
   wants both pages below the bounce limit.
   */
  ghost predicate Fits(q: Limits, s: Segment, v: Vec, low: bool) {
    && s != [] && q.window > 0 && q.cluster && Size(s) + v.len <= q.maxSize
    && Last(s).addr + Last(s).len == v.addr
    && Last(s).addr / q.window == (v.addr + v.len - 1) / q.window
    && (low ==> !v.high && !Last(s).high)
  }

  ghost predicate Glued(q: Limits, s: Segment, low: bool) {
    s != [] && forall i :: 0 < i < |s| ==> Fits(q, s[..i], s[i], low)
  }

  /** The vectors in order, joined wherever the next one fits and parted wherever it does not. */
  ghost predicate Runs(q: Limits, vecs: seq<Vec>, ss: seq<Segment>, low: bool) {
    && Flatten(ss) == vecs
    && (forall k :: 0 <= k < |ss| ==> Glued(q, ss[k], low))
    && (forall k :: 0 < k < |ss| ==> !Fits(q, ss[k - 1], ss[k][0], low))
  }

  lemma GluedMore(q: Limits, s: Segment, v: Vec, low: bool)
    requires Glued(q, s, low) && Fits(q, s, v, low)
    ensures Glued(q, s + [v], low)
  {
    var t := s + [v];
    forall i | 0 < i < |t| ensures Fits(q, t[..i], t[i], low) {
      assert t[..i] == s[..i];
      assert s[..|s|] == s;
    }
  }

  lemma PlacedFlat(ss: seq<Segment>, v: Vec, join: bool)
    requires join ==> ss != []
    ensures Flatten(Placed(join, ss, v)) == Flatten(ss) + [v]
  {
    var ss' := Placed(join, ss, v);
    if join {
      assert Front(ss') == Front(ss) && Last(ss') == Last(ss) + [v];
      assert Flatten(Front(ss)) + (Last(ss) + [v]) == Flatten(Front(ss)) + Last(ss) + [v];
    } else {
      assert Front(ss') == ss;
    }
  }

  lemma PlacedRuns(q: Limits, vecs: seq<Vec>, ss: seq<Segment>, v: Vec, join: bool, low: bool)
    requires Runs(q, vecs, ss, low) && (join <==> ss != [] && Fits(q, Last(ss), v, low))
    ensures Runs(q, vecs + [v], Placed(join, ss, v), low)
  {
    hide Fits, Flatten;
    var ss' := Placed(join, ss, v);
    PlacedFlat(ss, v, join);
    if join {
      var n := |ss| - 1;
      assert Glued(q, ss[n], low);
      GluedMore(q, ss[n], v, low);
      assert ss'[n] == ss[n] + [v] && forall k :: 0 <= k < n ==> ss'[k] == ss[k];
    } else {
      assert ss' == ss + [[v]];
      assert Glued(q, [v], low);
    }
  }

  /** The scatterlist parts two vectors exactly where they may not share an entry. */
  lemma {:induction false} MappedRuns(q: Limits, vecs: seq<Vec>)
    requires q.window > 0
    ensures Runs(q, vecs, Mapped(q, vecs), false)
  {
    if vecs != [] {
      MappedRuns(q, Front(vecs));
      var ss := Mapped(q, Front(vecs));
      PlacedRuns(q, Front(vecs), ss, Last(vecs), JoinsMapped(q, ss, Last(vecs)), false);
      assert vecs == Front(vecs) + [Last(vecs)];
    }
  }

  /** So does the count, which also parts pages above the bounce limit. */
  lemma {:induction false} CountedRuns(q: Limits, vecs: seq<Vec>)
    requires q.window > 0
    ensures Runs(q, vecs, Counted(q, vecs), true)
  {
    if vecs != [] {
      CountedRuns(q, Front(vecs));
      var ss := Counted(q, Front(vecs));
      PlacedRuns(q, Front(vecs), ss, Last(vecs), JoinsCounted(q, ss, Last(vecs)), true);
      assert vecs == Front(vecs) + [Last(vecs)];
    }
  }

  /** This determines the segments: there is only one way to do so. */
  lemma {:induction false} RunsUnique(q: Limits, vecs: seq<Vec>, ss: seq<Segment>, tt: seq<Segment>, low: bool)
    requires Runs(q, vecs, ss, low) && Runs(q, vecs, tt, low)
    ensures ss == tt
    decreases |vecs|
  {
    hide Fits;
    if vecs == [] {
      NoRuns(q, ss, low);
      NoRuns(q, tt, low);
    } else {
      RunsShortened(q, vecs, ss, low);
      RunsShortened(q, vecs, tt, low);
      RunsUnique(q, Front(vecs), Shortened(ss), Shortened(tt), low);
      Rebuilt(q, vecs, ss, low);
      Rebuilt(q, vecs, tt, low);
    }
  }

  lemma NoRuns(q: Limits, ss: seq<Segment>, low: bool)
    requires Runs(q, [], ss, low)
    ensures ss == []
  {
    assert ss != [] ==> Glued(q, ss[|ss| - 1], low);
  }

  lemma RunsShortened(q: Limits, vecs: seq<Vec>, ss: seq<Segment>, low: bool)
    requires vecs != [] && Runs(q, vecs, ss, low)
    ensures ss != [] && Last(ss) != [] && Runs(q, Front(vecs), Shortened(ss), low) && Last(Last(ss)) == Last(vecs)
  {
    hide Fits;
    assert ss != [];
    var s := Last(ss);
    assert Glued(q, ss[|ss| - 1], low);
    assert vecs == Flatten(Front(ss)) + s;
    var t := Shortened(ss);
    if |s| == 1 {
      assert Front(vecs) == Flatten(Front(ss));
    } else {
      assert Front(t) == Front(ss) && Last(t) == Front(s);
      assert Front(vecs) == Flatten(Front(ss)) + Front(s);
      forall i | 0 < i < |Front(s)| ensures Fits(q, Front(s)[..i], Front(s)[i], low) {
        assert Front(s)[..i] == s[..i];
      }
    }
  }

  /** The last vector goes where it fits. */
  lemma Rebuilt(q: Limits, vecs: seq<Vec>, ss: seq<Segment>, low: bool)
    requires vecs != [] && Runs(q, vecs, ss, low) && ss != [] && Last(ss) != [] && Last(Last(ss)) == Last(vecs)
    ensures var t := Shortened(ss);
            var join := t != [] && Fits(q, Last(t), Last(vecs), low);
            ss == Placed(join, t, Last(vecs))
  {
    hide Fits;
    var s, v := Last(ss), Last(vecs);
    assert Glued(q, ss[|ss| - 1], low);
    assert ss == Front(ss) + [s];
    if |s| == 1 {
      assert s == [v] && s[0] == v;
      if |ss| > 1 {
        assert Last(Front(ss)) == ss[|ss| - 1 - 1];
      }
    } else {
      assert s == Front(s) + [v] && s[..|s| - 1] == Front(s) && s[|s| - 1] == v;
      assert Fits(q, s[..|s| - 1], s[|s| - 1], low);
    }
  }

  // ----- greedy is optimal

  /** Fewer segments, or as many with a last segment no longer. */
  predicate Ahead(gs: seq<Segment>, ss: seq<Segment>) {
    |gs| < |ss| || (|gs| == |ss| && (gs == [] || |Last(gs)| <= |Last(ss)|))
  }

  lemma LastIsSuffix(ss: seq<Segment>, vecs: seq<Vec>)
    requires ss != [] && Flatten(ss) == vecs
    ensures |Last(ss)| <= |vecs| && Last(ss) == vecs[|vecs| - |Last(ss)|..]
  {
  }

  /** Whatever may be added to a segment may be added to any suffix of it. */
  lemma {:induction false} SuffixExtends(q: Limits, s: Segment, k: nat, v: Vec)
    requires q.window > 0 && k < |s| && Extends(q, s, v)
    ensures Extends(q, s[k..], v)
  {
    SuffixSmaller(s, k);
    assert Last(s[k..]) == Last(s);
  }

  lemma {:induction false} SuffixSmaller(s: Segment, k: nat)
    requires k <= |s|
    ensures Size(s[k..]) <= Size(s)
  {
    if k < |s| {
      SuffixSmaller(Front(s), k);
      assert Front(s[k..]) == Front(s)[k..];
    }
  }

  /** The last segment of a segmentation, shortened by the last vector. */
  function Shortened(ss: seq<Segment>): seq<Segment>
    requires ss != [] && Last(ss) != []
  {
    if |Last(ss)| == 1 then Front(ss) else Front(ss) + [Front(Last(ss))]
  }

  lemma ShortenedKeeps(q: Limits, vecs: seq<Vec>, ss: seq<Segment>)
    requires q.window > 0 && vecs != [] && Segmentation(q, vecs, ss)
    ensures ss != [] && Last(ss) != [] && Segmentation(q, Front(vecs), Shortened(ss)) && Last(Last(ss)) == Last(vecs)
  {
    assert ss != [];
    var s := Last(ss);
    assert ValidSegment(q, ss[|ss| - 1]);
    assert vecs == Flatten(Front(ss)) + s;
    var t := Shortened(ss);
    if |s| == 1 {
      assert Front(vecs) == Flatten(Front(ss));
    } else {
      assert Front(t) == Front(ss) && Last(t) == Front(s);
      assert Front(vecs) == Flatten(Front(ss)) + Front(s);
    }
  }

  /** The greedy scan stays ahead of every segmentation of the same vectors. */
  lemma {:induction false} GreedyStaysAhead(q: Limits, vecs: seq<Vec>, ss: seq<Segment>)
    requires q.window > 0 && Segmentation(q, vecs, ss)
    ensures Ahead(Mapped(q, vecs), ss)
  {
    if vecs != [] {
      ShortenedKeeps(q, vecs, ss);
      var t := Shortened(ss);
      GreedyStaysAhead(q, Front(vecs), t);
      var gs := Mapped(q, Front(vecs));
      var v := Last(vecs);
      if |Last(ss)| > 1 && |gs| == |t| {
        MappedIsSegmentation(q, Front(vecs));
        LastIsSuffix(gs, Front(vecs));
        LastIsSuffix(t, Front(vecs));
        var k := |Last(t)| - |Last(gs)|;
        assert Last(gs) == Last(t)[k..];
        assert ValidSegment(q, ss[|ss| - 1]) && ValidSegment(q, gs[|gs| - 1]);
        hide ValidSegment, Flatten;
        SuffixExtends(q, Last(t), k, v);
      }
    } else {
      NoSegments(q, ss);
    }
  }

  lemma NoSegments(q: Limits, ss: seq<Segment>)
    requires q.window > 0 && Segmentation(q, [], ss)
    ensures ss == []
  {
    assert ss != [] ==> ValidSegment(q, ss[|ss| - 1]);
  }

  /** A scatterlist never needs more entries than any count obtained from a segmentation. */
  lemma GreedyIsOptimal(q: Limits, vecs: seq<Vec>, ss: seq<Segment>)
    requires q.window > 0 && Segmentation(q, vecs, ss)
    ensures |Mapped(q, vecs)| <= |ss|
  {
    GreedyStaysAhead(q, vecs, ss);
  }

  // ----- what an entry covers

  datatype Entry = Entry(addr: nat, len: nat)

  function EntryOf(s: Segment): Entry
    requires s != []
  {
    Entry(s[0].addr, Size(s))
  }

  ghost function Span(addr: nat, len: nat): seq<nat> {
    seq(len, i requires 0 <= i => addr + i)
  }

  ghost function Bytes(vecs: seq<Vec>): seq<nat> {
    if vecs == [] then [] else Bytes(Front(vecs)) + Span(Last(vecs).addr, Last(vecs).len)
  }

  ghost function EntryBytes(sg: seq<Entry>): seq<nat> {
    if sg == [] then [] else EntryBytes(Front(sg)) + Span(Last(sg).addr, Last(sg).len)
  }

  function Entries(ss: seq<Segment>): (sg: seq<Entry>)
    requires forall i :: 0 <= i < |ss| ==> ss[i] != []
    ensures |sg| == |ss| && forall i :: 0 <= i < |ss| ==> sg[i] == EntryOf(ss[i])
  {
    if ss == [] then [] else Entries(Front(ss)) + [EntryOf(Last(ss))]
  }

  lemma {:induction false} BytesConcat(a: seq<Vec>, b: seq<Vec>)
    ensures Bytes(a + b) == Bytes(a) + Bytes(b)
  {
    if b == [] {
      assert a + b == a;
    } else {
      BytesConcat(a, Front(b));
      assert Front(a + b) == a + Front(b) && Last(a + b) == Last(b);
    }
  }

  lemma {:induction false} SegmentIsSpan(q: Limits, s: Segment)
    requires q.window > 0 && ValidSegment(q, s)
    ensures Bytes(s) == Span(s[0].addr, Size(s))
    ensures Last(s).addr + Last(s).len == s[0].addr + Size(s)
  {
    if |s| > 1 {
      SegmentIsSpan(q, Front(s));
    } else {
      assert Front(s) == [] && Size(s) == s[0].len;
      assert Bytes(s) == [] + Span(s[0].addr, s[0].len);
    }
  }

  /** The entries of a segmentation cover exactly the bytes of the vectors, in order. */
  lemma {:induction false} EntriesCover(q: Limits, vecs: seq<Vec>, ss: seq<Segment>)
    requires q.window > 0 && Segmentation(q, vecs, ss)
    ensures (forall i :: 0 <= i < |ss| ==> ss[i] != []) && EntryBytes(Entries(ss)) == Bytes(vecs)
    decreases |ss|
  {
    forall i | 0 <= i < |ss| ensures ss[i] != [] {
      assert ValidSegment(q, ss[i]);
    }
    if ss != [] {
      EntriesCover(q, Flatten(Front(ss)), Front(ss));
      BytesConcat(Flatten(Front(ss)), Last(ss));
      assert ValidSegment(q, ss[|ss| - 1]);
      SegmentIsSpan(q, Last(ss));
      assert Front(Entries(ss)) == Entries(Front(ss));
    }
  }

  /** An entry made of several vectors is no longer than the limit and stays inside one boundary window. */
  lemma {:induction false} JoinedWithinLimits(q: Limits, s: Segment)
    requires ValidSegmentOf(q, s) && |s| > 1
    ensures Size(s) <= q.maxSize
    ensures s[0].addr / q.window == (s[0].addr + Size(s) - 1) / q.window
  {
    SegmentIsSpan(q, s);
    SegmentIsSpan(q, Front(s));
    var a := Last(Front(s));
    if |s| > 2 {
      JoinedWithinLimits(q, Front(s));
      DivMonotone(s[0].addr, a.addr, q.window);
      DivMonotone(a.addr, s[0].addr + Size(Front(s)) - 1, q.window);
    }
  }

  ghost predicate ValidSegmentOf(q: Limits, s: Segment) {
    Proper(q, s) && ValidSegment(q, s)
  }

  // ----- putting segmentations together

  lemma {:induction false} FlattenConcat(a: seq<Segment>, b: seq<Segment>)
    ensures Flatten(a + b) == Flatten(a) + Flatten(b)
  {
    if b == [] {
      assert a + b == a;
    } else {
      FlattenConcat(a, Front(b));
      assert Front(a + b) == a + Front(b) && Last(a + b) == Last(b);
    }
  }

  lemma Appended(q: Limits, va: seq<Vec>, sa: seq<Segment>, vb: seq<Vec>, sb: seq<Segment>)
    requires q.window > 0 && Segmentation(q, va, sa) && Segmentation(q, vb, sb)
    ensures Segmentation(q, va + vb, sa + sb)
  {
    FlattenConcat(sa, sb);
  }

  lemma {:induction false} SizeConcat(a: Segment, b: Segment)
    ensures Size(a + b) == Size(a) + Size(b)
  {
    if b == [] {
      assert a + b == a;
    } else {
      SizeConcat(a, Front(b));
      assert Front(a + b) == a + Front(b) && Last(a + b) == Last(b);
    }
  }

  lemma {:induction false} SeamValid(q: Limits, a: Segment, b: Segment)
    requires q.window > 0 && q.cluster && ValidSegment(q, a) && ValidSegment(q, b)
    requires Joinable(q, Last(a), b[0]) && Size(a) + Size(b) <= q.maxSize
    ensures ValidSegment(q, a + b)
  {
    SizeConcat(a, Front(b));
    assert Front(a + b) == a + Front(b) && Last(a + b) == Last(b);
    if |b| > 1 {
      SeamValid(q, a, Front(b));
      assert Last(a + Front(b)) == Last(Front(b));
    } else {
      assert a + Front(b) == a;
    }
  }

  /** The last segment of the one joined with the first segment of the other. */
  function Fused(sa: seq<Segment>, sb: seq<Segment>): seq<Segment>
    requires sa != [] && sb != []
  {
    Front(sa) + [Last(sa) + sb[0]] + sb[1..]
  }

  lemma FusedKeeps(q: Limits, va: seq<Vec>, sa: seq<Segment>, vb: seq<Vec>, sb: seq<Segment>)
    requires q.window > 0 && q.cluster && Segmentation(q, va, sa) && Segmentation(q, vb, sb) && sa != [] && sb != []
    requires va != [] && vb != [] && Joinable(q, Last(va), vb[0]) && Size(Last(sa)) + Size(sb[0]) <= q.maxSize
    ensures Segmentation(q, va + vb, Fused(sa, sb)) && |Fused(sa, sb)| == |sa| + |sb| - 1
  {
    assert ValidSegment(q, sa[|sa| - 1]) && ValidSegment(q, sb[0]);
    FirstVec(q, vb, sb);
    FusedFlat(sa, sb);
    SeamValid(q, Last(sa), sb[0]);
  }

  lemma FirstVec(q: Limits, vecs: seq<Vec>, ss: seq<Segment>)
    requires q.window > 0 && Segmentation(q, vecs, ss) && ss != []
    ensures ss[0] != [] && vecs != [] && vecs[0] == ss[0][0]
  {
    assert ValidSegment(q, ss[0]) && ss == [ss[0]] + ss[1..];
    FlattenConcat([ss[0]], ss[1..]);
    OneFlat(ss[0]);
  }

  lemma FusedFlat(sa: seq<Segment>, sb: seq<Segment>)
    requires sa != [] && sb != []
    ensures Flatten(Fused(sa, sb)) == Flatten(sa) + Flatten(sb)
  {
    var a, b := Last(sa), sb[0];
    assert Flatten(sa) == Flatten(Front(sa)) + a;
    hide Flatten;
    assert sb == [b] + sb[1..];
    FlattenConcat([b], sb[1..]);
    OneFlat(b);
    OneFlat(a + b);
    FlattenConcat(Front(sa), [a + b]);
    FlattenConcat(Front(sa) + [a + b], sb[1..]);
    Reassociate(Flatten(Front(sa)), a, b, Flatten(sb[1..]));
  }

  lemma Reassociate(w: seq<Vec>, x: seq<Vec>, y: seq<Vec>, z: seq<Vec>)
    ensures (w + (x + y)) + z == (w + x) + (y + z)
  {
  }

  lemma OneFlat(s: Segment)
    ensures Flatten([s]) == s
  {
    assert Front([s]) == [];
  }
}
