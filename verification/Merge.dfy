/**
 Requests built by back merges, front merges and merges of whole requests. The segment count of a request and the
 sizes of its first and last segment are kept incrementally; the scatterlist is built from scratch later.
 */
module Merge {
  import opened Segments

  const U16: nat := 0x1_0000
  /** Most vectors one bio can hold. */
  const BIO_MAX_PAGES: nat := 256

  /**
   A bio with its vectors, its size in bytes, and what has been cached about it: number of segments and bounds for
   the sizes of the first and the last one. `segValid` says that the cache has been filled.
   */
  datatype Bio = Bio(vecs: seq<Vec>, size: nat, segFront: nat, segBack: nat, physSegments: nat, segValid: bool)

  function Max(a: nat, b: nat): nat {
    if a >= b then a else b
  }

  function VecsOf(bios: seq<Bio>): seq<Vec> {
    if bios == [] then [] else VecsOf(Front(bios)) + Last(bios).vecs
  }

  /** The segmentation `ss` explains a count and the two bounds. */
  ghost predicate Explains(q: Limits, vecs: seq<Vec>, ss: seq<Segment>, n: nat, front: nat, back: nat) {
    && q.window > 0
    && Segmentation(q, vecs, ss) && |ss| == n > 0
    && Size(ss[0]) <= front && Size(Last(ss)) <= back
  }

  /** A cached count is right for the bio on its own. Only discards carry no vectors. */
  ghost predicate BioOk(q: Limits, b: Bio) {
    && Proper(q, b.vecs) && |b.vecs| <= BIO_MAX_PAGES
    && (b.segValid && b.vecs != [] ==> exists ss :: Explains(q, b.vecs, ss, b.physSegments, b.segFront, b.segBack))
    && (b.segValid && b.vecs == [] ==> b.physSegments == 0)
  }

  // ----- counting from scratch

  /** The cached fields after a recount: the bounds only ever grow. */
  function Recounted(q: Limits, b: Bio): Bio
    requires q.window > 0
  {
    var ss := Counted(q, b.vecs);
    b.(segFront := if ss == [] then b.segFront else Max(b.segFront, Size(ss[0])),
       segBack := Max(b.segBack, if ss == [] then 0 else Size(Last(ss))),
       physSegments := |ss|, segValid := true)
  }

  lemma RecountedOk(q: Limits, b: Bio)
    requires BioOk(q, b)
    ensures BioOk(q, Recounted(q, b))
    ensures b.segFront <= Recounted(q, b).segFront && b.segBack <= Recounted(q, b).segBack
  {
    CountedIsSegmentation(q, b.vecs);
    var ss := Counted(q, b.vecs);
    if b.vecs != [] {
      assert Explains(q, b.vecs, ss, |ss|, Recounted(q, b).segFront, Recounted(q, b).segBack);
    }
  }

  lemma PlacedFacts(join: bool, ss: seq<Segment>, v: Vec)
    requires join ==> ss != []
    requires forall k :: 0 <= k < |ss| ==> ss[k] != []
    ensures var ss' := Placed(join, ss, v);
            && |ss'| == |ss| + (if join then 0 else 1)
            && (forall k :: 0 <= k < |ss'| ==> ss'[k] != [])
            && Last(Last(ss')) == v
            && Size(Last(ss')) == (if join then Size(Last(ss)) else 0) + v.len
            && ((if join then 1 else 0) < |ss| ==> ss'[0] == ss[0])
  {
    assert Front([v]) == [];
    if join {
      assert Front(Last(ss) + [v]) == Last(ss);
    }
  }

  /** The count and the two sizes are those of the vectors joined wherever they may be. */
  ghost predicate CountedAs(q: Limits, b: Bio, b': Bio) {
    exists ss ::
      && Runs(q, b.vecs, ss, true) && b'.physSegments == |ss|
      && b'.segFront == (if ss == [] then b.segFront else Max(b.segFront, Size(ss[0])))
      && b'.segBack == (if ss == [] then b.segBack else Max(b.segBack, Size(Last(ss))))
  }

  lemma RecountedRuns(q: Limits, b: Bio)
    requires q.window > 0
    ensures CountedAs(q, b, Recounted(q, b))
  {
    CountedRuns(q, b.vecs);
    hide Runs;
    assert Runs(q, b.vecs, Counted(q, b.vecs), true);
  }

  /** The counting scan, as the source runs it: only the running size and the previous vector are remembered. */
  method RecountSegments(q: Limits, b: Bio) returns (b': Bio)
    requires q.window > 0
    ensures b' == Recounted(q, b)
    ensures CountedAs(q, b, b')
  {
    hide CountedAs;
    RecountedRuns(q, b);
    var segSize, nr, front, highPrv := 0, 0, b.segFront, true;
    ghost var ss: seq<Segment> := [];
    for i := 0 to |b.vecs|
      invariant ss == Counted(q, b.vecs[..i]) && nr == |ss| && (nr == 0 <==> i == 0)
      invariant forall k :: 0 <= k < |ss| ==> ss[k] != []
      invariant nr == 0 ==> highPrv && segSize == 0
      invariant nr > 0 ==> segSize == Size(Last(ss)) && Last(Last(ss)) == b.vecs[i - 1] && highPrv == b.vecs[i - 1].high
      invariant front == if nr <= 1 then b.segFront else Max(b.segFront, Size(ss[0]))
    {
      var v := b.vecs[i];
      assert Front(b.vecs[..i + 1]) == b.vecs[..i] && Last(b.vecs[..i + 1]) == v;
      ghost var join := JoinsCounted(q, ss, v);
      PlacedFacts(join, ss, v);
      ss := Placed(join, ss, v);
      if !v.high && !highPrv && q.cluster && segSize + v.len <= q.maxSize && Joinable(q, b.vecs[i - 1], v) {
        segSize := segSize + v.len;
      } else {
        if nr == 1 && segSize > front {
          front := segSize;
        }
        nr, segSize, highPrv := nr + 1, v.len, v.high;
      }
    }
    assert b.vecs[..|b.vecs|] == b.vecs;
    if nr == 1 && segSize > front {
      front := segSize;
    }
    var back := if segSize > b.segBack then segSize else b.segBack;
    b' := b.(segFront := front, segBack := back, physSegments := nr, segValid := true);
  }

  // ----- the scatterlist

  ghost predicate InOneWindow(q: Limits, e: Entry) {
    q.window > 0 && 0 < e.len <= q.maxSize && e.addr / q.window == (e.addr + e.len - 1) / q.window
  }

  /** Every entry is a single vector, or respects the size limit and the boundary window. */
  ghost predicate EntriesLegal(q: Limits, vecs: seq<Vec>, sg: seq<Entry>) {
    forall e :: e in sg ==> InOneWindow(q, e) || exists v :: v in vecs && e == Entry(v.addr, v.len)
  }

  /** The entries are those of the vectors joined wherever they may be. */
  ghost predicate MappedAs(q: Limits, vecs: seq<Vec>, sg: seq<Entry>) {
    exists ss :: Runs(q, vecs, ss, false) && (forall i :: 0 <= i < |ss| ==> ss[i] != []) && sg == Entries(ss)
  }

  lemma {:induction false} SegmentWithin(ss: seq<Segment>, k: nat, v: Vec)
    requires k < |ss| && v in ss[k]
    ensures v in Flatten(ss)
    decreases |ss|
  {
    if k < |ss| - 1 {
      SegmentWithin(Front(ss), k, v);
    }
  }

  lemma SegmentLegal(q: Limits, vecs: seq<Vec>, ss: seq<Segment>, k: nat)
    requires Proper(q, vecs) && Segmentation(q, vecs, ss) && k < |ss|
    ensures ss[k] != []
    ensures InOneWindow(q, EntryOf(ss[k])) || (ss[k][0] in vecs && EntryOf(ss[k]) == Entry(ss[k][0].addr, ss[k][0].len))
  {
    var s := ss[k];
    assert ValidSegment(q, s);
    forall i | 0 <= i < |s| ensures s[i] in vecs && s[i].len > 0 {
      SegmentWithin(ss, k, s[i]);
    }
    if |s| > 1 {
      JoinedWithinLimits(q, s);
      assert Size(s) >= Last(s).len > 0;
    } else {
      assert Front(s) == [] && Size(s) == s[0].len;
      assert s[0] in vecs;
    }
  }

  lemma MappedLegal(q: Limits, vecs: seq<Vec>)
    requires Proper(q, vecs)
    ensures var ss := Mapped(q, vecs);
            (forall i :: 0 <= i < |ss| ==> ss[i] != []) && EntriesLegal(q, vecs, Entries(ss))
  {
    var ss := Mapped(q, vecs);
    MappedIsSegmentation(q, vecs);
    forall i | 0 <= i < |ss| ensures ss[i] != [] {
      SegmentLegal(q, vecs, ss, i);
    }
    forall e | e in Entries(ss) ensures InOneWindow(q, e) || exists v :: v in vecs && e == Entry(v.addr, v.len) {
      var k :| 0 <= k < |ss| && Entries(ss)[k] == e;
      SegmentLegal(q, vecs, ss, k);
    }
  }

  lemma Assoc<T>(a: seq<T>, b: seq<T>, c: seq<T>)
    ensures (a + b) + c == a + (b + c)
  {
  }

  lemma {:induction false} VecsConcat(a: seq<Bio>, b: seq<Bio>)
    ensures VecsOf(a + b) == VecsOf(a) + VecsOf(b)
  {
    if b == [] {
      assert a + b == a;
    } else {
      VecsConcat(a, Front(b));
      assert Front(a + b) == a + Front(b) && Last(a + b) == Last(b);
      Assoc(VecsOf(a), VecsOf(Front(b)), Last(b).vecs);
    }
  }

  lemma OneBio(b: Bio)
    ensures VecsOf([b]) == b.vecs
  {
    assert Front([b]) == [];
  }

  function TotalSize(bios: seq<Bio>): nat {
    if bios == [] then 0 else TotalSize(Front(bios)) + Last(bios).size
  }

  lemma {:induction false} TotalConcat(a: seq<Bio>, b: seq<Bio>)
    ensures TotalSize(a + b) == TotalSize(a) + TotalSize(b)
  {
    if b == [] {
      assert a + b == a;
    } else {
      TotalConcat(a, Front(b));
      assert Front(a + b) == a + Front(b) && Last(a + b) == Last(b);
    }
  }

  lemma OneTotal(b: Bio)
    ensures TotalSize([b]) == b.size
  {
    assert Front([b]) == [];
  }

  /** Number of segments a bio will be counted with. */
  function CountOf(q: Limits, b: Bio): nat
    requires q.window > 0
  {
    if b.segValid then b.physSegments else |Counted(q, b.vecs)|
  }

  /** May the last segment of one bio and the first of the next share an entry, going by the cached bounds? */
  predicate Contiguous(q: Limits, tail: Bio, head: Bio)
    requires q.window > 0 && (tail.vecs != [] ==> head.vecs != [])
  {
    && q.cluster && tail.segBack + head.segFront <= q.maxSize
    && (tail.vecs == [] || Joinable(q, Last(tail.vecs), head.vecs[0]))
  }

  /** In addresses and lengths: the seam of two bios joins if one vector could share the entry that ends the other. */
  lemma ContiguousMeans(q: Limits, tail: Bio, head: Bio)
    requires q.window > 0 && tail.vecs != [] && head.vecs != []
    ensures Contiguous(q, tail, head) <==>
              var a, b := Last(tail.vecs), head.vecs[0];
              && q.cluster && tail.segBack + head.segFront <= q.maxSize && a.addr + a.len == b.addr
              && a.addr / q.window == (b.addr + b.len - 1) / q.window
  {
  }

  lemma {:induction false} ExplainedBounded(q: Limits, vecs: seq<Vec>, ss: seq<Segment>)
    requires q.window > 0 && Segmentation(q, vecs, ss)
    ensures |ss| <= |vecs|
    decreases |ss|
  {
    if ss != [] {
      ExplainedBounded(q, Flatten(Front(ss)), Front(ss));
      assert ValidSegment(q, ss[|ss| - 1]);
    }
  }

  /** What holds of a request between merges: `segs` is a segmentation that explains its count and bounds. */
  ghost predicate Consistent(q: Limits, bios: seq<Bio>, nr: nat, discard: bool, segs: seq<Segment>) {
    && q.window > 0 && q.maxSegments < U16 && bios != [] && nr < U16
    && Proper(q, VecsOf(bios))
    && (forall i :: 0 <= i < |bios| ==> (bios[i].vecs == [] <==> discard))
    && (!discard ==> Explains(q, VecsOf(bios), segs, nr, bios[0].segFront, Last(bios).segBack))
    && (discard ==> VecsOf(bios) == [])
  }

  /** A bio whose cache has been filled. */
  ghost predicate Ready(q: Limits, b: Bio) {
    BioOk(q, b) && b.segValid
  }

  lemma StartConsistent(q: Limits, b: Bio) returns (segs: seq<Segment>)
    requires Ready(q, b) && q.maxSegments < U16
    ensures Consistent(q, [b], if b.vecs == [] then 0 else b.physSegments, b.vecs == [], segs)
  {
    OneBio(b);
    segs := [];
    if b.vecs != [] {
      segs :| Explains(q, b.vecs, segs, b.physSegments, b.segFront, b.segBack);
      ExplainedBounded(q, b.vecs, segs);
    }
  }

  lemma ProperConcat(q: Limits, a: seq<Vec>, b: seq<Vec>)
    requires Proper(q, a) && Proper(q, b)
    ensures Proper(q, a + b)
  {
  }

  lemma AppendConsistent(q: Limits, bios: seq<Bio>, nr: nat, discard: bool, segs: seq<Segment>, b: Bio)
    returns (segs': seq<Segment>)
    requires Consistent(q, bios, nr, discard, segs) && Ready(q, b) && (b.vecs == [] <==> discard)
    requires nr + b.physSegments < U16
    ensures Consistent(q, bios + [b], nr + b.physSegments, discard, segs')
    ensures VecsOf(bios + [b]) == VecsOf(bios) + b.vecs
  {
    VecsConcat(bios, [b]);
    OneBio(b);
    ProperConcat(q, VecsOf(bios), b.vecs);
    segs' := segs;
    if !discard {
      var ss :| Explains(q, b.vecs, ss, b.physSegments, b.segFront, b.segBack);
      Appended(q, VecsOf(bios), segs, b.vecs, ss);
      segs' := segs + ss;
    }
  }

  lemma PrependConsistent(q: Limits, bios: seq<Bio>, nr: nat, discard: bool, segs: seq<Segment>, b: Bio)
    returns (segs': seq<Segment>)
    requires Consistent(q, bios, nr, discard, segs) && Ready(q, b) && (b.vecs == [] <==> discard)
    requires nr + b.physSegments < U16
    ensures Consistent(q, [b] + bios, nr + b.physSegments, discard, segs')
    ensures VecsOf([b] + bios) == b.vecs + VecsOf(bios)
  {
    VecsConcat([b], bios);
    OneBio(b);
    ProperConcat(q, b.vecs, VecsOf(bios));
    segs' := segs;
    if !discard {
      var ss :| Explains(q, b.vecs, ss, b.physSegments, b.segFront, b.segBack);
      Appended(q, b.vecs, ss, VecsOf(bios), segs);
      segs' := ss + segs;
    }
  }

  lemma {:induction false} SameVecs(a: seq<Bio>, b: seq<Bio>)
    requires |a| == |b| && forall i :: 0 <= i < |a| ==> a[i].vecs == b[i].vecs && a[i].size == b[i].size
    ensures VecsOf(a) == VecsOf(b) && TotalSize(a) == TotalSize(b)
  {
    if a != [] {
      SameVecs(Front(a), Front(b));
    }
  }

  /** The bounds of a request of a single segment may be replaced by any larger value. */
  function Widened(bios: seq<Bio>, nr: nat, front: bool, x: nat): seq<Bio>
    requires bios != []
  {
    if nr != 1 then bios
    else if front then bios[0 := bios[0].(segFront := x)]
    else bios[|bios| - 1 := Last(bios).(segBack := x)]
  }

  lemma WidenedConsistent(q: Limits, bios: seq<Bio>, nr: nat, discard: bool, segs: seq<Segment>, front: bool, x: nat)
    requires Consistent(q, bios, nr, discard, segs)
    requires x >= if front then Last(bios).segBack else bios[0].segFront
    ensures Consistent(q, Widened(bios, nr, front, x), nr, discard, segs)
    ensures VecsOf(Widened(bios, nr, front, x)) == VecsOf(bios)
    ensures TotalSize(Widened(bios, nr, front, x)) == TotalSize(bios)
  {
    SameVecs(Widened(bios, nr, front, x), bios);
  }

  lemma WidenedEnds(q: Limits, a0: seq<Bio>, m: nat, b0: seq<Bio>, n: nat, x: nat)
    requires q.window > 0 && a0 != [] && b0 != [] && (Last(a0).vecs != [] ==> b0[0].vecs != [])
    requires x == Last(a0).segBack + b0[0].segFront && Contiguous(q, Last(a0), b0[0])
    ensures var a, b := Widened(a0, m, true, x), Widened(b0, n, false, x);
            FusedBounds(a, m, b, n, x) && (Last(a).vecs != [] ==> b[0].vecs != []) && Contiguous(q, Last(a), b[0])
  {
  }

  /**
   After a merge, a request that was one segment begins or ends with the joined one; the other sizes are as before.
   */
  ghost predicate SeamBounds(a: seq<Bio>, m: nat, b: seq<Bio>, n: nat, contiguous: bool, bios: seq<Bio>) {
    && a != [] && b != [] && |bios| == |a| + |b|
    && var x := Last(a).segBack + b[0].segFront;
       && bios[0].segFront == (if contiguous && m == 1 then x else a[0].segFront)
       && Last(bios).segBack == (if contiguous && n == 1 then x else Last(b).segBack)
  }

  lemma SeamBound(a0: seq<Bio>, m: nat, b0: seq<Bio>, n: nat, contiguous: bool, a: seq<Bio>, b: seq<Bio>)
    requires a0 != [] && b0 != []
    requires a == if contiguous then Widened(a0, m, true, Last(a0).segBack + b0[0].segFront) else a0
    requires b == if contiguous then Widened(b0, n, false, Last(a0).segBack + b0[0].segFront) else b0
    ensures SeamBounds(a0, m, b0, n, contiguous, a + b)
  {
  }

  /** The parts of consistency that say what the ends of a request are. */
  lemma ConsistentEnds(q: Limits, bios: seq<Bio>, nr: nat, discard: bool, segs: seq<Segment>)
    requires Consistent(q, bios, nr, discard, segs)
    ensures q.window > 0 && q.maxSegments < U16 && nr < U16 && bios != []
    ensures bios[0].vecs == [] <==> discard
    ensures Last(bios).vecs == [] <==> discard
    ensures !discard ==> nr == |segs| > 0
  {
  }

  lemma {:induction false} LastVec(bios: seq<Bio>)
    requires bios != [] && Last(bios).vecs != []
    ensures VecsOf(bios) != [] && Last(VecsOf(bios)) == Last(Last(bios).vecs)
  {
  }

  lemma {:induction false} FirstVecOf(bios: seq<Bio>)
    requires bios != [] && bios[0].vecs != []
    ensures VecsOf(bios) != [] && VecsOf(bios)[0] == bios[0].vecs[0]
  {
    assert bios == [bios[0]] + bios[1..];
    VecsConcat([bios[0]], bios[1..]);
    OneBio(bios[0]);
  }

  lemma JoinedConsistent(q: Limits, a: seq<Bio>, m: nat, sa: seq<Segment>, b: seq<Bio>, n: nat, sb: seq<Segment>)
    requires Consistent(q, a, m, false, sa) && Consistent(q, b, n, false, sb) && m + n < U16
    ensures Consistent(q, a + b, m + n, false, sa + sb)
  {
    VecsConcat(a, b);
    ProperConcat(q, VecsOf(a), VecsOf(b));
    Appended(q, VecsOf(a), sa, VecsOf(b), sb);
    assert Last(a + b) == Last(b) && Last(sa + sb) == Last(sb);
  }

  /** The bounds after the joint segment has been formed. */
  ghost predicate FusedBounds(a: seq<Bio>, m: nat, b: seq<Bio>, n: nat, x: nat) {
    && a != [] && b != []
    && Last(a).segBack + b[0].segFront <= x
    && (m == 1 ==> a[0].segFront == x) && (n == 1 ==> Last(b).segBack == x)
  }

  lemma FusedEnds(sa: seq<Segment>, sb: seq<Segment>)
    requires sa != [] && sb != []
    ensures var ss := Fused(sa, sb);
            && Size(ss[0]) == (if |sa| == 1 then Size(Last(sa)) + Size(sb[0]) else Size(sa[0]))
            && Size(Last(ss)) == (if |sb| == 1 then Size(Last(sa)) + Size(sb[0]) else Size(Last(sb)))
  {
    SizeConcat(Last(sa), sb[0]);
  }

  lemma FusedConsistent(q: Limits, a: seq<Bio>, m: nat, sa: seq<Segment>, b: seq<Bio>, n: nat, sb: seq<Segment>, x: nat)
    requires Consistent(q, a, m, false, sa) && Consistent(q, b, n, false, sb) && m + n <= U16
    requires FusedBounds(a, m, b, n, x) && Contiguous(q, Last(a), b[0])
    ensures Consistent(q, a + b, m + n - 1, false, Fused(sa, sb))
  {
    VecsConcat(a, b);
    ProperConcat(q, VecsOf(a), VecsOf(b));
    LastVec(a);
    FirstVecOf(b);
    FusedKeeps(q, VecsOf(a), sa, VecsOf(b), sb);
    FusedEnds(sa, sb);
    assert Last(a + b) == Last(b);
  }

  /** The count of a merged request, as it is stored in sixteen bits. */
  function MergedCount(m: nat, n: nat, contiguous: bool): nat {
    (m + n - (if contiguous then 1 else 0)) % U16
  }

  /** Both requests once the joint segment has been allowed for. */
  ghost predicate Adjusted(q: Limits, a0: seq<Bio>, m: nat, sa: seq<Segment>, b0: seq<Bio>, n: nat, sb: seq<Segment>,
                           discard: bool, a: seq<Bio>, b: seq<Bio>) {
    && Consistent(q, a, m, discard, sa) && Consistent(q, b, n, discard, sb)
    && VecsOf(a) == VecsOf(a0) && TotalSize(a) == TotalSize(a0)
    && VecsOf(b) == VecsOf(b0) && TotalSize(b) == TotalSize(b0)
  }

  lemma AdjustedHolds(q: Limits, a0: seq<Bio>, m: nat, sa: seq<Segment>, b0: seq<Bio>, n: nat, sb: seq<Segment>,
                      discard: bool, x: nat)
    requires Consistent(q, a0, m, discard, sa) && Consistent(q, b0, n, discard, sb)
    requires x == Last(a0).segBack + b0[0].segFront
    ensures Adjusted(q, a0, m, sa, b0, n, sb, discard, a0, b0)
    ensures Adjusted(q, a0, m, sa, b0, n, sb, discard, Widened(a0, m, true, x), Widened(b0, n, false, x))
  {
    hide Consistent, Widened;
    ConsistentEnds(q, a0, m, discard, sa);
    ConsistentEnds(q, b0, n, discard, sb);
    WidenedConsistent(q, a0, m, discard, sa, true, x);
    WidenedConsistent(q, b0, n, discard, sb, false, x);
  }

  /** Everything a merge of two requests keeps, whether or not it is then refused for its count. */
  lemma MergeConsistent(q: Limits, a0: seq<Bio>, m: nat, sa: seq<Segment>,
                        b0: seq<Bio>, n: nat, sb: seq<Segment>, discard: bool, contiguous: bool,
                        a: seq<Bio>, b: seq<Bio>)
    returns (segs: seq<Segment>)
    requires Consistent(q, a0, m, discard, sa) && Consistent(q, b0, n, discard, sb)
    requires contiguous == Contiguous(q, Last(a0), b0[0])
    requires a == if contiguous then Widened(a0, m, true, Last(a0).segBack + b0[0].segFront) else a0
    requires b == if contiguous then Widened(b0, n, false, Last(a0).segBack + b0[0].segFront) else b0
    ensures Adjusted(q, a0, m, sa, b0, n, sb, discard, a, b)
    ensures m + n - (if contiguous then 1 else 0) <= q.maxSegments ==>
              Consistent(q, a + b, MergedCount(m, n, contiguous), discard, segs)
  {
    hide Consistent, Widened, Contiguous;
    ConsistentEnds(q, a0, m, discard, sa);
    ConsistentEnds(q, b0, n, discard, sb);
    var x := Last(a0).segBack + b0[0].segFront;
    AdjustedHolds(q, a0, m, sa, b0, n, sb, discard, x);
    segs := [];
    if m + n - (if contiguous then 1 else 0) > q.maxSegments {
    } else if discard {
      DiscardJoined(q, a, m, sa, b, n, sb, MergedCount(m, n, contiguous), segs);
    } else if contiguous {
      WidenedEnds(q, a0, m, b0, n, x);
      FusedConsistent(q, a, m, sa, b, n, sb, x);
      segs := Fused(sa, sb);
    } else {
      JoinedConsistent(q, a, m, sa, b, n, sb);
      segs := sa + sb;
    }
  }

  lemma DiscardJoined(q: Limits, a: seq<Bio>, m: nat, sa: seq<Segment>, b: seq<Bio>, n: nat, sb: seq<Segment>,
                      count: nat, segs: seq<Segment>)
    requires Consistent(q, a, m, true, sa) && Consistent(q, b, n, true, sb) && count < U16
    ensures Consistent(q, a + b, count, true, segs)
  {
    VecsConcat(a, b);
  }

  /** The state of the mapping scan after the vectors `done`; `prv` holds the vector before the current one. */
  ghost predicate Scanned(q: Limits, done: seq<Vec>, prv: seq<Vec>, sg: seq<Entry>) {
    && q.window > 0
    && (forall i :: 0 <= i < |Mapped(q, done)| ==> Mapped(q, done)[i] != [])
    && sg == Entries(Mapped(q, done))
    && (if done == [] then prv == [] else prv == [Last(done)])
  }

  lemma ScanStep(q: Limits, done: seq<Vec>, prv: seq<Vec>, sg: seq<Entry>, v: Vec)
    requires Scanned(q, done, prv, sg)
    ensures prv != [] ==> sg != []
    ensures var join := prv != [] && q.cluster && Last(sg).len + v.len <= q.maxSize && Joinable(q, prv[0], v);
            Scanned(q, done + [v], [v], if join then Front(sg) + [Entry(Last(sg).addr, Last(sg).len + v.len)]
                                        else sg + [Entry(v.addr, v.len)])
  {
    var ss := Mapped(q, done);
    assert Front(done + [v]) == done && Last(done + [v]) == v;
    MappedIsSegmentation(q, done);
    if done != [] {
      assert Last(Last(ss)) == Last(done);
    }
    PlacedFacts(JoinsMapped(q, ss, v), ss, v);
    assert Front([v]) == [];
  }

  lemma ScanStart(q: Limits, bios: seq<Bio>, nr: nat, discard: bool, segs: seq<Segment>)
    requires Consistent(q, bios, nr, discard, segs)
    ensures Scanned(q, [], [], []) && q.window > 0
  {
  }

  lemma ScanResult(q: Limits, bios: seq<Bio>, nr: nat, discard: bool, segs: seq<Segment>, prv: seq<Vec>, sg: seq<Entry>)
    requires Consistent(q, bios, nr, discard, segs) && Scanned(q, VecsOf(bios), prv, sg)
    ensures |sg| <= nr && EntryBytes(sg) == Bytes(VecsOf(bios)) && EntriesLegal(q, VecsOf(bios), sg)
    ensures MappedAs(q, VecsOf(bios), sg)
  {
    assert MappedAs(q, VecsOf(bios), sg) by {
      MappedRuns(q, VecsOf(bios));
    }
    var vecs := VecsOf(bios);
    MappedIsSegmentation(q, vecs);
    EntriesCover(q, vecs, Mapped(q, vecs));
    MappedLegal(q, vecs);
    if !discard {
      GreedyIsOptimal(q, vecs, segs);
    }
  }

  method Prepare(q: Limits, bio: Bio) returns (b: Bio)
    requires BioOk(q, bio)
    ensures Ready(q, b) && b.vecs == bio.vecs && b.size == bio.size && b.physSegments == CountOf(q, bio)
  {
    b := bio;
    if !bio.segValid {
      RecountedOk(q, bio);
      b := RecountSegments(q, bio);
    }
  }

  class Request {
    var bios: seq<Bio>
    var dataLen: nat
    var sector: nat
    var nrPhysSegments: nat
    var discard: bool
    var noMerge: bool
    ghost var segs: seq<Segment>

    ghost function Vecs(): seq<Vec>
      reads this
    {
      VecsOf(bios)
    }

    ghost predicate Valid(q: Limits)
      reads this
    {
      Consistent(q, bios, nrPhysSegments, discard, segs) && dataLen == TotalSize(bios)
    }

    constructor (q: Limits, bio: Bio, at: nat)
      requires BioOk(q, bio) && q.maxSegments < U16
      ensures Valid(q) && Vecs() == bio.vecs && sector == at && !noMerge
      ensures nrPhysSegments == CountOf(q, bio)
    {
      var b := Prepare(q, bio);
      bios, dataLen, sector := [b], bio.size, at;
      discard, noMerge := bio.vecs == [], false;
      nrPhysSegments := if bio.vecs == [] then 0 else b.physSegments;
      OneBio(b);
      assert Front([b]) == [];
      ghost var ss := StartConsistent(q, b);
      segs := ss;
    }

    /** Appends a bio, unless the request would get too long or get too many segments. */
    method BackMerge(q: Limits, bio: Bio) returns (ok: bool)
      requires Valid(q) && BioOk(q, bio) && (bio.vecs == [] <==> discard)
      modifies this
      ensures Valid(q)
      ensures ok == old(dataLen / 512 + bio.size / 512 <= q.maxSectors
                        && nrPhysSegments + CountOf(q, bio) <= q.maxSegments)
      ensures ok ==> Vecs() == old(Vecs()) + bio.vecs && dataLen == old(dataLen) + bio.size
      ensures ok ==> nrPhysSegments == old(nrPhysSegments) + CountOf(q, bio)
      ensures !ok ==> noMerge && Vecs() == old(Vecs()) && nrPhysSegments == old(nrPhysSegments)
      ensures sector == old(sector)
    {
      hide Consistent, BioOk, CountOf, VecsOf, TotalSize;
      ConsistentEnds(q, bios, nrPhysSegments, discard, segs);
      if dataLen / 512 + bio.size / 512 > q.maxSectors {
        noMerge := true;
        return false;
      }
      var b := Prepare(q, bio);
      if nrPhysSegments + b.physSegments > q.maxSegments {
        noMerge := true;
        return false;
      }
      ghost var segs' := AppendConsistent(q, bios, nrPhysSegments, discard, segs, b);
      TotalConcat(bios, [b]);
      OneTotal(b);
      nrPhysSegments, segs := nrPhysSegments + b.physSegments, segs';
      bios := bios + [b];
      dataLen := dataLen + bio.size;
      ok := true;
    }

    /** Prepends a bio. */
    method FrontMerge(q: Limits, bio: Bio, at: nat) returns (ok: bool)
      requires Valid(q) && BioOk(q, bio) && (bio.vecs == [] <==> discard)
      modifies this
      ensures Valid(q)
      ensures ok == old(dataLen / 512 + bio.size / 512 <= q.maxSectors
                        && nrPhysSegments + CountOf(q, bio) <= q.maxSegments)
      ensures ok ==> Vecs() == bio.vecs + old(Vecs()) && dataLen == old(dataLen) + bio.size && sector == at
      ensures ok ==> nrPhysSegments == old(nrPhysSegments) + CountOf(q, bio)
      ensures !ok ==> noMerge && Vecs() == old(Vecs()) && nrPhysSegments == old(nrPhysSegments)
    {
      hide Consistent, BioOk, CountOf, VecsOf, TotalSize;
      ConsistentEnds(q, bios, nrPhysSegments, discard, segs);
      if dataLen / 512 + bio.size / 512 > q.maxSectors {
        noMerge := true;
        return false;
      }
      var b := Prepare(q, bio);
      if nrPhysSegments + b.physSegments > q.maxSegments {
        noMerge := true;
        return false;
      }
      ghost var segs' := PrependConsistent(q, bios, nrPhysSegments, discard, segs, b);
      TotalConcat([b], bios);
      OneTotal(b);
      nrPhysSegments, segs := nrPhysSegments + b.physSegments, segs';
      bios := [b] + bios;
      dataLen := dataLen + bio.size;
      sector := at;
      ok := true;
    }

    /** The segments of both fit together, one less if the seam can be joined. */
    ghost predicate JoinFits(q: Limits, next: Request)
      reads this, next
      requires Valid(q) && next.Valid(q)
    {
      discard == next.discard &&
      (ConsistentEnds(q, bios, nrPhysSegments, discard, segs);
       ConsistentEnds(q, next.bios, next.nrPhysSegments, discard, next.segs);
       nrPhysSegments + next.nrPhysSegments
       - (if Contiguous(q, Last(bios), next.bios[0]) then 1 else 0) <= q.maxSegments)
    }

    /**
     Takes over the bios of the next request if the count allows it. The bounds of both are touched even when the
     merge is then refused for its count.
     */
    method Absorb(q: Limits, next: Request) returns (ok: bool)
      requires Valid(q) && next.Valid(q) && next != this && discard == next.discard
      modifies this`bios, this`nrPhysSegments, this`dataLen, this`segs, next`bios
      ensures Valid(q) && (ok || next.Valid(q))
      ensures ok == old(JoinFits(q, next))
      ensures ok ==> next.bios == [] && Vecs() == old(Vecs() + next.Vecs()) && dataLen == old(dataLen + next.dataLen)
      ensures !ok ==> Vecs() == old(Vecs()) && next.Vecs() == old(next.Vecs())
      ensures ok ==> nrPhysSegments == old(MergedCount(nrPhysSegments, next.nrPhysSegments,
                                                       Contiguous(q, Last(bios), next.bios[0])))
      ensures ok && !discard ==> nrPhysSegments == old(nrPhysSegments + next.nrPhysSegments)
                                                   - old(if Contiguous(q, Last(bios), next.bios[0]) then 1 else 0)
      ensures ok ==> SeamBounds(old(bios), old(nrPhysSegments), old(next.bios), old(next.nrPhysSegments),
                                old(Contiguous(q, Last(bios), next.bios[0])), bios)
    {
      hide Consistent, Widened, Contiguous, VecsOf, TotalSize, SeamBounds;
      ConsistentEnds(q, bios, nrPhysSegments, discard, segs);
      ConsistentEnds(q, next.bios, next.nrPhysSegments, discard, next.segs);
      ghost var a0, b0 := bios, next.bios;
      var segSize := Last(bios).segBack + next.bios[0].segFront;
      var total: int := nrPhysSegments + next.nrPhysSegments;
      var contiguous := Contiguous(q, Last(bios), next.bios[0]);
      if contiguous {
        bios := Widened(bios, nrPhysSegments, true, segSize);
        next.bios := Widened(next.bios, next.nrPhysSegments, false, segSize);
        total := total - 1;
      }
      ghost var ss := MergeConsistent(q, a0, nrPhysSegments, segs, b0, next.nrPhysSegments, next.segs,
                                      discard, contiguous, bios, next.bios);
      if total > q.maxSegments {
        return false;
      }
      VecsConcat(bios, next.bios);
      TotalConcat(bios, next.bios);
      SeamBound(a0, nrPhysSegments, b0, next.nrPhysSegments, contiguous, bios, next.bios);
      nrPhysSegments, segs := total % U16, ss;
      bios := bios + next.bios;
      dataLen := dataLen + next.dataLen;
      next.bios := [];
      ok := true;
    }

    /** Tries to append the next request in sector order, as attempt_merge does once it has found one. */
    method MergeWith(q: Limits, next: Request, compatible: bool) returns (ok: bool)
      requires Valid(q) && next.Valid(q) && next != this
      modifies this, next
      ensures Valid(q) && (ok || next.Valid(q))
      ensures ok ==> next.bios == [] && Vecs() == old(Vecs() + next.Vecs()) && dataLen == old(dataLen + next.dataLen)
      ensures !ok ==> Vecs() == old(Vecs()) && next.Vecs() == old(next.Vecs())
      ensures ok == old(compatible && !noMerge && !next.noMerge && discard == next.discard
                        && sector + dataLen / 512 == next.sector
                        && dataLen / 512 + next.dataLen / 512 <= q.maxSectors && JoinFits(q, next))
    {
      hide Consistent;
      if noMerge || next.noMerge || discard != next.discard || !compatible {
        return false;
      }
      if sector + dataLen / 512 != next.sector || dataLen / 512 + next.dataLen / 512 > q.maxSectors {
        return false;
      }
      ok := Absorb(q, next);
    }

    /**
     Builds the scatterlist. Whatever merges made the request, the list covers exactly its bytes in order, needs no more
     entries than its segment count, and joins vectors only within the size limit and one boundary window.
     */
    method MapSg(q: Limits) returns (sg: seq<Entry>)
      requires Valid(q)
      ensures |sg| <= nrPhysSegments
      ensures EntryBytes(sg) == Bytes(Vecs())
      ensures EntriesLegal(q, Vecs(), sg)
      ensures MappedAs(q, Vecs(), sg)
    {
      hide Consistent, Scanned, MappedAs;
      ScanStart(q, bios, nrPhysSegments, discard, segs);
      sg := [];
      var prv: seq<Vec> := [];
      ghost var done: seq<Vec> := [];
      for i := 0 to |bios|
        invariant done == VecsOf(bios[..i])
        invariant Scanned(q, done, prv, sg)
      {
        assert Front(bios[..i + 1]) == bios[..i];
        ghost var before := done;
        for j := 0 to |bios[i].vecs|
          invariant done == before + bios[i].vecs[..j]
          invariant Scanned(q, done, prv, sg)
        {
          var v := bios[i].vecs[j];
          ScanStep(q, done, prv, sg, v);
          assert before + bios[i].vecs[..j + 1] == before + bios[i].vecs[..j] + [v];
          if prv != [] && q.cluster && Last(sg).len + v.len <= q.maxSize && Joinable(q, prv[0], v) {
            sg := Front(sg) + [Entry(Last(sg).addr, Last(sg).len + v.len)];
          } else {
            sg := sg + [Entry(v.addr, v.len)];
          }
          prv, done := [v], done + [v];
        }
        assert bios[i].vecs[..|bios[i].vecs|] == bios[i].vecs;
      }
      assert bios[..|bios|] == bios;
      ScanResult(q, bios, nrPhysSegments, discard, segs, prv, sg);
    }
  }
}
