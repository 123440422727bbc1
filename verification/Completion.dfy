/**
 Partial completion of a request: a number of bytes at its front is done, with or without an error. Bios that are
 covered end, the one that is covered in part is advanced, and the request goes on with what is left.
 */
module Completion {

  const EIO: int := 5

  /** A stretch of memory. */
  datatype Vec = Vec(page: nat, offset: nat, len: nat)

  /** Each byte of a request is identified by where it is. */
  type Byte = (nat, nat)

  datatype Bio = Bio(id: nat, vecs: seq<Vec>, idx: nat, size: nat, sector: nat, uptodate: bool)

  /** A bio that ended, with the error its owner is told. */
  datatype Ended = Ended(id: nat, err: int)

  function Bytes(v: Vec): seq<Byte> {
    seq(v.len, k requires 0 <= k < v.len => (v.page, v.offset + k))
  }

  function VecBytes(vs: seq<Vec>): (r: seq<Byte>)
    ensures |r| == Total(vs)
  {
    if vs == [] then [] else Bytes(vs[0]) + VecBytes(vs[1..])
  }

  function Total(vs: seq<Vec>): nat {
    if vs == [] then 0 else vs[0].len + Total(vs[1..])
  }

  ghost predicate NonEmpty(vs: seq<Vec>) {
    forall i :: 0 <= i < |vs| ==> vs[i].len > 0
  }

  /** A bio with data left: its size is what its remaining vectors hold. */
  ghost predicate BioOk(b: Bio) {
    b.idx < |b.vecs| && b.size == Total(b.vecs[b.idx..]) && NonEmpty(b.vecs[b.idx..])
  }

  ghost predicate BiosOk(bs: seq<Bio>) {
    forall i :: 0 <= i < |bs| ==> BioOk(bs[i])
  }

  function Size(bs: seq<Bio>): nat {
    if bs == [] then 0 else bs[0].size + Size(bs[1..])
  }

  ghost function Left(bs: seq<Bio>): seq<Byte>
    requires BiosOk(bs)
  {
    if bs == [] then [] else VecBytes(bs[0].vecs[bs[0].idx..]) + Left(bs[1..])
  }

  // ----- advancing in a list of vectors

  function Cut(v: Vec, n: nat): Vec
    requires n <= v.len
  {
    v.(offset := v.offset + n, len := v.len - n)
  }

  /** How many vectors n bytes cover, and how many bytes of the next one. */
  function Whole(vs: seq<Vec>, n: nat): nat {
    if vs == [] || n < vs[0].len then 0 else 1 + Whole(vs[1..], n - vs[0].len)
  }

  function Rest(vs: seq<Vec>, n: nat): nat {
    if vs == [] || n < vs[0].len then n else Rest(vs[1..], n - vs[0].len)
  }

  /** With fewer bytes than there are, the walk stops inside the list. */
  lemma {:induction false} WholeInside(vs: seq<Vec>, n: nat)
    requires n < Total(vs)
    ensures Whole(vs, n) < |vs| && Rest(vs, n) < vs[Whole(vs, n)].len
  {
    if n >= vs[0].len {
      WholeInside(vs[1..], n - vs[0].len);
    }
  }

  /** The vectors that are left. */
  function Skipped(vs: seq<Vec>, n: nat): seq<Vec>
    requires n < Total(vs)
  {
    if n < vs[0].len then [Cut(vs[0], n)] + vs[1..] else Skipped(vs[1..], n - vs[0].len)
  }

  lemma CutBytes(v: Vec, n: nat)
    requires n <= v.len
    ensures Bytes(Cut(v, n)) == Bytes(v)[n..]
  {
  }

  lemma Suffix(a: seq<Byte>, b: seq<Byte>, n: nat)
    requires n <= |a| + |b|
    ensures (a + b)[n..] == if n <= |a| then a[n..] + b else b[n - |a|..]
  {
  }

  lemma {:induction false} SkippedBytes(vs: seq<Vec>, n: nat)
    requires n < Total(vs)
    ensures VecBytes(Skipped(vs, n)) == VecBytes(vs)[n..] && Total(Skipped(vs, n)) == Total(vs) - n
  {
    Suffix(Bytes(vs[0]), VecBytes(vs[1..]), n);
    if n < vs[0].len {
      CutBytes(vs[0], n);
      assert Skipped(vs, n)[1..] == vs[1..];
    } else {
      hide Bytes;
      SkippedBytes(vs[1..], n - vs[0].len);
    }
  }

  lemma {:induction false} SkippedTwice(vs: seq<Vec>, a: nat, b: nat)
    requires a + b < Total(vs)
    ensures Total(Skipped(vs, a)) == Total(vs) - a
    ensures Skipped(Skipped(vs, a), b) == Skipped(vs, a + b)
    ensures Whole(vs, a) + Whole(Skipped(vs, a), b) == Whole(vs, a + b)
  {
    if a < vs[0].len {
      assert Skipped(vs, a)[1..] == vs[1..];
    } else {
      SkippedTwice(vs[1..], a - vs[0].len, b);
    }
  }

  // ----- advancing a chain of bios

  function AdvanceBio(b: Bio, n: nat, err: int): Bio
    requires BioOk(b) && n < b.size
  {
    if n == 0 then b else
    WholeInside(b.vecs[b.idx..], n);
    var w, r := Whole(b.vecs[b.idx..], n), Rest(b.vecs[b.idx..], n);
    b.(vecs := b.vecs[b.idx + w := Cut(b.vecs[b.idx + w], r)], idx := b.idx + w, size := b.size - n,
       sector := b.sector + n / 512, uptodate := b.uptodate && err == 0)
  }

  /** The error a bio ends with: this one, or an input/output error if an earlier part failed. */
  function EndError(b: Bio, err: int): int {
    if err != 0 then err else if b.uptodate then 0 else -EIO
  }

  lemma {:induction false} TotalPositive(vs: seq<Vec>)
    requires vs != [] && NonEmpty(vs)
    ensures Total(vs) > 0
  {
  }

  lemma NothingSkipped(vs: seq<Vec>)
    requires vs != [] && NonEmpty(vs) && 0 < Total(vs)
    ensures Whole(vs, 0) == 0 && Skipped(vs, 0) == vs
  {
  }

  lemma {:induction false} SkippedNonEmpty(vs: seq<Vec>, n: nat)
    requires NonEmpty(vs) && n < Total(vs)
    ensures NonEmpty(Skipped(vs, n))
  {
    if n >= vs[0].len {
      SkippedNonEmpty(vs[1..], n - vs[0].len);
    }
  }

  lemma {:induction false} SkippedAt(vs: seq<Vec>, n: nat)
    requires n < Total(vs)
    ensures var w := Whole(vs, n);
            w < |vs| && Rest(vs, n) < vs[w].len && Skipped(vs, n) == [Cut(vs[w], Rest(vs, n))] + vs[w + 1..]
  {
    if n >= vs[0].len {
      SkippedAt(vs[1..], n - vs[0].len);
    }
  }

  /** Advancing the index and cutting the vector there leaves the skipped list. */
  lemma SkippedInPlace(vecs: seq<Vec>, i: nat, n: nat)
    requires i < |vecs| && n < Total(vecs[i..])
    ensures var vs := vecs[i..]; var w := Whole(vs, n);
            && w < |vs| && Rest(vs, n) <= vs[w].len
            && vecs[i + w := Cut(vecs[i + w], Rest(vs, n))][i + w..] == Skipped(vs, n)
  {
    hide Whole, Rest, Skipped, Total;
    SkippedAt(vecs[i..], n);
  }

  lemma AdvanceBioIs(b: Bio, n: nat, err: int)
    requires BioOk(b) && n < b.size
    ensures var b' := AdvanceBio(b, n, err);
            && BioOk(b') && n < Total(b.vecs[b.idx..]) && b'.vecs[b'.idx..] == Skipped(b.vecs[b.idx..], n)
            && b'.idx == b.idx + Whole(b.vecs[b.idx..], n) && b'.size == b.size - n && b'.id == b.id
            && b'.uptodate == (b.uptodate && (n == 0 || err == 0))
  {
    var vs := b.vecs[b.idx..];
    hide VecBytes, Skipped, Whole, Rest, NonEmpty, Total;
    if n == 0 {
      NothingSkipped(vs);
    } else {
      SkippedBytes(vs, n);
      SkippedNonEmpty(vs, n);
      SkippedInPlace(b.vecs, b.idx, n);
    }
  }

  /** The chain after n bytes, and the bios that ended in order. */
  function Advance(bs: seq<Bio>, n: nat, err: int): (r: (seq<Bio>, seq<Ended>))
    requires BiosOk(bs)
    ensures BiosOk(r.0)
  {
    if bs == [] then ([], [])
    else if n >= bs[0].size then
      var (bs', es) := Advance(bs[1..], n - bs[0].size, err);
      (bs', [Ended(bs[0].id, EndError(bs[0], err))] + es)
    else
      AdvanceBioIs(bs[0], n, err);
      ([AdvanceBio(bs[0], n, err)] + bs[1..], [])
  }

  lemma {:induction false} LeftSize(bs: seq<Bio>)
    requires BiosOk(bs)
    ensures |Left(bs)| == Size(bs)
  {
    if bs != [] {
      LeftSize(bs[1..]);
    }
  }

  function Min(a: nat, b: nat): nat {
    if a <= b then a else b
  }

  /** What is left is exactly the suffix that was not transferred. */
  lemma {:induction false} AdvanceLeaves(bs: seq<Bio>, n: nat, err: int)
    requires BiosOk(bs)
    ensures var bs' := Advance(bs, n, err).0;
            && Size(bs') == Size(bs) - Min(n, Size(bs)) && |Left(bs)| == Size(bs)
            && Left(bs') == Left(bs)[Min(n, Size(bs))..]
  {
    LeftSize(bs);
    if bs != [] {
      hide Skipped, VecBytes, Whole, Rest, AdvanceBio;
      var vs := bs[0].vecs[bs[0].idx..];
      LeftSize(bs[1..]);
      Suffix(VecBytes(vs), Left(bs[1..]), Min(n, Size(bs)));
      if n >= bs[0].size {
        AdvanceLeaves(bs[1..], n - bs[0].size, err);
      } else {
        AdvanceBioIs(bs[0], n, err);
        SkippedBytes(vs, n);
        var bs' := Advance(bs, n, err).0;
        assert bs'[1..] == bs[1..] && bs'[0] == AdvanceBio(bs[0], n, err);
      }
    }
  }

  /** Bios end once each, in chain order, with the right error; the rest stay in the chain. */
  lemma {:induction false} AdvanceEnds(bs: seq<Bio>, n: nat, err: int)
    requires BiosOk(bs)
    ensures var (bs', es) := Advance(bs, n, err);
            && |es| + |bs'| == |bs|
            && (forall i :: 0 <= i < |es| ==> es[i] == Ended(bs[i].id, EndError(bs[i], err)))
            && (forall i :: 0 <= i < |bs'| ==> bs'[i].id == bs[|es| + i].id && (i > 0 ==> bs'[i] == bs[|es| + i]))
  {
    hide AdvanceBio, EndError, BioOk;
    if bs != [] && n >= bs[0].size {
      AdvanceEnds(bs[1..], n - bs[0].size, err);
    } else if bs != [] {
      AdvanceBioIs(bs[0], n, err);
    }
  }

  /** Exactly the bios that are covered end. */
  lemma {:induction false} AdvanceCovers(bs: seq<Bio>, n: nat, err: int)
    requires BiosOk(bs)
    ensures var (bs', es) := Advance(bs, n, err);
            |es| <= |bs| && Size(bs[..|es|]) <= n && (|es| < |bs| ==> n < Size(bs[..|es| + 1]))
  {
    hide AdvanceBio, EndError, BioOk;
    AdvanceEnds(bs, n, err);
    if bs != [] && n >= bs[0].size {
      AdvanceCovers(bs[1..], n - bs[0].size, err);
      var es := Advance(bs, n, err).1;
      SizeOfPrefix(bs, |es|);
      if |es| < |bs| {
        SizeOfPrefix(bs, |es| + 1);
      }
    } else if bs != [] {
      SizeOfPrefix(bs, 1);
    }
  }

  // ----- completing in two calls

  /** What matters of a bio from now on, except where on the disk it continues. */
  datatype View = View(id: nat, vecs: seq<Vec>, idx: nat, size: nat, uptodate: bool)

  ghost function ViewOf(b: Bio): View
    requires BioOk(b)
  {
    View(b.id, b.vecs[b.idx..], b.idx, b.size, b.uptodate)
  }

  ghost predicate SameViews(bs: seq<Bio>, cs: seq<Bio>)
    requires BiosOk(bs) && BiosOk(cs)
  {
    |bs| == |cs| && forall i :: 0 <= i < |bs| ==> ViewOf(bs[i]) == ViewOf(cs[i])
  }

  lemma AdvanceBioTwice(b: Bio, x: nat, y: nat, err: int)
    requires BioOk(b) && x + y < b.size
    ensures BioOk(AdvanceBio(b, x, err)) && y < AdvanceBio(b, x, err).size
    ensures BioOk(AdvanceBio(AdvanceBio(b, x, err), y, err)) && BioOk(AdvanceBio(b, x + y, err))
    ensures ViewOf(AdvanceBio(AdvanceBio(b, x, err), y, err)) == ViewOf(AdvanceBio(b, x + y, err))
  {
    hide AdvanceBio, Skipped, Whole, Rest;
    AdvanceBioIs(b, x, err);
    AdvanceBioIs(AdvanceBio(b, x, err), y, err);
    AdvanceBioIs(b, x + y, err);
    SkippedTwice(b.vecs[b.idx..], x, y);
  }

  /** A bio that was advanced in part ends with the same error as one that ends at once. */
  lemma AdvanceBioEnds(b: Bio, x: nat, err: int)
    requires BioOk(b) && x < b.size
    ensures AdvanceBio(b, x, err).size == b.size - x && AdvanceBio(b, x, err).id == b.id
    ensures EndError(AdvanceBio(b, x, err), err) == EndError(b, err)
  {
  }

  /** Completing x bytes and then y leaves the same as completing x + y, and the same bios end with the same errors. */
  lemma {:induction false} AdvanceTwice(bs: seq<Bio>, x: nat, y: nat, err: int)
    requires BiosOk(bs)
    ensures var (b1, e1) := Advance(bs, x, err);
            var (b2, e2) := Advance(b1, y, err);
            var (b3, e3) := Advance(bs, x + y, err);
            SameViews(b2, b3) && e1 + e2 == e3
    decreases |bs|
  {
    hide AdvanceBio, EndError, BioOk;
    if bs == [] {
    } else if x >= bs[0].size {
      AdvanceTwice(bs[1..], x - bs[0].size, y, err);
    } else {
      AdvanceBioIs(bs[0], x, err);
      AdvanceBioEnds(bs[0], x, err);
      var b1 := Advance(bs, x, err).0;
      assert b1[1..] == bs[1..];
      if x + y < bs[0].size {
        AdvanceBioTwice(bs[0], x, y, err);
      }
    }
  }

  // ----- the position on the disk

  /** The bytes of the bio in which n bytes end that the first x of them cover. */
  function Part(bs: seq<Bio>, x: nat, n: nat): (r: nat)
    requires x <= n
  {
    if bs == [] then 0
    else if n >= bs[0].size then Part(bs[1..], if x >= bs[0].size then x - bs[0].size else 0, n - bs[0].size)
    else x
  }

  /** Two parts make up one sector more than each on its own. */
  function Lost(x: nat, y: nat): nat {
    if x % 512 + y % 512 < 512 then 0 else 1
  }

  lemma SectorParts(x: nat, y: nat)
    ensures (x + y) / 512 == x / 512 + y / 512 + Lost(x, y)
    ensures x == 0 ==> Lost(x, y) == 0
  {
  }

  /**
   Completing in two calls moves the bio that is left first by whole sectors twice. It ends up one sector short of where
   one call puts it if the parts of it that the two calls did do not end a sector each and together make up one more.
   */
  lemma {:induction false} BioSectorTwice(bs: seq<Bio>, x: nat, y: nat, err: int)
    requires BiosOk(bs) && x + y < Size(bs)
    ensures var b2 := Advance(Advance(bs, x, err).0, y, err).0;
            var b3 := Advance(bs, x + y, err).0;
            var p, q := Part(bs, x, x + y), Part(bs, x + y, x + y);
            && b2 != [] && b3 != [] && p <= q && b2[1..] == b3[1..]
            && b3[0].sector == b2[0].sector + Lost(p, q - p)
    decreases |bs|
  {
    hide BioOk, EndError, AdvanceBio, Advance, Left, Part, Lost;
    if x >= bs[0].size {
      AdvanceFirst(bs, x, err);
      AdvanceFirst(bs, x + y, err);
      PartFirst(bs, x, x + y);
      PartFirst(bs, x + y, x + y);
      BioSectorTwice(bs[1..], x - bs[0].size, y, err);
    } else {
      FirstAdvanced(bs, x, err);
      var b1 := Advance(bs, x, err).0;
      PartFirst(bs, x, x + y);
      PartFirst(bs, x + y, x + y);
      if x + y < bs[0].size {
        FirstAdvanced(b1, y, err);
        FirstAdvanced(bs, x + y, err);
        SectorParts(x, y);
      } else {
        NoPart(bs[1..], x + y - bs[0].size);
        SectorParts(0, Part(bs, x + y, x + y));
        AdvanceFirst(bs, x + y, err);
        AdvanceFirst(b1, y, err);
        SomeLeft(bs, x + y, err);
      }
    }
  }

  lemma PartFirst(bs: seq<Bio>, x: nat, n: nat)
    requires x <= n && bs != []
    ensures n < bs[0].size ==> Part(bs, x, n) == x
    ensures n >= bs[0].size ==>
              Part(bs, x, n) == Part(bs[1..], if x >= bs[0].size then x - bs[0].size else 0, n - bs[0].size)
  {
  }

  lemma SomeLeft(bs: seq<Bio>, n: nat, err: int)
    requires BiosOk(bs) && n < Size(bs)
    ensures Advance(bs, n, err).0 != []
  {
    AdvanceLeaves(bs, n, err);
  }

  lemma FirstAdvanced(bs: seq<Bio>, n: nat, err: int)
    requires BiosOk(bs) && bs != [] && n < bs[0].size
    ensures var bs' := Advance(bs, n, err).0;
            && bs' != [] && bs'[1..] == bs[1..]
            && bs'[0].size == bs[0].size - n && bs'[0].sector == bs[0].sector + n / 512
  {
  }

  lemma {:induction false} NoPart(bs: seq<Bio>, n: nat)
    ensures Part(bs, 0, n) == 0 && Part(bs, n, n) <= n
  {
    if bs != [] && n >= bs[0].size {
      NoPart(bs[1..], n - bs[0].size);
    }
  }

  /** A request as its owner sees it: what is left, and where on the disk it continues if it has a position. */
  datatype Progress = Progress(bios: seq<Bio>, sector: nat, positioned: bool)

  function Updated(r: Progress, bytes: nat, err: int): (r': Progress)
    requires BiosOk(r.bios)
    ensures BiosOk(r'.bios)
  {
    var bs := Advance(r.bios, bytes, err).0;
    r.(bios := bs, sector := r.sector + if bs != [] && r.positioned then bytes / 512 else 0)
  }

  function UpdatedBy(r: Progress, calls: seq<Call>): (r': Progress)
    requires BiosOk(r.bios)
    ensures BiosOk(r'.bios)
    decreases calls
  {
    if calls == [] then r else UpdatedBy(Updated(r, calls[0].bytes, calls[0].err), calls[1..])
  }

  /** The bytes beyond whole sectors, call by call. */
  function Remainders(calls: seq<Call>): nat {
    if calls == [] then 0 else calls[0].bytes % 512 + Remainders(calls[1..])
  }

  /**
   While data is left, any sequence of calls moves the request by one sector less than the bytes done for every 512
   bytes the calls leave beyond whole sectors. So it is where it should be if and only if those are fewer than 512.
   */
  lemma {:induction false} RunSector(r: Progress, calls: seq<Call>)
    requires BiosOk(r.bios) && r.positioned && Sum(calls) < Size(r.bios)
    ensures UpdatedBy(r, calls).sector + Remainders(calls) / 512 == r.sector + Sum(calls) / 512
    ensures UpdatedBy(r, calls).sector == r.sector + Sum(calls) / 512 <==> Remainders(calls) < 512
    decreases calls
  {
    if calls != [] {
      hide Advance, BioOk, Left;
      var n := calls[0].bytes;
      AdvanceLeaves(r.bios, n, calls[0].err);
      var r' := Updated(r, n, calls[0].err);
      RunSector(r', calls[1..]);
      SectorSums(n, Sum(calls[1..]), Remainders(calls[1..]));
      SumRemainders(calls[1..]);
    }
  }

  lemma {:induction false} SumRemainders(calls: seq<Call>)
    ensures Remainders(calls) % 512 == Sum(calls) % 512
  {
    if calls != [] {
      SumRemainders(calls[1..]);
      SameRemainder(calls[0].bytes, Remainders(calls[1..]), Sum(calls[1..]));
    }
  }

  lemma SameRemainder(n: nat, k: nat, m: nat)
    requires k % 512 == m % 512
    ensures (n % 512 + k) % 512 == (n + m) % 512
  {
  }

  lemma SectorSums(n: nat, m: nat, k: nat)
    ensures m % 512 == k % 512 ==> (n + m) / 512 - (n % 512 + k) / 512 == n / 512 + m / 512 - k / 512
  {
  }

  /** Completing x bytes and then y leaves the request where completing x + y does, if and only if no sector is lost. */
  lemma SectorTwice(r: Progress, x: nat, y: nat, err: int)
    requires BiosOk(r.bios) && r.positioned && x + y < Size(r.bios)
    ensures Updated(Updated(r, x, err), y, err).sector == Updated(r, x + y, err).sector <==> x % 512 + y % 512 < 512
  {
    hide Updated, UpdatedBy, BioOk;
    TwoCalls(r, x, y, err);
    RunSector(r, [Call(err, x), Call(err, y)]);
    RunSector(r, [Call(err, x + y)]);
  }

  lemma TwoCalls(r: Progress, x: nat, y: nat, err: int)
    requires BiosOk(r.bios)
    ensures var two, one := [Call(err, x), Call(err, y)], [Call(err, x + y)];
            && Sum(two) == x + y == Sum(one) && Remainders(two) == x % 512 + y % 512 && Remainders(one) == (x + y) % 512
            && UpdatedBy(r, two) == Updated(Updated(r, x, err), y, err) && UpdatedBy(r, one) == Updated(r, x + y, err)
  {
    hide Advance, BioOk;
    var two, one := [Call(err, x), Call(err, y)], [Call(err, x + y)];
    assert two[1..] == [Call(err, y)] && two[1..][1..] == [] && one[1..] == [];
    assert Sum(two[1..]) == y && Remainders(two[1..]) == y % 512;
    assert UpdatedBy(Updated(r, x, err), two[1..]) == UpdatedBy(Updated(Updated(r, x, err), y, err), []);
  }

  /** Two calls of 300 bytes leave a request over two sectors at its first sector, one call of 600 at its second. */
  lemma SectorLost(at: nat)
    ensures var r := Progress([Bio(0, [Vec(0, 0, 1024)], 0, 1024, at, true)], at, true);
            && BiosOk(r.bios)
            && Updated(Updated(r, 300, 0), 300, 0).sector == at && Updated(r, 600, 0).sector == at + 1
  {
    var vs := [Vec(0, 0, 1024)];
    var r := Progress([Bio(0, vs, 0, 1024, at, true)], at, true);
    assert vs[0..] == vs && vs[1..] == [];
    assert r.bios[1..] == [];
    hide Updated, UpdatedBy, BioOk;
    TwoCalls(r, 300, 300, 0);
    RunSector(r, [Call(0, 300), Call(0, 300)]);
    RunSector(r, [Call(0, 600)]);
  }

  // ----- the walk over the vectors of one bio

  /** k vectors holding d bytes are done, and left bytes are to come, all within this bio. */
  ghost predicate WalkOk(b: Bio, k: nat, d: nat, left: nat)
    requires BioOk(b)
  {
    var vs := b.vecs[b.idx..];
    && k <= |vs| && d + left < b.size && Total(vs[k..]) == b.size - d
    && Whole(vs, d + left) == k + Whole(vs[k..], left) && Rest(vs, d + left) == Rest(vs[k..], left)
  }

  lemma WalkStart(b: Bio, left: nat)
    requires BioOk(b) && left < b.size
    ensures WalkOk(b, 0, 0, left)
  {
    assert b.vecs[b.idx..][0..] == b.vecs[b.idx..];
  }

  /** The walk never runs past the vectors. */
  lemma WalkInside(b: Bio, k: nat, d: nat, left: nat)
    requires BioOk(b) && WalkOk(b, k, d, left)
    ensures b.idx + k < |b.vecs| && b.vecs[b.idx..][k] == b.vecs[b.idx + k]
    ensures b.vecs[b.idx + k].len <= b.size
  {
  }

  lemma WalkStep(b: Bio, k: nat, d: nat, left: nat)
    requires BioOk(b) && WalkOk(b, k, d, left) && b.idx + k < |b.vecs| && b.vecs[b.idx + k].len <= left
    ensures WalkOk(b, k + 1, d + b.vecs[b.idx + k].len, left - b.vecs[b.idx + k].len)
  {
    var vs := b.vecs[b.idx..];
    assert vs[k..][1..] == vs[k + 1..] && vs[k..][0] == b.vecs[b.idx + k];
  }

  lemma WalkStop(b: Bio, k: nat, d: nat, left: nat)
    requires BioOk(b) && WalkOk(b, k, d, left) && b.idx + k < |b.vecs| && left < b.vecs[b.idx + k].len
    ensures Stopped(b, k, d + left, left)
  {
    var vs := b.vecs[b.idx..];
    assert vs[k..][0] == b.vecs[b.idx + k];
  }

  lemma AdvanceNone(bs: seq<Bio>, err: int)
    requires BiosOk(bs)
    ensures bs != [] ==> bs[0].size > 0
    ensures Advance(bs, 0, err) == (bs, [])
  {
    if bs != [] {
      TotalPositive(bs[0].vecs[bs[0].idx..]);
      assert [bs[0]] + bs[1..] == bs;
    }
  }

  // ----- the request

  class Request {
    var bios: seq<Bio>
    var dataLen: int
    var sector: nat
    const hasSector: bool
    var ended: seq<Ended>

    ghost predicate Valid()
      reads this
    {
      BiosOk(bios) && dataLen == Size(bios)
    }

    ghost function Value(): Progress
      reads this
    {
      Progress(bios, sector, hasSector)
    }

    constructor (bs: seq<Bio>, at: nat, positioned: bool)
      requires BiosOk(bs)
      ensures Valid() && bios == bs && sector == at && hasSector == positioned && ended == []
    {
      bios, dataLen, sector, hasSector, ended := bs, SizeOf(bs), at, positioned, [];
    }

    static function SizeOf(bs: seq<Bio>): nat {
      Size(bs)
    }

    /** Some bytes of a bio are done; it ends when none are left. */
    method EndBio(b: Bio, n: nat, err: int) returns (b': Bio)
      requires n <= b.size
      modifies `ended
      ensures b' == b.(size := b.size - n, sector := b.sector + n / 512, uptodate := b.uptodate && err == 0)
      ensures ended == old(ended) + if n == b.size then [Ended(b.id, EndError(b, err))] else []
    {
      var error := err;
      b' := b;
      if error != 0 {
        b' := b'.(uptodate := false);
      } else if !b.uptodate {
        error := -EIO;
      }
      b' := b'.(size := b.size - n, sector := b.sector + n / 512);
      if b'.size == 0 {
        ended := ended + [Ended(b.id, error)];
      }
    }

    /** The loop: ends the bios that are covered and finds the place in the next one. */
    method Walk(err: int, bytes: nat) returns (total: nat, done: nat, k: nat, left: nat)
      requires BiosOk(bios)
      modifies `bios, `ended
      ensures BiosOk(bios)
      ensures bios != [] ==> total == bytes && Stopped(bios[0], k, done, left)
      ensures Advance(bios, done, err).0 == Advance(old(bios), bytes, err).0
      ensures ended + Advance(bios, done, err).1 == old(ended) + Advance(old(bios), bytes, err).1
    {
      hide Advance, AdvanceBio, Whole, Rest, BioOk, WalkOk, Stopped;
      total, done, k, left := 0, 0, 0, bytes;
      NextFits(bios);
      while bios != []
        invariant BiosOk(bios) && total + left == bytes
        invariant bios == [] ==> done == 0
        invariant bios != [] ==> (k == 0 && done == 0) || WalkOk(bios[0], k, done, left)
        invariant bios != [] ==> |bios[0].vecs| >= bios[0].idx + k
        invariant Advance(bios, done + left, err).0 == Advance(old(bios), bytes, err).0
        invariant ended + Advance(bios, done + left, err).1 == old(ended) + Advance(old(bios), bytes, err).1
        decreases |bios|, if bios == [] then 0 else |bios[0].vecs| - bios[0].idx - k
      {
        var b := bios[0];
        var n: nat;
        BioHolds(b);
        if left >= b.size {
          WalkFits(b, k, done, left);
          AdvanceFirst(bios, left, err);
          bios := bios[1..];
          n := b.size;
          var _ := EndBio(b, n, err);
          k, done := 0, 0;
          NextFits(bios);
        } else {
          if k == 0 && done == 0 {
            WalkStart(b, left);
          }
          WalkInside(b, k, done, left);
          n := b.vecs[b.idx + k].len;
          if n > left {
            WalkStop(b, k, done, left);
            done, total := done + left, total + left;
            return;
          }
          WalkStep(b, k, done, left);
          k, done := k + 1, done + n;
        }
        total, left := total + n, left - n;
        if bios != [] && left <= 0 {
          AdvanceNone(bios, err);
          if k == 0 && done == 0 {
            WalkStart(bios[0], 0);
          }
          WalkDone(bios[0], k, done);
          return;
        }
      }
      AdvanceEmpty(done + left, err);
      AdvanceEmpty(done, err);
    }

    /** Advances the bio that is covered in part. */
    method Cover(err: int, done: nat, k: nat, left: nat)
      requires BiosOk(bios) && bios != [] && Stopped(bios[0], k, done, left)
      modifies `bios, `ended
      ensures bios == Advance(old(bios), done, err).0 && ended == old(ended) + Advance(old(bios), done, err).1
      ensures bios != []
    {
      hide Advance, AdvanceBio, Whole, Rest, BioOk;
      StoppedChain(bios, k, done, left, err);
      assert ended + [] == ended;
      if done != 0 {
        var b := EndBio(bios[0], done, err);
        b := b.(idx := b.idx + k);
        bios := [b.(vecs := b.vecs[b.idx := Cut(b.vecs[b.idx], left)])] + bios[1..];
      }
    }

    method Update(err: int, bytes: nat) returns (more: bool)
      requires Valid()
      modifies this
      ensures Valid() && (more <==> bios != [])
      ensures Value() == Updated(old(Value()), bytes, err) && ended == old(ended) + Advance(old(bios), bytes, err).1
      ensures bios != [] ==> bios[0].idx < |bios[0].vecs| && bios[0].vecs[bios[0].idx].len <= dataLen
    {
      hide Advance, AdvanceBio, Whole, Rest, BioOk, Stopped;
      if bios == [] {
        AdvanceEmpty(bytes, err);
        assert ended + [] == ended;
        return false;
      }
      AdvanceLeaves(bios, bytes, err);
      var total, done, k, left := Walk(err, bytes);
      if bios == [] {
        AdvanceEmpty(done, err);
        assert ended + [] == ended;
        dataLen := 0;
        return false;
      }
      Cover(err, done, k, left);
      FirstFits(bios);
      dataLen := dataLen - total;
      if hasSector {
        sector := sector + total / 512;
      }
      more := true;
    }
  }

  lemma BioHolds(b: Bio)
    requires BioOk(b)
    ensures b.idx < |b.vecs| && b.size > 0
  {
    TotalPositive(b.vecs[b.idx..]);
  }

  lemma NextFits(bs: seq<Bio>)
    requires BiosOk(bs)
    ensures bs != [] ==> |bs[0].vecs| >= bs[0].idx
  {
  }

  /** Once some vectors of a bio are done, what is to come is less than the bio. */
  lemma WalkFits(b: Bio, k: nat, d: nat, left: nat)
    requires BioOk(b) && left >= b.size && ((k == 0 && d == 0) || WalkOk(b, k, d, left))
    ensures k == 0 && d == 0
  {
  }

  lemma WalkDone(b: Bio, k: nat, d: nat)
    requires BioOk(b) && WalkOk(b, k, d, 0)
    ensures Stopped(b, k, d, 0)
  {
    WalkInside(b, k, d, 0);
    WalkStop(b, k, d, 0);
  }

  ghost predicate Stopped(b: Bio, k: nat, d: nat, left: nat)
    requires BioOk(b)
  {
    d < b.size && Whole(b.vecs[b.idx..], d) == k && Rest(b.vecs[b.idx..], d) == left
  }

  /** Where the walk stopped is where the chain goes on. */
  lemma StoppedChain(bs: seq<Bio>, k: nat, d: nat, left: nat, err: int)
    requires BiosOk(bs) && bs != [] && Stopped(bs[0], k, d, left)
    ensures Advance(bs, d, err) == ([AdvanceBio(bs[0], d, err)] + bs[1..], [])
    ensures d == 0 ==> Advance(bs, d, err).0 == bs
    ensures var b := bs[0];
            && b.idx + k < |b.vecs| && left <= b.vecs[b.idx + k].len
            && (d > 0 ==> AdvanceBio(b, d, err)
                          == b.(vecs := b.vecs[b.idx + k := Cut(b.vecs[b.idx + k], left)], idx := b.idx + k,
                                size := b.size - d, sector := b.sector + d / 512, uptodate := b.uptodate && err == 0))
  {
    WholeInside(bs[0].vecs[bs[0].idx..], d);
    if d == 0 {
      AdvanceNone(bs, err);
    }
  }

  /** The first vector is part of what is left: the request is never botched. */
  lemma FirstFits(bs: seq<Bio>)
    requires BiosOk(bs) && bs != []
    ensures bs[0].idx < |bs[0].vecs| && 0 < bs[0].vecs[bs[0].idx].len <= Size(bs)
  {
    assert bs[0].vecs[bs[0].idx..][0].len > 0;
  }

  lemma AdvanceEmpty(n: nat, err: int)
    ensures Advance([], n, err) == ([], [])
  {
  }

  lemma AdvanceFirst(bs: seq<Bio>, n: nat, err: int)
    requires BiosOk(bs) && bs != [] && n >= bs[0].size
    ensures Advance(bs, n, err).0 == Advance(bs[1..], n - bs[0].size, err).0
    ensures Advance(bs, n, err).1 == [Ended(bs[0].id, EndError(bs[0], err))] + Advance(bs[1..], n - bs[0].size, err).1
  {
  }

  // ----- any sequence of calls

  datatype Call = Call(err: int, bytes: nat)

  function Run(bs: seq<Bio>, calls: seq<Call>): (r: (seq<Bio>, seq<Ended>))
    requires BiosOk(bs)
    ensures BiosOk(r.0)
    decreases calls
  {
    if calls == [] then (bs, []) else
    var (b1, e1) := Advance(bs, calls[0].bytes, calls[0].err);
    var (b2, e2) := Run(b1, calls[1..]);
    (b2, e1 + e2)
  }

  function Sum(calls: seq<Call>): nat {
    if calls == [] then 0 else calls[0].bytes + Sum(calls[1..])
  }

  /** Whatever the calls, what is left is the suffix after the bytes they completed. */
  lemma {:induction false} RunLeaves(bs: seq<Bio>, calls: seq<Call>)
    requires BiosOk(bs)
    ensures |Left(bs)| == Size(bs) && Left(Run(bs, calls).0) == Left(bs)[Min(Sum(calls), Size(bs))..]
    decreases calls
  {
    hide Left, Advance, BioOk;
    LeftSize(bs);
    if calls != [] {
      AdvanceLeaves(bs, calls[0].bytes, calls[0].err);
      RunLeaves(Advance(bs, calls[0].bytes, calls[0].err).0, calls[1..]);
    }
  }

  function Ids(bs: seq<Bio>): seq<nat> {
    seq(|bs|, i requires 0 <= i < |bs| => bs[i].id)
  }

  function EndedIds(es: seq<Ended>): seq<nat> {
    seq(|es|, i requires 0 <= i < |es| => es[i].id)
  }

  lemma AdvanceIds(bs: seq<Bio>, n: nat, err: int)
    requires BiosOk(bs)
    ensures var (bs', es) := Advance(bs, n, err); EndedIds(es) + Ids(bs') == Ids(bs)
  {
    AdvanceEnds(bs, n, err);
  }

  /** Every bio ends at most once and in chain order, and those that did not end are what is left. */
  lemma {:induction false} RunEnds(bs: seq<Bio>, calls: seq<Call>)
    requires BiosOk(bs)
    ensures EndedIds(Run(bs, calls).1) + Ids(Run(bs, calls).0) == Ids(bs)
    decreases calls
  {
    hide Advance, BioOk, EndedIds, Ids;
    if calls == [] {
      NoIds(bs);
    } else {
      var (b1, e1) := Advance(bs, calls[0].bytes, calls[0].err);
      AdvanceIds(bs, calls[0].bytes, calls[0].err);
      RunEnds(b1, calls[1..]);
      var (b2, e2) := Run(b1, calls[1..]);
      MoreIds(e1, e2, b2);
    }
  }

  lemma NoIds(bs: seq<Bio>)
    ensures EndedIds([]) + Ids(bs) == Ids(bs)
  {
  }

  lemma MoreIds(e1: seq<Ended>, e2: seq<Ended>, bs: seq<Bio>)
    ensures EndedIds(e1 + e2) + Ids(bs) == EndedIds(e1) + (EndedIds(e2) + Ids(bs))
  {
    assert EndedIds(e1 + e2) == EndedIds(e1) + EndedIds(e2);
  }

  /** Some call that reported an error completed a byte of the stretch from lo to hi. */
  predicate Faulty(calls: seq<Call>, lo: nat, hi: nat)
    decreases calls
  {
    calls != [] &&
    var c := calls[0];
    (c.err != 0 && c.bytes > lo)
    || (hi > c.bytes && Faulty(calls[1..], if lo > c.bytes then lo - c.bytes else 0, hi - c.bytes))
  }

  lemma SizeOfPrefix(bs: seq<Bio>, k: nat)
    requires 0 < k <= |bs|
    ensures Size(bs[..k]) == bs[0].size + Size(bs[1..][..k - 1])
  {
    assert bs[..k][1..] == bs[1..][..k - 1];
  }

  lemma {:induction false} AdvanceSizes(bs: seq<Bio>, n: nat, err: int, i: nat)
    requires BiosOk(bs) && i < |Advance(bs, n, err).0|
    ensures var (bs', es) := Advance(bs, n, err);
            && |es| + i + 1 <= |bs| && Size(bs[..|es| + i + 1]) >= n
            && Size(bs'[..i + 1]) == Size(bs[..|es| + i + 1]) - n
    decreases |bs|
  {
    hide AdvanceBio, EndError, BioOk;
    AdvanceEnds(bs, n, err);
    var (bs', es) := Advance(bs, n, err);
    if n >= bs[0].size {
      AdvanceSizes(bs[1..], n - bs[0].size, err, i);
      SizeOfPrefix(bs, |es| + i + 1);
    } else {
      AdvanceBioIs(bs[0], n, err);
      SizeOfPrefix(bs, i + 1);
      SizeOfPrefix(bs', i + 1);
      assert bs'[1..] == bs[1..];
    }
  }

  lemma {:induction false} SizeMonotone(bs: seq<Bio>, i: nat)
    requires BiosOk(bs) && i < |bs|
    ensures Size(bs[..i]) + bs[i].size == Size(bs[..i + 1]) && bs[i].size > 0
  {
    BioHolds(bs[i]);
    if i > 0 {
      SizeMonotone(bs[1..], i - 1);
      SizeOfPrefix(bs, i);
    }
    SizeOfPrefix(bs, i + 1);
  }

  /** The first call, for a bio that it ends. */
  lemma FirstCallEnds(bs: seq<Bio>, c: Call, i: nat)
    requires BiosOk(bs) && i < |Advance(bs, c.bytes, c.err).1|
    ensures i < |bs| && Size(bs[..i]) < Size(bs[..i + 1]) <= c.bytes
    ensures Advance(bs, c.bytes, c.err).1[i].err == EndError(bs[i], c.err)
  {
    hide Advance, BioOk, EndError;
    AdvanceEnds(bs, c.bytes, c.err);
    AdvanceCovers(bs, c.bytes, c.err);
    SizeMonotone(bs, i);
    SizePrefix(bs, i + 1, |Advance(bs, c.bytes, c.err).1|);
  }

  lemma {:induction false} SizePrefix(bs: seq<Bio>, i: nat, j: nat)
    requires i <= j <= |bs|
    ensures Size(bs[..i]) <= Size(bs[..j])
  {
    if i > 0 {
      SizePrefix(bs[1..], i - 1, j - 1);
      SizeOfPrefix(bs, i);
      SizeOfPrefix(bs, j);
    }
  }

  /** The first call, for a bio that it leaves in the chain at index i. */
  lemma FirstCallLeaves(bs: seq<Bio>, c: Call, i: nat)
    requires BiosOk(bs) && i < |Advance(bs, c.bytes, c.err).0|
    ensures var (b1, e1) := Advance(bs, c.bytes, c.err);
            var k := |e1| + i;
            && k < |bs| && Size(bs[..k + 1]) > c.bytes
            && Size(b1[..i + 1]) == Size(bs[..k + 1]) - c.bytes
            && Size(b1[..i]) == (if Size(bs[..k]) > c.bytes then Size(bs[..k]) - c.bytes else 0)
            && b1[i].uptodate == (bs[k].uptodate && !(c.err != 0 && c.bytes > Size(bs[..k])))
  {
    hide Advance, BioOk, EndError, Size;
    var (b1, e1) := Advance(bs, c.bytes, c.err);
    AdvanceEnds(bs, c.bytes, c.err);
    AdvanceCovers(bs, c.bytes, c.err);
    AdvanceSizes(bs, c.bytes, c.err, i);
    SizePrefix(bs, |e1| + 1, |e1| + i + 1);
    if i > 0 {
      AdvanceSizes(bs, c.bytes, c.err, i - 1);
      SizePrefix(bs, |e1| + 1, |e1| + i);
    } else {
      assert Size(b1[..0]) == 0 by { SizeOfNone(); }
      FirstKept(bs, c.bytes, c.err);
    }
  }

  lemma SizeOfNone()
    ensures Size([]) == 0
  {
  }

  lemma {:induction false} FirstKept(bs: seq<Bio>, n: nat, err: int)
    requires BiosOk(bs) && Advance(bs, n, err).0 != []
    ensures var (bs', es) := Advance(bs, n, err);
            |es| < |bs| && bs'[0].uptodate == (bs[|es|].uptodate && !(err != 0 && n > Size(bs[..|es|])))
  {
    hide AdvanceBio, EndError, BioOk;
    AdvanceEnds(bs, n, err);
    if n >= bs[0].size {
      FirstKept(bs[1..], n - bs[0].size, err);
      SizeOfPrefix(bs, |Advance(bs, n, err).1|);
    } else {
      AdvanceBioIs(bs[0], n, err);
    }
  }

  /** A bio ends without error exactly when it had none before and no call that completed a byte of it reported one. */
  lemma {:induction false} RunErrors(bs: seq<Bio>, calls: seq<Call>, i: nat)
    requires BiosOk(bs) && i < |Run(bs, calls).1|
    ensures i < |bs|
    ensures Run(bs, calls).1[i].err == 0 <==> bs[i].uptodate && !Faulty(calls, Size(bs[..i]), Size(bs[..i + 1]))
    decreases calls
  {
    hide Advance, BioOk;
    var c := calls[0];
    var (b1, e1) := Advance(bs, c.bytes, c.err);
    if i < |e1| {
      FirstCallEnds(bs, c, i);
    } else {
      RunErrors(b1, calls[1..], i - |e1|);
      FirstCallLeaves(bs, c, i - |e1|);
    }
  }
}
