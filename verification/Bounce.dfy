/**
 The bounce buffer of the block cipher walk. When a block is not contiguous it is copied to a spot in a buffer, and the
 result goes to a second spot there. Spots must be aligned and must not straddle a page. Addresses are numbers.
 */
module Bounce {
  import Arith

  function Pow2(k: nat): (r: nat)
    ensures r > 0
  {
    if k == 0 then 1 else 2 * Pow2(k - 1)
  }

  lemma {:induction false} PowDivides(a: nat, b: nat)
    requires a <= b
    ensures Pow2(a) <= Pow2(b) && Pow2(b) % Pow2(a) == 0
  {
    if a == b {
      Arith.MultipleMod(1, Pow2(a));
    } else {
      PowDivides(a, b - 1);
      Multiple(Pow2(b - 1), Pow2(a), 2);
    }
  }

  lemma Multiple(x: nat, d: nat, k: nat)
    requires d > 0 && x % d == 0
    ensures (k * x) % d == 0
  {
    var q := x / d;
    assert x == d * q;
    assert k * x == d * (k * q);
    Arith.MultipleMod(k * q, d);
  }

  /** A multiple of a larger power of two is a multiple of a smaller one. */
  lemma Coarser(x: nat, a: nat, b: nat)
    requires a <= b && x % Pow2(b) == 0
    ensures x % Pow2(a) == 0
  {
    PowDivides(a, b);
    var q := x / Pow2(b);
    assert x == Pow2(b) * q;
    Multiple(Pow2(b), Pow2(a), q);
    assert q * Pow2(b) == x;
  }

  lemma SumMultiple(x: nat, y: nat, d: nat)
    requires d > 0 && x % d == 0 && y % d == 0
    ensures (x + y) % d == 0
  {
    assert x + y == d * (x / d + y / d);
    Arith.MultipleMod(x / d + y / d, d);
  }

  lemma DifferenceMultiple(x: nat, y: nat, d: nat)
    requires d > 0 && x % d == 0 && y % d == 0 && y <= x
    ensures (x - y) % d == 0
  {
    assert x - y == d * (x / d - y / d);
    Arith.MultipleMod(x / d - y / d, d);
  }

  /** Two multiples less than a multiple apart are at least one step closer. */
  lemma StepCloser(x: nat, y: nat, d: nat)
    requires d > 0 && x % d == 0 && y % d == 0 && x < y
    ensures x + d <= y
  {
    DifferenceMultiple(y, x, d);
  }

  /** Clearing the bits below a power of two. */
  function Down(x: nat, d: nat): (r: nat)
    requires d > 0
    ensures r <= x < r + d && r % d == 0
  {
    Arith.MultipleMod(x / d, d);
    assert x - x % d == d * (x / d);
    x - x % d
  }

  lemma DownIs(x: nat, d: nat, r: nat)
    requires d > 0 && r % d == 0 && r <= x < r + d
    ensures Down(x, d) == r
  {
    Arith.DivUnique(x, d, r / d, x - r);
  }

  const PAGE_SHIFT: nat := 12

  const PAGE: nat := 4096

  lemma PageIs()
    ensures Pow2(PAGE_SHIFT) == PAGE && Pow2(8) == 256
  {
    assert Pow2(12) == 2 * Pow2(11) && Pow2(11) == 2 * Pow2(10) && Pow2(10) == 2 * Pow2(9) && Pow2(9) == 2 * Pow2(8);
    assert Pow2(8) == 2 * Pow2(7) && Pow2(7) == 2 * Pow2(6) && Pow2(6) == 2 * Pow2(5) && Pow2(5) == 2 * Pow2(4);
    assert Pow2(4) == 2 * Pow2(3) && Pow2(3) == 2 * Pow2(2) && Pow2(2) == 2 * Pow2(1) && Pow2(1) == 2 * Pow2(0);
  }

  /** The first place from here on where this many bytes do not straddle a page. */
  function Spot(start: nat, len: nat): nat
    requires len > 0
  {
    var endPage := Down(start + len - 1, PAGE);
    if start >= endPage then start else endPage
  }

  predicate OnePage(x: nat, len: nat)
    requires len > 0
  {
    Down(x, PAGE) == Down(x + len - 1, PAGE)
  }

  lemma SpotIs(start: nat, len: nat)
    requires 0 < len <= PAGE
    ensures start <= Spot(start, len) < start + len && OnePage(Spot(start, len), len)
    ensures Spot(start, len) > start ==> Spot(start, len) % PAGE == 0
    ensures start % PAGE == 0 ==> Spot(start, len) == start
  {
    hide Down;
    var e := Down(start + len - 1, PAGE);
    if start >= e {
      DownIs(start, PAGE, e);
    } else {
      DownIs(e, PAGE, e);
      DownIs(e + len - 1, PAGE, e);
    }
    if start % PAGE == 0 {
      DownIs(start + len - 1, PAGE, start);
    }
  }

  /** A spot keeps the alignment, so it moves by whole alignment steps. */
  lemma SpotAligned(start: nat, len: nat, a: nat, room: nat)
    requires 0 < len <= PAGE && start % Pow2(a) == 0 && len <= room && room % Pow2(a) == 0
    ensures Spot(start, len) % Pow2(a) == 0 && Spot(start, len) + Pow2(a) <= start + room
  {
    hide Pow2, Spot, OnePage;
    PageIs();
    SpotIs(start, len);
    if a > PAGE_SHIFT {
      Coarser(start, PAGE_SHIFT, a);
    } else if Spot(start, len) > start {
      Coarser(Spot(start, len), a, PAGE_SHIFT);
    }
    SumMultiple(start, room, Pow2(a));
    StepCloser(Spot(start, len), start + room, Pow2(a));
  }

  // ----- the buffer

  function AlignedSize(bsize: nat, a: nat): nat {
    Arith.RoundUp(bsize, Pow2(a))
  }

  /** The allocation: alignment a, and the allocator aligns to c. */
  function Allocation(bsize: nat, a: nat, c: nat): int {
    3 * AlignedSize(bsize, a) - Pow2(a) + Down(Pow2(a) - 1, Pow2(c))
  }

  function Aligned(buffer: nat, a: nat): nat {
    Arith.RoundUp(buffer, Pow2(a))
  }

  function DstSpot(buffer: nat, bsize: nat, a: nat): nat
    requires bsize > 0
  {
    Spot(Aligned(buffer, a), bsize)
  }

  function SrcSpot(buffer: nat, bsize: nat, a: nat): nat
    requires bsize > 0
  {
    Spot(DstSpot(buffer, bsize, a) + AlignedSize(bsize, a), bsize)
  }

  /** Aligning the start of the buffer uses no more than the allocation has for it. */
  lemma StartFits(buffer: nat, a: nat, c: nat)
    requires buffer % Pow2(c) == 0
    ensures buffer <= Aligned(buffer, a) <= buffer + Down(Pow2(a) - 1, Pow2(c))
  {
    if a <= c {
      Coarser(buffer, a, c);
    } else {
      PowDivides(c, a);
      Coarser(Aligned(buffer, a), c, a);
      SumMultiple(buffer, Pow2(a), Pow2(c));
      StepCloser(Aligned(buffer, a), buffer + Pow2(a), Pow2(c));
      StepCloser(0, Pow2(a), Pow2(c));
      DifferenceMultiple(Pow2(a), Pow2(c), Pow2(c));
      DownIs(Pow2(a) - 1, Pow2(c), Pow2(a) - Pow2(c));
    }
  }

  /** If the first spot had to move to a page, the second one is on that page as it is. */
  lemma OneMove(start: nat, bsize: nat, a: nat)
    requires 0 < bsize <= PAGE / 8 && start % Pow2(a) == 0 && Spot(start, bsize) > start
    ensures var dst := Spot(start, bsize); var size := AlignedSize(bsize, a); Spot(dst + size, bsize) == dst + size
  {
    hide Pow2, Down, OnePage, Arith.RoundUp;
    var dst, size := Spot(start, bsize), AlignedSize(bsize, a);
    SpotIs(start, bsize);
    SpotAligned(start, bsize, a, size);
    Arith.MultipleMod(1, Pow2(a));
    StepCloser(Pow2(a), size, Pow2(a));
    DownIs(dst + size + bsize - 1, PAGE, dst);
  }

  /** The allocation contains both spots; they are aligned, do not overlap, and neither straddles a page. */
  lemma BounceFits(buffer: nat, bsize: nat, a: nat, c: nat)
    requires 0 < bsize <= PAGE / 8 && buffer % Pow2(c) == 0
    ensures var dst, src := DstSpot(buffer, bsize, a), SrcSpot(buffer, bsize, a);
            && buffer <= dst && dst + bsize <= src && src + bsize <= buffer + Allocation(bsize, a, c)
            && dst % Pow2(a) == 0 && src % Pow2(a) == 0
            && OnePage(dst, bsize) && OnePage(src, bsize)
  {
    hide Pow2, Down, OnePage, Spot, Arith.RoundUp;
    var start, size := Aligned(buffer, a), AlignedSize(bsize, a);
    var dst := Spot(start, bsize);
    StartFits(buffer, a, c);
    SpotIs(start, bsize);
    SpotAligned(start, bsize, a, size);
    SumMultiple(dst, size, Pow2(a));
    SpotIs(dst + size, bsize);
    SpotAligned(dst + size, bsize, a, size);
    if dst > start {
      OneMove(start, bsize, a);
    }
  }

  /** The allocation cannot be smaller: with blocks of two alignment steps just below a page, its last byte is used. */
  lemma BounceTight(a: nat)
    requires a <= 8
    ensures Pow2(a) <= 256
    ensures var bsize, buffer := 2 * Pow2(a), PAGE - Pow2(a);
            buffer % Pow2(a) == 0 && SrcSpot(buffer, bsize, a) + bsize == buffer + Allocation(bsize, a, a)
  {
    hide Pow2, Down, Arith.RoundUp;
    PageIs();
    PowDivides(a, 8);
    PowDivides(a, PAGE_SHIFT);
    var A := Pow2(a);
    var bsize, buffer := 2 * A, PAGE - A;
    DifferenceMultiple(PAGE, A, A);
    Arith.MultipleMod(2, A);
    Arith.MultipleMod(1, PAGE);
    DownIs(buffer + bsize - 1, PAGE, PAGE);
    DownIs(PAGE + bsize + bsize - 1, PAGE, PAGE);
    DownIs(A - 1, A, 0);
  }
}
