/** Facts about multiplication, division and rounding that the other modules share. */
module Arith {

  lemma MulMono(k: nat, a: nat, b: nat)
    requires a <= b
    ensures k * a <= k * b
  {
  }

  lemma DivMonotone(a: nat, b: nat, w: nat)
    requires w > 0 && a <= b
    ensures a / w <= b / w
  {
    var qa, qb := a / w, b / w;
    assert w * qa <= a && b < w * qb + w;
    MulMono(w, qb + 1, if qa > qb then qa else qb + 1);
    assert w * (qb + 1) == w * qb + w;
  }

  /** The quotient is determined by the bounds it satisfies. */
  lemma DivUnique(x: int, y: int, q: int, r: int)
    requires y > 0 && 0 <= r < y && x == y * q + r
    ensures x / y == q && x % y == r
  {
    var d := x / y - q;
    assert x == y * (x / y) + x % y;
    assert y * (x / y) == y * q + y * d;
    if d != 0 {
      MulMono(y, 1, if d > 0 then d else -d);
    }
  }

  lemma MultipleMod(k: int, y: int)
    requires y > 0
    ensures (y * k) % y == 0 && (y * k) / y == k
  {
    DivUnique(y * k, y, k, 0);
  }

  lemma AddMod(x: int, y: int)
    requires y > 0
    ensures (x + y) % y == x % y && (x + y) / y == x / y + 1
  {
    assert x + y == y * (x / y + 1) + x % y;
    DivUnique(x + y, y, x / y + 1, x % y);
  }

  function MulDiv(a: nat, b: nat, d: nat): (r: nat)
    requires d > 0
    ensures d * r <= a * b < d * r + d
  {
    a * b / d
  }

  /** A quotient reaches `r` exactly when the product reaches `d * r`. */
  lemma MulDivReaches(a: nat, b: nat, d: nat, r: nat)
    requires d > 0
    ensures r <= MulDiv(a, b, d) <==> d * r <= a * b
  {
    var s := MulDiv(a, b, d);
    if r <= s {
      MulMono(d, r, s);
    } else {
      MulMono(d, s + 1, r);
      assert d * (s + 1) == d * s + d;
    }
  }

  function RoundUp(x: nat, y: nat): (r: nat)
    requires y > 0
    ensures x <= r < x + y && r % y == 0
    ensures x % y == 0 ==> r == x
  {
    RoundUpBounds(x, y);
    (x + (y - 1)) / y * y
  }

  lemma RoundUpBounds(x: nat, y: nat)
    requires y > 0
    ensures 0 <= x <= (x + (y - 1)) / y * y < x + y
    ensures ((x + (y - 1)) / y * y) % y == 0
    ensures x % y == 0 ==> (x + (y - 1)) / y * y == x
  {
    var n := x + (y - 1);
    MultipleMod(n / y, y);
    assert n / y * y == y * (n / y);
    if x % y == 0 {
      DivUnique(n, y, x / y, y - 1);
    }
  }

  lemma RoundUpGrows(a: nat, b: nat, y: nat)
    requires y > 0 && a <= b
    ensures RoundUp(a, y) <= RoundUp(b, y)
    ensures 1 <= a <= y ==> RoundUp(a, y) == y
  {
    hide RoundUp;
    var m := RoundUp(a, y);
    if RoundUp(b, y) < m {
      Multiples(m, RoundUp(b, y), y);
    }
    MultipleMod(1, y);
    if y < m {
      Multiples(m, y, y);
    } else if 0 < m < y {
      Multiples(y, m, y);
    }
  }

  /** Multiples are at least one step apart. */
  lemma Multiples(m: nat, n: nat, y: nat)
    requires y > 0 && m % y == 0 && n % y == 0 && n < m
    ensures n + y <= m
  {
    MulMono(y, n / y + 1, if m / y > n / y then m / y else n / y + 1);
    assert y * (n / y + 1) == y * (n / y) + y;
  }
}
