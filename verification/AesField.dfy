/** Bytes, columns and the column arithmetic of FIPS 197 (sections 4.2, 5.1.3 and 5.3.3). */
module AesField {
  type Byte = bv8
  type Word = bv32

  /** Addition in GF(2^8). */
  function Xor(a: Byte, b: Byte): Byte {
    a ^ b
  }

  function Xor4(a: Byte, b: Byte, c: Byte, d: Byte): Byte {
    Xor(Xor(a, b), Xor(c, d))
  }

  /** Multiplication by x in GF(2^8) modulo x^8 + x^4 + x^3 + x + 1. */
  function XTime(b: Byte): Byte {
    var carry := b >> 7;
    (b << 1) ^ carry ^ (carry << 1) ^ (carry << 3) ^ (carry << 4)
  }

  /** The form in which FIPS 197 states it. */
  lemma {:induction false} XTimeByCases(b: Byte)
    ensures XTime(b) == (b << 1) ^ (if b & 0x80 != 0 then 0x1b else 0)
  {
  }

  lemma {:induction false} XTimeLinear(x: Byte, y: Byte)
    ensures XTime(Xor(x, y)) == Xor(XTime(x), XTime(y))
  {
  }

  // The multiples that occur in MixColumns and InvMixColumns.
  function Mul2(s: Byte): Byte { XTime(s) }
  function Mul3(s: Byte): Byte { Xor(XTime(s), s) }
  function Mul9(s: Byte): Byte { Xor(XTime(XTime(XTime(s))), s) }
  function MulB(s: Byte): Byte { Xor(XTime(s), Mul9(s)) }
  function MulD(s: Byte): Byte { Xor(XTime(XTime(s)), Mul9(s)) }
  function MulE(s: Byte): Byte { Xor(Xor(XTime(s), XTime(XTime(s))), XTime(XTime(XTime(s)))) }

  lemma {:induction false} XorComm(a: Byte, b: Byte)
    ensures Xor(a, b) == Xor(b, a)
  {
  }

  lemma {:induction false} XorAssoc(a: Byte, b: Byte, c: Byte)
    ensures Xor(Xor(a, b), c) == Xor(a, Xor(b, c))
  {
  }

  lemma {:induction false} SwapMiddle(a: Byte, b: Byte, c: Byte, d: Byte)
    ensures Xor(Xor(a, b), Xor(c, d)) == Xor(Xor(a, c), Xor(b, d))
  {
    hide Xor;
    XorAssoc(a, b, Xor(c, d));
    XorAssoc(b, c, d);
    XorComm(b, c);
    XorAssoc(c, b, d);
    XorAssoc(a, c, Xor(b, d));
  }

  lemma {:induction false} CubeLinear(x: Byte, y: Byte)
    ensures XTime(XTime(Xor(x, y))) == Xor(XTime(XTime(x)), XTime(XTime(y)))
    ensures XTime(XTime(XTime(Xor(x, y)))) == Xor(XTime(XTime(XTime(x))), XTime(XTime(XTime(y))))
  {
    hide XTime, Xor;
    XTimeLinear(x, y);
    XTimeLinear(XTime(x), XTime(y));
    XTimeLinear(XTime(XTime(x)), XTime(XTime(y)));
  }

  lemma {:induction false} Mul9Linear(x: Byte, y: Byte)
    ensures Mul9(Xor(x, y)) == Xor(Mul9(x), Mul9(y))
  {
    hide XTime, Xor;
    CubeLinear(x, y);
    SwapMiddle(XTime(XTime(XTime(x))), XTime(XTime(XTime(y))), x, y);
  }

  lemma {:induction false} MulBLinear(x: Byte, y: Byte)
    ensures MulB(Xor(x, y)) == Xor(MulB(x), MulB(y))
  {
    hide XTime, Xor, Mul9;
    XTimeLinear(x, y);
    Mul9Linear(x, y);
    SwapMiddle(XTime(x), XTime(y), Mul9(x), Mul9(y));
  }

  lemma {:induction false} MulDLinear(x: Byte, y: Byte)
    ensures MulD(Xor(x, y)) == Xor(MulD(x), MulD(y))
  {
    hide XTime, Xor, Mul9;
    CubeLinear(x, y);
    Mul9Linear(x, y);
    SwapMiddle(XTime(XTime(x)), XTime(XTime(y)), Mul9(x), Mul9(y));
  }

  lemma {:induction false} MulELinear(x: Byte, y: Byte)
    ensures MulE(Xor(x, y)) == Xor(MulE(x), MulE(y))
  {
    hide XTime, Xor;
    XTimeLinear(x, y);
    CubeLinear(x, y);
    var x2, y2 := XTime(x), XTime(y);
    var x4, y4 := XTime(x2), XTime(y2);
    SwapMiddle(x2, y2, x4, y4);
    SwapMiddle(Xor(x2, x4), Xor(y2, y4), XTime(x4), XTime(y4));
  }

  // ----- columns

  datatype Column = Column(b0: Byte, b1: Byte, b2: Byte, b3: Byte)

  function Add(x: Column, y: Column): Column {
    Column(Xor(x.b0, y.b0), Xor(x.b1, y.b1), Xor(x.b2, y.b2), Xor(x.b3, y.b3))
  }

  /** MixColumns on one column. */
  function MixColumn(s: Column): Column {
    Column(Xor4(Mul2(s.b0), Mul3(s.b1), s.b2, s.b3),
           Xor4(s.b0, Mul2(s.b1), Mul3(s.b2), s.b3),
           Xor4(s.b0, s.b1, Mul2(s.b2), Mul3(s.b3)),
           Xor4(Mul3(s.b0), s.b1, s.b2, Mul2(s.b3)))
  }

  /** InvMixColumns on one column. */
  function InvMixColumn(s: Column): Column {
    Column(Xor4(MulE(s.b0), MulB(s.b1), MulD(s.b2), Mul9(s.b3)),
           Xor4(Mul9(s.b0), MulE(s.b1), MulB(s.b2), MulD(s.b3)),
           Xor4(MulD(s.b0), Mul9(s.b1), MulE(s.b2), MulB(s.b3)),
           Xor4(MulB(s.b0), MulD(s.b1), Mul9(s.b2), MulE(s.b3)))
  }

  /** One row of InvMixColumns: row zero of a rotated column. */
  function InvMixRow(b0: Byte, b1: Byte, b2: Byte, b3: Byte): Byte {
    Xor4(MulE(b0), MulB(b1), MulD(b2), Mul9(b3))
  }

  lemma {:induction false} Pairs(a: Byte, b: Byte, c: Byte, d: Byte, a': Byte, b': Byte, c': Byte, d': Byte)
    ensures Xor4(Xor(a, a'), Xor(b, b'), Xor(c, c'), Xor(d, d')) == Xor(Xor4(a, b, c, d), Xor4(a', b', c', d'))
  {
    hide Xor;
    SwapMiddle(a, a', b, b');
    SwapMiddle(c, c', d, d');
    SwapMiddle(Xor(a, b), Xor(a', b'), Xor(c, d), Xor(c', d'));
  }

  lemma {:induction false} InvMixRowLinear(a: Column, b: Column)
    ensures InvMixRow(Xor(a.b0, b.b0), Xor(a.b1, b.b1), Xor(a.b2, b.b2), Xor(a.b3, b.b3))
         == Xor(InvMixRow(a.b0, a.b1, a.b2, a.b3), InvMixRow(b.b0, b.b1, b.b2, b.b3))
  {
    hide Xor, MulE, MulB, MulD, Mul9, Xor4;
    MulELinear(a.b0, b.b0);
    MulBLinear(a.b1, b.b1);
    MulDLinear(a.b2, b.b2);
    Mul9Linear(a.b3, b.b3);
    Pairs(MulE(a.b0), MulB(a.b1), MulD(a.b2), Mul9(a.b3), MulE(b.b0), MulB(b.b1), MulD(b.b2), Mul9(b.b3));
  }

  // What InvMixColumns makes of the share of one byte.
  lemma {:induction false} ShareKept(s: Byte)
    ensures InvMixRow(Mul2(s), s, s, Mul3(s)) == s
  {
  }

  lemma {:induction false} ShareCancelled1(s: Byte)
    ensures InvMixRow(Mul3(s), Mul2(s), s, s) == 0
  {
  }

  lemma {:induction false} ShareCancelled2(s: Byte)
    ensures InvMixRow(s, Mul3(s), Mul2(s), s) == 0
  {
  }

  lemma {:induction false} ShareCancelled3(s: Byte)
    ensures InvMixRow(s, s, Mul3(s), Mul2(s)) == 0
  {
  }

  lemma {:induction false} OnlyFirst(a: Byte)
    ensures Xor4(a, 0, 0, 0) == a
  {
  }

  /** Linearity over four columns. */
  lemma {:induction false} InvMixRowLinear4(a: Column, b: Column, c: Column, d: Column)
    ensures InvMixRow(Xor4(a.b0, b.b0, c.b0, d.b0), Xor4(a.b1, b.b1, c.b1, d.b1),
                      Xor4(a.b2, b.b2, c.b2, d.b2), Xor4(a.b3, b.b3, c.b3, d.b3))
         == Xor4(InvMixRow(a.b0, a.b1, a.b2, a.b3), InvMixRow(b.b0, b.b1, b.b2, b.b3),
                 InvMixRow(c.b0, c.b1, c.b2, c.b3), InvMixRow(d.b0, d.b1, d.b2, d.b3))
  {
    hide Xor, InvMixRow;
    InvMixRowLinear(Add(a, b), Add(c, d));
    InvMixRowLinear(a, b);
    InvMixRowLinear(c, d);
  }

  /** Row zero of the composition; the other rows are row zero of a rotated column. */
  lemma {:induction false} InvMixRowUndoesMix(s0: Byte, s1: Byte, s2: Byte, s3: Byte)
    ensures InvMixRow(Xor4(Mul2(s0), Mul3(s1), s2, s3), Xor4(s0, Mul2(s1), Mul3(s2), s3),
                      Xor4(s0, s1, Mul2(s2), Mul3(s3)), Xor4(Mul3(s0), s1, s2, Mul2(s3))) == s0
  {
    hide Xor, InvMixRow, Mul2, Mul3, Xor4;
    InvMixRowLinear4(Column(Mul2(s0), s0, s0, Mul3(s0)), Column(Mul3(s1), Mul2(s1), s1, s1),
                     Column(s2, Mul3(s2), Mul2(s2), s2), Column(s3, s3, Mul3(s3), Mul2(s3)));
    ShareKept(s0);
    ShareCancelled1(s1);
    ShareCancelled2(s2);
    ShareCancelled3(s3);
    OnlyFirst(s0);
  }

  lemma {:induction false} Rotate4(a: Byte, b: Byte, c: Byte, d: Byte)
    ensures Xor4(a, b, c, d) == Xor4(b, c, d, a)
  {
    hide Xor;
    XorComm(a, b);
    XorAssoc(b, a, Xor(c, d));
    XorComm(a, Xor(c, d));
    XorAssoc(c, d, a);
    XorAssoc(b, c, Xor(d, a));
  }

  function Rotated(s: Column): Column {
    Column(s.b1, s.b2, s.b3, s.b0)
  }

  lemma {:induction false} MixRotates(s: Column)
    ensures MixColumn(Rotated(s)) == Rotated(MixColumn(s))
  {
    hide Xor4, Mul2, Mul3;
    Rotate4(s.b0, Mul2(s.b1), Mul3(s.b2), s.b3);
    Rotate4(s.b0, s.b1, Mul2(s.b2), Mul3(s.b3));
    Rotate4(Mul3(s.b0), s.b1, s.b2, Mul2(s.b3));
    Rotate4(Mul2(s.b0), Mul3(s.b1), s.b2, s.b3);
  }

  lemma {:induction false} InvMixRotates(s: Column)
    ensures InvMixColumn(Rotated(s)) == Rotated(InvMixColumn(s))
  {
    hide Xor4, MulE, MulB, MulD, Mul9;
    Rotate4(MulE(s.b0), MulB(s.b1), MulD(s.b2), Mul9(s.b3));
    Rotate4(Mul9(s.b0), MulE(s.b1), MulB(s.b2), MulD(s.b3));
    Rotate4(MulD(s.b0), Mul9(s.b1), MulE(s.b2), MulB(s.b3));
    Rotate4(MulB(s.b0), MulD(s.b1), Mul9(s.b2), MulE(s.b3));
  }

  lemma {:induction false} FirstByteUndone(s: Column)
    ensures InvMixColumn(MixColumn(s)).b0 == s.b0
  {
    hide Xor4, Mul2, Mul3, MulE, MulB, MulD, Mul9;
    InvMixRowUndoesMix(s.b0, s.b1, s.b2, s.b3);
  }

  lemma {:induction false} InvMixUndoesMix(s: Column)
    ensures InvMixColumn(MixColumn(s)) == s
  {
    hide MixColumn, InvMixColumn;
    var s1, s2, s3 := Rotated(s), Rotated(Rotated(s)), Rotated(Rotated(Rotated(s)));
    FirstByteUndone(s);
    FirstByteUndone(s1);
    FirstByteUndone(s2);
    FirstByteUndone(s3);
    MixRotates(s);
    MixRotates(s1);
    MixRotates(s2);
    InvMixRotates(MixColumn(s));
    InvMixRotates(MixColumn(s1));
    InvMixRotates(MixColumn(s2));
  }

  lemma {:induction false} FirstByteLinear(x: Column, y: Column)
    ensures InvMixColumn(Add(x, y)).b0 == Xor(InvMixColumn(x).b0, InvMixColumn(y).b0)
  {
    hide Xor, Xor4, MulE, MulB, MulD, Mul9;
    InvMixRowLinear(x, y);
  }

  lemma {:induction false} InvMixLinear(x: Column, y: Column)
    ensures InvMixColumn(Add(x, y)) == Add(InvMixColumn(x), InvMixColumn(y))
  {
    hide InvMixColumn, Xor;
    var x1, x2, x3 := Rotated(x), Rotated(Rotated(x)), Rotated(Rotated(Rotated(x)));
    var y1, y2, y3 := Rotated(y), Rotated(Rotated(y)), Rotated(Rotated(Rotated(y)));
    FirstByteLinear(x, y);
    FirstByteLinear(x1, y1);
    FirstByteLinear(x2, y2);
    FirstByteLinear(x3, y3);
    InvMixRotates(x);
    InvMixRotates(x1);
    InvMixRotates(x2);
    InvMixRotates(y);
    InvMixRotates(y1);
    InvMixRotates(y2);
    InvMixRotates(Add(x, y));
    InvMixRotates(Add(x1, y1));
    InvMixRotates(Add(x2, y2));
    assert Add(x1, y1) == Rotated(Add(x, y)) && Add(x2, y2) == Rotated(Add(x1, y1))
           && Add(x3, y3) == Rotated(Add(x2, y2));
  }

  // ----- words: a column with its first byte in the low eight bits

  function Byte0(x: Word): Byte { (x & 0xFF) as bv8 }
  function Byte1(x: Word): Byte { ((x >> 8) & 0xFF) as bv8 }
  function Byte2(x: Word): Byte { ((x >> 16) & 0xFF) as bv8 }
  function Byte3(x: Word): Byte { ((x >> 24) & 0xFF) as bv8 }

  function Unpack(x: Word): Column {
    Column(Byte0(x), Byte1(x), Byte2(x), Byte3(x))
  }

  function Pack(s: Column): Word {
    (s.b0 as bv32) | ((s.b1 as bv32) << 8) | ((s.b2 as bv32) << 16) | ((s.b3 as bv32) << 24)
  }

  lemma {:induction false} PackUnpack(x: Word)
    ensures Pack(Unpack(x)) == x
  {
  }

  lemma {:induction false} UnpackPack(s: Column)
    ensures Unpack(Pack(s)) == s
  {
  }

  function XorW(x: Word, y: Word): Word {
    x ^ y
  }

  lemma {:induction false} UnpackXor(x: Word, y: Word)
    ensures Unpack(XorW(x, y)) == Add(Unpack(x), Unpack(y))
  {
  }

  // The source's ror32 by whole bytes.
  function Ror8(x: Word): Word { (x >> 8) | (x << 24) }
  function Ror16(x: Word): Word { (x >> 16) | (x << 16) }
  function Ror24(x: Word): Word { (x >> 24) | (x << 8) }

  lemma {:induction false} UnpackRor(x: Word)
    ensures Unpack(Ror8(x)) == Rotated(Unpack(x))
    ensures Unpack(Ror16(x)) == Rotated(Rotated(Unpack(x)))
    ensures Unpack(Ror24(x)) == Rotated(Rotated(Rotated(Unpack(x))))
  {
  }

  /** Four multiplications by x at once. */
  function StarX(x: Word): Word {
    ((x & 0x7f7f7f7f) << 1) ^ (((x & 0x80808080) >> 7) * 0x1b)
  }

  lemma {:induction false} UnpackStarX(x: Word)
    ensures var s := Unpack(x); Unpack(StarX(x)) == Column(XTime(s.b0), XTime(s.b1), XTime(s.b2), XTime(s.b3))
  {
  }

  /** The word-parallel column transform of the key schedule. */
  function ImixCol(x: Word): Word {
    var u := StarX(x);
    var v := StarX(u);
    var w := StarX(v);
    var t := XorW(w, x);
    XorW(XorW(XorW(u, v), w), XorW(XorW(Ror8(XorW(u, t)), Ror16(XorW(v, t))), Ror24(t)))
  }

  lemma {:induction false} Regrouped(e: Byte, b: Byte, d: Byte, n: Byte)
    ensures Xor(e, Xor(Xor(b, d), n)) == Xor4(e, b, d, n)
  {
    hide Xor;
    XorAssoc(b, d, n);
    XorAssoc(e, b, Xor(d, n));
  }

  function Times2(s: Column): Column {
    Column(XTime(s.b0), XTime(s.b1), XTime(s.b2), XTime(s.b3))
  }

  /** ImixCol, byte by byte. */
  lemma {:induction false} ImixColBytes(x: Word)
    ensures var s := Unpack(x);
            var u := Times2(s);
            var v := Times2(u);
            var w := Times2(v);
            var t := Add(w, s);
            Unpack(ImixCol(x)) == Add(Add(Add(u, v), w), Add(Add(Rotated(Add(u, t)), Rotated(Rotated(Add(v, t)))),
                                                             Rotated(Rotated(Rotated(t)))))
  {
    hide StarX, Ror8, Ror16, Ror24, Unpack, Add, XTime, XorW;
    var u := StarX(x);
    var v := StarX(u);
    var w := StarX(v);
    var t := XorW(w, x);
    UnpackStarX(x);
    UnpackStarX(u);
    UnpackStarX(v);
    UnpackXor(w, x);
    UnpackXor(u, v);
    UnpackXor(XorW(u, v), w);
    UnpackXor(u, t);
    UnpackXor(v, t);
    UnpackRor(XorW(u, t));
    UnpackRor(XorW(v, t));
    UnpackRor(t);
    UnpackXor(Ror8(XorW(u, t)), Ror16(XorW(v, t)));
    UnpackXor(XorW(Ror8(XorW(u, t)), Ror16(XorW(v, t))), Ror24(t));
    UnpackXor(XorW(XorW(u, v), w), XorW(XorW(Ror8(XorW(u, t)), Ror16(XorW(v, t))), Ror24(t)));
  }

  /** The word trick is InvMixColumns. */
  lemma {:induction false} ImixColIsInvMixColumn(x: Word)
    ensures ImixCol(x) == Pack(InvMixColumn(Unpack(x)))
  {
    hide Xor, XTime, ImixCol, Unpack, Pack, Xor4;
    var s := Unpack(x);
    ImixColBytes(x);
    Regrouped(MulE(s.b0), MulB(s.b1), MulD(s.b2), Mul9(s.b3));
    Regrouped(MulE(s.b1), MulB(s.b2), MulD(s.b3), Mul9(s.b0));
    Regrouped(MulE(s.b2), MulB(s.b3), MulD(s.b0), Mul9(s.b1));
    Regrouped(MulE(s.b3), MulB(s.b0), MulD(s.b1), Mul9(s.b2));
    Rotate4(Mul9(s.b0), MulE(s.b1), MulB(s.b2), MulD(s.b3));
    Rotate4(MulD(s.b0), Mul9(s.b1), MulE(s.b2), MulB(s.b3));
    Rotate4(Mul9(s.b1), MulE(s.b2), MulB(s.b3), MulD(s.b0));
    Rotate4(MulE(s.b3), MulB(s.b0), MulD(s.b1), Mul9(s.b2));
    PackUnpack(ImixCol(x));
  }
}
