/**
 The generic AES of the kernel: the key schedule that fills both key arrays, and the table-driven rounds. Encryption is
 shown to be the cipher of FIPS 197, decryption to be its equivalent inverse cipher on the transformed schedule.
 */
module Aes {
  import Arith
  import opened AesField
  import opened AesRounds

  const AES_KEYSIZE_128: nat := 16
  const AES_KEYSIZE_192: nat := 24
  const AES_KEYSIZE_256: nat := 32
  const AES_MAX_KEYLENGTH_U32: nat := 60

  // ----- the tables, defined from the S-box

  function Ft0(bx: Boxes, x: Byte): Word { var v := bx.sub(x); Pack(Column(Mul2(v), v, v, Mul3(v))) }
  function Ft1(bx: Boxes, x: Byte): Word { var v := bx.sub(x); Pack(Column(Mul3(v), Mul2(v), v, v)) }
  function Ft2(bx: Boxes, x: Byte): Word { var v := bx.sub(x); Pack(Column(v, Mul3(v), Mul2(v), v)) }
  function Ft3(bx: Boxes, x: Byte): Word { var v := bx.sub(x); Pack(Column(v, v, Mul3(v), Mul2(v))) }

  function It0(bx: Boxes, x: Byte): Word { var v := bx.inv(x); Pack(Column(MulE(v), Mul9(v), MulD(v), MulB(v))) }
  function It1(bx: Boxes, x: Byte): Word { var v := bx.inv(x); Pack(Column(MulB(v), MulE(v), Mul9(v), MulD(v))) }
  function It2(bx: Boxes, x: Byte): Word { var v := bx.inv(x); Pack(Column(MulD(v), MulB(v), MulE(v), Mul9(v))) }
  function It3(bx: Boxes, x: Byte): Word { var v := bx.inv(x); Pack(Column(Mul9(v), MulD(v), MulB(v), MulE(v))) }

  /** The last-round tables place one byte. */
  function Placed0(v: Byte): Word { Pack(Column(v, 0, 0, 0)) }
  function Placed1(v: Byte): Word { Pack(Column(0, v, 0, 0)) }
  function Placed2(v: Byte): Word { Pack(Column(0, 0, v, 0)) }
  function Placed3(v: Byte): Word { Pack(Column(0, 0, 0, v)) }

  function Sum4(a: Word, b: Word, c: Word, d: Word): Word {
    XorW(XorW(XorW(a, b), c), d)
  }

  // ----- one output word of a round

  function ForwardWord(bx: Boxes, a: Word, b: Word, c: Word, d: Word, k: Word): Word {
    XorW(Sum4(Ft0(bx, Byte0(a)), Ft1(bx, Byte1(b)), Ft2(bx, Byte2(c)), Ft3(bx, Byte3(d))), k)
  }

  function ForwardLastWord(bx: Boxes, a: Word, b: Word, c: Word, d: Word, k: Word): Word {
    XorW(Sum4(Placed0(bx.sub(Byte0(a))), Placed1(bx.sub(Byte1(b))),
              Placed2(bx.sub(Byte2(c))), Placed3(bx.sub(Byte3(d)))), k)
  }

  function InverseWord(bx: Boxes, a: Word, b: Word, c: Word, d: Word, k: Word): Word {
    XorW(Sum4(It0(bx, Byte0(a)), It1(bx, Byte1(b)), It2(bx, Byte2(c)), It3(bx, Byte3(d))), k)
  }

  function InverseLastWord(bx: Boxes, a: Word, b: Word, c: Word, d: Word, k: Word): Word {
    XorW(Sum4(Placed0(bx.inv(Byte0(a))), Placed1(bx.inv(Byte1(b))),
              Placed2(bx.inv(Byte2(c))), Placed3(bx.inv(Byte3(d)))), k)
  }

  lemma {:induction false} ChainIsXor4(a: Byte, b: Byte, c: Byte, d: Byte)
    ensures Xor(Xor(Xor(a, b), c), d) == Xor4(a, b, c, d)
  {
    hide Xor;
    XorAssoc(Xor(a, b), c, d);
  }

  /** A sum of packed columns, byte by byte. */
  lemma {:induction false} SumOfColumns(p: Column, q: Column, r: Column, s: Column)
    ensures Unpack(Sum4(Pack(p), Pack(q), Pack(r), Pack(s)))
         == Column(Xor4(p.b0, q.b0, r.b0, s.b0), Xor4(p.b1, q.b1, r.b1, s.b1),
                   Xor4(p.b2, q.b2, r.b2, s.b2), Xor4(p.b3, q.b3, r.b3, s.b3))
  {
    hide Unpack, Pack, XorW, Xor, Xor4;
    UnpackPack(p);
    UnpackPack(q);
    UnpackPack(r);
    UnpackPack(s);
    UnpackXor(Pack(p), Pack(q));
    UnpackXor(XorW(Pack(p), Pack(q)), Pack(r));
    UnpackXor(XorW(XorW(Pack(p), Pack(q)), Pack(r)), Pack(s));
    ChainIsXor4(p.b0, q.b0, r.b0, s.b0);
    ChainIsXor4(p.b1, q.b1, r.b1, s.b1);
    ChainIsXor4(p.b2, q.b2, r.b2, s.b2);
    ChainIsXor4(p.b3, q.b3, r.b3, s.b3);
  }

  lemma {:induction false} OnlyOne(a: Byte)
    ensures Xor4(a, 0, 0, 0) == a && Xor4(0, a, 0, 0) == a && Xor4(0, 0, a, 0) == a && Xor4(0, 0, 0, a) == a
  {
  }

  lemma {:induction false} PlacedSum(s: Column)
    ensures Unpack(Sum4(Placed0(s.b0), Placed1(s.b1), Placed2(s.b2), Placed3(s.b3))) == s
  {
    hide Unpack, Sum4, Xor4, Pack;
    SumOfColumns(Column(s.b0, 0, 0, 0), Column(0, s.b1, 0, 0), Column(0, 0, s.b2, 0), Column(0, 0, 0, s.b3));
    OnlyOne(s.b0);
    OnlyOne(s.b1);
    OnlyOne(s.b2);
    OnlyOne(s.b3);
  }

  lemma {:induction false} ForwardWordMeaning(bx: Boxes, a: Word, b: Word, c: Word, d: Word, k: Word)
    ensures var s := Column(bx.sub(Byte0(a)), bx.sub(Byte1(b)), bx.sub(Byte2(c)), bx.sub(Byte3(d)));
            && Unpack(ForwardWord(bx, a, b, c, d, k)) == Add(MixColumn(s), Unpack(k))
            && Unpack(ForwardLastWord(bx, a, b, c, d, k)) == Add(s, Unpack(k))
  {
    hide Unpack, Sum4, Xor4, Pack, Mul2, Mul3, XorW, Add, Byte0, Byte1, Byte2, Byte3, Placed0, Placed1, Placed2,
         Placed3;
    var s := Column(bx.sub(Byte0(a)), bx.sub(Byte1(b)), bx.sub(Byte2(c)), bx.sub(Byte3(d)));
    SumOfColumns(Column(Mul2(s.b0), s.b0, s.b0, Mul3(s.b0)), Column(Mul3(s.b1), Mul2(s.b1), s.b1, s.b1),
                 Column(s.b2, Mul3(s.b2), Mul2(s.b2), s.b2), Column(s.b3, s.b3, Mul3(s.b3), Mul2(s.b3)));
    UnpackXor(Sum4(Ft0(bx, Byte0(a)), Ft1(bx, Byte1(b)), Ft2(bx, Byte2(c)), Ft3(bx, Byte3(d))), k);
    PlacedSum(s);
    UnpackXor(Sum4(Placed0(s.b0), Placed1(s.b1), Placed2(s.b2), Placed3(s.b3)), k);
  }

  lemma {:induction false} InverseWordMeaning(bx: Boxes, a: Word, b: Word, c: Word, d: Word, k: Word)
    ensures var s := Column(bx.inv(Byte0(a)), bx.inv(Byte1(b)), bx.inv(Byte2(c)), bx.inv(Byte3(d)));
            && Unpack(InverseWord(bx, a, b, c, d, k)) == Add(InvMixColumn(s), Unpack(k))
            && Unpack(InverseLastWord(bx, a, b, c, d, k)) == Add(s, Unpack(k))
  {
    hide Unpack, Sum4, Xor4, Pack, MulE, MulB, MulD, Mul9, XorW, Add, Byte0, Byte1, Byte2, Byte3,
         Placed0, Placed1, Placed2, Placed3;
    var s := Column(bx.inv(Byte0(a)), bx.inv(Byte1(b)), bx.inv(Byte2(c)), bx.inv(Byte3(d)));
    SumOfColumns(Column(MulE(s.b0), Mul9(s.b0), MulD(s.b0), MulB(s.b0)),
                 Column(MulB(s.b1), MulE(s.b1), Mul9(s.b1), MulD(s.b1)),
                 Column(MulD(s.b2), MulB(s.b2), MulE(s.b2), Mul9(s.b2)),
                 Column(Mul9(s.b3), MulD(s.b3), MulB(s.b3), MulE(s.b3)));
    UnpackXor(Sum4(It0(bx, Byte0(a)), It1(bx, Byte1(b)), It2(bx, Byte2(c)), It3(bx, Byte3(d))), k);
    PlacedSum(s);
    UnpackXor(Sum4(Placed0(s.b0), Placed1(s.b1), Placed2(s.b2), Placed3(s.b3)), k);
  }

  // ----- whole rounds

  /** The local arrays b0 and b1, and the four key words at the key pointer. */
  datatype Quad = Quad(w0: Word, w1: Word, w2: Word, w3: Word)

  function Open(b: Quad): Grid {
    Grid(Unpack(b.w0), Unpack(b.w1), Unpack(b.w2), Unpack(b.w3))
  }

  function Close(g: Grid): Quad {
    Quad(Pack(g.c0), Pack(g.c1), Pack(g.c2), Pack(g.c3))
  }

  lemma {:induction false} OpenClose(g: Grid)
    ensures Open(Close(g)) == g
  {
    hide Unpack, Pack;
    UnpackPack(g.c0);
    UnpackPack(g.c1);
    UnpackPack(g.c2);
    UnpackPack(g.c3);
  }

  function KeyedQuad(b: Quad, k: Quad): Quad {
    Quad(XorW(b.w0, k.w0), XorW(b.w1, k.w1), XorW(b.w2, k.w2), XorW(b.w3, k.w3))
  }

  lemma {:induction false} KeyedMeaning(b: Quad, k: Quad)
    ensures Open(KeyedQuad(b, k)) == AddRoundKey(Open(b), Open(k))
  {
    hide Unpack, XorW, Add;
    UnpackXor(b.w0, k.w0);
    UnpackXor(b.w1, k.w1);
    UnpackXor(b.w2, k.w2);
    UnpackXor(b.w3, k.w3);
  }

  function ForwardRound(bx: Boxes, b: Quad, k: Quad): Quad {
    Quad(ForwardWord(bx, b.w0, b.w1, b.w2, b.w3, k.w0), ForwardWord(bx, b.w1, b.w2, b.w3, b.w0, k.w1),
         ForwardWord(bx, b.w2, b.w3, b.w0, b.w1, k.w2), ForwardWord(bx, b.w3, b.w0, b.w1, b.w2, k.w3))
  }

  function ForwardLastRound(bx: Boxes, b: Quad, k: Quad): Quad {
    Quad(ForwardLastWord(bx, b.w0, b.w1, b.w2, b.w3, k.w0), ForwardLastWord(bx, b.w1, b.w2, b.w3, b.w0, k.w1),
         ForwardLastWord(bx, b.w2, b.w3, b.w0, b.w1, k.w2), ForwardLastWord(bx, b.w3, b.w0, b.w1, b.w2, k.w3))
  }

  function InverseRound(bx: Boxes, b: Quad, k: Quad): Quad {
    Quad(InverseWord(bx, b.w0, b.w3, b.w2, b.w1, k.w0), InverseWord(bx, b.w1, b.w0, b.w3, b.w2, k.w1),
         InverseWord(bx, b.w2, b.w1, b.w0, b.w3, k.w2), InverseWord(bx, b.w3, b.w2, b.w1, b.w0, k.w3))
  }

  function InverseLastRound(bx: Boxes, b: Quad, k: Quad): Quad {
    Quad(InverseLastWord(bx, b.w0, b.w3, b.w2, b.w1, k.w0), InverseLastWord(bx, b.w1, b.w0, b.w3, b.w2, k.w1),
         InverseLastWord(bx, b.w2, b.w1, b.w0, b.w3, k.w2), InverseLastWord(bx, b.w3, b.w2, b.w1, b.w0, k.w3))
  }

  lemma {:induction false} ForwardRoundMeaning(bx: Boxes, b: Quad, k: Quad)
    ensures Open(ForwardRound(bx, b, k)) == AddRoundKey(MixColumns(ShiftRows(SubBytes(bx, Open(b)))), Open(k))
    ensures Open(ForwardLastRound(bx, b, k)) == AddRoundKey(ShiftRows(SubBytes(bx, Open(b))), Open(k))
  {
    hide Byte0, Byte1, Byte2, Byte3, Add, MixColumn, ForwardWord, ForwardLastWord;
    ForwardWordMeaning(bx, b.w0, b.w1, b.w2, b.w3, k.w0);
    ForwardWordMeaning(bx, b.w1, b.w2, b.w3, b.w0, k.w1);
    ForwardWordMeaning(bx, b.w2, b.w3, b.w0, b.w1, k.w2);
    ForwardWordMeaning(bx, b.w3, b.w0, b.w1, b.w2, k.w3);
  }

  lemma {:induction false} InverseRoundMeaning(bx: Boxes, b: Quad, k: Quad)
    ensures Open(InverseRound(bx, b, k))
         == AddRoundKey(InvMixColumns(InvShiftRows(InvSubBytes(bx, Open(b)))), Open(k))
    ensures Open(InverseLastRound(bx, b, k)) == AddRoundKey(InvShiftRows(InvSubBytes(bx, Open(b))), Open(k))
  {
    hide Byte0, Byte1, Byte2, Byte3, Add, InvMixColumn, InverseWord, InverseLastWord;
    InverseWordMeaning(bx, b.w0, b.w3, b.w2, b.w1, k.w0);
    InverseWordMeaning(bx, b.w1, b.w0, b.w3, b.w2, k.w1);
    InverseWordMeaning(bx, b.w2, b.w1, b.w0, b.w3, k.w2);
    InverseWordMeaning(bx, b.w3, b.w2, b.w1, b.w0, k.w3);
  }

  // ----- key expansion (section 5.2 of FIPS 197)

  function SubWord(bx: Boxes, x: Word): Word {
    Pack(SubColumn(bx.sub, Unpack(x)))
  }

  function RotWord(x: Word): Word {
    Pack(Rotated(Unpack(x)))
  }

  /** The round constant: a power of x in the first byte. */
  function RconByte(i: nat): Byte
    requires i > 0
  {
    if i == 1 then 1 else XTime(RconByte(i - 1))
  }

  function KeyWord(bx: Boxes, key: seq<Word>, i: nat): Word
    requires |key| >= 4
  {
    var nk := |key|;
    if i < nk then key[i] else
    var t := KeyWord(bx, key, i - 1);
    var f := if i % nk == 0 then XorW(SubWord(bx, RotWord(t)), Placed0(RconByte(i / nk)))
             else if nk > 6 && i % nk == 4 then SubWord(bx, t)
             else t;
    XorW(KeyWord(bx, key, i - nk), f)
  }

  const RCO_TAB: seq<Word> := [1, 2, 4, 8, 16, 32, 64, 128, 27, 54]

  lemma {:induction false} PlacedLow(v: Byte)
    ensures Placed0(v) == v as bv32
  {
  }

  lemma {:induction false} NextRcon(b: Byte)
    ensures XTime(1) == 2 && XTime(2) == 4 && XTime(4) == 8 && XTime(8) == 16 && XTime(16) == 32
    ensures XTime(32) == 64 && XTime(64) == 128 && XTime(128) == 27 && XTime(27) == 54
  {
  }

  lemma {:induction false} RcoIsRcon(i: nat)
    requires i < 10
    ensures RCO_TAB[i] == Placed0(RconByte(i + 1))
  {
    hide XTime, Pack;
    NextRcon(0);
    PlacedLow(RconByte(i + 1));
    if i > 0 {
      RconStep(i);
    }
  }

  lemma {:induction false} RconStep(i: nat)
    requires 0 < i < 10
    ensures RconByte(i + 1) as bv32 == RCO_TAB[i]
  {
    hide XTime;
    NextRcon(0);
    if i > 1 {
      RconStep(i - 1);
    }
  }

  /** The table form of SubWord. */
  function LsBox(bx: Boxes, x: Word): Word {
    Sum4(Placed0(bx.sub(Byte0(x))), Placed1(bx.sub(Byte1(x))), Placed2(bx.sub(Byte2(x))), Placed3(bx.sub(Byte3(x))))
  }

  lemma {:induction false} LsBoxIsSubWord(bx: Boxes, x: Word)
    ensures LsBox(bx, x) == SubWord(bx, x)
  {
    hide Byte0, Byte1, Byte2, Byte3, Pack, Sum4, Placed0, Placed1, Placed2, Placed3;
    PlacedSum(SubColumn(bx.sub, Unpack(x)));
    PackUnpack(LsBox(bx, x));
  }

  lemma {:induction false} RorIsRotWord(x: Word)
    ensures Ror8(x) == RotWord(x)
  {
    hide Ror8, Pack, Unpack;
    UnpackRor(x);
    PackUnpack(Ror8(x));
  }

  lemma {:induction false} XorWComm(x: Word, y: Word)
    ensures XorW(x, y) == XorW(y, x)
  {
  }

  lemma {:induction false} RowStart(bx: Boxes, key: seq<Word>, n: nat)
    requires |key| >= 4 && n < 10
    ensures KeyWord(bx, key, |key| * (n + 1))
         == XorW(XorW(LsBox(bx, Ror8(KeyWord(bx, key, |key| * (n + 1) - 1))), RCO_TAB[n]), KeyWord(bx, key, |key| * n))
  {
    hide LsBox, Ror8, SubWord, RotWord, XorW, Placed0, RconByte;
    var nk := |key|;
    var i := nk * (n + 1);
    Arith.MultipleMod(n + 1, nk);
    var t := KeyWord(bx, key, i - 1);
    RorIsRotWord(t);
    LsBoxIsSubWord(bx, Ror8(t));
    RcoIsRcon(n);
    assert i - nk == nk * n;
    XorWComm(KeyWord(bx, key, nk * n), XorW(SubWord(bx, RotWord(t)), Placed0(RconByte(n + 1))));
  }

  lemma {:induction false} RowNext(bx: Boxes, key: seq<Word>, n: nat, m: nat)
    requires |key| >= 4 && 0 < m < |key| && (|key| > 6 ==> m != 4)
    ensures KeyWord(bx, key, |key| * (n + 1) + m)
         == XorW(KeyWord(bx, key, |key| * (n + 1) + m - 1), KeyWord(bx, key, |key| * n + m))
  {
    hide SubWord, RotWord, XorW, Placed0, RconByte;
    var nk := |key|;
    var i := nk * (n + 1) + m;
    Arith.DivUnique(i, nk, n + 1, m);
    assert i - nk == nk * n + m;
    XorWComm(KeyWord(bx, key, nk * n + m), KeyWord(bx, key, i - 1));
  }

  lemma {:induction false} RowMiddle(bx: Boxes, key: seq<Word>, n: nat)
    requires |key| == 8
    ensures KeyWord(bx, key, 8 * n + 12) == XorW(KeyWord(bx, key, 8 * n + 4), LsBox(bx, KeyWord(bx, key, 8 * n + 11)))
  {
    hide KeyWord, SubWord, XorW, LsBox;
    LsBoxIsSubWord(bx, KeyWord(bx, key, 8 * n + 11));
    MiddleWord(bx, key, 8 * n + 12);
  }

  lemma {:induction false} MiddleWord(bx: Boxes, key: seq<Word>, i: nat)
    requires |key| == 8 && i >= 8 && i % 8 == 4
    ensures KeyWord(bx, key, i) == XorW(KeyWord(bx, key, i - 8), SubWord(bx, KeyWord(bx, key, i - 1)))
  {
    hide SubWord, RotWord, XorW, Placed0, RconByte;
  }

  /** The words of the key as the schedule reads them. */
  function KeyWords(inKey: seq<Byte>): (ws: seq<Word>)
    requires |inKey| % 4 == 0
    ensures |ws| == |inKey| / 4
  {
    seq(|inKey| / 4, i requires 0 <= i < |inKey| / 4 =>
      Pack(Column(inKey[4 * i], inKey[4 * i + 1], inKey[4 * i + 2], inKey[4 * i + 3])))
  }

  class AesCtx {
    const keyEnc: array<Word>
    const keyDec: array<Word>
    var keyLength: nat

    constructor ()
      ensures Shaped() && fresh(keyEnc) && fresh(keyDec)
    {
      keyEnc, keyDec := new Word[AES_MAX_KEYLENGTH_U32], new Word[AES_MAX_KEYLENGTH_U32];
      keyLength := 0;
    }

    predicate Shaped() {
      keyEnc.Length == AES_MAX_KEYLENGTH_U32 && keyDec.Length == AES_MAX_KEYLENGTH_U32 && keyEnc != keyDec
    }

    /** The first `n` words are those of the standard's key expansion. */
    ghost predicate Expanded(bx: Boxes, key: seq<Word>, n: nat)
      reads keyEnc
      requires |key| >= 4
    {
      n <= keyEnc.Length && forall j :: 0 <= j < n ==> keyEnc[j] == KeyWord(bx, key, j)
    }

    /** The first word of a row; `t` is the word before it. */
    method StartRow(bx: Boxes, ghost key: seq<Word>, nk: nat, i: nat, t: Word) returns (t': Word)
      requires |key| == nk >= 4 && i < 10 && nk * (i + 1) < keyEnc.Length && Expanded(bx, key, nk * (i + 1))
      requires t == KeyWord(bx, key, nk * (i + 1) - 1)
      modifies keyEnc
      ensures Expanded(bx, key, nk * (i + 1) + 1) && t' == KeyWord(bx, key, nk * (i + 1))
    {
      hide KeyWord, LsBox, Ror8, XorW;
      RowStart(bx, key, i);
      t' := Ror8(t);
      t' := XorW(LsBox(bx, t'), RCO_TAB[i]);
      t' := XorW(t', keyEnc[nk * i]);
      keyEnc[nk * i + nk] := t';
    }

    method NextInRow(bx: Boxes, ghost key: seq<Word>, nk: nat, i: nat, m: nat, t: Word) returns (t': Word)
      requires |key| == nk >= 4 && 0 < m < nk && (nk > 6 ==> m != 4)
      requires nk * (i + 1) + m < keyEnc.Length && Expanded(bx, key, nk * (i + 1) + m)
      requires t == KeyWord(bx, key, nk * (i + 1) + m - 1)
      modifies keyEnc
      ensures Expanded(bx, key, nk * (i + 1) + m + 1) && t' == KeyWord(bx, key, nk * (i + 1) + m)
    {
      hide KeyWord, XorW;
      RowNext(bx, key, i, m);
      t' := XorW(t, keyEnc[nk * i + m]);
      keyEnc[nk * i + nk + m] := t';
    }

    method Loop4(bx: Boxes, ghost key: seq<Word>, i: nat, t: Word) returns (t': Word)
      requires Shaped() && |key| == 4 && i < 10 && Expanded(bx, key, 4 * i + 4) && t == KeyWord(bx, key, 4 * i + 3)
      modifies keyEnc
      ensures Expanded(bx, key, 4 * i + 8) && t' == KeyWord(bx, key, 4 * i + 7)
    {
      hide KeyWord;
      t' := StartRow(bx, key, 4, i, t);
      t' := NextInRow(bx, key, 4, i, 1, t');
      t' := NextInRow(bx, key, 4, i, 2, t');
      t' := NextInRow(bx, key, 4, i, 3, t');
    }

    method Loop6(bx: Boxes, ghost key: seq<Word>, i: nat, t: Word) returns (t': Word)
      requires Shaped() && |key| == 6 && i < 8 && Expanded(bx, key, 6 * i + 6) && t == KeyWord(bx, key, 6 * i + 5)
      modifies keyEnc
      ensures Expanded(bx, key, 6 * i + 12) && t' == KeyWord(bx, key, 6 * i + 11)
    {
      hide KeyWord;
      t' := StartRow(bx, key, 6, i, t);
      t' := NextInRow(bx, key, 6, i, 1, t');
      t' := NextInRow(bx, key, 6, i, 2, t');
      t' := NextInRow(bx, key, 6, i, 3, t');
      t' := NextInRow(bx, key, 6, i, 4, t');
      t' := NextInRow(bx, key, 6, i, 5, t');
    }

    method Loop8TopHalf(bx: Boxes, ghost key: seq<Word>, i: nat, t: Word) returns (t': Word)
      requires Shaped() && |key| == 8 && i < 7 && Expanded(bx, key, 8 * i + 8) && t == KeyWord(bx, key, 8 * i + 7)
      modifies keyEnc
      ensures Expanded(bx, key, 8 * i + 12) && t' == KeyWord(bx, key, 8 * i + 11)
    {
      hide KeyWord;
      t' := StartRow(bx, key, 8, i, t);
      t' := NextInRow(bx, key, 8, i, 1, t');
      t' := NextInRow(bx, key, 8, i, 2, t');
      t' := NextInRow(bx, key, 8, i, 3, t');
    }

    method Loop8(bx: Boxes, ghost key: seq<Word>, i: nat, t: Word) returns (t': Word)
      requires Shaped() && |key| == 8 && i < 6 && Expanded(bx, key, 8 * i + 8) && t == KeyWord(bx, key, 8 * i + 7)
      modifies keyEnc
      ensures Expanded(bx, key, 8 * i + 16) && t' == KeyWord(bx, key, 8 * i + 15)
    {
      hide KeyWord, XorW, LsBox;
      t' := Loop8TopHalf(bx, key, i, t);
      RowMiddle(bx, key, i);
      t' := XorW(keyEnc[8 * i + 4], LsBox(bx, t'));
      keyEnc[8 * i + 12] := t';
      t' := NextInRow(bx, key, 8, i, 5, t');
      t' := NextInRow(bx, key, 8, i, 6, t');
      t' := NextInRow(bx, key, 8, i, 7, t');
    }

    /** Copies the key and runs the loop for its size. Returns with the words up to |key| * 4 + 28 expanded. */
    method FillEncryptionKeys(bx: Boxes, key: seq<Word>)
      requires Shaped() && |key| in {4, 6, 8}
      modifies keyEnc
      ensures Expanded(bx, key, 4 * |key| + 28)
    {
      hide KeyWord;
      var nk := |key|;
      for j := 0 to nk
        invariant Expanded(bx, key, j)
      {
        CopiedWord(bx, key, j);
        keyEnc[j] := key[j];
      }
      var t := keyEnc[nk - 1];
      if nk == 4 {
        for i := 0 to 10
          invariant Expanded(bx, key, 4 * i + 4) && t == KeyWord(bx, key, 4 * i + 3)
        {
          t := Loop4(bx, key, i, t);
        }
      } else if nk == 6 {
        for i := 0 to 8
          invariant Expanded(bx, key, 6 * i + 6) && t == KeyWord(bx, key, 6 * i + 5)
        {
          t := Loop6(bx, key, i, t);
        }
      } else {
        for i := 0 to 6
          invariant Expanded(bx, key, 8 * i + 8) && t == KeyWord(bx, key, 8 * i + 7)
        {
          t := Loop8(bx, key, i, t);
        }
        t := Loop8TopHalf(bx, key, 6, t);
      }
    }

    /** The decryption schedule: whole rounds in reverse order, inner words through the column transform. */
    method FillDecryptionKeys(last: nat)
      requires Shaped() && 4 <= last && last % 4 == 0 && last + 4 <= AES_MAX_KEYLENGTH_U32
      modifies keyDec
      ensures forall c :: 0 <= c < 4 ==> keyDec[c] == keyEnc[last + c] && keyDec[last + c] == keyEnc[c]
      ensures forall j :: 4 <= j < last ==> keyDec[j] == ImixCol(keyEnc[Slot(last, j)])
    {
      hide ImixCol, Slot;
      for c := 0 to 4
        invariant forall b :: 0 <= b < c ==> keyDec[b] == keyEnc[last + b] && keyDec[last + b] == keyEnc[b]
      {
        keyDec[last + c], keyDec[c] := keyEnc[c], keyEnc[last + c];
      }
      for i := 4 to last
        invariant forall c :: 0 <= c < 4 ==> keyDec[c] == keyEnc[last + c] && keyDec[last + c] == keyEnc[c]
        invariant forall m :: 4 <= m < i ==> keyDec[Slot(last, m)] == ImixCol(keyEnc[m])
      {
        SlotIsInjective(last, i);
        var j := Slot(last, i);
        keyDec[j] := ImixCol(keyEnc[i]);
      }
      forall j | 4 <= j < last ensures keyDec[j] == ImixCol(keyEnc[Slot(last, j)]) {
        SlotIsInvolution(last, j);
        assert keyDec[Slot(last, Slot(last, j))] == ImixCol(keyEnc[Slot(last, j)]);
      }
    }

    /**
     Expands a key of one of the three sizes and refuses any other: afterwards the encryption words are those of the
     standard, and the decryption keys are the ones its equivalent inverse cipher needs.
     */
    method ExpandKey(bx: Boxes, inKey: seq<Byte>) returns (ok: bool)
      requires Shaped()
      modifies this, keyEnc, keyDec
      ensures ok <==> |inKey| in {AES_KEYSIZE_128, AES_KEYSIZE_192, AES_KEYSIZE_256}
      ensures ok ==> Ready() && keyLength == |inKey|
      ensures ok ==> Expanded(bx, KeyWords(inKey), |inKey| + 28)
      ensures ok ==> Rounds() == (if |inKey| == 16 then 10 else if |inKey| == 24 then 12 else 14)
      ensures !ok ==> keyLength == old(keyLength) && keyEnc[..] == old(keyEnc[..]) && keyDec[..] == old(keyDec[..])
    {
      hide KeyWord, ImixCol, Slot, KeyWords, DecryptionKeys;
      if |inKey| != AES_KEYSIZE_128 && |inKey| != AES_KEYSIZE_192 && |inKey| != AES_KEYSIZE_256 {
        return false;
      }
      keyLength := |inKey|;
      FillEncryptionKeys(bx, KeyWords(inKey));
      FillDecryptionKeys(keyLength + 24);
      MirroredKeys(keyEnc[..], keyDec[..], keyLength / 4 + 6);
      ok := true;
    }

    /** Number of rounds. */
    function Rounds(): nat
      reads this
    {
      keyLength / 4 + 6
    }

    ghost function EncKeys(): seq<Grid>
      reads this, keyEnc
      requires Shaped() && keyLength <= AES_KEYSIZE_256
    {
      RoundKeys(keyEnc[..], Rounds() + 1)
    }

    ghost function DecKeys(): seq<Grid>
      reads this, keyDec
      requires Shaped() && keyLength <= AES_KEYSIZE_256
    {
      RoundKeys(keyDec[..], Rounds() + 1)
    }

    /** Two table rounds with the words at `kp` and `kp + 4`; `r` rounds have been done. */
    method ForwardPair(bx: Boxes, ghost g: Grid, ghost r: nat, b0: Quad, kp: nat) returns (b0': Quad, kp': nat)
      requires Ready() && kp == 4 * (r + 1) && r + 2 <= Rounds()
      requires Open(b0) == CipherState(bx, g, EncKeys(), r)
      ensures kp' == kp + 8 && Open(b0') == CipherState(bx, g, EncKeys(), r + 2)
    {
      hide ForwardRound, Open, DecryptionKeys, CipherState, RoundKeys;
      ForwardStep(bx, g, keyEnc[..], Rounds() + 1, r, b0);
      var b1 := ForwardRound(bx, b0, QuadAt(keyEnc[..], kp));
      ForwardStep(bx, g, keyEnc[..], Rounds() + 1, r + 1, b1);
      b0' := ForwardRound(bx, b1, QuadAt(keyEnc[..], kp + 4));
      kp' := kp + 8;
    }

    method InversePair(bx: Boxes, ghost g: Grid, ghost r: nat, b0: Quad, kp: nat) returns (b0': Quad, kp': nat)
      requires Ready() && kp == 4 * (r + 1) && r + 2 <= Rounds()
      requires Open(b0) == EqInvState(bx, g, DecKeys(), r)
      ensures kp' == kp + 8 && Open(b0') == EqInvState(bx, g, DecKeys(), r + 2)
    {
      hide InverseRound, Open, DecryptionKeys, EqInvState, RoundKeys;
      InverseStep(bx, g, keyDec[..], Rounds() + 1, r, b0);
      var b1 := InverseRound(bx, b0, QuadAt(keyDec[..], kp));
      InverseStep(bx, g, keyDec[..], Rounds() + 1, r + 1, b1);
      b0' := InverseRound(bx, b1, QuadAt(keyDec[..], kp + 4));
      kp' := kp + 8;
    }

    /** Encrypts a block: the result is the standard's cipher under the expanded key. */
    method Encrypt(bx: Boxes, input: Grid) returns (output: Grid)
      requires Ready()
      ensures output == Cipher(bx, input, EncKeys())
    {
      hide ForwardRound, ForwardLastRound, Open, Close, KeyedQuad, DecryptionKeys, CipherState, Cipher, RoundKeys,
           QuadAt;
      ForwardStart(bx, input, keyEnc[..], Rounds() + 1);
      var b0 := KeyedQuad(Close(input), QuadAt(keyEnc[..], 0));
      var kp := 4;
      ghost var r := 0;
      if keyLength > 24 {
        b0, kp := ForwardPair(bx, input, r, b0, kp);
        r := r + 2;
      }
      if keyLength > 16 {
        b0, kp := ForwardPair(bx, input, r, b0, kp);
        r := r + 2;
      }
      b0, kp := ForwardPair(bx, input, r, b0, kp);
      b0, kp := ForwardPair(bx, input, r + 2, b0, kp);
      b0, kp := ForwardPair(bx, input, r + 4, b0, kp);
      b0, kp := ForwardPair(bx, input, r + 6, b0, kp);
      ForwardStep(bx, input, keyEnc[..], Rounds() + 1, r + 8, b0);
      var b1 := ForwardRound(bx, b0, QuadAt(keyEnc[..], kp));
      ForwardEnd(bx, input, keyEnc[..], Rounds() + 1, b1);
      b0 := ForwardLastRound(bx, b1, QuadAt(keyEnc[..], kp + 4));
      output := Open(b0);
    }

    /** Decrypts a block: the result is the standard's equivalent inverse cipher. */
    method Decrypt(bx: Boxes, input: Grid) returns (output: Grid)
      requires Ready()
      ensures output == EqInvCipher(bx, input, DecKeys())
    {
      hide InverseRound, InverseLastRound, Open, Close, KeyedQuad, DecryptionKeys, EqInvState, EqInvCipher;
      hide RoundKeys, QuadAt;
      InverseStart(bx, input, keyDec[..], Rounds() + 1);
      var b0 := KeyedQuad(Close(input), QuadAt(keyDec[..], 0));
      var kp := 4;
      ghost var r := 0;
      if keyLength > 24 {
        b0, kp := InversePair(bx, input, r, b0, kp);
        r := r + 2;
      }
      if keyLength > 16 {
        b0, kp := InversePair(bx, input, r, b0, kp);
        r := r + 2;
      }
      b0, kp := InversePair(bx, input, r, b0, kp);
      b0, kp := InversePair(bx, input, r + 2, b0, kp);
      b0, kp := InversePair(bx, input, r + 4, b0, kp);
      b0, kp := InversePair(bx, input, r + 6, b0, kp);
      InverseStep(bx, input, keyDec[..], Rounds() + 1, r + 8, b0);
      var b1 := InverseRound(bx, b0, QuadAt(keyDec[..], kp));
      InverseEnd(bx, input, keyDec[..], Rounds() + 1, b1);
      b0 := InverseLastRound(bx, b1, QuadAt(keyDec[..], kp + 4));
      output := Open(b0);
    }

    /** Decryption gives every block back, whatever the key and its size. */
    method DecryptUndoesEncrypt(bx: Boxes, inKey: seq<Byte>, block: Grid) returns (ok: bool, back: Grid)
      requires Shaped() && Inverse(bx)
      modifies this, keyEnc, keyDec
      ensures ok <==> |inKey| in {AES_KEYSIZE_128, AES_KEYSIZE_192, AES_KEYSIZE_256}
      ensures ok ==> back == block
    {
      hide Cipher, EqInvCipher, DecryptionKeys;
      back := block;
      ok := ExpandKey(bx, inKey);
      if ok {
        EqInvCipherUndoesCipher(bx, block, EncKeys(), DecKeys());
        var secret := Encrypt(bx, block);
        back := Decrypt(bx, secret);
      }
    }

    /** A key has been expanded. */
    ghost predicate Ready()
      reads this, keyEnc, keyDec
    {
      && Shaped() && keyLength in {AES_KEYSIZE_128, AES_KEYSIZE_192, AES_KEYSIZE_256}
      && DecryptionKeys(EncKeys(), DecKeys())
    }
  }

  lemma ForwardStep(bx: Boxes, g: Grid, w: seq<Word>, n: nat, r: nat, b: Quad)
    requires 4 * n <= |w| && r + 1 < n && Open(b) == CipherState(bx, g, RoundKeys(w, n), r)
    ensures Open(ForwardRound(bx, b, QuadAt(w, 4 * (r + 1)))) == CipherState(bx, g, RoundKeys(w, n), r + 1)
  {
    hide ForwardRound, Open, AddRoundKey, MixColumns, ShiftRows, SubBytes;
    ForwardRoundMeaning(bx, b, QuadAt(w, 4 * (r + 1)));
  }

  lemma InverseStep(bx: Boxes, g: Grid, w: seq<Word>, n: nat, r: nat, b: Quad)
    requires 4 * n <= |w| && r + 1 < n && Open(b) == EqInvState(bx, g, RoundKeys(w, n), r)
    ensures Open(InverseRound(bx, b, QuadAt(w, 4 * (r + 1)))) == EqInvState(bx, g, RoundKeys(w, n), r + 1)
  {
    hide InverseRound, Open, AddRoundKey, InvMixColumns, InvShiftRows, InvSubBytes;
    InverseRoundMeaning(bx, b, QuadAt(w, 4 * (r + 1)));
  }

  lemma ForwardStart(bx: Boxes, g: Grid, w: seq<Word>, n: nat)
    requires 4 * n <= |w| && n >= 2
    ensures Open(KeyedQuad(Close(g), QuadAt(w, 0))) == CipherState(bx, g, RoundKeys(w, n), 0)
  {
    hide Open, Close, KeyedQuad, AddRoundKey;
    OpenClose(g);
    KeyedMeaning(Close(g), QuadAt(w, 0));
  }

  lemma InverseStart(bx: Boxes, g: Grid, w: seq<Word>, n: nat)
    requires 4 * n <= |w| && n >= 2
    ensures Open(KeyedQuad(Close(g), QuadAt(w, 0))) == EqInvState(bx, g, RoundKeys(w, n), 0)
  {
    hide Open, Close, KeyedQuad, AddRoundKey;
    OpenClose(g);
    KeyedMeaning(Close(g), QuadAt(w, 0));
  }

  lemma ForwardEnd(bx: Boxes, g: Grid, w: seq<Word>, n: nat, b: Quad)
    requires 4 * n <= |w| && n >= 2 && Open(b) == CipherState(bx, g, RoundKeys(w, n), n - 2)
    ensures Open(ForwardLastRound(bx, b, QuadAt(w, 4 * (n - 1)))) == Cipher(bx, g, RoundKeys(w, n))
  {
    hide ForwardLastRound, Open, AddRoundKey, ShiftRows, SubBytes;
    ForwardRoundMeaning(bx, b, QuadAt(w, 4 * (n - 1)));
  }

  lemma InverseEnd(bx: Boxes, g: Grid, w: seq<Word>, n: nat, b: Quad)
    requires 4 * n <= |w| && n >= 2 && Open(b) == EqInvState(bx, g, RoundKeys(w, n), n - 2)
    ensures Open(InverseLastRound(bx, b, QuadAt(w, 4 * (n - 1)))) == EqInvCipher(bx, g, RoundKeys(w, n))
  {
    hide InverseLastRound, Open, AddRoundKey, InvShiftRows, InvSubBytes;
    InverseRoundMeaning(bx, b, QuadAt(w, 4 * (n - 1)));
  }

  lemma CopiedWord(bx: Boxes, key: seq<Word>, j: nat)
    requires |key| >= 4 && j < |key|
    ensures KeyWord(bx, key, j) == key[j]
  {
  }

  /** Position of a word in the reversed schedule: the same place in the mirrored round. */
  function Slot(last: nat, i: nat): (j: nat)
    requires 4 <= last && last % 4 == 0
    ensures 4 <= i < last ==> 4 <= j < last
  {
    if i < last then last - i / 4 * 4 + i % 4 else 0
  }

  lemma {:induction false} SlotIsInvolution(last: nat, i: nat)
    requires 4 <= last && last % 4 == 0 && 4 <= i < last
    ensures Slot(last, Slot(last, i)) == i
  {
  }

  lemma {:induction false} SlotIsInjective(last: nat, i: nat)
    requires 4 <= last && last % 4 == 0 && 4 <= i < last
    ensures forall m :: 4 <= m < i ==> Slot(last, m) != Slot(last, i)
  {
    forall m | 4 <= m < i ensures Slot(last, m) != Slot(last, i) {
      SlotIsInvolution(last, m);
      SlotIsInvolution(last, i);
    }
  }

  lemma {:induction false} SlotOf(n: nat, r: nat, c: nat)
    requires 0 < r < n && c < 4
    ensures Slot(4 * n, 4 * r + c) == 4 * (n - r) + c
  {
  }

  function QuadAt(w: seq<Word>, kp: nat): Quad
    requires kp + 4 <= |w|
  {
    Quad(w[kp], w[kp + 1], w[kp + 2], w[kp + 3])
  }

  ghost function RoundKeys(w: seq<Word>, n: nat): (ks: seq<Grid>)
    requires 4 * n <= |w|
    ensures |ks| == n && forall r :: 0 <= r < n ==> ks[r] == Open(QuadAt(w, 4 * r))
  {
    seq(n, r requires 0 <= r < n => Open(QuadAt(w, 4 * r)))
  }

  lemma {:induction false} MirroredQuad(a: Quad, b: Quad)
    requires a.w0 == ImixCol(b.w0) && a.w1 == ImixCol(b.w1) && a.w2 == ImixCol(b.w2) && a.w3 == ImixCol(b.w3)
    ensures Open(a) == InvMixColumns(Open(b))
  {
    hide ImixCol, InvMixColumn, Unpack, Pack;
    ImixColIsInvMixColumn(b.w0);
    ImixColIsInvMixColumn(b.w1);
    ImixColIsInvMixColumn(b.w2);
    ImixColIsInvMixColumn(b.w3);
    UnpackPack(InvMixColumn(Unpack(b.w0)));
    UnpackPack(InvMixColumn(Unpack(b.w1)));
    UnpackPack(InvMixColumn(Unpack(b.w2)));
    UnpackPack(InvMixColumn(Unpack(b.w3)));
  }

  lemma {:induction false} MirroredKeys(enc: seq<Word>, dec: seq<Word>, n: nat)
    requires 1 <= n && |enc| == |dec| && 4 * n + 4 <= |enc|
    requires forall c :: 0 <= c < 4 ==> dec[c] == enc[4 * n + c] && dec[4 * n + c] == enc[c]
    requires forall j :: 4 <= j < 4 * n ==> dec[j] == ImixCol(enc[Slot(4 * n, j)])
    ensures DecryptionKeys(RoundKeys(enc, n + 1), RoundKeys(dec, n + 1))
  {
    hide ImixCol, InvMixColumns, Open, Slot, QuadAt;
    var ks, ds := RoundKeys(enc, n + 1), RoundKeys(dec, n + 1);
    QuadsSwapped(enc, dec, n);
    forall r | 0 < r < n ensures ds[r] == InvMixColumns(ks[n - r]) {
      MirroredRound(enc, dec, n, r);
    }
  }

  lemma {:induction false} QuadsSwapped(enc: seq<Word>, dec: seq<Word>, n: nat)
    requires 1 <= n && |enc| == |dec| && 4 * n + 4 <= |enc|
    requires forall c :: 0 <= c < 4 ==> dec[c] == enc[4 * n + c] && dec[4 * n + c] == enc[c]
    ensures QuadAt(dec, 0) == QuadAt(enc, 4 * n) && QuadAt(dec, 4 * n) == QuadAt(enc, 0)
  {
  }

  lemma {:induction false} MirroredRound(enc: seq<Word>, dec: seq<Word>, n: nat, r: nat)
    requires 0 < r < n && |enc| == |dec| && 4 * n + 4 <= |enc|
    requires forall j :: 4 <= j < 4 * n ==> dec[j] == ImixCol(enc[Slot(4 * n, j)])
    ensures Open(QuadAt(dec, 4 * r)) == InvMixColumns(Open(QuadAt(enc, 4 * (n - r))))
  {
    hide ImixCol, InvMixColumns, Open, Slot;
    SlotOf(n, r, 0);
    SlotOf(n, r, 1);
    SlotOf(n, r, 2);
    SlotOf(n, r, 3);
    MirroredQuad(QuadAt(dec, 4 * r), QuadAt(enc, 4 * (n - r)));
  }
}
