/**
 The cipher of FIPS 197 (section 5.1), the equivalent inverse cipher (section 5.3.5), and the table rounds that compute
 them. The tables are taken as defined from an S-box and its inverse; any pair of mutually inverse byte maps will do.
 */
module AesRounds {
  import opened AesField

  datatype Boxes = Boxes(sub: Byte -> Byte, inv: Byte -> Byte)

  ghost predicate Inverse(bx: Boxes) {
    forall x :: bx.inv(bx.sub(x)) == x
  }

  /** The state: four columns. */
  datatype Grid = Grid(c0: Column, c1: Column, c2: Column, c3: Column)

  // ----- the standard's transformations

  function SubColumn(f: Byte -> Byte, s: Column): Column {
    Column(f(s.b0), f(s.b1), f(s.b2), f(s.b3))
  }

  function SubBytes(bx: Boxes, g: Grid): Grid {
    Grid(SubColumn(bx.sub, g.c0), SubColumn(bx.sub, g.c1), SubColumn(bx.sub, g.c2), SubColumn(bx.sub, g.c3))
  }

  function InvSubBytes(bx: Boxes, g: Grid): Grid {
    Grid(SubColumn(bx.inv, g.c0), SubColumn(bx.inv, g.c1), SubColumn(bx.inv, g.c2), SubColumn(bx.inv, g.c3))
  }

  /** Row r moves r places to the left. */
  function ShiftRows(g: Grid): Grid {
    Grid(Column(g.c0.b0, g.c1.b1, g.c2.b2, g.c3.b3), Column(g.c1.b0, g.c2.b1, g.c3.b2, g.c0.b3),
         Column(g.c2.b0, g.c3.b1, g.c0.b2, g.c1.b3), Column(g.c3.b0, g.c0.b1, g.c1.b2, g.c2.b3))
  }

  function InvShiftRows(g: Grid): Grid {
    Grid(Column(g.c0.b0, g.c3.b1, g.c2.b2, g.c1.b3), Column(g.c1.b0, g.c0.b1, g.c3.b2, g.c2.b3),
         Column(g.c2.b0, g.c1.b1, g.c0.b2, g.c3.b3), Column(g.c3.b0, g.c2.b1, g.c1.b2, g.c0.b3))
  }

  function MixColumns(g: Grid): Grid {
    Grid(MixColumn(g.c0), MixColumn(g.c1), MixColumn(g.c2), MixColumn(g.c3))
  }

  function InvMixColumns(g: Grid): Grid {
    Grid(InvMixColumn(g.c0), InvMixColumn(g.c1), InvMixColumn(g.c2), InvMixColumn(g.c3))
  }

  function AddRoundKey(g: Grid, k: Grid): Grid {
    Grid(Add(g.c0, k.c0), Add(g.c1, k.c1), Add(g.c2, k.c2), Add(g.c3, k.c3))
  }

  /** The state after the first `r` rounds. */
  function CipherState(bx: Boxes, g: Grid, ks: seq<Grid>, r: nat): Grid
    requires r < |ks|
  {
    if r == 0 then AddRoundKey(g, ks[0])
    else AddRoundKey(MixColumns(ShiftRows(SubBytes(bx, CipherState(bx, g, ks, r - 1)))), ks[r])
  }

  /** Cipher with |ks| - 1 rounds, the last of which does not mix columns. */
  function Cipher(bx: Boxes, g: Grid, ks: seq<Grid>): Grid
    requires |ks| >= 2
  {
    AddRoundKey(ShiftRows(SubBytes(bx, CipherState(bx, g, ks, |ks| - 2))), ks[|ks| - 1])
  }

  function EqInvState(bx: Boxes, g: Grid, ds: seq<Grid>, r: nat): Grid
    requires r < |ds|
  {
    if r == 0 then AddRoundKey(g, ds[0])
    else AddRoundKey(InvMixColumns(InvShiftRows(InvSubBytes(bx, EqInvState(bx, g, ds, r - 1)))), ds[r])
  }

  function EqInvCipher(bx: Boxes, g: Grid, ds: seq<Grid>): Grid
    requires |ds| >= 2
  {
    AddRoundKey(InvShiftRows(InvSubBytes(bx, EqInvState(bx, g, ds, |ds| - 2))), ds[|ds| - 1])
  }

  /** The decryption keys: reversed, and all but the outer two passed through InvMixColumns. */
  ghost predicate DecryptionKeys(ks: seq<Grid>, ds: seq<Grid>) {
    && |ds| == |ks| >= 2
    && ds[0] == ks[|ks| - 1] && ds[|ks| - 1] == ks[0]
    && forall r :: 0 < r < |ks| - 1 ==> ds[r] == InvMixColumns(ks[|ks| - 1 - r])
  }

  // ----- each transformation is undone

  lemma SubShiftUndone(bx: Boxes, g: Grid)
    requires Inverse(bx)
    ensures InvShiftRows(InvSubBytes(bx, ShiftRows(SubBytes(bx, g)))) == g
  {
  }

  lemma {:induction false} XorTwice(a: Byte, b: Byte)
    ensures Xor(Xor(a, b), b) == a
  {
  }

  lemma {:induction false} AddTwice(x: Column, y: Column)
    ensures Add(Add(x, y), y) == x
  {
    hide Xor;
    XorTwice(x.b0, y.b0);
    XorTwice(x.b1, y.b1);
    XorTwice(x.b2, y.b2);
    XorTwice(x.b3, y.b3);
  }

  lemma {:induction false} KeyTwice(g: Grid, k: Grid)
    ensures AddRoundKey(AddRoundKey(g, k), k) == g
  {
    hide Add;
    AddTwice(g.c0, k.c0);
    AddTwice(g.c1, k.c1);
    AddTwice(g.c2, k.c2);
    AddTwice(g.c3, k.c3);
  }

  /** Unmixing a mixed state under a round key leaves the state under the unmixed round key. */
  lemma {:induction false} MixedColumnUndone(x: Column, k: Column)
    ensures Add(InvMixColumn(Add(MixColumn(x), k)), InvMixColumn(k)) == x
  {
    hide Add, MixColumn, InvMixColumn;
    InvMixLinear(MixColumn(x), k);
    InvMixUndoesMix(x);
    AddTwice(x, InvMixColumn(k));
  }

  lemma {:induction false} MixedUndone(g: Grid, k: Grid)
    ensures AddRoundKey(InvMixColumns(AddRoundKey(MixColumns(g), k)), InvMixColumns(k)) == g
  {
    hide Add, MixColumn, InvMixColumn;
    MixedColumnUndone(g.c0, k.c0);
    MixedColumnUndone(g.c1, k.c1);
    MixedColumnUndone(g.c2, k.c2);
    MixedColumnUndone(g.c3, k.c3);
  }

  /**
   After r rounds the inverse cipher holds what the cipher had after SubBytes and ShiftRows, r rounds before its end.
   */
  lemma {:induction false} EqInvMirrors(bx: Boxes, g: Grid, ks: seq<Grid>, ds: seq<Grid>, r: nat)
    requires Inverse(bx) && DecryptionKeys(ks, ds) && r <= |ks| - 2
    ensures EqInvState(bx, Cipher(bx, g, ks), ds, r)
         == ShiftRows(SubBytes(bx, CipherState(bx, g, ks, |ks| - 2 - r)))
  {
    hide AddRoundKey, ShiftRows, SubBytes, InvShiftRows, InvSubBytes, MixColumns, InvMixColumns;
    var n := |ks| - 2;
    if r == 0 {
      KeyTwice(ShiftRows(SubBytes(bx, CipherState(bx, g, ks, n))), ks[n + 1]);
    } else {
      EqInvMirrors(bx, g, ks, ds, r - 1);
      var x := CipherState(bx, g, ks, n - r);
      var y := ShiftRows(SubBytes(bx, x));
      SubShiftUndone(bx, CipherState(bx, g, ks, n - r + 1));
      assert CipherState(bx, g, ks, n - r + 1) == AddRoundKey(MixColumns(y), ks[n - r + 1]);
      MixedUndone(y, ks[n - r + 1]);
    }
  }

  /** The equivalent inverse cipher undoes the cipher, for every block, key schedule and number of rounds. */
  lemma {:induction false} EqInvCipherUndoesCipher(bx: Boxes, g: Grid, ks: seq<Grid>, ds: seq<Grid>)
    requires Inverse(bx) && DecryptionKeys(ks, ds)
    ensures EqInvCipher(bx, Cipher(bx, g, ks), ds) == g
  {
    hide AddRoundKey, ShiftRows, SubBytes, InvShiftRows, InvSubBytes, MixColumns, InvMixColumns;
    EqInvMirrors(bx, g, ks, ds, |ks| - 2);
    SubShiftUndone(bx, CipherState(bx, g, ks, 0));
    KeyTwice(g, ks[0]);
  }
}
