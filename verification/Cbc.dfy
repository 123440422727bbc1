/**
 Cipher block chaining over chunks. The four loops of the template (two buffers or in place, encrypting or decrypting)
 and the equations of section 6.2 of NIST SP 800-38A, over block ciphers of any block size.
 */
module Cbc {
  import Arith

  datatype Byte = Byte(bits: bv8)

  type Block = seq<Byte>

  // ----- exclusive or

  function Xor(a: Byte, b: Byte): Byte {
    Byte(a.bits ^ b.bits)
  }

  lemma {:induction false} XorTwice(a: Byte, b: Byte)
    ensures Xor(Xor(a, b), b) == a
  {
  }

  lemma {:induction false} XorSwap(a: Byte, b: Byte)
    ensures Xor(a, b) == Xor(b, a)
  {
  }

  function XorBlock(x: Block, y: Block): (r: Block)
    requires |x| == |y|
    ensures |r| == |x|
  {
    seq(|x|, i requires 0 <= i < |x| => Xor(x[i], y[i]))
  }

  lemma XorBlockTwice(x: Block, y: Block)
    requires |x| == |y|
    ensures XorBlock(XorBlock(x, y), y) == x
  {
    hide Xor;
    forall i | 0 <= i < |x| ensures Xor(Xor(x[i], y[i]), y[i]) == x[i] {
      XorTwice(x[i], y[i]);
    }
  }

  lemma XorBlockSwap(x: Block, y: Block)
    requires |x| == |y|
    ensures XorBlock(x, y) == XorBlock(y, x)
  {
    hide Xor;
    forall i | 0 <= i < |x| ensures Xor(x[i], y[i]) == Xor(y[i], x[i]) {
      XorSwap(x[i], y[i]);
    }
  }

  // ----- the mode

  /** A block cipher under a key. */
  datatype Cipher = Cipher(bs: nat, enc: Block -> Block, dec: Block -> Block)

  /** Blocks go to blocks. */
  ghost predicate Sized(c: Cipher) {
    && c.bs > 0
    && (forall b: Block {:trigger c.enc(b)} :: |b| == c.bs ==> |c.enc(b)| == c.bs)
    && (forall b: Block {:trigger c.dec(b)} :: |b| == c.bs ==> |c.dec(b)| == c.bs)
  }

  /** Decryption of a block undoes encryption. */
  ghost predicate Inverse(c: Cipher) {
    forall b: Block {:trigger c.enc(b)} :: |b| == c.bs ==> c.dec(c.enc(b)) == b
  }

  /** One block: x encrypts p, chained with v. */
  ghost predicate EncStep(c: Cipher, v: Block, p: Block, x: Block) {
    |v| == c.bs && |p| == c.bs && x == c.enc(XorBlock(p, v))
  }

  /** One block: p decrypts x, chained with v. */
  ghost predicate DecStep(c: Cipher, v: Block, x: Block, p: Block) {
    |v| == c.bs && |x| == c.bs && |c.dec(x)| == c.bs && p == XorBlock(c.dec(x), v)
  }

  /** The block that is chained into block i. */
  function Before(iv: Block, cs: seq<Block>, i: nat): Block
    requires i <= |cs|
  {
    if i == 0 then iv else cs[i - 1]
  }

  function Last(iv: Block, cs: seq<Block>): Block {
    Before(iv, cs, |cs|)
  }

  /** The cipher blocks are the encryption of the plain blocks. */
  ghost predicate IsEnc(c: Cipher, iv: Block, ps: seq<Block>, cs: seq<Block>) {
    |ps| == |cs| && forall i :: 0 <= i < |ps| ==> EncStep(c, Before(iv, cs, i), ps[i], cs[i])
  }

  /** The plain blocks are the decryption of the cipher blocks. */
  ghost predicate IsDec(c: Cipher, iv: Block, cs: seq<Block>, ps: seq<Block>) {
    |ps| == |cs| && forall i :: 0 <= i < |cs| ==> DecStep(c, Before(iv, cs, i), cs[i], ps[i])
  }

  lemma StepBack(c: Cipher, v: Block, p: Block, x: Block, q: Block)
    requires Inverse(c) && EncStep(c, v, p, x) && DecStep(c, v, x, q)
    ensures q == p
  {
    XorBlockTwice(p, v);
  }

  lemma RoundTrip(c: Cipher, iv: Block, ps: seq<Block>, cs: seq<Block>, qs: seq<Block>)
    requires Inverse(c) && IsEnc(c, iv, ps, cs) && IsDec(c, iv, cs, qs)
    ensures qs == ps
  {
    hide Inverse, EncStep, DecStep;
    forall i | 0 <= i < |ps| ensures qs[i] == ps[i] {
      StepBack(c, Before(iv, cs, i), ps[i], cs[i], qs[i]);
    }
  }

  lemma BeforeConcat(iv: Block, cs: seq<Block>, cs': seq<Block>, i: nat)
    requires i <= |cs| + |cs'|
    ensures Before(iv, cs + cs', i) == if i <= |cs| then Before(iv, cs, i) else Before(Last(iv, cs), cs', i - |cs|)
    ensures i == |cs| ==> Before(iv, cs, i) == Before(Last(iv, cs), cs', 0)
  {
  }

  /** Going on with the last cipher block as the new iv is the same as one pass. */
  lemma EncConcat(c: Cipher, iv: Block, ps: seq<Block>, cs: seq<Block>, ps': seq<Block>, cs': seq<Block>)
    requires IsEnc(c, iv, ps, cs) && IsEnc(c, Last(iv, cs), ps', cs')
    ensures IsEnc(c, iv, ps + ps', cs + cs') && Last(iv, cs + cs') == Last(Last(iv, cs), cs')
  {
    hide EncStep, Before;
    BeforeConcat(iv, cs, cs', |cs| + |cs'|);
    forall i | 0 <= i < |ps + ps'| ensures EncStep(c, Before(iv, cs + cs', i), (ps + ps')[i], (cs + cs')[i]) {
      BeforeConcat(iv, cs, cs', i);
      if i < |ps| {
        assert EncStep(c, Before(iv, cs, i), ps[i], cs[i]);
      } else {
        assert EncStep(c, Before(Last(iv, cs), cs', i - |cs|), ps'[i - |cs|], cs'[i - |cs|]);
      }
    }
  }

  lemma DecConcat(c: Cipher, iv: Block, cs: seq<Block>, ps: seq<Block>, cs': seq<Block>, ps': seq<Block>)
    requires IsDec(c, iv, cs, ps) && IsDec(c, Last(iv, cs), cs', ps')
    ensures IsDec(c, iv, cs + cs', ps + ps') && Last(iv, cs + cs') == Last(Last(iv, cs), cs')
  {
    hide DecStep, Before;
    BeforeConcat(iv, cs, cs', |cs| + |cs'|);
    forall i | 0 <= i < |cs + cs'| ensures DecStep(c, Before(iv, cs + cs', i), (cs + cs')[i], (ps + ps')[i]) {
      BeforeConcat(iv, cs, cs', i);
      if i < |cs| {
        assert DecStep(c, Before(iv, cs, i), cs[i], ps[i]);
      } else {
        assert DecStep(c, Before(Last(iv, cs), cs', i - |cs|), cs'[i - |cs|], ps'[i - |cs|]);
      }
    }
  }

  function Flat(bss: seq<seq<Block>>): seq<Block> {
    if bss == [] then [] else bss[0] + Flat(bss[1..])
  }

  /** Chunk after chunk, each with the iv that the one before saved. */
  ghost predicate EncChunks(c: Cipher, iv: Block, pss: seq<seq<Block>>, css: seq<seq<Block>>)
    decreases |pss|
  {
    && |pss| == |css|
    && (pss == [] || (IsEnc(c, iv, pss[0], css[0]) && EncChunks(c, Last(iv, css[0]), pss[1..], css[1..])))
  }

  ghost predicate DecChunks(c: Cipher, iv: Block, css: seq<seq<Block>>, pss: seq<seq<Block>>)
    decreases |css|
  {
    && |pss| == |css|
    && (css == [] || (IsDec(c, iv, css[0], pss[0]) && DecChunks(c, Last(iv, css[0]), css[1..], pss[1..])))
  }

  lemma EncNone(c: Cipher, iv: Block)
    ensures IsEnc(c, iv, [], []) && IsDec(c, iv, [], [])
  {
  }

  lemma {:induction false} EncOnePass(c: Cipher, iv: Block, pss: seq<seq<Block>>, css: seq<seq<Block>>)
    requires EncChunks(c, iv, pss, css)
    ensures IsEnc(c, iv, Flat(pss), Flat(css))
    decreases |pss|
  {
    hide IsEnc, Last;
    if pss != [] {
      EncOnePass(c, Last(iv, css[0]), pss[1..], css[1..]);
      EncConcat(c, iv, pss[0], css[0], Flat(pss[1..]), Flat(css[1..]));
    } else {
      EncNone(c, iv);
    }
  }

  lemma {:induction false} DecOnePass(c: Cipher, iv: Block, css: seq<seq<Block>>, pss: seq<seq<Block>>)
    requires DecChunks(c, iv, css, pss)
    ensures IsDec(c, iv, Flat(css), Flat(pss))
    decreases |css|
  {
    hide IsDec, Last;
    if css != [] {
      DecOnePass(c, Last(iv, css[0]), css[1..], pss[1..]);
      DecConcat(c, iv, css[0], pss[0], Flat(css[1..]), Flat(pss[1..]));
    } else {
      EncNone(c, iv);
    }
  }

  /** Decryption undoes encryption, however either side splits the data into chunks. */
  lemma ChunkedRoundTrip(c: Cipher, iv: Block, pss: seq<seq<Block>>, css: seq<seq<Block>>, dss: seq<seq<Block>>,
                         qss: seq<seq<Block>>)
    requires Inverse(c) && EncChunks(c, iv, pss, css) && DecChunks(c, iv, dss, qss) && Flat(dss) == Flat(css)
    ensures Flat(qss) == Flat(pss)
  {
    hide Inverse, EncChunks, DecChunks, Flat, IsEnc, IsDec;
    EncOnePass(c, iv, pss, css);
    DecOnePass(c, iv, dss, qss);
    RoundTrip(c, iv, Flat(pss), Flat(css), Flat(qss));
  }

  /** The equations have one solution: how a pass is split does not show in the result. */
  lemma {:induction false} EncUnique(c: Cipher, iv: Block, ps: seq<Block>, cs: seq<Block>, cs': seq<Block>, i: nat)
    requires IsEnc(c, iv, ps, cs) && IsEnc(c, iv, ps, cs') && i < |ps|
    ensures cs[i] == cs'[i]
  {
    hide EncStep;
    assert EncStep(c, Before(iv, cs, i), ps[i], cs[i]) && EncStep(c, Before(iv, cs', i), ps[i], cs'[i]);
    if i > 0 {
      EncUnique(c, iv, ps, cs, cs', i - 1);
    }
    OneResult(c, Before(iv, cs, i), ps[i], cs[i], cs'[i]);
  }

  lemma OneResult(c: Cipher, v: Block, p: Block, x: Block, x': Block)
    requires EncStep(c, v, p, x) && EncStep(c, v, p, x')
    ensures x == x'
  {
  }

  // ----- blocks of a buffer

  /** The first m blocks. */
  function Blocks(s: seq<Byte>, bs: nat, m: nat): (r: seq<Block>)
    requires m * bs <= |s|
    ensures |r| == m
  {
    if m == 0 then [] else
    Below(m - 1, m, bs);
    Blocks(s, bs, m - 1) + [s[(m - 1) * bs..(m - 1) * bs + bs]]
  }

  lemma Below(i: nat, m: nat, bs: nat)
    requires i < m
    ensures i * bs + bs <= m * bs && (i + 1) * bs == i * bs + bs && i * bs >= 0
  {
    Arith.MulMono(bs, i + 1, m);
  }

  lemma {:induction false} BlockAt(s: seq<Byte>, bs: nat, m: nat, i: nat)
    requires m * bs <= |s| && i < m
    ensures i * bs + bs <= |s| && Blocks(s, bs, m)[i] == s[i * bs..i * bs + bs]
  {
    Below(m - 1, m, bs);
    Below(i, m, bs);
    if i < m - 1 {
      BlockAt(s, bs, m - 1, i);
    }
  }

  function Stored(s: seq<Byte>, k: nat, b: Block): seq<Byte>
    requires k + |b| <= |s|
  {
    s[..k] + b + s[k + |b|..]
  }

  /** Storing a block changes that block and no other. */
  lemma StoredBlocks(s: seq<Byte>, bs: nat, m: nat, i: nat, b: Block)
    requires m * bs <= |s| && i < m && |b| == bs
    ensures i * bs + bs <= |s| && Blocks(Stored(s, i * bs, b), bs, m) == Blocks(s, bs, m)[i := b]
  {
    Below(i, m, bs);
    var t := Stored(s, i * bs, b);
    var r := Blocks(t, bs, m);
    forall j | 0 <= j < m ensures r[j] == Blocks(s, bs, m)[i := b][j] {
      BlockAt(s, bs, m, j);
      BlockAt(t, bs, m, j);
      if j < i {
        Below(j, i, bs);
      } else if j > i {
        Below(i, j, bs);
      }
      SliceOf(s, i * bs, b, j * bs, bs);
    }
  }

  lemma SliceOf(s: seq<Byte>, k: nat, b: Block, l: nat, bs: nat)
    requires |b| == bs && k + bs <= |s| && l + bs <= |s| && (l + bs <= k || l == k || k + bs <= l)
    ensures Stored(s, k, b)[l..l + bs] == if l == k then b else s[l..l + bs]
  {
  }

  // ----- the primitives

  /** The second state of a buffer has size bytes of another one, from j, mixed in from i on. */
  ghost predicate Mixed(a: seq<Byte>, a': seq<Byte>, i: nat, b: seq<Byte>, j: nat, size: nat)
    requires i + size <= |a| && j + size <= |b|
  {
    |a'| == |a| && forall l :: 0 <= l < |a| ==> a'[l] == if i <= l < i + size then Xor(a[l], b[l - i + j]) else a[l]
  }

  lemma MixedMeans(a: seq<Byte>, a': seq<Byte>, i: nat, b: seq<Byte>, j: nat, size: nat)
    requires i + size <= |a| && j + size <= |b| && Mixed(a, a', i, b, j, size)
    ensures a' == Stored(a, i, XorBlock(a[i..i + size], b[j..j + size]))
  {
    hide Xor;
  }

  method CryptoXorByte(a: array<Byte>, i: nat, b: array<Byte>, j: nat, size: nat)
    requires i + size <= a.Length && j + size <= b.Length && (a != b || i + size <= j || j + size <= i)
    modifies a
    ensures Mixed(old(a[..]), a[..], i, old(b[..]), j, size)
  {
    hide Xor;
    var k := 0;
    while k < size
      invariant 0 <= k <= size
      invariant forall l :: 0 <= l < a.Length ==>
                              a[l] == if i <= l < i + k then Xor(old(a[..])[l], old(b[..])[l - i + j])
                                      else old(a[..])[l]
    {
      a[i + k] := Xor(a[i + k], b[j + k]);
      k := k + 1;
    }
  }

  method XorWord(a: array<Byte>, i: nat, b: array<Byte>, j: nat)
    requires i + 4 <= a.Length && j + 4 <= b.Length && (a != b || i + 4 <= j || j + 4 <= i)
    modifies a
    ensures Mixed(old(a[..]), a[..], i, old(b[..]), j, 4)
  {
    hide Xor;
    a[i], a[i + 1], a[i + 2], a[i + 3] :=
      Xor(a[i], b[j]), Xor(a[i + 1], b[j + 1]), Xor(a[i + 2], b[j + 2]), Xor(a[i + 3], b[j + 3]);
  }

  lemma MixedMore(a: seq<Byte>, a1: seq<Byte>, a2: seq<Byte>, i: nat, b: seq<Byte>, b1: seq<Byte>, j: nat, k: nat,
                  n: nat)
    requires i + k + n <= |a| && j + k + n <= |b| && |b1| == |b| && Mixed(a, a1, i, b, j, k)
    requires (forall l :: j + k <= l < j + k + n ==> b1[l] == b[l]) && |a1| == |a| && Mixed(a1, a2, i + k, b1, j + k, n)
    ensures Mixed(a, a2, i, b, j, k + n)
  {
    hide Xor;
  }

  /** Exclusive or of one buffer into another, four bytes at a time and then byte by byte. */
  method CryptoXor(a: array<Byte>, i: nat, b: array<Byte>, j: nat, size: nat)
    requires i + size <= a.Length && j + size <= b.Length && (a != b || i + size <= j || j + size <= i)
    modifies a
    ensures a[..] == Stored(old(a[..]), i, XorBlock(old(a[i..i + size]), old(b[j..j + size])))
  {
    hide Xor;
    var k := 0;
    ghost var a0, b0 := a[..], b[..];
    while size - k >= 4
      invariant 0 <= k <= size && Mixed(a0, a[..], i, b0, j, k)
      invariant forall l :: j <= l < j + size ==> b[l] == b0[l]
    {
      ghost var a1, b1 := a[..], b[..];
      XorWord(a, i + k, b, j + k);
      MixedMore(a0, a1, a[..], i, b0, b1, j, k, 4);
      k := k + 4;
    }
    ghost var a1, b1 := a[..], b[..];
    CryptoXorByte(a, i + k, b, j + k, size - k);
    MixedMore(a0, a1, a[..], i, b0, b1, j, k, size - k);
    MixedMeans(a0, a[..], i, b0, j, size);
  }

  method Store(a: array<Byte>, k: nat, b: Block)
    requires k + |b| <= a.Length
    modifies a
    ensures a[..] == Stored(old(a[..]), k, b)
  {
    forall l | 0 <= l < |b| {
      a[k + l] := b[l];
    }
  }

  // ----- the loops

  lemma WholeBlocks(nbytes: nat, bs: nat)
    requires bs > 0
    ensures nbytes / bs * bs <= nbytes < nbytes / bs * bs + bs && nbytes - nbytes / bs * bs == nbytes % bs
  {
  }

  /** The blocks a chunk of this many bytes holds. */
  function Held(s: seq<Byte>, bs: nat, nbytes: nat): (r: seq<Block>)
    requires bs > 0 && nbytes <= |s|
    ensures |r| == nbytes / bs
  {
    WholeBlocks(nbytes, bs);
    Blocks(s, bs, nbytes / bs)
  }

  ghost predicate EncUpTo(c: Cipher, iv: Block, ps: seq<Block>, cs: seq<Block>, m: nat) {
    m <= |ps| == |cs| && forall i :: 0 <= i < m ==> EncStep(c, Before(iv, cs, i), ps[i], cs[i])
  }

  lemma EncExtend(c: Cipher, iv: Block, ps: seq<Block>, cs: seq<Block>, m: nat, x: Block)
    requires EncUpTo(c, iv, ps, cs, m) && m < |ps| && EncStep(c, Before(iv, cs, m), ps[m], x)
    ensures EncUpTo(c, iv, ps, cs[m := x], m + 1) && Before(iv, cs[m := x], m + 1) == x
  {
    hide EncStep;
    forall i | 0 <= i <= m ensures EncStep(c, Before(iv, cs[m := x], i), ps[i], cs[m := x][i]) {
      assert Before(iv, cs[m := x], i) == Before(iv, cs, i);
    }
  }

  lemma StoredAll(s: seq<Byte>, b: Block)
    requires |b| == |s|
    ensures Stored(s, 0, b) == b
  {
  }

  lemma Untouched(s: seq<Byte>, k: nat, b: Block, l: nat)
    requires k + |b| <= l <= |s|
    ensures Stored(s, k, b)[l..] == s[l..]
  {
  }

  /** A step on a block: what the cipher makes of it. */
  lemma Encrypted(c: Cipher, v: Block, p: Block)
    requires Sized(c) && |v| == c.bs && |p| == c.bs
    ensures EncStep(c, v, p, c.enc(XorBlock(p, v))) && |c.enc(XorBlock(p, v))| == c.bs
            && XorBlock(v, p) == XorBlock(p, v)
  {
    XorBlockSwap(v, p);
  }

  lemma ChunkAt(s: seq<Byte>, bs: nat, nbytes: nat, m: nat)
    requires bs > 0 && nbytes <= |s| && m < nbytes / bs
    ensures m * bs + bs <= nbytes / bs * bs <= nbytes && Held(s, bs, nbytes)[m] == s[m * bs..m * bs + bs]
  {
    WholeBlocks(nbytes, bs);
    Below(m, nbytes / bs, bs);
    BlockAt(s, bs, nbytes / bs, m);
  }

  lemma ChunkStored(s: seq<Byte>, bs: nat, nbytes: nat, m: nat, b: Block)
    requires bs > 0 && nbytes <= |s| && m < nbytes / bs && |b| == bs
    ensures m * bs + bs <= |s| && |Stored(s, m * bs, b)| == |s|
    ensures Held(Stored(s, m * bs, b), bs, nbytes) == Held(s, bs, nbytes)[m := b]
    ensures Rest(s, Stored(s, m * bs, b), bs, nbytes)
  {
    WholeBlocks(nbytes, bs);
    Below(m, nbytes / bs, bs);
    StoredBlocks(s, bs, nbytes / bs, m, b);
    Untouched(s, m * bs, b, nbytes / bs * bs);
  }

  /** More than a block is left exactly when more whole blocks are. */
  lemma MoreBlocks(nbytes: nat, bs: nat, m: nat)
    requires bs > 0 && m < nbytes / bs
    ensures (m + 1) * bs == m * bs + bs
    ensures nbytes - (m + 1) * bs >= bs <==> m + 1 < nbytes / bs
    ensures m + 1 == nbytes / bs ==> nbytes - (m + 1) * bs == nbytes % bs
  {
    WholeBlocks(nbytes, bs);
    Below(m, m + 1, bs);
    if m + 1 < nbytes / bs {
      Below(m + 1, nbytes / bs, bs);
    }
  }

  lemma HasBlock(nbytes: nat, bs: nat)
    requires 0 < bs <= nbytes
    ensures 0 < nbytes / bs
  {
  }

  lemma NoneBefore(iv: Block, cs: seq<Block>)
    ensures Before(iv, cs, 0) == iv
  {
  }

  lemma UpToAll(c: Cipher, iv: Block, ps: seq<Block>, cs: seq<Block>)
    requires EncUpTo(c, iv, ps, cs, |ps|)
    ensures IsEnc(c, iv, ps, cs)
  {
    hide EncStep, Before;
  }

  /** One block from one buffer to another; the iv becomes the cipher block. */
  method EncryptBlock(c: Cipher, src: array<Byte>, dst: array<Byte>, iv: array<Byte>, k: nat) returns (ghost x: Block)
    requires Sized(c) && src != dst && iv != src && iv != dst && iv.Length == c.bs
    requires k + c.bs <= src.Length && k + c.bs <= dst.Length
    modifies dst, iv
    ensures EncStep(c, old(iv[..]), src[k..k + c.bs], x) && |x| == c.bs
    ensures dst[..] == Stored(old(dst[..]), k, x) && iv[..] == x
  {
    hide Sized, EncStep, XorBlock, Stored;
    ghost var v, p := iv[..], src[k..k + c.bs];
    Encrypted(c, v, p);
    StoredAll(v, XorBlock(v, p));
    assert iv[0..c.bs] == v;
    CryptoXor(iv, 0, src, k, c.bs);
    assert iv[..] == XorBlock(p, v);
    var y := c.enc(iv[..]);
    x := y;
    StoredAll(iv[..], y);
    Store(dst, k, y);
    Store(iv, 0, y);
  }

  method EncryptSegment(c: Cipher, src: array<Byte>, dst: array<Byte>, iv: array<Byte>, nbytes: nat) returns (left: nat)
    requires Sized(c) && src != dst && iv != src && iv != dst && iv.Length == c.bs
    requires 0 < c.bs <= nbytes <= src.Length && nbytes <= dst.Length
    modifies dst, iv
    ensures left == nbytes % c.bs
    ensures var cs := Held(dst[..], c.bs, nbytes);
            IsEnc(c, old(iv[..]), Held(src[..], c.bs, nbytes), cs) && iv[..] == Last(old(iv[..]), cs)
    ensures Rest(old(dst[..]), dst[..], c.bs, nbytes)
  {
    hide Sized, EncStep, EncUpTo, Stored, Held, Before, Rest;
    ghost var iv0, ps := iv[..], Held(src[..], c.bs, nbytes);
    var k: nat := 0;
    ghost var m: nat := 0;
    left := nbytes;
    HasBlock(nbytes, c.bs);
    NoneBefore(iv0, Held(dst[..], c.bs, nbytes));
    NoneUpTo(c, iv0, ps, Held(dst[..], c.bs, nbytes));
    RestSame(dst[..], c.bs, nbytes);
    while true
      invariant m < nbytes / c.bs && k == m * c.bs && left == nbytes - k
      invariant EncUpTo(c, iv0, ps, Held(dst[..], c.bs, nbytes), m)
      invariant iv[..] == Before(iv0, Held(dst[..], c.bs, nbytes), m)
      invariant Rest(old(dst[..]), dst[..], c.bs, nbytes)
      decreases left
    {
      ghost var d := dst[..];
      ChunkAt(src[..], c.bs, nbytes, m);
      ghost var x := EncryptBlock(c, src, dst, iv, k);
      ChunkStored(d, c.bs, nbytes, m, x);
      RestMore(old(dst[..]), d, dst[..], c.bs, nbytes);
      EncExtend(c, iv0, ps, Held(d, c.bs, nbytes), m, x);
      MoreBlocks(nbytes, c.bs, m);
      k, m := k + c.bs, m + 1;
      left := left - c.bs;
      if left < c.bs {
        break;
      }
    }
    UpToAll(c, iv0, ps, Held(dst[..], c.bs, nbytes));
  }

  /** Bytes after the last whole block are not touched. */
  ghost predicate Rest(s: seq<Byte>, s': seq<Byte>, bs: nat, nbytes: nat) {
    bs > 0 && |s| == |s'| && nbytes / bs * bs <= |s| && s'[nbytes / bs * bs..] == s[nbytes / bs * bs..]
  }

  lemma RestSame(s: seq<Byte>, bs: nat, nbytes: nat)
    requires bs > 0 && nbytes <= |s|
    ensures Rest(s, s, bs, nbytes)
  {
    WholeBlocks(nbytes, bs);
  }

  lemma RestMore(s: seq<Byte>, s1: seq<Byte>, s2: seq<Byte>, bs: nat, nbytes: nat)
    requires Rest(s, s1, bs, nbytes) && Rest(s1, s2, bs, nbytes)
    ensures Rest(s, s2, bs, nbytes)
  {
  }

  lemma NoneUpTo(c: Cipher, iv: Block, ps: seq<Block>, cs: seq<Block>)
    requires |ps| == |cs|
    ensures EncUpTo(c, iv, ps, cs, 0)
  {
  }

  /** Storing twice at one place leaves the second block. */
  lemma StoredTwice(s: seq<Byte>, k: nat, a: Block, b: Block)
    requires |a| == |b| && k + |a| <= |s|
    ensures |Stored(s, k, a)| == |s| && Stored(Stored(s, k, a), k, b) == Stored(s, k, b)
            && Stored(s, k, a)[k..k + |a|] == a
  {
  }

  /** One block in place, chained with a block elsewhere. */
  method EncryptBlockInPlace(c: Cipher, buf: array<Byte>, k: nat, from: array<Byte>, j: nat) returns (ghost x: Block)
    requires Sized(c) && k + c.bs <= buf.Length && j + c.bs <= from.Length && (from != buf || j + c.bs <= k)
    modifies buf
    ensures EncStep(c, old(from[j..j + c.bs]), old(buf[k..k + c.bs]), x) && |x| == c.bs
    ensures buf[..] == Stored(old(buf[..]), k, x)
  {
    hide Sized, EncStep, XorBlock, Stored;
    ghost var s, v, p := buf[..], from[j..j + c.bs], buf[k..k + c.bs];
    Encrypted(c, v, p);
    CryptoXor(buf, k, from, j, c.bs);
    StoredTwice(s, k, XorBlock(p, v), c.enc(XorBlock(p, v)));
    assert buf[k..k + c.bs] == buf[..][k..k + c.bs];
    var y := c.enc(buf[k..k + c.bs]);
    x := y;
    Store(buf, k, y);
  }

  method EncryptInPlace(c: Cipher, buf: array<Byte>, iv: array<Byte>, nbytes: nat) returns (left: nat)
    requires Sized(c) && iv != buf && iv.Length == c.bs && 0 < c.bs <= nbytes <= buf.Length
    modifies buf, iv
    ensures left == nbytes % c.bs
    ensures var cs := Held(buf[..], c.bs, nbytes);
            IsEnc(c, old(iv[..]), Held(old(buf[..]), c.bs, nbytes), cs) && iv[..] == Last(old(iv[..]), cs)
    ensures Rest(old(buf[..]), buf[..], c.bs, nbytes)
  {
    hide Sized, EncStep, EncUpTo, Stored, Held, Before, Rest;
    ghost var iv0, ps := iv[..], Held(buf[..], c.bs, nbytes);
    var k: nat := 0;
    ghost var m: nat := 0;
    left := nbytes;
    HasBlock(nbytes, c.bs);
    NoneUpTo(c, iv0, ps, ps);
    RestSame(buf[..], c.bs, nbytes);
    while true
      invariant m < nbytes / c.bs && k == m * c.bs && left == nbytes - k
      invariant EncUpTo(c, iv0, ps, Held(buf[..], c.bs, nbytes), m)
      invariant forall i :: m <= i < nbytes / c.bs ==> Held(buf[..], c.bs, nbytes)[i] == ps[i]
      invariant iv[..] == iv0 && Rest(old(buf[..]), buf[..], c.bs, nbytes)
      decreases left
    {
      ghost var d := buf[..];
      ChunkAt(d, c.bs, nbytes, m);
      ghost var x;
      BlockBefore(iv0, d, c.bs, nbytes, m);
      if k == 0 {
        x := EncryptBlockInPlace(c, buf, k, iv, 0);
      } else {
        x := EncryptBlockInPlace(c, buf, k, buf, k - c.bs);
      }
      ChunkStored(d, c.bs, nbytes, m, x);
      RestMore(old(buf[..]), d, buf[..], c.bs, nbytes);
      EncExtend(c, iv0, ps, Held(d, c.bs, nbytes), m, x);
      MoreBlocks(nbytes, c.bs, m);
      k, m := k + c.bs, m + 1;
      left := left - c.bs;
      if left < c.bs {
        break;
      }
    }
    UpToAll(c, iv0, ps, Held(buf[..], c.bs, nbytes));
    BlockBefore(iv0, buf[..], c.bs, nbytes, m);
    StoredAll(iv[..], buf[k - c.bs..k]);
    Store(iv, 0, buf[k - c.bs..k]);
  }

  /** The block before, as it lies in the buffer. */
  lemma BlockBefore(iv: Block, s: seq<Byte>, bs: nat, nbytes: nat, m: nat)
    requires bs > 0 && nbytes <= |s| && m <= nbytes / bs && |iv| == bs
    ensures m * bs <= |s| && (m == 0 <==> m * bs == 0) && (m > 0 ==> m * bs >= bs)
    ensures Before(iv, Held(s, bs, nbytes), m) == if m == 0 then iv[0..bs] else s[m * bs - bs..m * bs]
  {
    WholeBlocks(nbytes, bs);
    Arith.MulMono(bs, m, nbytes / bs);
    assert iv[0..bs] == iv;
    if m > 0 {
      Below(m - 1, m, bs);
      ChunkAt(s, bs, nbytes, m - 1);
    }
  }

  ghost predicate DecUpTo(c: Cipher, iv: Block, cs: seq<Block>, ps: seq<Block>, m: nat) {
    m <= |cs| == |ps| && forall i :: 0 <= i < m ==> DecStep(c, Before(iv, cs, i), cs[i], ps[i])
  }

  lemma DecExtend(c: Cipher, iv: Block, cs: seq<Block>, ps: seq<Block>, m: nat, p: Block)
    requires DecUpTo(c, iv, cs, ps, m) && m < |cs| && DecStep(c, Before(iv, cs, m), cs[m], p)
    ensures DecUpTo(c, iv, cs, ps[m := p], m + 1)
  {
    hide DecStep, Before;
  }

  lemma DecUpToAll(c: Cipher, iv: Block, cs: seq<Block>, ps: seq<Block>)
    requires |cs| == |ps|
    ensures DecUpTo(c, iv, cs, ps, 0)
    ensures DecUpTo(c, iv, cs, ps, |cs|) ==> IsDec(c, iv, cs, ps)
  {
    hide DecStep, Before;
  }

  lemma Decrypted(c: Cipher, v: Block, x: Block)
    requires Sized(c) && |v| == c.bs && |x| == c.bs
    ensures |c.dec(x)| == c.bs && DecStep(c, v, x, XorBlock(c.dec(x), v))
  {
  }

  /** One block from one buffer to another, chained with the block before, which lies elsewhere. */
  method DecryptBlock(c: Cipher, src: array<Byte>, dst: array<Byte>, k: nat, from: array<Byte>, j: nat)
    returns (ghost p: Block)
    requires Sized(c) && src != dst && from != dst
    requires k + c.bs <= src.Length && k + c.bs <= dst.Length && j + c.bs <= from.Length
    modifies dst
    ensures DecStep(c, from[j..j + c.bs], src[k..k + c.bs], p) && |p| == c.bs
    ensures dst[..] == Stored(old(dst[..]), k, p)
  {
    hide Sized, DecStep, XorBlock, Stored;
    var y := c.dec(src[k..k + c.bs]);
    ghost var s, v := dst[..], from[j..j + c.bs];
    Decrypted(c, v, src[k..k + c.bs]);
    StoredTwice(s, k, y, XorBlock(y, v));
    p := XorBlock(y, v);
    Store(dst, k, y);
    assert dst[k..k + c.bs] == dst[..][k..k + c.bs];
    CryptoXor(dst, k, from, j, c.bs);
  }

  method DecryptSegment(c: Cipher, src: array<Byte>, dst: array<Byte>, iv: array<Byte>, nbytes: nat) returns (left: nat)
    requires Sized(c) && src != dst && iv != src && iv != dst && iv.Length == c.bs
    requires 0 < c.bs <= nbytes <= src.Length && nbytes <= dst.Length
    modifies dst, iv
    ensures left == nbytes % c.bs
    ensures var cs := Held(src[..], c.bs, nbytes);
            IsDec(c, old(iv[..]), cs, Held(dst[..], c.bs, nbytes)) && iv[..] == Last(old(iv[..]), cs)
    ensures Rest(old(dst[..]), dst[..], c.bs, nbytes)
  {
    hide Sized, DecStep, DecUpTo, Stored, Held, Before, Rest;
    ghost var iv0, cs := iv[..], Held(src[..], c.bs, nbytes);
    var k: nat := 0;
    ghost var m: nat := 0;
    left := nbytes;
    HasBlock(nbytes, c.bs);
    DecUpToAll(c, iv0, cs, Held(dst[..], c.bs, nbytes));
    RestSame(dst[..], c.bs, nbytes);
    while true
      invariant m < nbytes / c.bs && k == m * c.bs && left == nbytes - k
      invariant DecUpTo(c, iv0, cs, Held(dst[..], c.bs, nbytes), m)
      invariant iv[..] == iv0 && Rest(old(dst[..]), dst[..], c.bs, nbytes)
      decreases left
    {
      ghost var d := dst[..];
      ChunkAt(src[..], c.bs, nbytes, m);
      BlockBefore(iv0, src[..], c.bs, nbytes, m);
      ghost var p;
      if k == 0 {
        p := DecryptBlock(c, src, dst, k, iv, 0);
      } else {
        p := DecryptBlock(c, src, dst, k, src, k - c.bs);
      }
      ChunkStored(d, c.bs, nbytes, m, p);
      RestMore(old(dst[..]), d, dst[..], c.bs, nbytes);
      DecExtend(c, iv0, cs, Held(d, c.bs, nbytes), m, p);
      MoreBlocks(nbytes, c.bs, m);
      k, m := k + c.bs, m + 1;
      left := left - c.bs;
      if left < c.bs {
        break;
      }
    }
    DecUpToAll(c, iv0, cs, Held(dst[..], c.bs, nbytes));
    BlockBefore(iv0, src[..], c.bs, nbytes, m);
    StoredAll(iv[..], src[k - c.bs..k]);
    Store(iv, 0, src[k - c.bs..k]);
  }

  /** Blocks from m on are decrypted, those below are as they were. */
  ghost predicate DecFrom(c: Cipher, iv: Block, cs: seq<Block>, bs: seq<Block>, m: nat) {
    && m <= |cs| == |bs|
    && (forall i :: m <= i < |cs| ==> DecStep(c, Before(iv, cs, i), cs[i], bs[i]))
    && (forall i :: 0 <= i < m ==> bs[i] == cs[i])
  }

  lemma DecFromStep(c: Cipher, iv: Block, cs: seq<Block>, bs: seq<Block>, m: nat, p: Block)
    requires DecFrom(c, iv, cs, bs, m + 1) && DecStep(c, Before(iv, cs, m), cs[m], p)
    ensures DecFrom(c, iv, cs, bs[m := p], m)
  {
    hide DecStep, Before;
  }

  lemma DecFromEnds(c: Cipher, iv: Block, cs: seq<Block>, bs: seq<Block>)
    ensures DecFrom(c, iv, cs, cs, |cs|)
    ensures DecFrom(c, iv, cs, bs, 0) ==> IsDec(c, iv, cs, bs)
  {
    hide DecStep, Before;
  }

  lemma DecFromBelow(c: Cipher, iv: Block, cs: seq<Block>, bs: seq<Block>, m: nat, i: nat)
    requires DecFrom(c, iv, cs, bs, m) && i < m
    ensures bs[i] == cs[i]
  {
  }

  /** One block in place, chained with a block that is not decrypted yet or with the iv. */
  method DecryptBlockInPlace(c: Cipher, buf: array<Byte>, k: nat, from: array<Byte>, j: nat) returns (ghost p: Block)
    requires Sized(c) && k + c.bs <= buf.Length && j + c.bs <= from.Length && (from != buf || j + c.bs <= k)
    modifies buf
    ensures DecStep(c, old(from[j..j + c.bs]), old(buf[k..k + c.bs]), p) && |p| == c.bs
    ensures buf[..] == Stored(old(buf[..]), k, p)
  {
    hide Sized, DecStep, XorBlock, Stored;
    ghost var s, v, x := buf[..], from[j..j + c.bs], buf[k..k + c.bs];
    Decrypted(c, v, x);
    var y := c.dec(buf[k..k + c.bs]);
    StoredTwice(s, k, y, XorBlock(y, v));
    p := XorBlock(y, v);
    Store(buf, k, y);
    assert buf[k..k + c.bs] == buf[..][k..k + c.bs];
    assert from[j..j + c.bs] == v by { Elsewhere(s, k, y, j, c.bs); }
    CryptoXor(buf, k, from, j, c.bs);
  }

  lemma Elsewhere(s: seq<Byte>, k: nat, b: Block, j: nat, bs: nat)
    requires |b| == bs && k + bs <= |s|
    ensures j + bs <= k ==> Stored(s, k, b)[j..j + bs] == s[j..j + bs]
  {
  }

  /** From the last block back to the second, so that the block before is still there when it is needed. */
  method DecryptDown(c: Cipher, buf: array<Byte>, nbytes: nat, ghost iv0: Block) returns (left: nat)
    requires Sized(c) && 0 < c.bs <= nbytes <= buf.Length && |iv0| == c.bs
    modifies buf
    ensures left == c.bs + nbytes % c.bs && 0 < nbytes / c.bs
    ensures DecFrom(c, iv0, Held(old(buf[..]), c.bs, nbytes), Held(buf[..], c.bs, nbytes), 1)
    ensures Rest(old(buf[..]), buf[..], c.bs, nbytes)
  {
    hide Sized, DecStep, DecFrom, Stored, Held, Before, Rest;
    ghost var cs := Held(buf[..], c.bs, nbytes);
    left := nbytes;
    HasBlock(nbytes, c.bs);
    WholeBlocks(nbytes, c.bs);
    ghost var m: nat := nbytes / c.bs - 1;
    Below(m, m + 1, c.bs);
    var k: nat := nbytes - nbytes % c.bs - c.bs;
    DecFromEnds(c, iv0, cs, cs);
    RestSame(buf[..], c.bs, nbytes);
    while left - c.bs >= c.bs
      invariant m < nbytes / c.bs && k == m * c.bs && left == k + c.bs + nbytes % c.bs
      invariant DecFrom(c, iv0, cs, Held(buf[..], c.bs, nbytes), m + 1)
      invariant Rest(old(buf[..]), buf[..], c.bs, nbytes)
      decreases left
    {
      ghost var d := buf[..];
      StepDown(m, c.bs, nbytes);
      Neighbours(c, iv0, cs, d, nbytes, m);
      ghost var p := DecryptBlockInPlace(c, buf, k, buf, k - c.bs);
      ChunkStored(d, c.bs, nbytes, m, p);
      RestMore(old(buf[..]), d, buf[..], c.bs, nbytes);
      DecFromStep(c, iv0, cs, Held(d, c.bs, nbytes), m, p);
      left := left - c.bs;
      k, m := k - c.bs, m - 1;
    }
    AtBottom(m, c.bs, nbytes, left);
  }

  lemma Neighbours(c: Cipher, iv: Block, cs: seq<Block>, d: seq<Byte>, nbytes: nat, m: nat)
    requires 0 < c.bs && nbytes <= |d| && 0 < m < nbytes / c.bs && DecFrom(c, iv, cs, Held(d, c.bs, nbytes), m + 1)
    ensures m * c.bs + c.bs <= |d| && (m - 1) * c.bs == m * c.bs - c.bs >= 0 && m < |cs|
    ensures cs[m] == d[m * c.bs..m * c.bs + c.bs] && Before(iv, cs, m) == d[m * c.bs - c.bs..m * c.bs]
  {
    hide DecStep, Held;
    ChunkAt(d, c.bs, nbytes, m);
    ChunkAt(d, c.bs, nbytes, m - 1);
    Below(m - 1, m, c.bs);
  }

  method DecryptInPlace(c: Cipher, buf: array<Byte>, iv: array<Byte>, nbytes: nat) returns (left: nat)
    requires Sized(c) && iv != buf && iv.Length == c.bs && 0 < c.bs <= nbytes <= buf.Length
    modifies buf, iv
    ensures left == nbytes % c.bs
    ensures var cs := Held(old(buf[..]), c.bs, nbytes);
            IsDec(c, old(iv[..]), cs, Held(buf[..], c.bs, nbytes)) && iv[..] == Last(old(iv[..]), cs)
    ensures Rest(old(buf[..]), buf[..], c.bs, nbytes)
  {
    hide Sized, DecStep, DecFrom, Stored, Held, Before, Rest;
    ghost var iv0, cs := iv[..], Held(buf[..], c.bs, nbytes);
    WholeBlocks(nbytes, c.bs);
    BlockBefore(iv0, buf[..], c.bs, nbytes, nbytes / c.bs);
    HasBlock(nbytes, c.bs);
    var k := nbytes - nbytes % c.bs - c.bs;
    var lastIv := buf[k..k + c.bs];
    left := DecryptDown(c, buf, nbytes, iv0);
    ghost var d := buf[..];
    ChunkAt(d, c.bs, nbytes, 0);
    DecFromBelow(c, iv0, cs, Held(d, c.bs, nbytes), 1, 0);
    NoneBefore(iv0, cs);
    assert iv[0..c.bs] == iv0;
    ghost var p := DecryptBlockInPlace(c, buf, 0, iv, 0);
    ChunkStored(d, c.bs, nbytes, 0, p);
    RestMore(old(buf[..]), d, buf[..], c.bs, nbytes);
    DecFromStep(c, iv0, cs, Held(d, c.bs, nbytes), 0, p);
    DecFromEnds(c, iv0, cs, Held(buf[..], c.bs, nbytes));
    StoredAll(iv[..], lastIv);
    Store(iv, 0, lastIv);
    left := left - c.bs;
  }

  lemma StepDown(m: nat, bs: nat, nbytes: nat)
    requires bs > 0 && m * bs + bs + nbytes % bs - bs >= bs
    ensures m > 0 && (m - 1) * bs == m * bs - bs
  {
  }

  lemma AtBottom(m: nat, bs: nat, nbytes: nat, left: nat)
    requires bs > 0 && left == m * bs + bs + nbytes % bs && left - bs < bs
    ensures m == 0 && m * bs == 0
  {
    if m > 0 {
      Below(0, m, bs);
    }
  }

  // ----- all chunks of a message

  /** A chunk, in place when both buffers are one. What is left after its last whole block begins the next chunk. */
  datatype Chunk = Chunk(src: array<Byte>, dst: array<Byte>, n: nat)

  ghost predicate ChunkOk(ch: Chunk, bs: nat, iv: array<Byte>) {
    && 0 < bs <= ch.n <= ch.src.Length && ch.n <= ch.dst.Length && ch.src != iv && ch.dst != iv
  }

  ghost function SrcBlocks(ch: Chunk, bs: nat, iv: array<Byte>): seq<Block>
    reads ch.src
    requires ChunkOk(ch, bs, iv)
  {
    Held(ch.src[..], bs, ch.n)
  }

  ghost function DstBlocks(ch: Chunk, bs: nat, iv: array<Byte>): seq<Block>
    reads ch.dst
    requires ChunkOk(ch, bs, iv)
  {
    Held(ch.dst[..], bs, ch.n)
  }

  /** No chunk writes where another one reads or writes. */
  ghost predicate Separate(chunks: seq<Chunk>) {
    forall i, j :: 0 <= i < |chunks| && 0 <= j < |chunks| && i != j ==>
      chunks[i].dst != chunks[j].dst && chunks[i].dst != chunks[j].src
  }

  lemma {:induction false} FlatSnoc(bss: seq<seq<Block>>, bs: seq<Block>)
    ensures Flat(bss + [bs]) == Flat(bss) + bs
  {
    if bss == [] {
      assert [] + [bs] == [bs];
    } else {
      FlatSnoc(bss[1..], bs);
      assert (bss + [bs])[1..] == bss[1..] + [bs];
    }
  }

  lemma LastNone(iv: Block)
    ensures Last(iv, []) == iv
  {
  }

  method EncryptChunk(c: Cipher, ch: Chunk, iv: array<Byte>)
    requires Sized(c) && iv.Length == c.bs && ChunkOk(ch, c.bs, iv)
    modifies ch.dst, iv
    ensures var cs := DstBlocks(ch, c.bs, iv);
            IsEnc(c, old(iv[..]), old(SrcBlocks(ch, c.bs, iv)), cs) && iv[..] == Last(old(iv[..]), cs)
  {
    hide IsEnc, Last, Held;
    if ch.src == ch.dst {
      var _ := EncryptInPlace(c, ch.dst, iv, ch.n);
    } else {
      var _ := EncryptSegment(c, ch.src, ch.dst, iv, ch.n);
    }
  }

  method DecryptChunk(c: Cipher, ch: Chunk, iv: array<Byte>)
    requires Sized(c) && iv.Length == c.bs && ChunkOk(ch, c.bs, iv)
    modifies ch.dst, iv
    ensures var cs := old(SrcBlocks(ch, c.bs, iv));
            IsDec(c, old(iv[..]), cs, DstBlocks(ch, c.bs, iv)) && iv[..] == Last(old(iv[..]), cs)
  {
    hide IsDec, Last, Held;
    if ch.src == ch.dst {
      var _ := DecryptInPlace(c, ch.dst, iv, ch.n);
    } else {
      var _ := DecryptSegment(c, ch.src, ch.dst, iv, ch.n);
    }
  }

  /**
   The loop over a message: whatever the chunks and whichever are in place, the result is one pass over all blocks.
   */
  method Encrypt(c: Cipher, chunks: seq<Chunk>, iv: array<Byte>)
    returns (ghost ps: seq<seq<Block>>, ghost cs: seq<seq<Block>>)
    requires Sized(c) && iv.Length == c.bs && Separate(chunks)
    requires forall i :: 0 <= i < |chunks| ==> ChunkOk(chunks[i], c.bs, iv)
    modifies iv, set i | 0 <= i < |chunks| :: chunks[i].dst
    ensures |ps| == |cs| == |chunks|
    ensures forall i :: 0 <= i < |chunks| ==> ps[i] == old(SrcBlocks(chunks[i], c.bs, iv))
    ensures forall i :: 0 <= i < |chunks| ==> cs[i] == DstBlocks(chunks[i], c.bs, iv)
    ensures IsEnc(c, old(iv[..]), Flat(ps), Flat(cs)) && iv[..] == Last(old(iv[..]), Flat(cs))
  {
    hide IsEnc, Last, Held;
    ps, cs := [], [];
    EncNone(c, iv[..]);
    LastNone(iv[..]);
    var k := 0;
    while k < |chunks|
      invariant 0 <= k <= |chunks| && |ps| == |cs| == k
      invariant forall i :: 0 <= i < k ==> ps[i] == old(SrcBlocks(chunks[i], c.bs, iv))
      invariant forall i :: 0 <= i < k ==> cs[i] == DstBlocks(chunks[i], c.bs, iv)
      invariant forall i :: k <= i < |chunks| ==> SrcBlocks(chunks[i], c.bs, iv) == old(SrcBlocks(chunks[i], c.bs, iv))
      invariant IsEnc(c, old(iv[..]), Flat(ps), Flat(cs)) && iv[..] == Last(old(iv[..]), Flat(cs))
    {
      ghost var p := SrcBlocks(chunks[k], c.bs, iv);
      EncryptChunk(c, chunks[k], iv);
      ghost var x := DstBlocks(chunks[k], c.bs, iv);
      EncConcat(c, old(iv[..]), Flat(ps), Flat(cs), p, x);
      FlatSnoc(ps, p);
      FlatSnoc(cs, x);
      ps, cs, k := ps + [p], cs + [x], k + 1;
    }
  }

  method Decrypt(c: Cipher, chunks: seq<Chunk>, iv: array<Byte>)
    returns (ghost cs: seq<seq<Block>>, ghost ps: seq<seq<Block>>)
    requires Sized(c) && iv.Length == c.bs && Separate(chunks)
    requires forall i :: 0 <= i < |chunks| ==> ChunkOk(chunks[i], c.bs, iv)
    modifies iv, set i | 0 <= i < |chunks| :: chunks[i].dst
    ensures |ps| == |cs| == |chunks|
    ensures forall i :: 0 <= i < |chunks| ==> cs[i] == old(SrcBlocks(chunks[i], c.bs, iv))
    ensures forall i :: 0 <= i < |chunks| ==> ps[i] == DstBlocks(chunks[i], c.bs, iv)
    ensures IsDec(c, old(iv[..]), Flat(cs), Flat(ps)) && iv[..] == Last(old(iv[..]), Flat(cs))
  {
    hide IsDec, Last, Held;
    ps, cs := [], [];
    EncNone(c, iv[..]);
    LastNone(iv[..]);
    var k := 0;
    while k < |chunks|
      invariant 0 <= k <= |chunks| && |ps| == |cs| == k
      invariant forall i :: 0 <= i < k ==> cs[i] == old(SrcBlocks(chunks[i], c.bs, iv))
      invariant forall i :: 0 <= i < k ==> ps[i] == DstBlocks(chunks[i], c.bs, iv)
      invariant forall i :: k <= i < |chunks| ==> SrcBlocks(chunks[i], c.bs, iv) == old(SrcBlocks(chunks[i], c.bs, iv))
      invariant IsDec(c, old(iv[..]), Flat(cs), Flat(ps)) && iv[..] == Last(old(iv[..]), Flat(cs))
    {
      ghost var x := SrcBlocks(chunks[k], c.bs, iv);
      DecryptChunk(c, chunks[k], iv);
      ghost var p := DstBlocks(chunks[k], c.bs, iv);
      DecConcat(c, old(iv[..]), Flat(cs), Flat(ps), x, p);
      FlatSnoc(ps, p);
      FlatSnoc(cs, x);
      ps, cs, k := ps + [p], cs + [x], k + 1;
    }
  }
}
