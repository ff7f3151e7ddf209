/**
 A digest worked out on the native machine: the rounds on the sixteen words of a block, the words of a padded
 message, and the digests of messages of one and of two blocks.
 */
module Md4Blocks {
  import opened Bits
  import opened Words
  import opened Md4Spec
  import opened Md4Native

  /** The words of a block. */
  datatype Words16 = Words16(
    w0: bv32, w1: bv32, w2: bv32, w3: bv32, w4: bv32, w5: bv32, w6: bv32, w7: bv32,
    w8: bv32, w9: bv32, w10: bv32, w11: bv32, w12: bv32, w13: bv32, w14: bv32, w15: bv32)

  function FourF(q: Regs<bv32>, x0: bv32, x1: bv32, x2: bv32, x3: bv32): Regs<bv32> {
    var a := Turn3(Sum(q.a, Sum(MixF(q.b, q.c, q.d), x0)));
    var d := Turn7(Sum(q.d, Sum(MixF(a, q.b, q.c), x1)));
    var c := Turn11(Sum(q.c, Sum(MixF(d, a, q.b), x2)));
    var b := Turn19(Sum(q.b, Sum(MixF(c, d, a), x3)));
    Regs(a, b, c, d)
  }

  function FourG(q: Regs<bv32>, x0: bv32, x1: bv32, x2: bv32, x3: bv32): Regs<bv32> {
    var a := Turn3(Sum(q.a, Sum(MixG(q.b, q.c, q.d), Sum(x0, 0x5a82_7999))));
    var d := Turn5(Sum(q.d, Sum(MixG(a, q.b, q.c), Sum(x1, 0x5a82_7999))));
    var c := Turn9(Sum(q.c, Sum(MixG(d, a, q.b), Sum(x2, 0x5a82_7999))));
    var b := Turn13(Sum(q.b, Sum(MixG(c, d, a), Sum(x3, 0x5a82_7999))));
    Regs(a, b, c, d)
  }

  function FourH(q: Regs<bv32>, x0: bv32, x1: bv32, x2: bv32, x3: bv32): Regs<bv32> {
    var a := Turn3(Sum(q.a, Sum(MixH(q.b, q.c, q.d), Sum(x0, 0x6ed9_eba1))));
    var d := Turn9(Sum(q.d, Sum(MixH(a, q.b, q.c), Sum(x1, 0x6ed9_eba1))));
    var c := Turn11(Sum(q.c, Sum(MixH(d, a, q.b), Sum(x2, 0x6ed9_eba1))));
    var b := Turn15(Sum(q.b, Sum(MixH(c, d, a), Sum(x3, 0x6ed9_eba1))));
    Regs(a, b, c, d)
  }

  function RoundF(q: Regs<bv32>, x: Words16): Regs<bv32> {
    var q1 := FourF(q, x.w0, x.w1, x.w2, x.w3);
    var q2 := FourF(q1, x.w4, x.w5, x.w6, x.w7);
    var q3 := FourF(q2, x.w8, x.w9, x.w10, x.w11);
    FourF(q3, x.w12, x.w13, x.w14, x.w15)
  }

  function RoundG(q: Regs<bv32>, x: Words16): Regs<bv32> {
    var q1 := FourG(q, x.w0, x.w4, x.w8, x.w12);
    var q2 := FourG(q1, x.w1, x.w5, x.w9, x.w13);
    var q3 := FourG(q2, x.w2, x.w6, x.w10, x.w14);
    FourG(q3, x.w3, x.w7, x.w11, x.w15)
  }

  function RoundH(q: Regs<bv32>, x: Words16): Regs<bv32> {
    var q1 := FourH(q, x.w0, x.w8, x.w4, x.w12);
    var q2 := FourH(q1, x.w2, x.w10, x.w6, x.w14);
    var q3 := FourH(q2, x.w1, x.w9, x.w5, x.w13);
    FourH(q3, x.w3, x.w11, x.w7, x.w15)
  }

  lemma FourFIsNative(q: Regs<bv32>, x0: bv32, x1: bv32, x2: bv32, x3: bv32)
    ensures FourF(q, x0, x1, x2, x3) ==
            Four(NATIVE, MixF, q, x0, x1, x2, x3, 3, 7, 11, 19)
  {
    hide Sum, MixF, Turn3, Turn7, Turn11, Turn19;
  }

  lemma FourGIsNative(q: Regs<bv32>, x0: bv32, x1: bv32, x2: bv32, x3: bv32)
    ensures FourG(q, x0, x1, x2, x3) ==
            Four(NATIVE, MixG, q, Sum(x0, NATIVE.g0), Sum(x1, NATIVE.g0), Sum(x2, NATIVE.g0), Sum(x3, NATIVE.g0),
                 3, 5, 9, 13)
  {
    hide Sum, MixG, Turn3, Turn5, Turn9, Turn13;
  }

  lemma FourHIsNative(q: Regs<bv32>, x0: bv32, x1: bv32, x2: bv32, x3: bv32)
    ensures FourH(q, x0, x1, x2, x3) ==
            Four(NATIVE, MixH, q, Sum(x0, NATIVE.h0), Sum(x1, NATIVE.h0), Sum(x2, NATIVE.h0), Sum(x3, NATIVE.h0),
                 3, 9, 11, 15)
  {
    hide Sum, MixH, Turn3, Turn9, Turn11, Turn15;
  }

  function WordAt(x: Words16, k: nat): bv32
    requires k < 16
  {
    if k < 8 then
      if k < 4 then if k < 2 then if k == 0 then x.w0 else x.w1 else if k == 2 then x.w2 else x.w3
      else if k < 6 then if k == 4 then x.w4 else x.w5 else if k == 6 then x.w6 else x.w7
    else if k < 12 then if k < 10 then if k == 8 then x.w8 else x.w9 else if k == 10 then x.w10 else x.w11
    else if k < 14 then if k == 12 then x.w12 else x.w13 else if k == 14 then x.w14 else x.w15
  }

  function Listed(x: Words16): (words: seq<bv32>)
    ensures |words| == 16
  {
    seq(16, k requires 0 <= k < 16 => WordAt(x, k))
  }

  lemma ListedWords(x: Words16)
    ensures var y := Listed(x);
      && y[0] == x.w0 && y[1] == x.w1 && y[2] == x.w2 && y[3] == x.w3 && y[4] == x.w4 && y[5] == x.w5 && y[6] == x.w6
      && y[7] == x.w7 && y[8] == x.w8 && y[9] == x.w9 && y[10] == x.w10 && y[11] == x.w11 && y[12] == x.w12
      && y[13] == x.w13 && y[14] == x.w14 && y[15] == x.w15
  {
  }

  /** The words of a round with its constant added. */
  lemma AddedAt(x: Words16, k: bv32, i: nat)
    requires i < 16
    ensures AddAll(NATIVE, Listed(x), k)[i] == Sum(Listed(x)[i], k)
  {
    hide Sum, Listed;
  }

  lemma RoundFIsNative(q: Regs<bv32>, x: Words16)
    ensures RoundF(q, x) == Round1(NATIVE, q, Listed(x))
  {
    hide FourF, Four, Listed;
    ListedWords(x);
    var q1 := FourF(q, x.w0, x.w1, x.w2, x.w3);
    var q2 := FourF(q1, x.w4, x.w5, x.w6, x.w7);
    var q3 := FourF(q2, x.w8, x.w9, x.w10, x.w11);
    FourFIsNative(q, x.w0, x.w1, x.w2, x.w3);
    FourFIsNative(q1, x.w4, x.w5, x.w6, x.w7);
    FourFIsNative(q2, x.w8, x.w9, x.w10, x.w11);
    FourFIsNative(q3, x.w12, x.w13, x.w14, x.w15);
  }

  lemma RoundGIsNative(q: Regs<bv32>, x: Words16)
    ensures RoundG(q, x) == Round2(NATIVE, q, AddAll(NATIVE, Listed(x), NATIVE.g0))
  {
    hide FourG, Four, AddAll, Sum, Listed;
    ListedWords(x);
    forall i | 0 <= i < 16 ensures AddAll(NATIVE, Listed(x), NATIVE.g0)[i] == Sum(Listed(x)[i], NATIVE.g0) {
      AddedAt(x, NATIVE.g0, i);
    }
    var q1 := FourG(q, x.w0, x.w4, x.w8, x.w12);
    var q2 := FourG(q1, x.w1, x.w5, x.w9, x.w13);
    var q3 := FourG(q2, x.w2, x.w6, x.w10, x.w14);
    FourGIsNative(q, x.w0, x.w4, x.w8, x.w12);
    FourGIsNative(q1, x.w1, x.w5, x.w9, x.w13);
    FourGIsNative(q2, x.w2, x.w6, x.w10, x.w14);
    FourGIsNative(q3, x.w3, x.w7, x.w11, x.w15);
  }

  lemma RoundHIsNative(q: Regs<bv32>, x: Words16)
    ensures RoundH(q, x) == Round3(NATIVE, q, AddAll(NATIVE, Listed(x), NATIVE.h0))
  {
    hide FourH, Four, AddAll, Sum, Listed;
    ListedWords(x);
    forall i | 0 <= i < 16 ensures AddAll(NATIVE, Listed(x), NATIVE.h0)[i] == Sum(Listed(x)[i], NATIVE.h0) {
      AddedAt(x, NATIVE.h0, i);
    }
    var q1 := FourH(q, x.w0, x.w8, x.w4, x.w12);
    var q2 := FourH(q1, x.w2, x.w10, x.w6, x.w14);
    var q3 := FourH(q2, x.w1, x.w9, x.w5, x.w13);
    FourHIsNative(q, x.w0, x.w8, x.w4, x.w12);
    FourHIsNative(q1, x.w2, x.w10, x.w6, x.w14);
    FourHIsNative(q2, x.w1, x.w9, x.w5, x.w13);
    FourHIsNative(q3, x.w3, x.w11, x.w7, x.w15);
  }

  /** The four bytes at i spell the number that w stands for. */
  predicate Spells(bytes: seq<byte>, i: nat, w: bv32)
    requires i + 4 <= |bytes|
  {
    WordOf(bytes[i], bytes[i + 1], bytes[i + 2], bytes[i + 3]) == Value(w)
  }

  predicate Quarter(bytes: seq<byte>, i: nat, w0: bv32, w1: bv32, w2: bv32, w3: bv32)
    requires i + 16 <= |bytes|
  {
    Spells(bytes, i, w0) && Spells(bytes, i + 4, w1) && Spells(bytes, i + 8, w2) && Spells(bytes, i + 12, w3)
  }

  /** The 64 bytes at i are the words of x. */
  predicate Holds(bytes: seq<byte>, i: nat, x: Words16)
    requires i + 64 <= |bytes|
  {
    && Quarter(bytes, i, x.w0, x.w1, x.w2, x.w3) && Quarter(bytes, i + 16, x.w4, x.w5, x.w6, x.w7)
    && Quarter(bytes, i + 32, x.w8, x.w9, x.w10, x.w11) && Quarter(bytes, i + 48, x.w12, x.w13, x.w14, x.w15)
  }

  lemma HeldQuarters(bytes: seq<byte>, i: nat, x: Words16)
    requires i + 64 <= |bytes|
    requires Quarter(bytes, i, x.w0, x.w1, x.w2, x.w3) && Quarter(bytes, i + 16, x.w4, x.w5, x.w6, x.w7)
    requires Quarter(bytes, i + 32, x.w8, x.w9, x.w10, x.w11) && Quarter(bytes, i + 48, x.w12, x.w13, x.w14, x.w15)
    ensures Holds(bytes, i, x)
  {
    hide Quarter;
  }

  lemma HeldAt(bytes: seq<byte>, i: nat, x: Words16, k: nat)
    requires i + 64 <= |bytes| && Holds(bytes, i, x) && k < 16
    ensures Spells(bytes, i + 4 * k, WordAt(x, k))
  {
    hide Spells;
  }

  lemma BlockIsNative(bytes: seq<byte>, i: nat, x: Words16)
    requires i + 64 <= |bytes| && Holds(bytes, i, x)
    ensures LoadBlock(NATIVE, bytes[i..i + 64]) == Listed(x)
  {
    hide WordAt, Holds, WordOf, Value, OfWord;
    forall k | 0 <= k < 16 ensures LoadBlock(NATIVE, bytes[i..i + 64])[k] == Listed(x)[k] {
      HeldAt(bytes, i, x, k);
      OfWordValue(Value(WordAt(x, k)));
      SameValue(LoadWord(NATIVE, bytes[i..i + 64], k), WordAt(x, k));
    }
  }

  lemma CompressGoes<W>(m: Machine<W>, q: Regs<W>, block: Block, x: seq<W>, q1: Regs<W>, q2: Regs<W>, q3: Regs<W>)
    requires |x| == 16 && LoadBlock(m, block) == x && Round1(m, q, x) == q1
    requires Round2(m, q1, AddAll(m, x, m.g0)) == q2 && Round3(m, q2, AddAll(m, x, m.h0)) == q3
    ensures Compress(m, q, block) == AddRegs(m, q3, q)
  {
  }

  lemma OneBlock<W>(m: Machine<W>, q: Regs<W>, bytes: seq<byte>)
    requires |bytes| == 64
    ensures Fold(Compressor(m), q, bytes) == Compress(m, q, bytes[0..64])
  {
    hide Compress;
    assert bytes[..64] == bytes[0..64] && bytes[64..] == [];
  }

  lemma TwoBlocks<W>(m: Machine<W>, q: Regs<W>, bytes: seq<byte>)
    requires |bytes| == 128
    ensures Fold(Compressor(m), q, bytes) == Compress(m, Compress(m, q, bytes[0..64]), bytes[64..128])
  {
    hide Fold, Compress, Compressor;
    var x, y := bytes[0..64], bytes[64..128];
    assert x[0..64] == x && y[0..64] == y && bytes == x + y;
    FoldConcat(Compressor(m), q, x, y);
    OneBlock(m, q, x);
    OneBlock(m, Compress(m, q, x), y);
  }

  // ---------- messages ----------

  /** The codes of the characters. */
  function Ascii(s: string): (bytes: seq<byte>)
    ensures |bytes| == |s|
  {
    seq(|s|, i requires 0 <= i < |s| => (s[i] as int % 256) as byte)
  }

  function Padded(message: seq<byte>): seq<byte> {
    message + Padding(|message|)
  }

  function PaddedLength(message: seq<byte>): nat { if |message| < 56 then 64 else 128 }

  /** Byte i of a message of less than 120 bytes with its padding. */
  function PaddedByte(message: seq<byte>, i: nat): byte {
    var n := |message|;
    if i < n then message[i]
    else if i == n then 0x80
    else if i == PaddedLength(message) - 8 then (8 * n % 256) as byte
    else if i == PaddedLength(message) - 7 then (8 * n / 256 % 256) as byte
    else 0
  }

  lemma SmallCount(n: nat)
    requires n < 120
    ensures 8 * n % 0x1_0000_0000_0000_0000 == 8 * n && 8 * n % 0x1_0000_0000 == 8 * n && 8 * n / 0x1_0000_0000 == 0
    ensures LittleEndian(8 * n) == [(8 * n % 256) as byte, (8 * n / 256 % 256) as byte, 0, 0]
    ensures LittleEndian(0) == [0, 0, 0, 0]
    ensures n < 56 ==> (55 - n) % 64 == 55 - n
    ensures n >= 56 ==> (55 - n) % 64 == 119 - n
  {
  }

  lemma PaddedBytes(message: seq<byte>)
    requires |message| < 120
    ensures |Padded(message)| == PaddedLength(message)
    ensures forall i :: 0 <= i < |Padded(message)| ==> Padded(message)[i] == PaddedByte(message, i)
  {
    hide LittleEndian;
    SmallCount(|message|);
  }

  lemma RoundsAreNative(q: Regs<bv32>, x: Words16, q1: Regs<bv32>, q2: Regs<bv32>, q3: Regs<bv32>)
    requires RoundF(q, x) == q1 && RoundG(q1, x) == q2 && RoundH(q2, x) == q3
    ensures Round1(NATIVE, q, Listed(x)) == q1 && Round2(NATIVE, q1, AddAll(NATIVE, Listed(x), NATIVE.g0)) == q2
    ensures Round3(NATIVE, q2, AddAll(NATIVE, Listed(x), NATIVE.h0)) == q3
  {
    hide Listed, AddAll, RoundF, RoundG, RoundH, Round1, Round2, Round3;
    RoundFIsNative(q, x);
    RoundGIsNative(q1, x);
    RoundHIsNative(q2, x);
  }

  lemma DigestIs<W>(m: Machine<W>, message: seq<byte>)
    ensures DigestOn(m, message) == Store(m, Fold(Compressor(m), m.start, Padded(message)))
  {
    hide Fold, Store;
  }

  lemma ZeroSpelt()
    ensures WordOf(0, 0, 0, 0) == Value(0)
  {
  }

  lemma ZeroWord(message: seq<byte>, i: nat)
    requires |message| < i && i + 12 <= PaddedLength(message) && |message| < 120
    ensures |Padded(message)| == PaddedLength(message) && Spells(Padded(message), i, 0)
  {
    hide Padded, WordOf, Value;
    PaddedBytes(message);
    ZeroSpelt();
  }

  lemma ZeroQuarter(message: seq<byte>, i: nat)
    requires |message| < i && i + 24 <= PaddedLength(message) && |message| < 120
    ensures |Padded(message)| == PaddedLength(message) && Quarter(Padded(message), i, 0, 0, 0, 0)
  {
    hide Padded, Spells;
    ZeroWord(message, i);
    ZeroWord(message, i + 4);
    ZeroWord(message, i + 8);
    ZeroWord(message, i + 12);
  }

  /** The last quarter, where it holds nothing but the count of bits. */
  lemma LastQuarter(message: seq<byte>, w: bv32)
    requires |message| < PaddedLength(message) - 16 && Value(w) == 8 * |message|
    ensures var b := Padded(message);
      && |b| == PaddedLength(message) && Quarter(b, |b| - 16, 0, 0, w, 0)
  {
    hide Padded, WordOf, Value;
    var i := PaddedLength(message) - 16;
    PaddedBytes(message);
    ZeroWord(message, i);
    ZeroWord(message, i + 4);
    ZeroSpelt();
    CountSpelt(8 * |message|);
  }

  lemma CountSpelt(bits: nat)
    requires bits < 960
    ensures WordOf((bits % 256) as byte, (bits / 256 % 256) as byte, 0, 0) == bits
  {
    Divide(bits, 256);
  }

  const START: Regs<bv32> := Regs(0x6745_2301, 0xefcd_ab89, 0x98ba_dcfe, 0x1032_5476)

  /** The digest is the sum of the registers p before the last block and q after its rounds. */
  predicate Ends(digest: seq<byte>, p: Regs<bv32>, q: Regs<bv32>) {
    && |digest| == 16
    && Quarter(digest, 0, Sum(q.a, p.a), Sum(q.b, p.b), Sum(q.c, p.c), Sum(q.d, p.d))
  }

  lemma StoredWord(bytes: seq<byte>, i: nat, w: bv32)
    requires i + 4 <= |bytes| && Spells(bytes, i, w)
    ensures StoreWord(w) == bytes[i..i + 4]
  {
    hide Value;
    var b0, b1, b2, b3 := bytes[i] as nat, bytes[i + 1] as nat, bytes[i + 2] as nat, bytes[i + 3] as nat;
    Division(Value(w), 256, b1 + 256 * b2 + 0x1_0000 * b3, b0);
    Division(Value(w), 0x1_0000, b2 + 256 * b3, b0 + 256 * b1);
    Division(Value(w), 0x100_0000, b3, b0 + 256 * b1 + 0x1_0000 * b2);
    Division(b1 + 256 * b2 + 0x1_0000 * b3, 256, b2 + 256 * b3, b1);
    Division(b2 + 256 * b3, 256, b3, b2);
  }

  lemma StoredSum(digest: seq<byte>, p: Regs<bv32>, q: Regs<bv32>)
    requires Ends(digest, p, q)
    ensures Store(NATIVE, AddRegs(NATIVE, q, p)) == digest
  {
    hide StoreWord, Spells, Sum;
    StoredWord(digest, 0, Sum(q.a, p.a));
    StoredWord(digest, 4, Sum(q.b, p.b));
    StoredWord(digest, 8, Sum(q.c, p.c));
    StoredWord(digest, 12, Sum(q.d, p.d));
    assert digest == digest[0..4] + digest[4..8] + digest[8..12] + digest[12..16];
  }

  lemma StartIs()
    ensures NATIVE.start == START
  {
  }

  lemma OneBlockDigest(message: seq<byte>, digest: seq<byte>,
      x: Words16, q1: Regs<bv32>, q2: Regs<bv32>, q3: Regs<bv32>)
    requires |Padded(message)| == 64 && Holds(Padded(message), 0, x)
    requires RoundF(START, x) == q1 && RoundG(q1, x) == q2 && RoundH(q2, x) == q3
    requires Ends(digest, START, q3)
    ensures Digest(message) == digest
  {
    hide *;
    StartIs();
    NativeIsTextbook(message);
    DigestIs(NATIVE, message);
    OneBlock(NATIVE, START, Padded(message));
    BlockIsNative(Padded(message), 0, x);
    RoundsAreNative(START, x, q1, q2, q3);
    CompressGoes(NATIVE, START, Padded(message)[0..64], Listed(x), q1, q2, q3);
    StoredSum(digest, START, q3);
  }

  /** The registers p after a block: those before it and those after its rounds, added. */
  predicate Adds(p: Regs<bv32>, q: Regs<bv32>, r: Regs<bv32>) {
    p == Regs(Sum(r.a, q.a), Sum(r.b, q.b), Sum(r.c, q.c), Sum(r.d, q.d))
  }

  lemma AddedRegs(p: Regs<bv32>, q: Regs<bv32>, r: Regs<bv32>)
    requires Adds(p, q, r)
    ensures p == AddRegs(NATIVE, r, q)
  {
    hide Sum;
  }

  lemma TwoBlockDigest(message: seq<byte>, digest: seq<byte>,
      x: Words16, q1: Regs<bv32>, q2: Regs<bv32>, q3: Regs<bv32>,
      p: Regs<bv32>, y: Words16, r1: Regs<bv32>, r2: Regs<bv32>, r3: Regs<bv32>)
    requires |Padded(message)| == 128 && Holds(Padded(message), 0, x) && Holds(Padded(message), 64, y)
    requires RoundF(START, x) == q1 && RoundG(q1, x) == q2 && RoundH(q2, x) == q3 && Adds(p, START, q3)
    requires RoundF(p, y) == r1 && RoundG(r1, y) == r2 && RoundH(r2, y) == r3 && Ends(digest, p, r3)
    ensures Digest(message) == digest
  {
    hide *;
    StartIs();
    NativeIsTextbook(message);
    DigestIs(NATIVE, message);
    TwoBlocks(NATIVE, START, Padded(message));
    BlockIsNative(Padded(message), 0, x);
    RoundsAreNative(START, x, q1, q2, q3);
    CompressGoes(NATIVE, START, Padded(message)[0..64], Listed(x), q1, q2, q3);
    AddedRegs(p, START, q3);
    BlockIsNative(Padded(message), 64, y);
    RoundsAreNative(p, y, r1, r2, r3);
    CompressGoes(NATIVE, p, Padded(message)[64..128], Listed(y), r1, r2, r3);
    StoredSum(digest, p, r3);
  }
}
