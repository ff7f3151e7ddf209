/**
 The MD4 message digest of RFC 1320 as pure functions.

 The order of the 48 steps is written once, over an abstract word type. A Machine supplies the word
 type and the three kinds of step, so the textbook functions and the rewritten macros of the C source, on
 words of any width, are machines running one schedule.
 */
module Md4Spec {
  import opened Bits
  import opened Words

  type Block = s: seq<byte> | |s| == 64 witness Zeros(64)

  type Shift = s: nat | s < 32

  datatype Regs<W> = Regs(a: W, b: W, c: W, d: W)

  type Mixer<!W> = (W, W, W) -> W

  datatype Machine<!W> = Machine(
    load: (byte, byte, byte, byte) -> W,
    store: W -> seq<byte>,
    add: (W, W) -> W,
    rotate: (W, Shift) -> W,
    f: Mixer<W>,
    g: Mixer<W>,
    h: Mixer<W>,
    g0: W,
    h0: W,
    start: Regs<W>)

  /** New value of register a. */
  function Step<W>(m: Machine<W>, f: Mixer<W>, a: W, b: W, c: W, d: W, x: W, s: Shift): W {
    m.rotate(m.add(a, m.add(f(b, c, d), x)), s)
  }

  /** Four consecutive steps: the register being replaced moves from a to d to c to b. */
  function Four<W>(m: Machine<W>, f: Mixer<W>, q: Regs<W>, x0: W, x1: W, x2: W, x3: W,
      s0: Shift, s1: Shift, s2: Shift, s3: Shift): Regs<W>
  {
    var a := Step(m, f, q.a, q.b, q.c, q.d, x0, s0);
    var d := Step(m, f, q.d, a, q.b, q.c, x1, s1);
    var c := Step(m, f, q.c, d, a, q.b, x2, s2);
    var b := Step(m, f, q.b, c, d, a, x3, s3);
    Regs(a, b, c, d)
  }

  function Round1<W>(m: Machine<W>, q: Regs<W>, x: seq<W>): Regs<W>
    requires |x| == 16
  {
    var q1 := Four(m, m.f, q, x[0], x[1], x[2], x[3], 3, 7, 11, 19);
    var q2 := Four(m, m.f, q1, x[4], x[5], x[6], x[7], 3, 7, 11, 19);
    var q3 := Four(m, m.f, q2, x[8], x[9], x[10], x[11], 3, 7, 11, 19);
    Four(m, m.f, q3, x[12], x[13], x[14], x[15], 3, 7, 11, 19)
  }

  function Round2<W>(m: Machine<W>, q: Regs<W>, x: seq<W>): Regs<W>
    requires |x| == 16
  {
    var q1 := Four(m, m.g, q, x[0], x[4], x[8], x[12], 3, 5, 9, 13);
    var q2 := Four(m, m.g, q1, x[1], x[5], x[9], x[13], 3, 5, 9, 13);
    var q3 := Four(m, m.g, q2, x[2], x[6], x[10], x[14], 3, 5, 9, 13);
    Four(m, m.g, q3, x[3], x[7], x[11], x[15], 3, 5, 9, 13)
  }

  function Round3<W>(m: Machine<W>, q: Regs<W>, x: seq<W>): Regs<W>
    requires |x| == 16
  {
    var q1 := Four(m, m.h, q, x[0], x[8], x[4], x[12], 3, 9, 11, 15);
    var q2 := Four(m, m.h, q1, x[2], x[10], x[6], x[14], 3, 9, 11, 15);
    var q3 := Four(m, m.h, q2, x[1], x[9], x[5], x[13], 3, 9, 11, 15);
    Four(m, m.h, q3, x[3], x[11], x[7], x[15], 3, 9, 11, 15)
  }

  /** The input words of a round, each with the round constant added. */
  function AddAll<W>(m: Machine<W>, x: seq<W>, k: W): (y: seq<W>)
    ensures |y| == |x|
  {
    seq(|x|, i requires 0 <= i < |x| => m.add(x[i], k))
  }

  function LoadWord<W>(m: Machine<W>, block: Block, k: nat): W
    requires k < 16
  {
    m.load(block[4 * k], block[4 * k + 1], block[4 * k + 2], block[4 * k + 3])
  }

  function LoadBlock<W>(m: Machine<W>, block: Block): (x: seq<W>)
    ensures |x| == 16
  {
    seq(16, k requires 0 <= k < 16 => LoadWord(m, block, k))
  }

  function AddRegs<W>(m: Machine<W>, p: Regs<W>, q: Regs<W>): Regs<W> {
    Regs(m.add(p.a, q.a), m.add(p.b, q.b), m.add(p.c, q.c), m.add(p.d, q.d))
  }

  /** Section 3.4 for one block. */
  function Compress<W>(m: Machine<W>, q: Regs<W>, block: Block): Regs<W> {
    var x := LoadBlock(m, block);
    AddRegs(m, Round3(m, Round2(m, Round1(m, q, x), AddAll(m, x, m.g0)), AddAll(m, x, m.h0)), q)
  }

  function Compressor<W>(m: Machine<W>): (Regs<W>, Block) -> Regs<W> {
    (q: Regs<W>, block: Block) => Compress(m, q, block)
  }

  /** Section 3.4 for every complete block of the data, with f compressing one block. */
  function Fold<C>(f: (C, Block) -> C, q: C, data: seq<byte>): C
    decreases |data|
  {
    if |data| < 64 then q else Fold(f, f(q, data[..64]), data[64..])
  }

  lemma {:induction false} FoldConcat<C>(f: (C, Block) -> C, q: C, x: seq<byte>, y: seq<byte>)
    requires |x| % 64 == 0
    ensures Fold(f, q, x + y) == Fold(f, Fold(f, q, x), y)
    decreases |x|
  {
    if x == [] {
      assert x + y == y;
    } else {
      assert (x + y)[..64] == x[..64];
      assert (x + y)[64..] == x[64..] + y;
      FoldConcat(f, f(q, x[..64]), x[64..], y);
    }
  }

  function Store<W>(m: Machine<W>, q: Regs<W>): seq<byte> {
    m.store(q.a) + m.store(q.b) + m.store(q.c) + m.store(q.d)
  }

  /** Sections 3.1 and 3.2: a one bit, zero bits up to 448 mod 512, and the 64-bit count of message bits. */
  function Padding(length: nat): seq<byte> {
    var bits := 8 * length % 0x1_0000_0000_0000_0000;
    [0x80] + Zeros((55 - length) % 64) + LittleEndian(bits % 0x1_0000_0000) + LittleEndian(bits / 0x1_0000_0000)
  }

  lemma PaddingFillsBlocks(length: nat)
    ensures (length + |Padding(length)|) % 64 == 0
    ensures 9 <= |Padding(length)| <= 72
  {
    var q, r := length / 64, length % 64;
    var zeros := if r <= 55 then 55 - r else 119 - r;
    Remainder64(55 - length, if r <= 55 then -q else -q - 1, zeros);
    assert |Padding(length)| == 9 + zeros by {
      hide LittleEndian;
    }
    Remainder64(length + 9 + zeros, if r <= 55 then q + 1 else q + 2, 0);
  }

  /** Byte i of the 64-bit count, low byte first. */
  function CountByte(bits: nat, i: nat): nat {
    bits / Pow2(8 * i) % 256
  }

  lemma BytesOf(x: Word)
    ensures forall i :: 0 <= i < 4 ==> LittleEndian(x)[i] as nat == CountByte(x, i)
  {
    Powers();
    assert Pow2(0) == 1;
    hide Pow2;
    Divide(x, 0x100_0000);
  }

  lemma ByteOfRest(x: nat, p: nat, q: nat)
    requires p > 0 && q > 0
    ensures p * (256 * q) > 0 && x % (p * (256 * q)) / p % 256 == x / p % 256
  {
    hide *;
    QuotientTwice(x, p, 256 * q);
    RemainderTwice(x / p, 256, q);
  }

  lemma CountByteOfRest(x: nat, k: nat, i: nat)
    requires 8 * i + 8 <= k
    ensures CountByte(x % Pow2(k), i) == CountByte(x, i)
  {
    Powers();
    hide Pow2;
    PowersMultiply(8 * i, k - 8 * i);
    PowersMultiply(8, k - 8 * i - 8);
    ByteOfRest(x, Pow2(8 * i), Pow2(k - 8 * i - 8));
  }

  lemma CountByteAbove(x: nat, i: nat)
    ensures CountByte(x / 0x1_0000_0000, i) == CountByte(x, i + 4)
  {
    hide Pow2;
    Powers();
    PowersMultiply(32, 8 * i);
    QuotientTwice(x, 0x1_0000_0000, Pow2(8 * i));
  }

  lemma LowCountByte(bits: nat, i: nat)
    requires i < 4
    ensures CountByte(bits % 0x1_0000_0000_0000_0000 % 0x1_0000_0000, i) == CountByte(bits, i)
    ensures CountByte(bits % 0x1_0000_0000_0000_0000 / 0x1_0000_0000, i) == CountByte(bits, i + 4)
  {
    Powers();
    PowersMultiply(32, 32);
    hide Pow2, CountByte;
    CountByteOfRest(bits, 64, i);
    CountByteOfRest(bits, 64, i + 4);
    CountByteOfRest(bits % 0x1_0000_0000_0000_0000, 32, i);
    CountByteAbove(bits % 0x1_0000_0000_0000_0000, i);
  }

  /** The padding byte by byte: 0x80, zeros, and the number of message bits modulo 2^64, low byte first. */
  lemma PaddingBytes(length: nat, i: nat)
    requires i < |Padding(length)|
    ensures var n := |Padding(length)| - 8;
            Padding(length)[i] as nat == if i == 0 then 0x80 else if i < n then 0 else CountByte(8 * length, i - n)
  {
    hide LittleEndian, CountByte;
    var bits := 8 * length % 0x1_0000_0000_0000_0000;
    var n := |Padding(length)| - 8;
    BytesOf(bits % 0x1_0000_0000);
    BytesOf(bits / 0x1_0000_0000);
    if i >= n + 4 {
      LowCountByte(8 * length, i - n - 4);
    } else if i >= n {
      LowCountByte(8 * length, i - n);
    }
  }

  /** Sections 3.1 to 3.5 on a given machine. */
  function DigestOn<W>(m: Machine<W>, message: seq<byte>): seq<byte> {
    Store(m, Fold(Compressor(m), m.start, message + Padding(|message|)))
  }

  // ---------- the textbook machine ----------

  lemma WordsFit(x: Word, y: Word)
    ensures And(x, y) < 0x1_0000_0000 && Or(x, y) < 0x1_0000_0000 && Xor(x, y) < 0x1_0000_0000
  {
    Powers();
    BitwiseFits(x, y, 32);
  }

  /** Bitwise operations on 32-bit words */
  function AndWord(x: Word, y: Word): Word { WordsFit(x, y); And(x, y) }
  function OrWord(x: Word, y: Word): Word { WordsFit(x, y); Or(x, y) }
  function XorWord(x: Word, y: Word): Word { WordsFit(x, y); Xor(x, y) }
  function NotWord(x: Word): Word { 0xffff_ffff - x }

  function F(x: Word, y: Word, z: Word): Word { OrWord(AndWord(x, y), AndWord(NotWord(x), z)) }
  function G(x: Word, y: Word, z: Word): Word { OrWord(OrWord(AndWord(x, y), AndWord(x, z)), AndWord(y, z)) }
  function H(x: Word, y: Word, z: Word): Word { XorWord(XorWord(x, y), z) }

  /** The word whose low-order byte is b0. */
  function WordOf(b0: byte, b1: byte, b2: byte, b3: byte): Word {
    b0 as int + 256 * b1 as int + 0x1_0000 * b2 as int + 0x100_0000 * b3 as int
  }

  /** Addition modulo 2^32. */
  function Add(x: Word, y: Word): Word { Plus(x, y) }

  lemma SwappedFit(x: nat, a: nat, b: nat)
    requires a > 0 && x < a * b
    ensures x % a * b + x / a < a * b && x / a < b
  {
    hide *;
    Divide(x, a);
    QuotientBelow(x, a, b);
    Carried(x % a, b, a, x / a);
  }

  lemma RotateFits(x: Word, s: Shift)
    ensures Up(Rest(x, 32 - s), s) + Down(x, 32 - s) < 0x1_0000_0000
    ensures Down(x, 32 - s) < Pow2(s)
  {
    Powers();
    hide Pow2;
    PowersMultiply(32 - s, s);
    SwappedFit(x, Pow2(32 - s), Pow2(s));
  }

  /** X <<< s: the low 32 - s bits move up, the high s bits come in below them. */
  function Rotate(x: Word, s: Shift): Word {
    RotateFits(x, s);
    Up(Rest(x, 32 - s), s) + Down(x, 32 - s)
  }

  const TEXTBOOK: Machine<Word> := Machine(
    WordOf,
    LittleEndian,
    Add,
    Rotate,
    F,
    G,
    H,
    0x5a82_7999,
    0x6ed9_eba1,
    Regs(0x6745_2301, 0xefcd_ab89, 0x98ba_dcfe, 0x1032_5476))

  /** Bit i of a word is bit i + s, modulo 32, of the word rotated by s. */
  lemma TextbookRotates(x: Word, s: Shift, i: nat)
    requires 0 < s && i < 32
    ensures BitAt(Rotate(x, s), (i + s) % 32) == BitAt(x, i)
  {
    hide Pow2, BitAt;
    var t := 32 - s;
    var l, h := Rest(x, t), Down(x, t);
    RotateFits(x, s);
    Division(Rotate(x, s), Pow2(s), l, h);
    if i < t {
      HighBit(Rotate(x, s), s, i);
      LowBit(x, t, i);
    } else {
      LowBit(Rotate(x, s), s, i - t);
      HighBit(x, t, i - t);
    }
  }

  function Bit(x: Word, i: nat): (b: nat)
    ensures b < 2
  {
    BitAt(x, i)
  }

  /** Bit by bit, F takes y where x has a bit and z elsewhere, G is the majority, H the parity. */
  lemma MixersByBit(x: Word, y: Word, z: Word, i: nat)
    requires i < 32
    ensures Bit(F(x, y, z), i) == if Bit(x, i) == 1 then Bit(y, i) else Bit(z, i)
    ensures Bit(G(x, y, z), i) == (Bit(x, i) + Bit(y, i) + Bit(z, i)) / 2
    ensures Bit(H(x, y, z), i) == (Bit(x, i) + Bit(y, i) + Bit(z, i)) % 2
  {
    Powers();
    hide And, Or, Xor, BitAt, Pow2;
    BitOfNot(x, 32, i);
    BitOf(x, y, i);
    BitOf(x, z, i);
    BitOf(y, z, i);
    BitOf(NotWord(x), z, i);
    BitOf(And(x, y), And(NotWord(x), z), i);
    BitOf(And(x, y), And(x, z), i);
    BitOf(Or(And(x, y), And(x, z)), And(y, z), i);
    BitOf(Xor(x, y), z, i);
  }

  /** The RFC 1320 digest of a message. */
  function Digest(message: seq<byte>): (digest: seq<byte>)
    ensures |digest| == 16
  {
    DigestOn(TEXTBOOK, message)
  }

  // ---------- simulation between machines ----------

  function MapRegs<V, W>(h: V -> W, q: Regs<V>): Regs<W> {
    Regs(h(q.a), h(q.b), h(q.c), h(q.d))
  }

  /** Rotations used by RFC 1320. */
  predicate Used(s: Shift) { s in {3, 5, 7, 9, 11, 13, 15, 19} }

  ghost predicate SimulatesMixer<V(!new), W(!new)>(h: V -> W, f: Mixer<V>, g: Mixer<W>) {
    forall x, y, z {:trigger f(x, y, z)} :: h(f(x, y, z)) == g(h(x), h(y), h(z))
  }

  ghost predicate SimulatesBytes<V(!new), W(!new)>(h: V -> W, m: Machine<V>, n: Machine<W>) {
    && (forall b0, b1, b2, b3 {:trigger m.load(b0, b1, b2, b3)} :: h(m.load(b0, b1, b2, b3)) == n.load(b0, b1, b2, b3))
    && (forall v {:trigger m.store(v)} :: m.store(v) == n.store(h(v)))
  }

  ghost predicate SimulatesAdd<V(!new), W(!new)>(h: V -> W, m: Machine<V>, n: Machine<W>) {
    forall x, y {:trigger m.add(x, y)} :: h(m.add(x, y)) == n.add(h(x), h(y))
  }

  ghost predicate SimulatesRotate<V(!new), W(!new)>(h: V -> W, m: Machine<V>, n: Machine<W>) {
    forall x, s: Shift {:trigger m.rotate(x, s)} :: Used(s) ==> h(m.rotate(x, s)) == n.rotate(h(x), s)
  }

  ghost predicate SimulatesConstants<V(!new), W(!new)>(h: V -> W, m: Machine<V>, n: Machine<W>) {
    h(m.g0) == n.g0 && h(m.h0) == n.h0 && MapRegs(h, m.start) == n.start
  }

  /** h carries every operation of m to the same operation of n. */
  ghost predicate Simulates<V(!new), W(!new)>(h: V -> W, m: Machine<V>, n: Machine<W>) {
    && SimulatesBytes(h, m, n)
    && SimulatesAdd(h, m, n)
    && SimulatesRotate(h, m, n)
    && SimulatesMixer(h, m.f, n.f)
    && SimulatesMixer(h, m.g, n.g)
    && SimulatesMixer(h, m.h, n.h)
    && SimulatesConstants(h, m, n)
  }

  lemma FourSimulates<V(!new), W(!new)>(h: V -> W, m: Machine<V>, n: Machine<W>, f: Mixer<V>, g: Mixer<W>, q: Regs<V>,
      x0: V, x1: V, x2: V, x3: V, s0: Shift, s1: Shift, s2: Shift, s3: Shift)
    requires Simulates(h, m, n) && SimulatesMixer(h, f, g) && Used(s0) && Used(s1) && Used(s2) && Used(s3)
    ensures MapRegs(h, Four(m, f, q, x0, x1, x2, x3, s0, s1, s2, s3))
         == Four(n, g, MapRegs(h, q), h(x0), h(x1), h(x2), h(x3), s0, s1, s2, s3)
  {
  }

  lemma RoundsSimulate<V(!new), W(!new)>(h: V -> W, m: Machine<V>, n: Machine<W>, q: Regs<V>, x: seq<V>, y: seq<W>)
    requires Simulates(h, m, n) && |x| == |y| == 16 && forall i :: 0 <= i < 16 ==> h(x[i]) == y[i]
    ensures MapRegs(h, Round1(m, q, x)) == Round1(n, MapRegs(h, q), y)
    ensures MapRegs(h, Round2(m, q, x)) == Round2(n, MapRegs(h, q), y)
    ensures MapRegs(h, Round3(m, q, x)) == Round3(n, MapRegs(h, q), y)
  {
    forall f, g, q, i, j, k, l, s, t, u, v |
      SimulatesMixer(h, f, g) &&
      0 <= i < 16 && 0 <= j < 16 && 0 <= k < 16 && 0 <= l < 16 && Used(s) && Used(t) && Used(u) && Used(v)
      ensures MapRegs(h, Four(m, f, q, x[i], x[j], x[k], x[l], s, t, u, v))
           == Four(n, g, MapRegs(h, q), y[i], y[j], y[k], y[l], s, t, u, v)
    {
      FourSimulates(h, m, n, f, g, q, x[i], x[j], x[k], x[l], s, t, u, v);
    }
  }

  lemma CompressSimulates<V(!new), W(!new)>(h: V -> W, m: Machine<V>, n: Machine<W>, q: Regs<V>, block: Block)
    requires Simulates(h, m, n)
    ensures MapRegs(h, Compress(m, q, block)) == Compress(n, MapRegs(h, q), block)
  {
    var x, y := LoadBlock(m, block), LoadBlock(n, block);
    var q1 := Round1(m, q, x);
    var q2 := Round2(m, q1, AddAll(m, x, m.g0));
    RoundsSimulate(h, m, n, q, x, y);
    RoundsSimulate(h, m, n, q1, AddAll(m, x, m.g0), AddAll(n, y, n.g0));
    RoundsSimulate(h, m, n, q2, AddAll(m, x, m.h0), AddAll(n, y, n.h0));
  }

  lemma {:induction false} FoldSimulates<V(!new), W(!new)>(h: V -> W, m: Machine<V>, n: Machine<W>, q: Regs<V>,
    data: seq<byte>)
    requires Simulates(h, m, n)
    ensures MapRegs(h, Fold(Compressor(m), q, data)) == Fold(Compressor(n), MapRegs(h, q), data)
    decreases |data|
  {
    if |data| >= 64 {
      CompressSimulates(h, m, n, q, data[..64]);
      FoldSimulates(h, m, n, Compress(m, q, data[..64]), data[64..]);
    }
  }

  /** A machine that simulates another computes the same digests. */
  lemma DigestSimulates<V(!new), W(!new)>(h: V -> W, m: Machine<V>, n: Machine<W>, message: seq<byte>)
    requires Simulates(h, m, n)
    ensures DigestOn(m, message) == DigestOn(n, message)
  {
    FoldSimulates(h, m, n, m.start, message + Padding(|message|));
  }
}
