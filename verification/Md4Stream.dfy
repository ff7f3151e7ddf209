/**
 The incremental digest of md4.c as functions on an abstract context, with words of any width from 32 bits
 up, and the proof that feeding a message in pieces yields the digest of the whole message.
 */
module Md4Stream {
  import opened Bits
  import opened Words
  import opened Md4Spec
  import opened Md4Macros

  /** lo counts bytes modulo 2^29 and hi counts the carries out of lo; tail holds the bytes of the
      block being filled. */
  datatype Ctx = Ctx(regs: Regs<nat>, lo: nat, hi: nat, tail: seq<byte>)

  function Start(w: Width): Ctx {
    Ctx(Macros(w).start, 0, 0, [])
  }

  function Whole(n: nat): (whole: nat)
    ensures whole <= n < whole + 64 && whole % 64 == 0
  {
    Divide(n, 64);
    n / 64 * 64
  }

  lemma WholeLeaves(n: nat)
    ensures n - Whole(n) == n % 64
    ensures n < 64 ==> Whole(n) == 0
  {
  }

  /** The context after more data: every block completed by it is compressed, the rest is kept. */
  function Fed(w: Width, c: Ctx, data: seq<byte>): Ctx {
    var pending := c.tail + data;
    var whole := Whole(|pending|);
    Ctx(Fold(Compressor(Macros(w)), c.regs, pending[..whole]),
        (c.lo + |data|) % 0x2000_0000,
        Cut(c.hi + (c.lo + |data|) / 0x2000_0000, w),
        pending[whole..])
  }

  /** What is appended to the last partial block: both count words go through OUT as they are. */
  function Trailer(w: Width, used: nat, lo: nat, hi: nat): seq<byte> {
    [0x80] + Zeros((55 - used) % 64) + MacroOut(ShiftLeft(lo, 3, w)) + MacroOut(hi)
  }

  function Finish(w: Width, c: Ctx): seq<byte> {
    Store(Macros(w), Fold(Compressor(Macros(w)), c.regs, c.tail + Trailer(w, |c.tail|, c.lo, c.hi)))
  }

  function FedAll(w: Width, c: Ctx, chunks: seq<seq<byte>>): Ctx
    decreases |chunks|
  {
    if chunks == [] then c else FedAll(w, Fed(w, c, chunks[0]), chunks[1..])
  }

  function Flatten(chunks: seq<seq<byte>>): seq<byte> {
    if chunks == [] then [] else chunks[0] + Flatten(chunks[1..])
  }

  /** The registers are the fold over the complete blocks of the message, the buffered bytes are the
      rest of it, and the two counters hold its length modulo 2^61. */
  ghost predicate Absorbed(w: Width, c: Ctx, message: seq<byte>) {
    && c.regs == Fold(Compressor(Macros(w)), Macros(w).start, message[..Whole(|message|)])
    && c.tail == message[Whole(|message|)..]
    && c.lo == |message| % 0x2000_0000
    && Reduced(c.hi) == |message| / 0x2000_0000 % 0x1_0000_0000
  }

  lemma SplitCount(q: nat, x: nat)
    ensures (q * 0x2000_0000 + x) / 0x2000_0000 == q + x / 0x2000_0000
    ensures (q * 0x2000_0000 + x) % 0x2000_0000 == x % 0x2000_0000
  {
  }

  lemma SameWordSum(x: nat, y: nat, k: nat)
    requires x % 0x1_0000_0000 == y % 0x1_0000_0000
    ensures (x + k) % 0x1_0000_0000 == (y + k) % 0x1_0000_0000
  {
  }

  lemma CountersAdvance(length: nat, more: nat, lo: nat, hi: nat, w: Width)
    requires lo == length % 0x2000_0000 && Reduced(hi) == length / 0x2000_0000 % 0x1_0000_0000
    ensures (lo + more) % 0x2000_0000 == (length + more) % 0x2000_0000
    ensures Reduced(Cut(hi + (lo + more) / 0x2000_0000, w)) == (length + more) / 0x2000_0000 % 0x1_0000_0000
  {
    hide Cut;
    var q := length / 0x2000_0000;
    SplitCount(q, lo + more);
    SameWordSum(hi, q, (lo + more) / 0x2000_0000);
    CutReduces(hi + (lo + more) / 0x2000_0000, w);
  }

  lemma WholeSplits(n: nat, k: nat)
    ensures Whole(n + k) == Whole(n) + Whole(n - Whole(n) + k)
  {
  }

  /** Cutting a message after its complete blocks, before and after more data. */
  lemma PendingSplits(message: seq<byte>, data: seq<byte>)
    ensures var done, tail := message[..Whole(|message|)], message[Whole(|message|)..];
            var whole := Whole(|tail + data|);
            && (message + data)[..Whole(|message + data|)] == done + (tail + data)[..whole]
            && (message + data)[Whole(|message + data|)..] == (tail + data)[whole..]
  {
    var done, tail := message[..Whole(|message|)], message[Whole(|message|)..];
    WholeSplits(|message|, |data|);
    assert message + data == done + (tail + data);
  }

  lemma FedAbsorbs(w: Width, c: Ctx, message: seq<byte>, data: seq<byte>)
    requires Absorbed(w, c, message)
    ensures Absorbed(w, Fed(w, c, data), message + data)
  {
    hide Whole, Cut, Compressor, Macros;
    PendingSplits(message, data);
    FoldConcat(Compressor(Macros(w)), Macros(w).start, message[..Whole(|message|)],
      (c.tail + data)[..Whole(|c.tail + data|)]);
    CountersAdvance(|message|, |data|, c.lo, c.hi, w);
  }

  lemma {:induction false} FedAllAbsorbs(w: Width, c: Ctx, message: seq<byte>, chunks: seq<seq<byte>>)
    requires Absorbed(w, c, message)
    ensures Absorbed(w, FedAll(w, c, chunks), message + Flatten(chunks))
    decreases |chunks|
  {
    hide Absorbed, Fed;
    if chunks == [] {
      assert message + [] == message;
    } else {
      FedAbsorbs(w, c, message, chunks[0]);
      FedAllAbsorbs(w, Fed(w, c, chunks[0]), message + chunks[0], chunks[1..]);
      assert message + chunks[0] + Flatten(chunks[1..]) == message + Flatten(chunks);
    }
  }

  lemma BitCount(length: nat)
    ensures var bits := 8 * length % 0x1_0000_0000_0000_0000;
            && bits % 0x1_0000_0000 == 8 * (length % 0x2000_0000)
            && bits / 0x1_0000_0000 == length / 0x2000_0000 % 0x1_0000_0000
  {
    var q, lo := length / 0x2000_0000, length % 0x2000_0000;
    var u, v := q / 0x1_0000_0000, q % 0x1_0000_0000;
    Divide(length, 0x2000_0000);
    Divide(q, 0x1_0000_0000);
    Division(8 * length, 0x1_0000_0000_0000_0000, u, v * 0x1_0000_0000 + 8 * lo);
    Division(v * 0x1_0000_0000 + 8 * lo, 0x1_0000_0000, v, 8 * lo);
  }

  /** The two counters, written as they stand in words of any width, give exactly the 64-bit length of
      section 3.2, and the rest of the trailer is the padding of section 3.1. */
  lemma TrailerIsPadding(w: Width, length: nat, lo: nat, hi: nat)
    requires lo == length % 0x2000_0000 && Reduced(hi) == length / 0x2000_0000 % 0x1_0000_0000
    ensures Trailer(w, length % 64, lo, hi) == Padding(length)
  {
    hide LittleEndian, Zeros, Reduced, ShiftLeft, MacroOut, Pow2;
    assert Pow2(3) == 8 by { EightIsPower(); }
    ShiftLeftFits(lo, 3, w);
    MacroOutIsLittleEndian(8 * lo);
    SmallReduces(8 * lo);
    MacroOutIsLittleEndian(hi);
    BitCount(length);
    ZeroCount(length);
  }

  lemma EightIsPower()
    ensures Pow2(3) == 8
  {
  }

  lemma ZeroCount(length: nat)
    ensures (55 - length % 64) % 64 == (55 - length) % 64
  {
  }

  lemma FinishDigests(w: Width, c: Ctx, message: seq<byte>)
    requires Absorbed(w, c, message)
    ensures Finish(w, c) == DigestOn(Macros(w), message)
  {
    hide Fold, Compressor, Padding, Trailer, Store, Whole, Macros;
    WholeLeaves(|message|);
    var done := message[..Whole(|message|)];
    TrailerIsPadding(w, |message|, c.lo, c.hi);
    assert message + Padding(|message|) == done + (c.tail + Padding(|message|));
    FoldConcat(Compressor(Macros(w)), Macros(w).start, done, c.tail + Padding(|message|));
  }

  /** hi * 2^29 + lo, with hi taken modulo 2^32, is the number of bytes fed, modulo 2^61. */
  lemma CountersHoldLength(w: Width, c: Ctx, message: seq<byte>)
    requires Absorbed(w, c, message)
    ensures Reduced(c.hi) * 0x2000_0000 + c.lo == |message| % 0x2000_0000_0000_0000
  {
    hide Fold, Compressor, Whole, Reduced;
    LengthModulo(|message|);
  }

  lemma LengthModulo(length: nat)
    ensures length / 0x2000_0000 % 0x1_0000_0000 * 0x2000_0000 + length % 0x2000_0000 == length % 0x2000_0000_0000_0000
  {
    var q, lo := length / 0x2000_0000, length % 0x2000_0000;
    var u, v := q / 0x1_0000_0000, q % 0x1_0000_0000;
    Divide(length, 0x2000_0000);
    Divide(q, 0x1_0000_0000);
    Division(length, 0x2000_0000_0000_0000, u, v * 0x2000_0000 + lo);
  }

  lemma StartAbsorbs(w: Width)
    ensures Absorbed(w, Start(w), [])
  {
    hide Macros;
  }

  /** Words of any width compute the RFC 1320 digest. */
  lemma MacrosDigest(w: Width, message: seq<byte>)
    ensures DigestOn(Macros(w), message) == Digest(message)
  {
    hide DigestOn;
    MacrosAreTextbook(w);
    DigestSimulates(Reduced, Macros(w), TEXTBOOK, message);
  }

  /** However a message is cut into pieces, empty ones included, and whatever the width of the words, the
      macros of md4.c give its RFC 1320 digest. */
  lemma StreamingIsDigest(w: Width, chunks: seq<seq<byte>>)
    ensures Finish(w, FedAll(w, Start(w), chunks)) == Digest(Flatten(chunks))
  {
    hide Absorbed, Fed, Finish, DigestOn, Digest, FedAll;
    StartAbsorbs(w);
    FedAllAbsorbs(w, Start(w), [], chunks);
    assert [] + Flatten(chunks) == Flatten(chunks);
    FinishDigests(w, FedAll(w, Start(w), chunks), Flatten(chunks));
    MacrosDigest(w, Flatten(chunks));
  }

  lemma OneUpdateIsDigest(w: Width, data: seq<byte>)
    ensures Finish(w, Fed(w, Start(w), data)) == Digest(data)
  {
    hide Absorbed, Fed, Finish, DigestOn, Digest;
    StartAbsorbs(w);
    FedAbsorbs(w, Start(w), [], data);
    assert [] + data == data;
    FinishDigests(w, Fed(w, Start(w), data), data);
    MacrosDigest(w, data);
  }

  // ---------- word width ----------

  predicate RegistersFit(w: Width, q: Regs<nat>) {
    q.a < Pow2(w) && q.b < Pow2(w) && q.c < Pow2(w) && q.d < Pow2(w)
  }

  lemma {:induction false} FoldFits(w: Width, q: Regs<nat>, data: seq<byte>)
    requires RegistersFit(w, q)
    ensures RegistersFit(w, Fold(Compressor(Macros(w)), q, data))
    decreases |data|
  {
    if |data| >= 64 {
      CompressFits(w, q, data[..64]);
      hide Compress, RegistersFit;
      FoldFits(w, Compress(Macros(w), q, data[..64]), data[64..]);
    }
  }

  lemma LoadFits(w: Width, block: Block)
    ensures forall k :: 0 <= k < 16 ==> LoadBlock(Macros(w), block)[k] < Pow2(w)
  {
    hide MacroSet, Pow2;
    forall k | 0 <= k < 16 ensures LoadBlock(Macros(w), block)[k] < Pow2(w) {
      MacrosFit(w, 0, 0, 0, block[4 * k], block[4 * k + 1], block[4 * k + 2], block[4 * k + 3]);
    }
  }

  lemma FourFits(w: Width, f: Mixer<nat>, q: Regs<nat>, x0: nat, x1: nat, x2: nat, x3: nat, s: seq<Shift>)
    requires |s| == 4
    ensures RegistersFit(w, Four(Macros(w), f, q, x0, x1, x2, x3, s[0], s[1], s[2], s[3]))
  {
    hide MacroRotate, MacroAdd, Pow2;
    forall x: nat, r: Shift ensures Macros(w).rotate(x, r) < Pow2(w) {
      MacrosFit(w, x, 0, r, 0, 0, 0, 0);
    }
  }

  /** Each round leaves words of the width in all four registers. */
  lemma RoundsFit(w: Width, q: Regs<nat>, x: seq<nat>)
    requires |x| == 16
    ensures RegistersFit(w, Round1(Macros(w), q, x))
    ensures RegistersFit(w, Round2(Macros(w), q, x))
    ensures RegistersFit(w, Round3(Macros(w), q, x))
  {
    hide Four, RegistersFit, Macros;
    forall f: Mixer<nat>, p: Regs<nat>, i, j, k, l, r: Shift, s: Shift, t: Shift, u: Shift |
      0 <= i < 16 && 0 <= j < 16 && 0 <= k < 16 && 0 <= l < 16
      ensures RegistersFit(w, Four(Macros(w), f, p, x[i], x[j], x[k], x[l], r, s, t, u))
    {
      FourFits(w, f, p, x[i], x[j], x[k], x[l], [r, s, t, u]);
    }
  }

  lemma CompressFits(w: Width, q: Regs<nat>, block: Block)
    ensures RegistersFit(w, Compress(Macros(w), q, block))
  {
    hide Round1, Round2, Round3, LoadBlock, AddAll, Cut, Pow2;
    forall x: nat, y: nat ensures Macros(w).add(x, y) < Pow2(w) {
      CutFits(x + y, w);
    }
  }

  /** Registers and counters of a context stay words of its width. */
  lemma {:induction false} ContextFits(w: Width, c: Ctx, chunks: seq<seq<byte>>)
    requires RegistersFit(w, c.regs) && c.hi < Pow2(w)
    ensures var d := FedAll(w, c, chunks); RegistersFit(w, d.regs) && d.hi < Pow2(w)
    decreases |chunks|
  {
    if chunks != [] {
      hide RegistersFit, Cut, Compressor, Pow2;
      FoldFits(w, c.regs, (c.tail + chunks[0])[..Whole(|c.tail + chunks[0]|)]);
      CutFits(c.hi + (c.lo + |chunks[0]|) / 0x2000_0000, w);
      ContextFits(w, Fed(w, c, chunks[0]), chunks[1..]);
    }
  }

  /** Two contexts with words of any widths agree below bit 32, with any residue above in the registers
      and in hi. */
  ghost predicate Agree(c: Ctx, d: Ctx) {
    && MapRegs(Reduced, c.regs) == MapRegs(Reduced, d.regs)
    && Reduced(c.hi) == Reduced(d.hi) && c.lo == d.lo < 0x2000_0000 && c.tail == d.tail
  }

  lemma FoldReduces(w: Width, q: Regs<nat>, data: seq<byte>)
    ensures MapRegs(Reduced, Fold(Compressor(Macros(w)), q, data))
         == Fold(Compressor(TEXTBOOK), MapRegs(Reduced, q), data)
  {
    MacrosAreTextbook(w);
    FoldSimulates(Reduced, Macros(w), TEXTBOOK, q, data);
  }

  lemma CarriesAgree(v: Width, w: Width, x: nat, y: nat, carry: nat)
    requires Reduced(x) == Reduced(y)
    ensures Reduced(Cut(x + carry, v)) == Reduced(Cut(y + carry, w))
  {
    hide Cut;
    CutReduces(x + carry, v);
    CutReduces(y + carry, w);
    SameWordSum(x, y, carry);
  }

  lemma FeedingAgrees(v: Width, w: Width, c: Ctx, d: Ctx, data: seq<byte>)
    requires Agree(c, d)
    ensures Agree(Fed(v, c, data), Fed(w, d, data))
  {
    hide Whole, Cut, Reduced, Fold, Compressor, Macros, MapRegs;
    var now := (c.tail + data)[..Whole(|c.tail + data|)];
    CarriesAgree(v, w, c.hi, d.hi, (c.lo + |data|) / 0x2000_0000);
    FoldReduces(v, c.regs, now);
    FoldReduces(w, d.regs, now);
  }

  lemma {:induction false} RunsAgree(v: Width, w: Width, c: Ctx, d: Ctx, chunks: seq<seq<byte>>)
    requires Agree(c, d)
    ensures Agree(FedAll(v, c, chunks), FedAll(w, d, chunks))
    decreases |chunks|
  {
    hide Agree, Fed;
    if chunks != [] {
      FeedingAgrees(v, w, c, d, chunks[0]);
      RunsAgree(v, w, Fed(v, c, chunks[0]), Fed(w, d, chunks[0]), chunks[1..]);
    }
  }

  lemma TrailersAgree(v: Width, w: Width, used: nat, lo: nat, x: nat, y: nat)
    requires lo < 0x2000_0000 && Reduced(x) == Reduced(y)
    ensures Trailer(v, used, lo, x) == Trailer(w, used, lo, y)
  {
    hide LittleEndian, Zeros, Reduced, ShiftLeft, MacroOut, Pow2;
    assert Pow2(3) == 8 by { EightIsPower(); }
    ShiftLeftFits(lo, 3, v);
    ShiftLeftFits(lo, 3, w);
    MacroOutIsLittleEndian(x);
    MacroOutIsLittleEndian(y);
  }

  lemma StoresAgree(w: Width, q: Regs<nat>)
    ensures Store(Macros(w), q) == Store(TEXTBOOK, MapRegs(Reduced, q))
  {
    hide LittleEndian, Reduced, MacroOut;
    MacroOutIsLittleEndian(q.a);
    MacroOutIsLittleEndian(q.b);
    MacroOutIsLittleEndian(q.c);
    MacroOutIsLittleEndian(q.d);
  }

  lemma FinishesAgree(v: Width, w: Width, c: Ctx, d: Ctx)
    requires Agree(c, d)
    ensures Finish(v, c) == Finish(w, d)
  {
    hide Trailer, Reduced, Fold, Compressor, Macros, MapRegs, Store;
    var last := c.tail + Trailer(v, |c.tail|, c.lo, c.hi);
    TrailersAgree(v, w, |c.tail|, c.lo, c.hi, d.hi);
    FoldReduces(v, c.regs, last);
    FoldReduces(w, d.regs, last);
    StoresAgree(v, Fold(Compressor(Macros(v)), c.regs, last));
    StoresAgree(w, Fold(Compressor(Macros(w)), d.regs, last));
  }

  /** Words of any two widths from 32 bits up give the same digest bytes, from any contexts that agree in
      the low 32 bits, whatever residue the registers and hi hold above. */
  lemma WidthIndependent(v: Width, w: Width, c: Ctx, d: Ctx, chunks: seq<seq<byte>>)
    requires Agree(c, d)
    ensures Finish(v, FedAll(v, c, chunks)) == Finish(w, FedAll(w, d, chunks))
  {
    hide Agree, Finish;
    RunsAgree(v, w, c, d, chunks);
    FinishesAgree(v, w, FedAll(v, c, chunks), FedAll(w, d, chunks));
  }
}
