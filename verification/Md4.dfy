/**
 The digest context of md4.c, updated in place.
 */
module Md4 {
  import opened Bits
  import opened Words
  import opened Md4Spec
  import opened Md4Schedule
  import opened Md4Macros
  import opened Md4Stream

  const AC1: nat := 0x5a82_7999
  const AC2: nat := 0x6ed9_eba1

  class Md4Ctx {
    const w: Width                   // the width of an MD4_u32plus
    var lo: nat
    var hi: nat
    var a: nat
    var b: nat
    var c: nat
    var d: nat
    const buffer: array<byte>
    const block: array<nat>

    ghost predicate Sized()
      reads this
    {
      buffer.Length == 64 && block.Length == 16
    }

    /** Every field of type MD4_u32plus holds a word of the width. */
    ghost predicate Fits()
      reads this, block
    {
      RegistersFit(w, Registers()) && lo < Pow2(w) && hi < Pow2(w) && BlockFits()
    }

    ghost predicate BlockFits()
      reads block
    {
      forall i :: 0 <= i < block.Length ==> block[i] < Pow2(w)
    }

    ghost predicate Valid()
      reads this, block
    {
      Sized() && Fits() && lo < 0x2000_0000
    }

    ghost function Registers(): Regs<nat>
      reads this
    {
      Regs(a, b, c, d)
    }

    ghost function View(): Ctx
      requires Valid()
      reads this, buffer, block
    {
      Ctx(Registers(), lo, hi, buffer[..lo % 64])
    }

    /** MD4_Init on a context variable. The words of the block, which the source leaves as they are, are
        zero. */
    constructor (w: Width)
      ensures Valid() && fresh(buffer) && fresh(block) && this.w == w
      ensures View() == Start(w)
    {
      this.w := w;
      a := 0x6745_2301;
      b := 0xefcd_ab89;
      c := 0x98ba_dcfe;
      d := 0x1032_5476;
      lo := 0;
      hi := 0;
      buffer := new byte[64];
      block := new nat[16](_ => 0);
      new;
      WordsFit32(w);
    }

    /** The SET macro: stores word n of the block at ptr. */
    method Set(n: nat, data: seq<byte>, ptr: nat)
      requires block.Length == 16 && n < 16 && ptr + 64 <= |data|
      modifies block
      ensures block[..] == old(block[..])[n := LoadWord(Macros(w), data[ptr..ptr + 64], n)]
    {
      hide MacroSet;
      block[n] := MacroSet(w, data[ptr + 4 * n], data[ptr + 4 * n + 1], data[ptr + 4 * n + 2], data[ptr + 4 * n + 3]);
    }

    /** The sixteen SETs of round 1. */
    method LoadWords(data: seq<byte>, ptr: nat)
      requires block.Length == 16 && ptr + 64 <= |data|
      modifies block
      ensures block[..] == LoadBlock(Macros(w), data[ptr..ptr + 64])
    {
      hide LoadWord;
      Set(0, data, ptr);
      Set(1, data, ptr);
      Set(2, data, ptr);
      Set(3, data, ptr);
      Set(4, data, ptr);
      Set(5, data, ptr);
      Set(6, data, ptr);
      Set(7, data, ptr);
      Set(8, data, ptr);
      Set(9, data, ptr);
      Set(10, data, ptr);
      Set(11, data, ptr);
      Set(12, data, ptr);
      Set(13, data, ptr);
      Set(14, data, ptr);
      Set(15, data, ptr);
    }

    method FirstRound(a0: nat, b0: nat, c0: nat, d0: nat) returns (a: nat, b: nat, c: nat, d: nat)
      requires block.Length == 16
      ensures Regs(a, b, c, d) == Round1(Macros(w), Regs(a0, b0, c0, d0), block[..])
      ensures Within(InTurn) && Regs(a, b, c, d) ==
        Scheduled(Macros(w), MacroF, Regs(a0, b0, c0, d0), block[..], InTurn, [3, 7, 11, 19])
      ensures RegistersFit(w, Regs(a, b, c, d))
    {
      hide Step, MacroF, RegistersFit, Scheduled, InTurn;
      InTurnRound(Macros(w), Regs(a0, b0, c0, d0), block[..]);
      RoundsFit(w, Regs(a0, b0, c0, d0), block[..]);
      a, b, c, d := a0, b0, c0, d0;
      a := Step(Macros(w), MacroF, a, b, c, d, block[0], 3);
      d := Step(Macros(w), MacroF, d, a, b, c, block[1], 7);
      c := Step(Macros(w), MacroF, c, d, a, b, block[2], 11);
      b := Step(Macros(w), MacroF, b, c, d, a, block[3], 19);
      a := Step(Macros(w), MacroF, a, b, c, d, block[4], 3);
      d := Step(Macros(w), MacroF, d, a, b, c, block[5], 7);
      c := Step(Macros(w), MacroF, c, d, a, b, block[6], 11);
      b := Step(Macros(w), MacroF, b, c, d, a, block[7], 19);
      a := Step(Macros(w), MacroF, a, b, c, d, block[8], 3);
      d := Step(Macros(w), MacroF, d, a, b, c, block[9], 7);
      c := Step(Macros(w), MacroF, c, d, a, b, block[10], 11);
      b := Step(Macros(w), MacroF, b, c, d, a, block[11], 19);
      a := Step(Macros(w), MacroF, a, b, c, d, block[12], 3);
      d := Step(Macros(w), MacroF, d, a, b, c, block[13], 7);
      c := Step(Macros(w), MacroF, c, d, a, b, block[14], 11);
      b := Step(Macros(w), MacroF, b, c, d, a, block[15], 19);
    }

    method SecondRound(a0: nat, b0: nat, c0: nat, d0: nat) returns (a: nat, b: nat, c: nat, d: nat)
      requires block.Length == 16
      ensures Regs(a, b, c, d) == Round2(Macros(w), Regs(a0, b0, c0, d0), AddAll(Macros(w), block[..], AC1))
      ensures Within(ByColumn) && Regs(a, b, c, d) ==
        Scheduled(Macros(w), MacroG, Regs(a0, b0, c0, d0), AddAll(Macros(w), block[..], AC1), ByColumn, [3, 5, 9, 13])
      ensures RegistersFit(w, Regs(a, b, c, d))
    {
      hide Step, MacroAdd, MacroG, RegistersFit, Scheduled, ByColumn;
      ByColumnRound(Macros(w), Regs(a0, b0, c0, d0), AddAll(Macros(w), block[..], AC1));
      RoundsFit(w, Regs(a0, b0, c0, d0), AddAll(Macros(w), block[..], AC1));
      a, b, c, d := a0, b0, c0, d0;
      a := Step(Macros(w), MacroG, a, b, c, d, MacroAdd(w, block[0], AC1), 3);
      d := Step(Macros(w), MacroG, d, a, b, c, MacroAdd(w, block[4], AC1), 5);
      c := Step(Macros(w), MacroG, c, d, a, b, MacroAdd(w, block[8], AC1), 9);
      b := Step(Macros(w), MacroG, b, c, d, a, MacroAdd(w, block[12], AC1), 13);
      a := Step(Macros(w), MacroG, a, b, c, d, MacroAdd(w, block[1], AC1), 3);
      d := Step(Macros(w), MacroG, d, a, b, c, MacroAdd(w, block[5], AC1), 5);
      c := Step(Macros(w), MacroG, c, d, a, b, MacroAdd(w, block[9], AC1), 9);
      b := Step(Macros(w), MacroG, b, c, d, a, MacroAdd(w, block[13], AC1), 13);
      a := Step(Macros(w), MacroG, a, b, c, d, MacroAdd(w, block[2], AC1), 3);
      d := Step(Macros(w), MacroG, d, a, b, c, MacroAdd(w, block[6], AC1), 5);
      c := Step(Macros(w), MacroG, c, d, a, b, MacroAdd(w, block[10], AC1), 9);
      b := Step(Macros(w), MacroG, b, c, d, a, MacroAdd(w, block[14], AC1), 13);
      a := Step(Macros(w), MacroG, a, b, c, d, MacroAdd(w, block[3], AC1), 3);
      d := Step(Macros(w), MacroG, d, a, b, c, MacroAdd(w, block[7], AC1), 5);
      c := Step(Macros(w), MacroG, c, d, a, b, MacroAdd(w, block[11], AC1), 9);
      b := Step(Macros(w), MacroG, b, c, d, a, MacroAdd(w, block[15], AC1), 13);
    }

    method ThirdRound(a0: nat, b0: nat, c0: nat, d0: nat) returns (a: nat, b: nat, c: nat, d: nat)
      requires block.Length == 16
      ensures Regs(a, b, c, d) == Round3(Macros(w), Regs(a0, b0, c0, d0), AddAll(Macros(w), block[..], AC2))
      ensures Within(BitReversed) && Regs(a, b, c, d) ==
        Scheduled(Macros(w), MacroH, Regs(a0, b0, c0, d0), AddAll(Macros(w), block[..], AC2), BitReversed,
          [3, 9, 11, 15])
      ensures RegistersFit(w, Regs(a, b, c, d))
    {
      hide Step, MacroAdd, MacroH, RegistersFit, Scheduled, BitReversed;
      BitReversedRound(Macros(w), Regs(a0, b0, c0, d0), AddAll(Macros(w), block[..], AC2));
      RoundsFit(w, Regs(a0, b0, c0, d0), AddAll(Macros(w), block[..], AC2));
      a, b, c, d := a0, b0, c0, d0;
      a := Step(Macros(w), MacroH, a, b, c, d, MacroAdd(w, block[0], AC2), 3);
      d := Step(Macros(w), MacroH, d, a, b, c, MacroAdd(w, block[8], AC2), 9);
      c := Step(Macros(w), MacroH, c, d, a, b, MacroAdd(w, block[4], AC2), 11);
      b := Step(Macros(w), MacroH, b, c, d, a, MacroAdd(w, block[12], AC2), 15);
      a := Step(Macros(w), MacroH, a, b, c, d, MacroAdd(w, block[2], AC2), 3);
      d := Step(Macros(w), MacroH, d, a, b, c, MacroAdd(w, block[10], AC2), 9);
      c := Step(Macros(w), MacroH, c, d, a, b, MacroAdd(w, block[6], AC2), 11);
      b := Step(Macros(w), MacroH, b, c, d, a, MacroAdd(w, block[14], AC2), 15);
      a := Step(Macros(w), MacroH, a, b, c, d, MacroAdd(w, block[1], AC2), 3);
      d := Step(Macros(w), MacroH, d, a, b, c, MacroAdd(w, block[9], AC2), 9);
      c := Step(Macros(w), MacroH, c, d, a, b, MacroAdd(w, block[5], AC2), 11);
      b := Step(Macros(w), MacroH, b, c, d, a, MacroAdd(w, block[13], AC2), 15);
      a := Step(Macros(w), MacroH, a, b, c, d, MacroAdd(w, block[3], AC2), 3);
      d := Step(Macros(w), MacroH, d, a, b, c, MacroAdd(w, block[11], AC2), 9);
      c := Step(Macros(w), MacroH, c, d, a, b, MacroAdd(w, block[7], AC2), 11);
      b := Step(Macros(w), MacroH, b, c, d, a, MacroAdd(w, block[15], AC2), 15);
    }

    method CompressBlock(data: seq<byte>, ptr: nat, a0: nat, b0: nat, c0: nat, d0: nat)
      returns (a: nat, b: nat, c: nat, d: nat)
      requires block.Length == 16 && ptr + 64 <= |data|
      modifies block
      ensures Regs(a, b, c, d) == Compress(Macros(w), Regs(a0, b0, c0, d0), data[ptr..ptr + 64])
      ensures RegistersFit(w, Regs(a, b, c, d)) && BlockFits()
    {
      hide Round1, Round2, Round3, LoadBlock, AddAll, MacroAdd, RegistersFit, Pow2;
      CompressFits(w, Regs(a0, b0, c0, d0), data[ptr..ptr + 64]);
      a, b, c, d := a0, b0, c0, d0;
      LoadWords(data, ptr);
      LoadFits(w, data[ptr..ptr + 64]);
      assert BlockFits();
      a, b, c, d := FirstRound(a, b, c, d);
      a, b, c, d := SecondRound(a, b, c, d);
      a, b, c, d := ThirdRound(a, b, c, d);
      a, b, c, d := MacroAdd(w, a, a0), MacroAdd(w, b, b0), MacroAdd(w, c, c0), MacroAdd(w, d, d0);
    }

    /** Compresses size bytes of data from start, one block after another. */
    method Body(data: seq<byte>, start: nat, size: nat) returns (ptr: nat)
      requires Sized() && Fits() && 0 < size && size % 64 == 0 && start + size <= |data|
      modifies this`a, this`b, this`c, this`d, block
      ensures Registers() == Fold(Compressor(Macros(w)), old(Registers()), data[start..start + size])
      ensures Fits() && ptr == start + size
    {
      hide Compress, Compressor, Fold, RegistersFit, Pow2;
      ptr := start;
      var left := size;
      var a, b, c, d := this.a, this.b, this.c, this.d;
      FoldNone(w, Registers(), data, start);
      while true
        invariant start <= ptr && 0 < left && left % 64 == 0 && ptr + left == start + size
        invariant (ptr - start) % 64 == 0
        invariant Regs(a, b, c, d) == Fold(Compressor(Macros(w)), old(Registers()), data[start..ptr])
        invariant RegistersFit(w, Regs(a, b, c, d)) && BlockFits()
        decreases left
      {
        FoldOneMore(w, Regs(a, b, c, d), old(Registers()), data, start, ptr);
        a, b, c, d := CompressBlock(data, ptr, a, b, c, d);
        ptr := ptr + 64;
        left := left - 64;
        if left == 0 {
          break;
        }
      }
      this.a, this.b, this.c, this.d := a, b, c, d;
    }

    /** memcpy into the buffer. */
    method Copy(to: nat, data: seq<byte>, from: nat, n: nat)
      requires to + n <= buffer.Length && from + n <= |data|
      modifies buffer
      ensures buffer[..] == old(buffer[..to]) + data[from..from + n] + old(buffer[to + n..])
    {
      forall i | 0 <= i < n {
        buffer[to + i] := data[from + i];
      }
    }

    /** The counters of MD4_Update. */
    method Count(size: nat)
      requires Valid()
      modifies this`lo, this`hi
      ensures lo == (old(lo) + size) % 0x2000_0000
      ensures hi == Cut(old(hi) + (old(lo) + size) / 0x2000_0000, w)
      ensures Valid()
    {
      hide Cut, RegistersFit, Pow2;
      ByteCountFits(w);
      var savedLo := lo;
      lo := (savedLo + size) % 0x2000_0000;
      if lo < savedLo {
        hi := Cut(hi + 1, w);
      }
      hi := Cut(hi + size / 0x2000_0000, w);
      CountersAdd(w, savedLo, old(hi), size);
      CutFits(old(hi) + (old(lo) + size) / 0x2000_0000, w);
    }

    /** Completes the block in the buffer with the first bytes of data, and compresses it. */
    method TopUp(used: nat, data: seq<byte>) returns (at: nat)
      requires Valid() && 0 < used < 64 <= used + |data|
      modifies this`a, this`b, this`c, this`d, buffer, block
      ensures Valid() && at == 64 - used
      ensures Registers() == Fold(Compressor(Macros(w)), old(Registers()), old(buffer[..used]) + data[..at])
    {
      hide Compressor, Fold, RegistersFit, Pow2;
      at := 64 - used;
      ghost var filled := buffer[..used] + data[..at];
      Copy(used, data, 0, at);
      assert buffer[..] == filled;
      assert filled[0..64] == filled;
      var _ := Body(buffer[..], 0, 64);
    }

    /** Compresses the whole blocks of data from at on, in place, and keeps what is left. */
    method TakeBlocks(data: seq<byte>, at: nat)
      requires Valid() && at <= |data|
      modifies this`a, this`b, this`c, this`d, buffer, block
      ensures Valid()
      ensures var rest := Whole(|data| - at);
              && Registers() == Fold(Compressor(Macros(w)), old(Registers()), data[at..at + rest])
              && buffer[..|data| - at - rest] == data[at + rest..]
    {
      hide Compressor, Fold, Whole, RegistersFit, Pow2;
      var from, size := at, |data| - at;
      ghost var rest := Whole(size);
      WholeLeaves(size);
      FoldNone(w, Registers(), data, at);
      if size >= 64 {
        from := Body(data, at, size - size % 64);
        size := size % 64;
      }
      assert from == at + rest && from + size == |data|;
      Copy(0, data, from, size);
      assert buffer[..size] == data[from..from + size];
    }

    /** The rest of MD4_Update: data is appended to the used bytes of the buffer, whole blocks are
        compressed and what is left is moved to the front of the buffer. */
    method Absorb(used: nat, data: seq<byte>)
      requires Valid() && used < 64
      modifies this`a, this`b, this`c, this`d, buffer, block
      ensures Valid()
      ensures var pending := old(buffer[..used]) + data;
              var whole := Whole(|pending|);
              && Registers() == Fold(Compressor(Macros(w)), old(Registers()), pending[..whole])
              && buffer[..|pending| - whole] == pending[whole..]
    {
      hide Compressor, Fold, RegistersFit, Pow2, Whole;
      ghost var tail, start := buffer[..used], Registers();
      var at := 0;
      if used != 0 {
        if |data| < 64 - used {
          WholeLeaves(used + |data|);
          Copy(used, data, 0, |data|);
          assert buffer[..used + |data|] == tail + data;
          FoldNone(w, start, tail + data, 0);
          return;
        }
        at := TopUp(used, data);
      } else {
        FoldNone(w, start, data, 0);
        assert tail + data[..0] == data[0..0];
      }
      TakeBlocks(data, at);
      PendingBlocks(w, start, tail, data, at);
      PendingLength(used, |data|, at);
    }

    /** MD4_Update */
    method Update(data: seq<byte>)
      requires Valid()
      modifies this`lo, this`hi, this`a, this`b, this`c, this`d, buffer, block
      ensures Valid() && View() == Fed(w, old(View()), data)
    {
      hide Compressor, Fold, Whole, Cut, RegistersFit, Pow2;
      var savedLo := lo;
      Count(|data|);
      TailLength(savedLo, |data|);
      Absorb(savedLo % 64, data);
    }

    /** Writes the buffer's first used bytes followed by more, which ends with the buffer, and compresses it. */
    method CompressBuffer(used: nat, more: seq<byte>)
      requires Sized() && Fits() && used + |more| == 64
      modifies this`a, this`b, this`c, this`d, buffer, block
      ensures Fits()
      ensures Registers() == Fold(Compressor(Macros(w)), old(Registers()), old(buffer[..used]) + more)
    {
      hide Compressor, Fold, RegistersFit, Pow2;
      ghost var filled := buffer[..used] + more;
      Copy(used, more, 0, |more|);
      assert more[0..|more|] == more && buffer[..] == filled;
      assert filled[0..64] == filled;
      var _ := Body(buffer[..], 0, 64);
    }

    /** Pads the buffered bytes and appends the bit count, in one block or two. */
    method Pad()
      requires Valid()
      modifies this`lo, this`a, this`b, this`c, this`d, buffer, block
      ensures Fits()
      ensures var filled := old(buffer[..lo % 64] + Trailer(w, lo % 64, lo, hi));
              Registers() == Fold(Compressor(Macros(w)), old(Registers()), filled)
    {
      hide Compressor, Fold, MacroOut, ShiftLeft, RegistersFit, Pow2;
      ShiftedFits(w, lo);
      ghost var tail, start := buffer[..lo % 64], Registers();
      TrailerBlocks(w, start, tail, lo, hi);
      var used := lo % 64;
      var pad: seq<byte> := [0x80];
      if 63 - used < 8 {
        CompressBuffer(used, pad + Zeros(63 - used));
        pad := [];
        used := 0;
        assert buffer[..0] == [];
      }
      lo := ShiftLeft(lo, 3, w);
      var count := MacroOut(lo) + MacroOut(hi);
      CompressBuffer(used, pad + Zeros(56 - used - |pad|) + count);
    }

    /** MD4_Final: the digest, leaving the context cleared. */
    method Final() returns (result: seq<byte>)
      requires Valid()
      modifies this`lo, this`hi, this`a, this`b, this`c, this`d, buffer, block
      ensures result == Finish(w, old(View()))
      ensures Valid() && View() == Ctx(Regs(0, 0, 0, 0), 0, 0, []) && buffer[..] == Zeros(64)
      ensures forall i :: 0 <= i < 16 ==> block[i] == 0
    {
      hide Compressor, Fold, MacroOut, Pow2;
      Pad();
      result := MacroOut(a) + MacroOut(b) + MacroOut(c) + MacroOut(d);
      a, b, c, d := 0, 0, 0, 0;
      lo, hi := 0, 0;
      forall i | 0 <= i < 64 {
        buffer[i] := 0;
      }
      forall i | 0 <= i < 16 {
        block[i] := 0;
      }
    }
  }

  lemma ShiftedFits(w: Width, lo: nat)
    ensures ShiftLeft(lo, 3, w) < Pow2(w)
  {
    CutFits(Up(lo, 3), w);
  }

  lemma ByteCountFits(w: Width)
    ensures 0x2000_0000 <= Pow2(w)
  {
    hide Pow2;
    Powers();
    PowersGrow(32, w);
  }

  /** The start registers and zero are words of every width. */
  lemma WordsFit32(w: Width)
    ensures RegistersFit(w, Start(w).regs) && 0 < Pow2(w)
  {
    hide Pow2;
    Powers();
    PowersGrow(32, w);
  }

  /** The two ways of filling the last blocks. */
  lemma TrailerBlocks(w: Width, q: Regs<nat>, tail: seq<byte>, lo: nat, hi: nat)
    requires |tail| < 64
    ensures var trailer := tail + Trailer(w, |tail|, lo, hi);
            var count := MacroOut(ShiftLeft(lo, 3, w)) + MacroOut(hi);
            Fold(Compressor(Macros(w)), q, trailer) ==
            if |tail| < 56 then
              Fold(Compressor(Macros(w)), q, tail + ([0x80] + Zeros(55 - |tail|) + count))
            else
              Fold(Compressor(Macros(w)),
                   Fold(Compressor(Macros(w)), q, tail + ([0x80] + Zeros(63 - |tail|))),
                   [] + ([] + Zeros(56) + count))
  {
    hide Compressor, Fold, MacroOut, ShiftLeft;
    var trailer := tail + Trailer(w, |tail|, lo, hi);
    var count := MacroOut(ShiftLeft(lo, 3, w)) + MacroOut(hi);
    if |tail| < 56 {
      assert trailer == tail + ([0x80] + Zeros(55 - |tail|) + count);
    } else {
      var first := tail + ([0x80] + Zeros(63 - |tail|));
      var second: seq<byte> := [] + ([] + Zeros(56) + count);
      assert trailer == first + second;
      FoldConcat(Compressor(Macros(w)), q, first, second);
    }
  }

  lemma TailLength(lo: nat, size: nat)
    ensures (lo + size) % 0x2000_0000 % 64 == lo % 64 + size - Whole(lo % 64 + size)
  {
    var all := lo % 64 + size;
    var q := (lo + size) / 0x2000_0000;
    Remainder64((lo + size) % 0x2000_0000, lo / 64 + all / 64 - 0x80_0000 * q, all % 64);
  }

  lemma CutTwice(x: nat, y: nat, w: Width)
    ensures Cut(Cut(x, w) + y, w) == Cut(x + y, w)
  {
    hide Pow2;
    var m := Pow2(w);
    Divide(x, m);
    Divide(x % m + y, m);
    Distribute(x / m, 1, m, (x % m + y) / m);
    assert x + y == (x / m + (x % m + y) / m) * m + (x % m + y) % m;
    Division(x + y, m, x / m + (x % m + y) / m, (x % m + y) % m);
  }

  /** In words of any width, the comparison with the saved counter finds the carry. */
  lemma CountersAdd(w: Width, lo: nat, hi: nat, size: nat)
    requires lo < 0x2000_0000
    ensures Cut(hi + (lo + size) / 0x2000_0000, w)
         == Cut((if (lo + size) % 0x2000_0000 < lo then Cut(hi + 1, w) else hi) + size / 0x2000_0000, w)
  {
    hide Cut;
    var q, r := size / 0x2000_0000, size % 0x2000_0000;
    SplitCount(q, lo + r);
    assert (lo + size) / 0x2000_0000 == q + (if lo + r < 0x2000_0000 then 0 else 1);
    CutTwice(hi + 1, q, w);
  }

  /** Filling the buffer with the first from bytes and compressing it, then compressing whole blocks of
      the data in place, is compressing the whole blocks of the buffered bytes and the data together. */
  lemma PendingBlocks(w: Width, q: Regs<nat>, tail: seq<byte>, data: seq<byte>, from: nat)
    requires |tail| < 64 && from <= |data| && from == (64 - |tail|) % 64
    ensures var whole := Whole(|tail + data|);
            var rest := Whole(|data| - from);
            && Fold(Compressor(Macros(w)), q, (tail + data)[..whole])
               == Fold(Compressor(Macros(w)), Fold(Compressor(Macros(w)), q, tail + data[..from]),
                 data[from..from + rest])
            && (tail + data)[whole..] == data[from + rest..]
  {
    hide Fold, Compressor;
    var first := tail + data[..from];
    var rest := Whole(|data| - from);
    assert tail + data == first + data[from..];
    assert |first| % 64 == 0;
    assert Whole(|tail + data|) == |first| + rest;
    assert (tail + data)[..|first| + rest] == first + data[from..from + rest];
    FoldConcat(Compressor(Macros(w)), q, first, data[from..from + rest]);
  }

  lemma PendingLength(used: nat, size: nat, at: nat)
    requires used < 64 && at <= size && at == (64 - used) % 64
    ensures used + size - Whole(used + size) == size - at - Whole(size - at)
  {
    WholeLeaves(used + size);
    WholeLeaves(size - at);
    assert used + at == 0 || used + at == 64;
  }

  lemma FoldNone(w: Width, q: Regs<nat>, data: seq<byte>, from: nat)
    requires from <= |data|
    ensures Fold(Compressor(Macros(w)), q, data[from..from]) == q
  {
  }

  lemma FoldOneMore(w: Width, q: Regs<nat>, start: Regs<nat>, data: seq<byte>, from: nat, ptr: nat)
    requires from <= ptr && ptr + 64 <= |data| && (ptr - from) % 64 == 0
    requires q == Fold(Compressor(Macros(w)), start, data[from..ptr])
    ensures Fold(Compressor(Macros(w)), start, data[from..ptr + 64]) == Compress(Macros(w), q, data[ptr..ptr + 64])
  {
    hide Compress;
    var last := data[ptr..ptr + 64];
    assert data[from..ptr + 64] == data[from..ptr] + last;
    FoldConcat(Compressor(Macros(w)), start, data[from..ptr], last);
    assert last[..64] == last && |last[64..]| == 0;
    assert Fold(Compressor(Macros(w)), q, last) == Compressor(Macros(w))(q, last);
  }

  /** Init, one Update and Final. */
  method DigestMessage(w: Width, message: seq<byte>) returns (digest: seq<byte>)
    ensures digest == Digest(message)
  {
    hide Digest, Fed, Finish;
    var ctx := new Md4Ctx(w);
    OneUpdateIsDigest(w, message);
    ctx.Update(message);
    digest := ctx.Final();
  }

  /** A context with words of any width that is fed any list of chunks and then finished gives the RFC 1320
      digest of their concatenation. */
  method DigestChunks(w: Width, chunks: seq<seq<byte>>) returns (digest: seq<byte>)
    ensures digest == Digest(Flatten(chunks))
  {
    hide Absorbed, Fed, Finish, DigestOn;
    var ctx := new Md4Ctx(w);
    ghost var done: seq<byte> := [];
    StartAbsorbs(w);
    for i := 0 to |chunks|
      invariant ctx.Valid() && ctx.w == w && fresh(ctx) && fresh(ctx.buffer) && fresh(ctx.block)
      invariant Absorbed(w, ctx.View(), done)
      invariant done + Flatten(chunks[i..]) == Flatten(chunks)
    {
      FedAbsorbs(w, ctx.View(), done, chunks[i]);
      ctx.Update(chunks[i]);
      done := done + chunks[i];
      assert chunks[i..][1..] == chunks[i + 1..];
    }
    assert chunks[|chunks|..] == [] && done == Flatten(chunks);
    FinishDigests(w, ctx.View(), done);
    MacrosDigest(w, done);
    digest := ctx.Final();
  }
}
