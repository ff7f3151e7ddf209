/**
 The macros of md4.c as a machine on words of any width from 32 bits up, and the proof that on each of them
 it computes what RFC 1320 says.
 */
module Md4Macros {
  import opened Words
  import opened Bits
  import opened Md4Spec

  /** The number of bits of an MD4_u32plus. */
  type Width = w: nat | w >= 32 witness 32

  // ---------- the macros ----------

  /** A number stored in a word of w bits. */
  function Cut(x: nat, w: Width): nat {
    Rest(x, w)
  }

  /** x << s in a word of w bits */
  function ShiftLeft(x: nat, s: nat, w: Width): nat {
    Cut(Up(x, s), w)
  }

  function MacroF(x: nat, y: nat, z: nat): nat { Xor(z, And(x, Xor(y, z))) }
  function MacroG(x: nat, y: nat, z: nat): nat { Or(And(x, Or(y, z)), And(y, z)) }
  function MacroH(x: nat, y: nat, z: nat): nat { Xor(Xor(x, y), z) }

  /** SET */
  function MacroSet(w: Width, b0: byte, b1: byte, b2: byte, b3: byte): nat {
    Or(Or(Or(b0 as nat, ShiftLeft(b1 as nat, 8, w)), ShiftLeft(b2 as nat, 16, w)), ShiftLeft(b3 as nat, 24, w))
  }

  /** (unsigned char)(x) */
  function Char(x: nat): byte { (x % 256) as byte }

  /** OUT */
  function MacroOut(x: nat): (bytes: seq<byte>)
    ensures |bytes| == 4
  {
    [Char(x), Char(Down(x, 8)), Char(Down(x, 16)), Char(Down(x, 24))]
  }

  function MacroAdd(w: Width, x: nat, y: nat): nat { Cut(x + y, w) }

  /** The second line of STEP: nothing but the mask cuts a wide word to 32 bits. */
  function MacroRotate(w: Width, t: nat, s: Shift): nat {
    Or(ShiftLeft(t, s, w), Down(And(t, 0xffff_ffff), 32 - s))
  }

  function Macros(w: Width): Machine<nat> {
    Machine(
      (b0: byte, b1: byte, b2: byte, b3: byte) => MacroSet(w, b0, b1, b2, b3),
      MacroOut,
      (x: nat, y: nat) => MacroAdd(w, x, y),
      (t: nat, s: Shift) => MacroRotate(w, t, s),
      MacroF,
      MacroG,
      MacroH,
      0x5a82_7999,
      0x6ed9_eba1,
      Regs(0x6745_2301, 0xefcd_ab89, 0x98ba_dcfe, 0x1032_5476))
  }

  /** A word of any width as a 32-bit word. */
  function Reduced(n: nat): Word { n % 0x1_0000_0000 }

  lemma CutReduces(x: nat, w: Width)
    ensures Reduced(Cut(x, w)) == Reduced(x)
  {
    hide Pow2;
    Powers();
    PowersMultiply(32, w - 32);
    RemainderTwice(x, Pow2(32), Pow2(w - 32));
  }

  lemma BitwiseReduce(x: nat, y: nat)
    ensures Reduced(And(x, y)) == AndWord(Reduced(x), Reduced(y))
    ensures Reduced(Or(x, y)) == OrWord(Reduced(x), Reduced(y))
    ensures Reduced(Xor(x, y)) == XorWord(Reduced(x), Reduced(y))
  {
    Powers();
    hide Pow2;
    BitwiseReduces(x, y, 32);
  }

  // ---------- the mixing functions ----------

  /** On words of any width, F modulo 2^32 is the F of RFC 1320. */
  lemma MacroFIsF(x: nat, y: nat, z: nat)
    ensures Reduced(MacroF(x, y, z)) == F(Reduced(x), Reduced(y), Reduced(z))
  {
    Powers();
    Selects(Reduced(x), Reduced(y), Reduced(z), 32);
    hide And, Or, Xor, Pow2;
    BitwiseReduce(y, z);
    BitwiseReduce(x, Xor(y, z));
    BitwiseReduce(z, And(x, Xor(y, z)));
  }

  lemma MacroGIsG(x: nat, y: nat, z: nat)
    ensures Reduced(MacroG(x, y, z)) == G(Reduced(x), Reduced(y), Reduced(z))
  {
    Majority(Reduced(x), Reduced(y), Reduced(z));
    hide And, Or, Xor;
    BitwiseReduce(y, z);
    BitwiseReduce(x, Or(y, z));
    BitwiseReduce(And(x, Or(y, z)), And(y, z));
  }

  lemma MacroHIsH(x: nat, y: nat, z: nat)
    ensures Reduced(MacroH(x, y, z)) == H(Reduced(x), Reduced(y), Reduced(z))
  {
    hide And, Or, Xor;
    BitwiseReduce(x, y);
    BitwiseReduce(Xor(x, y), z);
  }

  // ---------- addition and rotation ----------

  lemma SumReduces(x: nat, y: nat)
    ensures Reduced(x + y) == Plus(Reduced(x), Reduced(y))
  {
    var p, q := x / 0x1_0000_0000, y / 0x1_0000_0000;
    assert x + y == (p + q) * 0x1_0000_0000 + (Reduced(x) + Reduced(y));
    MultipleVanishes(p + q, Reduced(x) + Reduced(y));
  }

  lemma MultipleVanishes(q: nat, r: nat)
    ensures (q * 0x1_0000_0000 + r) % 0x1_0000_0000 == r % 0x1_0000_0000
  {
  }

  lemma MacroAddIsAdd(w: Width, x: nat, y: nat)
    ensures Reduced(MacroAdd(w, x, y)) == Add(Reduced(x), Reduced(y))
  {
    hide Cut, Reduced;
    CutReduces(x + y, w);
    SumReduces(x, y);
  }

  lemma SmallReduces(x: nat)
    requires x < 0x1_0000_0000
    ensures Reduced(x) == x
  {
  }

  /** The part shifted up, modulo 2^32. */
  lemma UpperPart(w: Width, t: nat, s: Shift)
    ensures Reduced(ShiftLeft(t, s, w)) == Up(Rest(Reduced(t), 32 - s), s)
  {
    hide Pow2, Cut;
    Powers();
    PowersMultiply(32 - s, s);
    CutReduces(Up(t, s), w);
    Scale(t, Pow2(32 - s), Pow2(s));
    RemainderTwice(t, Pow2(32 - s), Pow2(s));
  }

  lemma LowerPart(t: nat, s: Shift)
    ensures And(t, 0xffff_ffff) == Reduced(t)
    ensures Down(Reduced(t), 32 - s) < Pow2(s) <= 0x1_0000_0000
  {
    Powers();
    MaskIsRemainder(t, 32);
    RotateFits(Reduced(t), s);
    PowersGrow(s, 32);
  }

  lemma MacroRotateIsRotate(w: Width, t: nat, s: Shift)
    ensures Reduced(MacroRotate(w, t, s)) == Rotate(Reduced(t), s)
  {
    hide Or, And, Pow2, ShiftLeft, Reduced, Down, Rest;
    var x := Reduced(t);
    UpperPart(w, t, s);
    LowerPart(t, s);
    SmallReduces(Down(x, 32 - s));
    BitwiseReduce(ShiftLeft(t, s, w), Down(x, 32 - s));
    OrAdds(Down(x, 32 - s), Rest(x, 32 - s), s);
  }

  // ---------- bytes ----------

  lemma ShiftLeftFits(x: nat, s: nat, w: Width)
    requires Up(x, s) < 0x1_0000_0000
    ensures ShiftLeft(x, s, w) == Up(x, s)
  {
    hide Pow2;
    Powers();
    PowersGrow(32, w);
    SmallRemainder(Up(x, s), Pow2(w));
  }

  lemma SmallRemainder(x: nat, m: nat)
    requires x < m
    ensures x % m == x
  {
  }

  lemma MacroSetIsWordOf(w: Width, b0: byte, b1: byte, b2: byte, b3: byte)
    ensures MacroSet(w, b0, b1, b2, b3) == WordOf(b0, b1, b2, b3)
  {
    hide Or, Pow2, ShiftLeft;
    var x0, x1, x2, x3 := b0 as nat, b1 as nat, b2 as nat, b3 as nat;
    Powers();
    ShiftLeftFits(x1, 8, w);
    ShiftLeftFits(x2, 16, w);
    ShiftLeftFits(x3, 24, w);
    OrAdds(x0, x1, 8);
    OrAdds(x0 + x1 * 256, x2, 16);
    OrAdds(x0 + x1 * 256 + x2 * 0x1_0000, x3, 24);
  }

  lemma BytesOfRemainder(x: nat, q: nat, h: nat, l: nat)
    requires h < 0x1_0000 && l < 0x1_0000 && x == 0x1_0000_0000 * q + 0x1_0000 * h + l
    ensures x % 256 == l % 256 && x / 256 % 256 == l / 256
    ensures x / 0x1_0000 % 256 == h % 256 && x / 0x100_0000 % 256 == h / 256
  {
    var high, low := 0x1_0000 * q + h, l / 256;
    Division(x, 256, 256 * high + low, l % 256);
    Division(256 * high + low, 256, high, low);
    Division(x, 0x1_0000, high, l);
    Division(high, 256, 256 * q + h / 256, h % 256);
    Division(x, 0x100_0000, 256 * q + h / 256, 0x1_0000 * (h % 256) + l);
    Division(256 * q + h / 256, 256, q, h / 256);
  }

  /** OUT writes the four low-order bytes of a word of any width. */
  lemma MacroOutIsLittleEndian(x: nat)
    ensures MacroOut(x) == LittleEndian(Reduced(x))
  {
    Powers();
    var r := Reduced(x);
    Divide(x, 0x1_0000_0000);
    Divide(r, 0x1_0000);
    BytesOfRemainder(x, x / 0x1_0000_0000, r / 0x1_0000, r % 0x1_0000);
    BytesOfRemainder(r, 0, r / 0x1_0000, r % 0x1_0000);
  }

  // ---------- all of it ----------

  lemma BytesAgree(w: Width)
    ensures SimulatesBytes(Reduced, Macros(w), TEXTBOOK)
  {
    hide MacroSet, MacroOut, WordOf, LittleEndian;
    var m := Macros(w);
    forall b0, b1, b2, b3 ensures Reduced(m.load(b0, b1, b2, b3)) == TEXTBOOK.load(b0, b1, b2, b3) {
      MacroSetIsWordOf(w, b0, b1, b2, b3);
      WordOfReduces(b0, b1, b2, b3);
    }
    forall v ensures m.store(v) == TEXTBOOK.store(Reduced(v)) {
      MacroOutIsLittleEndian(v);
    }
  }

  lemma WordOfReduces(b0: byte, b1: byte, b2: byte, b3: byte)
    ensures Reduced(WordOf(b0, b1, b2, b3)) == WordOf(b0, b1, b2, b3)
  {
  }

  lemma StepsAgree(w: Width)
    ensures SimulatesAdd(Reduced, Macros(w), TEXTBOOK)
    ensures SimulatesRotate(Reduced, Macros(w), TEXTBOOK)
  {
    hide Reduced, MacroAdd, Add, MacroRotate, Rotate;
    var m := Macros(w);
    forall x, y ensures Reduced(m.add(x, y)) == TEXTBOOK.add(Reduced(x), Reduced(y)) {
      MacroAddIsAdd(w, x, y);
    }
    forall t, s: Shift | Used(s) ensures Reduced(m.rotate(t, s)) == TEXTBOOK.rotate(Reduced(t), s) {
      MacroRotateIsRotate(w, t, s);
    }
  }

  lemma MixersAgree(w: Width)
    ensures SimulatesMixer(Reduced, Macros(w).f, TEXTBOOK.f)
    ensures SimulatesMixer(Reduced, Macros(w).g, TEXTBOOK.g)
    ensures SimulatesMixer(Reduced, Macros(w).h, TEXTBOOK.h)
  {
    hide Reduced, MacroF, MacroG, MacroH, F, G, H;
    var m := Macros(w);
    forall x, y, z
      ensures Reduced(m.f(x, y, z)) == TEXTBOOK.f(Reduced(x), Reduced(y), Reduced(z))
      ensures Reduced(m.g(x, y, z)) == TEXTBOOK.g(Reduced(x), Reduced(y), Reduced(z))
      ensures Reduced(m.h(x, y, z)) == TEXTBOOK.h(Reduced(x), Reduced(y), Reduced(z))
    {
      MacroFIsF(x, y, z);
      MacroGIsG(x, y, z);
      MacroHIsH(x, y, z);
    }
  }

  lemma ConstantsAgree(w: Width)
    ensures SimulatesConstants(Reduced, Macros(w), TEXTBOOK)
  {
  }

  /** For every width, the rewritten macros modulo 2^32 are the RFC 1320 operations, whatever the bits
      above the low 32 hold. */
  lemma MacrosAreTextbook(w: Width)
    ensures Simulates(Reduced, Macros(w), TEXTBOOK)
  {
    BytesAgree(w);
    StepsAgree(w);
    MixersAgree(w);
    ConstantsAgree(w);
  }

  // ---------- words stay words ----------

  lemma CutFits(x: nat, w: Width)
    ensures Cut(x, w) < Pow2(w)
  {
  }

  /** Loading, adding and rotating give numbers of w bits. */
  lemma MacrosFit(w: Width, x: nat, y: nat, s: Shift, b0: byte, b1: byte, b2: byte, b3: byte)
    ensures MacroAdd(w, x, y) < Pow2(w)
    ensures MacroRotate(w, x, s) < Pow2(w)
    ensures MacroSet(w, b0, b1, b2, b3) < Pow2(w)
  {
    hide Or, And, Cut, Pow2, WordOf;
    Powers();
    PowersGrow(32, w);
    CutFits(x + y, w);
    CutFits(Up(x, s), w);
    LowerPart(x, s);
    BitwiseFits(ShiftLeft(x, s, w), Down(And(x, 0xffff_ffff), 32 - s), w);
    MacroSetIsWordOf(w, b0, b1, b2, b3);
  }
}
