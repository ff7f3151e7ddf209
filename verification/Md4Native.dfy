/**
 MD4 on words of 32 bits with the operations of a processor. Its words stand for numbers, its operations for
 those of RFC 1320, so it is a machine that computes the same digests.
 */
module Md4Native {
  import opened Words
  import opened Bits
  import opened Md4Spec

  /** The number a word stands for. */
  function Value(u: bv32): Word { u as int }

  /** The low 31 bits of a one place up, with the last bit of b behind them. */
  function Push(a: bv32, b: bv32): bv32 { ((a & 0x7fff_ffff) << 1) | (b & 1) }
  function Mask(a: bv32): bv32 { a & 0x7fff_ffff }
  function Half(a: bv32): bv32 { a >> 1 }
  function Last(a: bv32): bv32 { a & 1 }

  lemma ValueIs(u: bv32)
    ensures Value(u) == u as int
  {
  }

  lemma PushIs(a: bv32, b: bv32)
    ensures Push(a, b) == ((a & 0x7fff_ffff) << 1) | (b & 1)
  {
  }

  lemma MaskIs(a: bv32)
    ensures Mask(a) == a & 0x7fff_ffff
  {
  }

  lemma LastIs(a: bv32)
    ensures Last(a) == a & 1
  {
  }

  lemma PushedInts(a: bv32, b: bv32)
    ensures (((a & 0x7fff_ffff) << 1) | (b & 1)) as int == 2 * ((a & 0x7fff_ffff) as int) + ((b & 1) as int)
  {
  }

  lemma Pushed(a: bv32, b: bv32)
    ensures Value(((a & 0x7fff_ffff) << 1) | (b & 1)) == 2 * Value(a & 0x7fff_ffff) + Value(b & 1)
  {
    hide *;
    ValueIs(((a & 0x7fff_ffff) << 1) | (b & 1));
    ValueIs(a & 0x7fff_ffff);
    ValueIs(b & 1);
    PushedInts(a, b);
  }

  lemma PushedValue(a: bv32, b: bv32)
    ensures Value(Push(a, b)) == 2 * Value(Mask(a)) + Value(Last(b))
  {
    hide *;
    Pushed(a, b);
    PushIs(a, b);
    MaskIs(a);
    LastIs(b);
  }

  lemma Split(u: bv32)
    ensures u == Push(Half(u), Last(u)) && Mask(Half(u)) == Half(u) && Last(Last(u)) == Last(u)
  {
  }

  lemma LastBit(u: bv32)
    ensures Last(u) == 0 || Last(u) == 1
  {
  }

  lemma BitValues()
    ensures Value(0) == 0 && Value(1) == 1
  {
  }

  lemma LastValue(u: bv32)
    ensures Value(Last(u)) == 0 || Value(Last(u)) == 1
  {
    hide *;
    LastBit(u);
    BitValues();
  }

  lemma Halved(u: bv32)
    ensures Value(u) == 2 * Value(Half(u)) + Value(Last(u))
  {
    hide *;
    Split(u);
    PushedValue(Half(u), Last(u));
  }

  function Inc(u: bv32): bv32 { u + 1 }
  function Sum(u: bv32, v: bv32): bv32 { u + v }

  lemma IncIs(u: bv32)
    ensures Inc(u) == u + 1
  {
  }

  lemma SumIs(u: bv32, v: bv32)
    ensures Sum(u, v) == u + v
  {
  }

  lemma SumOfNext(u: bv32, v: bv32)
    ensures Sum(u, v + 1) == u + v + 1
  {
  }

  lemma NextOfSum(u: bv32, v: bv32)
    ensures Inc(u + v) == u + v + 1
  {
  }

  lemma SumInc(u: bv32, v: bv32)
    ensures Sum(u, Inc(v)) == Inc(Sum(u, v))
  {
    hide *;
    IncIs(v);
    SumIs(u, v);
    SumOfNext(u, v);
    NextOfSum(u, v);
  }

  lemma IncEven(u: bv32)
    requires Last(u) == 0
    ensures Half(Inc(u)) == Half(u) && Last(Inc(u)) == 1
  {
  }

  lemma IncOdd(u: bv32)
    requires Last(u) == 1
    ensures Half(Inc(u)) == Mask(Inc(Half(u))) && Last(Inc(u)) == 0
  {
  }

  function Top(u: bv32): bv32 { u & 0x8000_0000 }
  function Double(u: bv32): bv32 { u << 1 }

  lemma TopInts(u: bv32)
    ensures u as int == (u & 0x7fff_ffff) as int + (u & 0x8000_0000) as int
  {
  }

  lemma TopIs(u: bv32)
    ensures Top(u) == u & 0x8000_0000
  {
  }

  lemma TopPlain(u: bv32)
    ensures Value(u) == Value(u & 0x7fff_ffff) + Value(u & 0x8000_0000)
  {
    hide *;
    ValueIs(u);
    ValueIs(u & 0x7fff_ffff);
    ValueIs(u & 0x8000_0000);
    TopInts(u);
  }

  lemma TopValue(u: bv32)
    ensures Value(u) == Value(Mask(u)) + Value(Top(u))
  {
    hide *;
    TopPlain(u);
    MaskIs(u);
    TopIs(u);
  }

  lemma TopBit(u: bv32)
    ensures Top(u) == 0 || Top(u) == 0x8000_0000
  {
  }

  lemma TopValues()
    ensures Value(0) == 0 && Value(0x8000_0000) == 0x8000_0000
  {
  }

  lemma HalfOfDouble(u: bv32)
    ensures Half(Double(u)) == Mask(u)
  {
  }

  lemma MaskValue(u: bv32)
    ensures Value(Mask(u)) == Value(u) % 0x8000_0000
  {
    hide *;
    TopValue(u);
    TopBit(u);
    TopValues();
    HalfOfDouble(u);
    Halved(Double(u));
    ValueRange(Double(u));
    ValueRange(u);
  }

  lemma ValueRange(u: bv32)
    ensures 0 <= Value(u) < 0x1_0000_0000
  {
  }

  lemma {:induction false} IncValue(u: bv32)
    ensures Value(Inc(u)) == (Value(u) + 1) % 0x1_0000_0000
    decreases Value(u)
  {
    hide *;
    ValueRange(u);
    Halved(u);
    LastBit(u);
    BitValues();
    Halved(Inc(u));
    if Last(u) == 0 {
      IncEven(u);
    } else {
      IncOdd(u);
      IncValue(Half(u));
      MaskValue(Inc(Half(u)));
    }
  }

  function Dec(u: bv32): bv32 { u - 1 }
  lemma IncDec(u: bv32)
    ensures Inc(Dec(u)) == u
  {
  }

  lemma SumZero(u: bv32)
    ensures Sum(u, 0) == u
  {
  }

  lemma NonZero(u: bv32)
    requires u != 0
    ensures Value(u) > 0
  {
  }

  lemma DecValue(u: bv32)
    requires u != 0
    ensures Value(u) == Value(Dec(u)) + 1
  {
    hide *;
    IncDec(u);
    IncValue(Dec(u));
    ValueRange(Dec(u));
    NonZero(u);
  }

  lemma OneMore(x: nat, y: nat)
    ensures ((x + y) % 0x1_0000_0000 + 1) % 0x1_0000_0000 == (x + (y + 1)) % 0x1_0000_0000
  {
  }

  lemma {:induction false} SumValue(u: bv32, v: bv32)
    ensures Value(Sum(u, v)) == (Value(u) + Value(v)) % 0x1_0000_0000
    decreases Value(v)
  {
    hide *;
    ValueRange(u);
    if v == 0 {
      SumZero(u);
      BitValues();
    } else {
      DecValue(v);
      SumValue(u, Dec(v));
      IncDec(v);
      SumInc(u, Dec(v));
      IncValue(Sum(u, Dec(v)));
      OneMore(Value(u), Value(Dec(v)));
    }
  }

  // ---------- bitwise ----------

  function AndBits(u: bv32, v: bv32): bv32 { u & v }
  function OrBits(u: bv32, v: bv32): bv32 { u | v }
  function XorBits(u: bv32, v: bv32): bv32 { u ^ v }
  function NotBits(u: bv32): bv32 { !u }

  lemma AndHalf(u: bv32, v: bv32)
    ensures Half(AndBits(u, v)) == AndBits(Half(u), Half(v))
  {
  }

  lemma AndLast(u: bv32, v: bv32)
    ensures Last(AndBits(u, v)) == AndBits(Last(u), Last(v))
  {
  }

  lemma OrHalf(u: bv32, v: bv32)
    ensures Half(OrBits(u, v)) == OrBits(Half(u), Half(v))
  {
  }

  lemma OrLast(u: bv32, v: bv32)
    ensures Last(OrBits(u, v)) == OrBits(Last(u), Last(v))
  {
  }

  lemma XorHalf(u: bv32, v: bv32)
    ensures Half(XorBits(u, v)) == XorBits(Half(u), Half(v))
  {
  }

  lemma XorLast(u: bv32, v: bv32)
    ensures Last(XorBits(u, v)) == XorBits(Last(u), Last(v))
  {
  }

  lemma NotHalves(u: bv32)
    ensures Half(NotBits(u)) == Mask(NotBits(Half(u))) && Last(NotBits(u)) == if Last(u) == 0 then 1 else 0
  {
  }

  lemma OneBit()
    ensures AndBits(0, 0) == AndBits(0, 1) == AndBits(1, 0) == 0 && AndBits(1, 1) == 1
    ensures OrBits(0, 0) == 0 && OrBits(0, 1) == OrBits(1, 0) == OrBits(1, 1) == 1
    ensures XorBits(0, 0) == XorBits(1, 1) == 0 && XorBits(0, 1) == XorBits(1, 0) == 1
  {
  }

  lemma {:induction false} BitwiseValue(u: bv32, v: bv32)
    ensures Value(AndBits(u, v)) == And(Value(u), Value(v))
    ensures Value(OrBits(u, v)) == Or(Value(u), Value(v))
    ensures Value(XorBits(u, v)) == Xor(Value(u), Value(v))
    decreases Value(u) + Value(v)
  {
    hide *;
    LastBit(u);
    LastBit(v);
    BitValues();
    OneBit();
    if u == 0 && v == 0 {
      NothingAtAll();
    } else {
      if u != 0 {
        NonZero(u);
      } else {
        NonZero(v);
      }
      Halved(u);
      Halved(v);
      AndHalf(u, v);
      AndLast(u, v);
      OrHalf(u, v);
      OrLast(u, v);
      XorHalf(u, v);
      XorLast(u, v);
      Halved(AndBits(u, v));
      Halved(OrBits(u, v));
      Halved(XorBits(u, v));
      BitwiseValue(Half(u), Half(v));
      ByHalf(Value(u), Value(v));
    }
  }

  lemma NothingAtAll()
    ensures And(0, 0) == Or(0, 0) == Xor(0, 0) == 0
  {
  }

  lemma {:induction false} NotValue(u: bv32)
    ensures Value(NotBits(u)) == 0xffff_ffff - Value(u)
    decreases Value(u)
  {
    hide *;
    Halved(u);
    Halved(NotBits(u));
    NotHalves(u);
    LastBit(u);
    BitValues();
    if u == 0 {
      NotZero();
    } else {
      NonZero(u);
      NotValue(Half(u));
      MaskValue(NotBits(Half(u)));
      ValueRange(u);
    }
  }

  lemma NotZero()
    ensures Value(NotBits(0)) == 0xffff_ffff
  {
  }

  // ---------- rotation ----------

  function Turn1(u: bv32): bv32 { (u << 1) | (u >> 31) }
  function Turn2(u: bv32): bv32 { (u << 2) | (u >> 30) }
  function Turn3(u: bv32): bv32 { (u << 3) | (u >> 29) }
  function Turn5(u: bv32): bv32 { (u << 5) | (u >> 27) }
  function Turn7(u: bv32): bv32 { (u << 7) | (u >> 25) }
  function Turn9(u: bv32): bv32 { (u << 9) | (u >> 23) }
  function Turn11(u: bv32): bv32 { (u << 11) | (u >> 21) }
  function Turn13(u: bv32): bv32 { (u << 13) | (u >> 19) }
  function Turn15(u: bv32): bv32 { (u << 15) | (u >> 17) }
  function Turn17(u: bv32): bv32 { (u << 17) | (u >> 15) }
  function Turn19(u: bv32): bv32 { (u << 19) | (u >> 13) }

  lemma Turns2(u: bv32)
    ensures Turn1(Turn1(u)) == Turn2(u)
  {
  }

  lemma Turns3(u: bv32)
    ensures Turn2(Turn1(u)) == Turn3(u)
  {
  }

  lemma Turns5(u: bv32)
    ensures Turn2(Turn3(u)) == Turn5(u)
  {
  }

  lemma Turns7(u: bv32)
    ensures Turn2(Turn5(u)) == Turn7(u)
  {
  }

  lemma Turns9(u: bv32)
    ensures Turn2(Turn7(u)) == Turn9(u)
  {
  }

  lemma Turns11(u: bv32)
    ensures Turn2(Turn9(u)) == Turn11(u)
  {
  }

  lemma Turns13(u: bv32)
    ensures Turn2(Turn11(u)) == Turn13(u)
  {
  }

  lemma Turns15(u: bv32)
    ensures Turn2(Turn13(u)) == Turn15(u)
  {
  }

  lemma Turns17(u: bv32)
    ensures Turn2(Turn15(u)) == Turn17(u)
  {
  }

  lemma Turns19(u: bv32)
    ensures Turn2(Turn17(u)) == Turn19(u)
  {
  }

  function High(u: bv32): bv32 { u >> 31 }

  lemma TurnPushes(u: bv32)
    ensures Turn1(u) == Push(Mask(u), High(u))
    ensures Mask(Mask(u)) == Mask(u) && Last(High(u)) == High(u)
    ensures High(u) == if Top(u) == 0 then 0 else 1
  {
  }

  lemma TurnOnce(u: bv32)
    ensures Value(Turn1(u)) == Rotate(Value(u), 1)
  {
    hide *;
    TurnPushes(u);
    PushedValue(Mask(u), High(u));
    MaskValue(u);
    TopValue(u);
    TopBit(u);
    TopValues();
    BitValues();
    ValueRange(u);
    RotateOnce(Value(u));
  }

  lemma RotateOnce(x: Word)
    ensures Rotate(x, 1) == 2 * (x % 0x8000_0000) + x / 0x8000_0000
  {
    Powers();
    assert Pow2(31) == 0x8000_0000 by {
      DoublePower(32);
    }
  }

  lemma RotateIs(x: Word, s: Shift)
    ensures Rotate(x, s) == x % Pow2(32 - s) * Pow2(s) + x / Pow2(32 - s)
    ensures x / Pow2(32 - s) < Pow2(s)
  {
    hide Pow2;
    RotateFits(x, s);
  }

  lemma Regroup(p: nat, a: nat, h: nat, b: nat, r: nat)
    ensures (p * a + h) * b + r == p * (a * b) + (h * b + r)
  {
  }

  lemma UpperParts(y: nat, a: nat, t: nat, l: nat, h: nat)
    requires t > 0 && y == l * a + h && h < a
    ensures a * t > 0 && y / (a * t) == l / t && y % (a * t) == l % t * a + h
  {
    hide *;
    Division(y, a, l, h);
    QuotientTwice(y, a, t);
    RemainderTwice(y, a, t);
    Divide(y % (a * t), a);
  }

  lemma LowerParts(x: nat, t: nat, b: nat)
    requires t > 0 && b > 0
    ensures t * b > 0 && x % (t * b) % t == x % t && x / t == x / (t * b) * b + x % (t * b) / t
  {
    hide *;
    RemainderTwice(x, t, b);
    QuotientTwice(x, t, b);
    Divide(x / t, b);
  }

  /** Moving up by a and then by b, on what is below and above t. */
  lemma MovedTwice(x: nat, a: nat, b: nat, t: nat, y: nat)
    requires t > 0 && b > 0 && y == x % (t * b) * a + x / (t * b) && x / (t * b) < a
    ensures y % (a * t) * b + y / (a * t) == x % t * (a * b) + x / t
  {
    hide *;
    var l, h := x % (t * b), x / (t * b);
    UpperParts(y, a, t, l, h);
    LowerParts(x, t, b);
    Regroup(l % t, a, h, b, l / t);
  }

  /** Rotating twice is rotating by the sum. */
  lemma RotateTwice(x: Word, i: Shift, j: Shift)
    requires i + j < 32
    ensures Rotate(Rotate(x, i), j) == Rotate(x, i + j)
  {
    hide *;
    PowersMultiply(i, 32 - i - j);
    PowersMultiply(32 - i - j, j);
    PowersMultiply(i, j);
    RotateIs(x, i);
    RotateIs(Rotate(x, i), j);
    RotateIs(x, i + j);
    MovedTwice(x, Pow2(i), Pow2(j), Pow2(32 - i - j), Rotate(x, i));
  }

  /** v is u rotated by s. */
  predicate Turned(u: bv32, v: bv32, s: Shift) {
    Value(v) == Rotate(Value(u), s)
  }

  lemma TurnedFurther(u: bv32, v: bv32, w: bv32, i: Shift, j: Shift)
    requires i + j < 32 && Turned(u, v, i) && Turned(v, w, j)
    ensures Turned(u, w, i + j)
  {
    hide Value, Rotate;
    RotateTwice(Value(u), i, j);
  }

  lemma TurnedTwice(u: bv32)
    ensures Turned(u, Turn2(u), 2)
  {
    hide Turn1, Turn2, Value, Rotate;
    Turns2(u);
    TurnOnce(u);
    TurnOnce(Turn1(u));
    TurnedFurther(u, Turn1(u), Turn2(u), 1, 1);
  }

  lemma TurnedOn(u: bv32, v: bv32, s: Shift)
    requires s + 2 < 32 && Turned(u, v, s)
    ensures Turned(u, Turn2(v), s + 2)
  {
    hide *;
    TurnedTwice(v);
    TurnedFurther(u, v, Turn2(v), s, 2);
  }

  lemma TurnedBy1(u: bv32)
    ensures Turned(u, Turn1(u), 1)
  {
    hide Turn1, Value, Rotate;
    TurnOnce(u);
  }

  /** The rotations that are used. */
  function Turn(u: bv32, s: Shift): bv32 {
    if s == 3 then Turn3(u) else if s == 5 then Turn5(u) else if s == 7 then Turn7(u) else if s == 9 then Turn9(u)
    else if s == 11 then Turn11(u) else if s == 13 then Turn13(u) else if s == 15 then Turn15(u) else Turn19(u)
  }

  lemma TurnedBy(u: bv32, s: Shift)
    requires Used(s)
    ensures Turned(u, Turn(u, s), s)
  {
    hide Value, Rotate, Turned, Turn1, Turn2, Turn3, Turn5, Turn7, Turn9, Turn11, Turn13, Turn15, Turn17, Turn19;
    TurnedBy1(u);
    Turns3(u);
    TurnedOn(u, Turn1(u), 1);
    Turns5(u);
    TurnedOn(u, Turn3(u), 3);
    Turns7(u);
    TurnedOn(u, Turn5(u), 5);
    Turns9(u);
    TurnedOn(u, Turn7(u), 7);
    Turns11(u);
    TurnedOn(u, Turn9(u), 9);
    Turns13(u);
    TurnedOn(u, Turn11(u), 11);
    Turns15(u);
    TurnedOn(u, Turn13(u), 13);
    Turns17(u);
    TurnedOn(u, Turn15(u), 15);
    Turns19(u);
    TurnedOn(u, Turn17(u), 17);
  }

  // ---------- words from numbers ----------

  function OfWord(n: Word): bv32 {
    if n == 0 then 0 else Push(OfWord(n / 2), if n % 2 == 1 then 1 else 0)
  }

  lemma LastOfBits()
    ensures Last(0) == 0 && Last(1) == 1
  {
  }

  lemma OfWordStep(n: Word)
    requires n != 0
    ensures OfWord(n) == Push(OfWord(n / 2), if n % 2 == 1 then 1 else 0)
  {
  }

  lemma OfZero()
    ensures OfWord(0) == 0
  {
  }

  lemma {:induction false} OfWordValue(n: Word)
    ensures Value(OfWord(n)) == n
  {
    hide *;
    BitValues();
    LastOfBits();
    if n == 0 {
      OfZero();
    } else {
      OfWordStep(n);
      OfWordValue(n / 2);
      MaskValue(OfWord(n / 2));
      PushedValue(OfWord(n / 2), if n % 2 == 1 then 1 else 0);
    }
  }

  lemma {:induction false} SameValue(u: bv32, v: bv32)
    requires Value(u) == Value(v)
    ensures u == v
    decreases Value(u)
  {
    hide *;
    if u == 0 || v == 0 {
      BitValues();
      if u != 0 {
        NonZero(u);
      }
      if v != 0 {
        NonZero(v);
      }
    } else {
      NonZero(u);
      LastBit(u);
      LastBit(v);
      BitValues();
      Halved(u);
      Halved(v);
      SameValue(Half(u), Half(v));
      Split(u);
      Split(v);
    }
  }

  // ---------- the machine ----------

  function MixF(x: bv32, y: bv32, z: bv32): bv32 { OrBits(AndBits(x, y), AndBits(NotBits(x), z)) }
  function MixG(x: bv32, y: bv32, z: bv32): bv32 { OrBits(OrBits(AndBits(x, y), AndBits(x, z)), AndBits(y, z)) }
  function MixH(x: bv32, y: bv32, z: bv32): bv32 { XorBits(XorBits(x, y), z) }
  function LoadBytes(b0: byte, b1: byte, b2: byte, b3: byte): bv32 { OfWord(WordOf(b0, b1, b2, b3)) }
  function StoreWord(u: bv32): seq<byte> { LittleEndian(Value(u)) }

  const NATIVE: Machine<bv32> := Machine(
    LoadBytes,
    StoreWord,
    Sum,
    Turn,
    MixF,
    MixG,
    MixH,
    0x5a82_7999,
    0x6ed9_eba1,
    Regs(0x6745_2301, 0xefcd_ab89, 0x98ba_dcfe, 0x1032_5476))

  lemma MixesValue(x: bv32, y: bv32, z: bv32)
    ensures Value(MixF(x, y, z)) == F(Value(x), Value(y), Value(z))
    ensures Value(MixG(x, y, z)) == G(Value(x), Value(y), Value(z))
    ensures Value(MixH(x, y, z)) == H(Value(x), Value(y), Value(z))
  {
    hide Value, AndBits, OrBits, XorBits, NotBits, And, Or, Xor;
    NotValue(x);
    BitwiseValue(x, y);
    BitwiseValue(x, z);
    BitwiseValue(y, z);
    BitwiseValue(NotBits(x), z);
    BitwiseValue(AndBits(x, y), AndBits(NotBits(x), z));
    BitwiseValue(AndBits(x, y), AndBits(x, z));
    BitwiseValue(OrBits(AndBits(x, y), AndBits(x, z)), AndBits(y, z));
    BitwiseValue(XorBits(x, y), z);
  }

  lemma ConstantValues()
    ensures SimulatesConstants(Value, NATIVE, TEXTBOOK)
  {
  }

  lemma BytesSimulate()
    ensures SimulatesBytes(Value, NATIVE, TEXTBOOK)
  {
    hide Value, OfWord, LittleEndian, WordOf;
    forall b0, b1, b2, b3 ensures Value(LoadBytes(b0, b1, b2, b3)) == WordOf(b0, b1, b2, b3) {
      OfWordValue(WordOf(b0, b1, b2, b3));
    }
  }

  lemma AddSimulates()
    ensures SimulatesAdd(Value, NATIVE, TEXTBOOK)
  {
    hide Value, Sum;
    forall x, y ensures Value(Sum(x, y)) == Add(Value(x), Value(y)) {
      SumValue(x, y);
    }
  }

  lemma RotateSimulates()
    ensures SimulatesRotate(Value, NATIVE, TEXTBOOK)
  {
    hide Value, Turn, Rotate;
    forall x, s: Shift | Used(s) ensures Value(Turn(x, s)) == Rotate(Value(x), s) {
      TurnedBy(x, s);
    }
  }

  lemma MixersSimulate()
    ensures SimulatesMixer(Value, NATIVE.f, TEXTBOOK.f)
    ensures SimulatesMixer(Value, NATIVE.g, TEXTBOOK.g)
    ensures SimulatesMixer(Value, NATIVE.h, TEXTBOOK.h)
  {
    hide Value, MixF, MixG, MixH, F, G, H;
    forall x, y, z
      ensures Value(MixF(x, y, z)) == F(Value(x), Value(y), Value(z))
      ensures Value(MixG(x, y, z)) == G(Value(x), Value(y), Value(z))
      ensures Value(MixH(x, y, z)) == H(Value(x), Value(y), Value(z))
    {
      MixesValue(x, y, z);
    }
  }

  lemma NativeIsTextbook(message: seq<byte>)
    ensures DigestOn(NATIVE, message) == Digest(message)
  {
    hide SimulatesBytes, SimulatesAdd, SimulatesRotate, SimulatesMixer, SimulatesConstants, DigestOn;
    ConstantValues();
    BytesSimulate();
    AddSimulates();
    RotateSimulates();
    MixersSimulate();
    DigestSimulates(Value, NATIVE, TEXTBOOK, message);
  }
}
