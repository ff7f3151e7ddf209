/**
 Unsigned words of any width as natural numbers: powers of two, bit by bit operations, and what both are
 modulo a power of two.
 */
module Bits {
  function Pow2(k: nat): (p: nat)
    ensures p > 0
  {
    if k == 0 then 1 else 2 * Pow2(k - 1)
  }

  /** x << k and x >> k without a limit on the width */
  function Up(x: nat, k: nat): nat { x * Pow2(k) }
  function Down(x: nat, k: nat): nat { Quotient(x, Pow2(k)) }

  function Quotient(x: nat, d: nat): nat
    requires d > 0
  {
    x / d
  }

  /** The low k bits of x */
  function Rest(x: nat, k: nat): nat { x % Pow2(k) }

  function And(x: nat, y: nat): nat {
    if x == 0 && y == 0 then 0 else 2 * And(x / 2, y / 2) + if x % 2 == 1 && y % 2 == 1 then 1 else 0
  }

  function Or(x: nat, y: nat): nat {
    if x == 0 && y == 0 then 0 else 2 * Or(x / 2, y / 2) + if x % 2 == 1 || y % 2 == 1 then 1 else 0
  }

  function Xor(x: nat, y: nat): nat {
    if x == 0 && y == 0 then 0 else 2 * Xor(x / 2, y / 2) + if x % 2 != y % 2 then 1 else 0
  }

  /** Bit i of a number, counting from the low end. */
  function BitAt(x: nat, i: nat): nat {
    Down(x, i) % 2
  }

  // ---------- division ----------

  lemma Divide(x: nat, d: nat)
    requires d > 0
    ensures x == x / d * d + x % d && x % d < d
  {
  }

  lemma Monotone(p: nat, q: nat, d: nat)
    requires p <= q
    ensures p * d <= q * d
  {
  }

  lemma SameQuotient(d: nat, p: nat, s: nat, q: nat, r: nat)
    requires p * d + s == q * d + r && s < d && r < d
    ensures p == q && s == r
  {
    if p < q {
      Monotone(p + 1, q, d);
      assert false;
    } else if q < p {
      Monotone(q + 1, p, d);
      assert false;
    }
  }

  /** Quotient and remainder are the only ones. */
  lemma Division(x: nat, d: nat, q: nat, r: nat)
    requires x == q * d + r && r < d
    ensures x / d == q && x % d == r
  {
    Divide(x, d);
    SameQuotient(d, x / d, x % d, q, r);
  }

  /** A remainder modulo a multiple of a has the same remainder modulo a. */
  lemma RemainderTwice(x: nat, a: nat, b: nat)
    requires a > 0 && b > 0
    ensures a * b > 0 && x % (a * b) % a == x % a
  {
    Positive(a, b);
    var q, r := x / (a * b), x % (a * b);
    Divide(x, a * b);
    Divide(r, a);
    assert x == (q * b + r / a) * a + r % a by {
      Distribute(q, a, b, r / a);
    }
    Division(x, a, q * b + r / a, r % a);
  }

  lemma Positive(a: nat, b: nat)
    requires a > 0 && b > 0
    ensures a * b > 0
  {
  }

  lemma Distribute(q: nat, a: nat, b: nat, c: nat)
    ensures (q * b + c) * a == q * (a * b) + c * a
  {
  }

  /** Scaling number and modulus scales the remainder and keeps the quotient. */
  lemma Scale(x: nat, a: nat, b: nat)
    requires a > 0 && b > 0
    ensures a * b > 0 && x * b % (a * b) == x % a * b && x * b / (a * b) == x / a
  {
    Positive(a, b);
    Divide(x, a);
    Distribute(x / a, b, a, x % a);
    assert x * b == x / a * (a * b) + x % a * b by {
      assert b * a == a * b;
    }
    Below(x % a, a, b);
    Division(x * b, a * b, x / a, x % a * b);
  }

  lemma Below(r: nat, a: nat, b: nat)
    requires r < a && b > 0
    ensures r * b < a * b
  {
  }

  lemma Carried(r: nat, a: nat, b: nat, s: nat)
    requires r < b && s < a
    ensures r * a + s < a * b
  {
    Monotone(r + 1, b, a);
    Distribute(r, 1, a, 1);
  }

  lemma QuotientBelow(x: nat, a: nat, b: nat)
    requires a > 0 && x < a * b
    ensures x / a < b
  {
    Divide(x, a);
    if b <= x / a {
      Monotone(b, x / a, a);
      assert false;
    }
  }

  /** Dividing in two steps. */
  lemma QuotientTwice(x: nat, a: nat, b: nat)
    requires a > 0 && b > 0
    ensures a * b > 0 && x / (a * b) == x / a / b && x % (a * b) / a == x / a % b
  {
    Positive(a, b);
    var p, s := x / a, x % a;
    var q, r := p / b, p % b;
    Divide(x, a);
    Divide(p, b);
    assert x == q * (a * b) + (r * a + s) by {
      Distribute(q, a, b, r);
    }
    Carried(r, a, b, s);
    Division(x, a * b, q, r * a + s);
    Division(r * a + s, a, r, s);
  }

  // ---------- powers of two ----------

  lemma {:induction false} PowersMultiply(j: nat, k: nat)
    ensures Pow2(j + k) == Pow2(j) * Pow2(k)
  {
    if j > 0 {
      PowersMultiply(j - 1, k);
      assert Pow2(j) * Pow2(k) == 2 * (Pow2(j - 1) * Pow2(k));
    }
  }

  lemma Powers()
    ensures Pow2(8) == 256 && Pow2(16) == 0x1_0000 && Pow2(24) == 0x100_0000 && Pow2(32) == 0x1_0000_0000
  {
    assert Pow2(8) == 256 by {
      assert Pow2(4) == 16;
      PowersMultiply(4, 4);
    }
    PowersMultiply(8, 8);
    PowersMultiply(8, 16);
    PowersMultiply(16, 16);
  }

  lemma {:induction false} PowersGrow(j: nat, k: nat)
    requires j <= k
    ensures Pow2(j) <= Pow2(k)
  {
    if j < k {
      PowersGrow(j, k - 1);
    }
  }

  /** The remainder modulo a power of two, by the last bit. */
  lemma RemainderByHalf(x: nat, k: nat)
    requires k > 0
    ensures x % Pow2(k) % 2 == x % 2 && x % Pow2(k) / 2 == x / 2 % Pow2(k - 1)
  {
    hide Pow2;
    DoublePower(k);
    RemainderTwice(x, 2, Pow2(k - 1));
    QuotientTwice(x, 2, Pow2(k - 1));
  }

  lemma DoublePower(k: nat)
    requires k > 0
    ensures Pow2(k) == 2 * Pow2(k - 1)
  {
  }

  lemma DoubleProduct(y: nat, k: nat)
    requires k > 0
    ensures y * Pow2(k) == 2 * (y * Pow2(k - 1))
  {
  }

  // ---------- bit by bit ----------

  lemma ByHalf(x: nat, y: nat)
    ensures And(x, y) == 2 * And(x / 2, y / 2) + if x % 2 == 1 && y % 2 == 1 then 1 else 0
    ensures Or(x, y) == 2 * Or(x / 2, y / 2) + if x % 2 == 1 || y % 2 == 1 then 1 else 0
    ensures Xor(x, y) == 2 * Xor(x / 2, y / 2) + if x % 2 != y % 2 then 1 else 0
  {
  }

  lemma Halves(x: nat, y: nat)
    ensures And(x, y) / 2 == And(x / 2, y / 2) && (And(x, y) % 2 == 1 <==> x % 2 == 1 && y % 2 == 1)
    ensures Or(x, y) / 2 == Or(x / 2, y / 2) && (Or(x, y) % 2 == 1 <==> x % 2 == 1 || y % 2 == 1)
    ensures Xor(x, y) / 2 == Xor(x / 2, y / 2) && (Xor(x, y) % 2 == 1 <==> x % 2 != y % 2)
  {
    hide And, Or, Xor;
    ByHalf(x, y);
  }

  lemma SameByHalf(a: nat, b: nat)
    requires a / 2 == b / 2 && (a % 2 == 1 <==> b % 2 == 1)
    ensures a == b
  {
  }

  lemma SameRemainder(a: nat, b: nat, k: nat)
    requires k > 0 && a / 2 % Pow2(k - 1) == b / 2 && (a % 2 == 1 <==> b % 2 == 1)
    ensures a % Pow2(k) == b
  {
    hide *;
    RemainderByHalf(a, k);
    SameByHalf(a % Pow2(k), b);
  }

  /** The operations modulo a power of two depend only on their arguments modulo that. */
  lemma {:induction false} BitwiseReduces(x: nat, y: nat, k: nat)
    ensures And(x, y) % Pow2(k) == And(x % Pow2(k), y % Pow2(k))
    ensures Or(x, y) % Pow2(k) == Or(x % Pow2(k), y % Pow2(k))
    ensures Xor(x, y) % Pow2(k) == Xor(x % Pow2(k), y % Pow2(k))
    decreases k
  {
    if k == 0 {
      assert x % 1 == 0 && y % 1 == 0;
    } else {
      hide *;
      BitwiseReduces(x / 2, y / 2, k - 1);
      RemainderByHalf(x, k);
      RemainderByHalf(y, k);
      Halves(x, y);
      Halves(x % Pow2(k), y % Pow2(k));
      SameRemainder(And(x, y), And(x % Pow2(k), y % Pow2(k)), k);
      SameRemainder(Or(x, y), Or(x % Pow2(k), y % Pow2(k)), k);
      SameRemainder(Xor(x, y), Xor(x % Pow2(k), y % Pow2(k)), k);
    }
  }

  lemma {:induction false} BitwiseFits(x: nat, y: nat, k: nat)
    requires x < Pow2(k) && y < Pow2(k)
    ensures And(x, y) < Pow2(k) && Or(x, y) < Pow2(k) && Xor(x, y) < Pow2(k)
    decreases k
  {
    if k > 0 {
      BitwiseFits(x / 2, y / 2, k - 1);
      ByHalf(x, y);
    }
  }

  lemma {:induction false} AndZero(x: nat)
    ensures And(x, 0) == 0
  {
    if x > 0 {
      AndZero(x / 2);
    }
  }

  lemma MaskOfNone(x: nat)
    ensures And(x, Pow2(0) - 1) == x % Pow2(0)
  {
    AndZero(x);
  }

  lemma MaskByHalf(k: nat)
    requires k > 0
    ensures (Pow2(k) - 1) / 2 == Pow2(k - 1) - 1 && (Pow2(k) - 1) % 2 == 1
  {
  }

  /** Masking the low k bits is the remainder modulo 2^k. */
  lemma {:induction false} MaskIsRemainder(x: nat, k: nat)
    ensures And(x, Pow2(k) - 1) == x % Pow2(k)
    decreases k
  {
    hide *;
    if k == 0 {
      MaskOfNone(x);
    } else {
      MaskIsRemainder(x / 2, k - 1);
      MaskByHalf(k);
      Halves(x, Pow2(k) - 1);
      SameRemainder(x, And(x, Pow2(k) - 1), k);
    }
  }

  lemma {:induction false} OrZero(y: nat)
    ensures Or(y, 0) == y && Or(0, y) == y
  {
    if y > 0 {
      OrZero(y / 2);
    }
  }

  /** Or-ing in a multiple of a power of two above x adds it. */
  lemma {:induction false} OrAdds(x: nat, y: nat, k: nat)
    requires x < Pow2(k)
    ensures Or(x, y * Pow2(k)) == Or(y * Pow2(k), x) == x + y * Pow2(k)
    decreases k
  {
    if k == 0 {
      OrZero(y);
    } else {
      OrAdds(x / 2, y, k - 1);
      hide Or;
      DoubleProduct(y, k);
      ByHalf(x, y * Pow2(k));
      ByHalf(y * Pow2(k), x);
    }
  }

  lemma NotByHalf(x: nat, k: nat)
    requires k > 0 && x < Pow2(k)
    ensures x / 2 < Pow2(k - 1)
    ensures (Pow2(k) - 1 - x) / 2 == Pow2(k - 1) - 1 - x / 2 && ((Pow2(k) - 1 - x) % 2 == 1 <==> x % 2 == 0)
  {
  }

  lemma SelectsNone(x: nat, y: nat, z: nat)
    requires x < Pow2(0) && y < Pow2(0) && z < Pow2(0)
    ensures Xor(z, And(x, Xor(y, z))) == Or(And(x, y), And(Pow2(0) - 1 - x, z))
  {
    assert x == y == z == 0;
    assert And(0, 0) == Or(0, 0) == Xor(0, 0) == 0;
  }

  /** Where x has a bit, y's is taken, elsewhere z's: by exclusive or, and by cases. */
  lemma {:induction false} Selects(x: nat, y: nat, z: nat, k: nat)
    requires x < Pow2(k) && y < Pow2(k) && z < Pow2(k)
    ensures Xor(z, And(x, Xor(y, z))) == Or(And(x, y), And(Pow2(k) - 1 - x, z))
    decreases k
  {
    hide *;
    if k == 0 {
      SelectsNone(x, y, z);
    } else {
      var n := Pow2(k) - 1 - x;
      NotByHalf(x, k);
      NotByHalf(y, k);
      NotByHalf(z, k);
      Selects(x / 2, y / 2, z / 2, k - 1);
      Halves(y, z);
      Halves(x, Xor(y, z));
      Halves(z, And(x, Xor(y, z)));
      Halves(x, y);
      Halves(n, z);
      Halves(And(x, y), And(n, z));
      SameByHalf(Xor(z, And(x, Xor(y, z))), Or(And(x, y), And(n, z)));
    }
  }

  lemma MajorityNone()
    ensures And(0, 0) == Or(0, 0) == 0
  {
  }

  /** The majority of three, with three products and with two. */
  lemma {:induction false} Majority(x: nat, y: nat, z: nat)
    ensures Or(And(x, Or(y, z)), And(y, z)) == Or(Or(And(x, y), And(x, z)), And(y, z))
    decreases x + y + z
  {
    hide *;
    if x + y + z == 0 {
      MajorityNone();
    } else {
      Majority(x / 2, y / 2, z / 2);
      Halves(y, z);
      Halves(x, Or(y, z));
      Halves(And(x, Or(y, z)), And(y, z));
      Halves(x, y);
      Halves(x, z);
      Halves(And(x, y), And(x, z));
      Halves(Or(And(x, y), And(x, z)), And(y, z));
      SameByHalf(Or(And(x, Or(y, z)), And(y, z)), Or(Or(And(x, y), And(x, z)), And(y, z)));
    }
  }

  // ---------- single bits ----------

  lemma HighBit(x: nat, j: nat, i: nat)
    ensures BitAt(x, j + i) == BitAt(Down(x, j), i)
  {
    hide Pow2;
    PowersMultiply(j, i);
    QuotientTwice(x, Pow2(j), Pow2(i));
  }

  lemma LowBit(x: nat, k: nat, i: nat)
    requires i < k
    ensures BitAt(Rest(x, k), i) == BitAt(x, i)
  {
    hide Pow2;
    PowersMultiply(i, k - i);
    QuotientTwice(x, Pow2(i), Pow2(k - i));
    DoublePower(k - i);
    RemainderTwice(x / Pow2(i), 2, Pow2(k - i - 1));
  }

  lemma FirstBit(x: nat)
    ensures BitAt(x, 0) == x % 2
  {
  }

  lemma NextBit(x: nat, i: nat)
    requires i > 0
    ensures BitAt(x, i) == BitAt(x / 2, i - 1)
  {
    assert Pow2(1) == 2;
    hide Pow2;
    HighBit(x, 1, i - 1);
  }

  /** The three operations, bit by bit. */
  lemma {:induction false} BitOf(x: nat, y: nat, i: nat)
    ensures BitAt(And(x, y), i) == 1 <==> BitAt(x, i) == 1 && BitAt(y, i) == 1
    ensures BitAt(Or(x, y), i) == 1 <==> BitAt(x, i) == 1 || BitAt(y, i) == 1
    ensures BitAt(Xor(x, y), i) == 1 <==> (BitAt(x, i) == 1) != (BitAt(y, i) == 1)
    decreases i
  {
    Halves(x, y);
    if i == 0 {
      hide And, Or, Xor, BitAt;
      FirstBit(x);
      FirstBit(y);
      FirstBit(And(x, y));
      FirstBit(Or(x, y));
      FirstBit(Xor(x, y));
    } else {
      hide And, Or, Xor, BitAt;
      NextBit(x, i);
      NextBit(y, i);
      NextBit(And(x, y), i);
      NextBit(Or(x, y), i);
      NextBit(Xor(x, y), i);
      BitOf(x / 2, y / 2, i - 1);
    }
  }

  lemma {:induction false} BitOfNot(x: nat, k: nat, i: nat)
    requires i < k && x < Pow2(k)
    ensures BitAt(Pow2(k) - 1 - x, i) == 1 <==> BitAt(x, i) != 1
    decreases i
  {
    hide BitAt, Pow2;
    NotByHalf(x, k);
    if i == 0 {
      FirstBit(x);
      FirstBit(Pow2(k) - 1 - x);
    } else {
      NextBit(x, i);
      NextBit(Pow2(k) - 1 - x, i);
      BitOfNot(x / 2, k - 1, i - 1);
    }
  }
}
