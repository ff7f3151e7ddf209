/**
 Where the rounds of RFC 1320 take their words from, by index, and where their constants come from.
 */
module Md4Schedule {
  import opened Bits
  import opened Words
  import opened Md4Spec

  /** The word that step j of each round reads: the words in turn, column by column in rows of four, and with
      the four bits of the number reversed. */
  function InTurn(j: nat): nat { j }
  function ByColumn(j: nat): nat { 4 * (j % 4) + j / 4 }
  function BitReversed(j: nat): nat { 4 * TwoReversed(j % 4) + TwoReversed(j / 4) }
  function TwoReversed(i: nat): nat { 2 * (i % 2) + i / 2 }

  predicate Within(order: nat -> nat) {
    forall j :: 0 <= j < 16 ==> order(j) < 16
  }

  /** One step: the first register is replaced, and the four of them move on by one. */
  function Stepped<W>(m: Machine<W>, f: Mixer<W>, p: Regs<W>, word: W, shift: Shift): Regs<W> {
    Regs(p.d, m.rotate(m.add(p.a, m.add(f(p.b, p.c, p.d), word)), shift), p.b, p.c)
  }

  /** The registers after n steps. */
  function Steps<W>(m: Machine<W>, f: Mixer<W>, q: Regs<W>, x: seq<W>, order: nat -> nat, shifts: seq<Shift>,
      n: nat): Regs<W>
    requires |x| == 16 && Within(order) && |shifts| == 4 && n <= 16
  {
    if n == 0 then q
    else
      Stepped(m, f, Steps(m, f, q, x, order, shifts, n - 1), x[order(n - 1)], shifts[(n - 1) % 4])
  }

  /** A whole round. */
  function Scheduled<W>(m: Machine<W>, f: Mixer<W>, q: Regs<W>, x: seq<W>, order: nat -> nat,
      shifts: seq<Shift>): Regs<W>
    requires |x| == 16 && Within(order) && |shifts| == 4
  {
    Steps(m, f, q, x, order, shifts, 16)
  }

  lemma OneStep<W>(m: Machine<W>, f: Mixer<W>, q: Regs<W>, x: seq<W>, order: nat -> nat, shifts: seq<Shift>,
      n: nat, i: nat)
    requires |x| == 16 && Within(order) && |shifts| == 4 && n % 4 == 0 && i < 4 && n + i < 16
    ensures Steps(m, f, q, x, order, shifts, n + i + 1) ==
            Stepped(m, f, Steps(m, f, q, x, order, shifts, n + i), x[order(n + i)], shifts[i])
  {
    assert (n + i) % 4 == i;
  }

  lemma FourStepped<W>(m: Machine<W>, f: Mixer<W>, q: Regs<W>, x0: W, x1: W, x2: W, x3: W,
      s0: Shift, s1: Shift, s2: Shift, s3: Shift)
    ensures Four(m, f, q, x0, x1, x2, x3, s0, s1, s2, s3) ==
            Stepped(m, f, Stepped(m, f, Stepped(m, f, Stepped(m, f, q, x0, s0), x1, s1), x2, s2), x3, s3)
  {
  }

  lemma FourSteps<W>(m: Machine<W>, f: Mixer<W>, q: Regs<W>, x: seq<W>, order: nat -> nat, shifts: seq<Shift>,
      n: nat)
    requires |x| == 16 && Within(order) && |shifts| == 4 && n % 4 == 0 && n + 4 <= 16
    ensures Steps(m, f, q, x, order, shifts, n + 4) ==
            Four(m, f, Steps(m, f, q, x, order, shifts, n), x[order(n)], x[order(n + 1)], x[order(n + 2)],
                 x[order(n + 3)], shifts[0], shifts[1], shifts[2], shifts[3])
  {
    hide Stepped, Steps, Four;
    OneStep(m, f, q, x, order, shifts, n, 0);
    OneStep(m, f, q, x, order, shifts, n, 1);
    OneStep(m, f, q, x, order, shifts, n, 2);
    OneStep(m, f, q, x, order, shifts, n, 3);
    FourStepped(m, f, Steps(m, f, q, x, order, shifts, n), x[order(n)], x[order(n + 1)], x[order(n + 2)],
      x[order(n + 3)], shifts[0], shifts[1], shifts[2], shifts[3]);
  }

  lemma ScheduledSteps<W>(m: Machine<W>, f: Mixer<W>, q: Regs<W>, x: seq<W>, order: nat -> nat, shifts: seq<Shift>)
    requires |x| == 16 && Within(order) && |shifts| == 4
    ensures Steps(m, f, q, x, order, shifts, 0) == q
    ensures Scheduled(m, f, q, x, order, shifts) == Steps(m, f, q, x, order, shifts, 16)
  {
    hide Stepped;
  }

  lemma SixteenSteps<W>(m: Machine<W>, f: Mixer<W>, q: Regs<W>, x: seq<W>, order: nat -> nat, shifts: seq<Shift>)
    requires |x| == 16 && Within(order) && |shifts| == 4
    ensures var s0, s1, s2, s3 := shifts[0], shifts[1], shifts[2], shifts[3];
      var q1 := Four(m, f, q, x[order(0)], x[order(1)], x[order(2)], x[order(3)], s0, s1, s2, s3);
      var q2 := Four(m, f, q1, x[order(4)], x[order(5)], x[order(6)], x[order(7)], s0, s1, s2, s3);
      var q3 := Four(m, f, q2, x[order(8)], x[order(9)], x[order(10)], x[order(11)], s0, s1, s2, s3);
      Scheduled(m, f, q, x, order, shifts) ==
      Four(m, f, q3, x[order(12)], x[order(13)], x[order(14)], x[order(15)], s0, s1, s2, s3)
  {
    hide Four, Stepped, Steps, Scheduled;
    ScheduledSteps(m, f, q, x, order, shifts);
    FourSteps(m, f, q, x, order, shifts, 0);
    FourSteps(m, f, q, x, order, shifts, 4);
    FourSteps(m, f, q, x, order, shifts, 8);
    FourSteps(m, f, q, x, order, shifts, 12);
  }

  lemma OrdersWithin()
    ensures Within(InTurn) && Within(ByColumn) && Within(BitReversed)
  {
  }

  lemma InTurnRound<W>(m: Machine<W>, q: Regs<W>, x: seq<W>)
    requires |x| == 16
    ensures Within(InTurn) && Round1(m, q, x) == Scheduled(m, m.f, q, x, InTurn, [3, 7, 11, 19])
  {
    hide Four, Scheduled;
    OrdersWithin();
    SixteenSteps(m, m.f, q, x, InTurn, [3, 7, 11, 19]);
  }

  /** Rows and columns change places. */
  lemma Transposed(row: nat, column: nat)
    requires row < 4 && column < 4
    ensures ByColumn(4 * row + column) == 4 * column + row
  {
    Division(4 * row + column, 4, row, column);
  }

  lemma ByColumnRound<W>(m: Machine<W>, q: Regs<W>, x: seq<W>)
    requires |x| == 16
    ensures Within(ByColumn) && Round2(m, q, x) == Scheduled(m, m.g, q, x, ByColumn, [3, 5, 9, 13])
  {
    hide Four, Scheduled, ByColumn;
    OrdersWithin();
    Transposed(0, 0);
    Transposed(0, 1);
    Transposed(0, 2);
    Transposed(0, 3);
    Transposed(1, 0);
    Transposed(1, 1);
    Transposed(1, 2);
    Transposed(1, 3);
    Transposed(2, 0);
    Transposed(2, 1);
    Transposed(2, 2);
    Transposed(2, 3);
    Transposed(3, 0);
    Transposed(3, 1);
    Transposed(3, 2);
    Transposed(3, 3);
    SixteenSteps(m, m.g, q, x, ByColumn, [3, 5, 9, 13]);
  }

  /** The bits of a number below 16 in the opposite order. */
  lemma ReversedBits(b3: nat, b2: nat, b1: nat, b0: nat)
    requires b3 < 2 && b2 < 2 && b1 < 2 && b0 < 2
    ensures BitReversed(8 * b3 + 4 * b2 + 2 * b1 + b0) == 8 * b0 + 4 * b1 + 2 * b2 + b3
  {
    Division(8 * b3 + 4 * b2 + 2 * b1 + b0, 4, 2 * b3 + b2, 2 * b1 + b0);
    Division(2 * b3 + b2, 2, b3, b2);
    Division(2 * b1 + b0, 2, b1, b0);
  }

  lemma BitReversedRound<W>(m: Machine<W>, q: Regs<W>, x: seq<W>)
    requires |x| == 16
    ensures Within(BitReversed) && Round3(m, q, x) == Scheduled(m, m.h, q, x, BitReversed, [3, 9, 11, 15])
  {
    hide Four, Scheduled, BitReversed;
    OrdersWithin();
    ReversedBits(0, 0, 0, 0);
    ReversedBits(0, 0, 0, 1);
    ReversedBits(0, 0, 1, 0);
    ReversedBits(0, 0, 1, 1);
    ReversedBits(0, 1, 0, 0);
    ReversedBits(0, 1, 0, 1);
    ReversedBits(0, 1, 1, 0);
    ReversedBits(0, 1, 1, 1);
    ReversedBits(1, 0, 0, 0);
    ReversedBits(1, 0, 0, 1);
    ReversedBits(1, 0, 1, 0);
    ReversedBits(1, 0, 1, 1);
    ReversedBits(1, 1, 0, 0);
    ReversedBits(1, 1, 0, 1);
    ReversedBits(1, 1, 1, 0);
    ReversedBits(1, 1, 1, 1);
    SixteenSteps(m, m.h, q, x, BitReversed, [3, 9, 11, 15]);
  }

  /** k is the integer part of 2^30 times the square root of n. */
  predicate ScaledRoot(k: Word, n: nat) {
    k * k <= n * 0x1000_0000_0000_0000 < (k + 1) * (k + 1)
  }

  lemma RoundConstants()
    ensures ScaledRoot(TEXTBOOK.g0, 2) && ScaledRoot(TEXTBOOK.h0, 3)
  {
  }

  lemma StartBytes()
    ensures Store(TEXTBOOK, TEXTBOOK.start) ==
            [0x01, 0x23, 0x45, 0x67, 0x89, 0xab, 0xcd, 0xef, 0xfe, 0xdc, 0xba, 0x98, 0x76, 0x54, 0x32, 0x10]
  {
  }
}
