/**
 What holds of one party in every run, whatever its peer sends.
 */
module PartyTheorems {
  import opened Words
  import opened Pdu
  import opened Protocol
  import opened PartyRuns
  import opened Laws

  // ---------- numbers ----------

  lemma {:induction false} ConsecutiveFromFirst(accepted: seq<Pdu>, k: nat)
    requires forall j :: 1 <= j < |accepted| ==> accepted[j].tel.seqNum == Plus(accepted[j - 1].tel.seqNum, 1)
    requires k < |accepted|
    ensures accepted[k].tel.seqNum == Plus(accepted[0].tel.seqNum, k)
  {
    if k > 0 {
      ConsecutiveFromFirst(accepted, k - 1);
      PlusPlus(accepted[0].tel.seqNum, k - 1, 1);
    }
  }

  /** Within a connection the accepted PDUs are a version-checked handshake PDU and then PDUs numbered
      one after another from it. */
  lemma AcceptedAreConsecutive(role: Role, hs: seq<History>, inputs: seq<Input>, k: nat, j: nat)
    requires IsHistory(role, hs, inputs) && k < |hs| && j < |hs[k].receipts.accepted|
    ensures var accepted := hs[k].receipts.accepted;
            Greets(accepted[0], role) && accepted[j].tel.seqNum == Plus(accepted[0].tel.seqNum, j)
  {
    hide IsHistory, NumbersKept;
    KeptThroughout(role, hs, inputs, k, false);
    ConsecutiveFromFirst(hs[k].receipts.accepted, j);
  }

  /** Within a connection the numbers sent follow one another from the one drawn when it was opened. Only
      sends refused since the telegram before leave a gap, exactly as wide, and only a disconnection
      request ever comes after one. */
  lemma SentAreNumberedInTurn(role: Role, hs: seq<History>, inputs: seq<Input>, k: nat, j: nat)
    requires IsHistory(role, hs, inputs) && k < |hs| && j < |hs[k].numbers.sent|
    ensures var n := hs[k].numbers;
            && |n.gaps| == |n.sent|
            && n.sent[j].seqNum == (if j > 0 then Plus(n.sent[j - 1].seqNum, 1 + n.gaps[j])
                                    else if IsHandshake(n.sent[0]) then n.first else Plus(n.first, 1 + n.gaps[0]))
            && (n.gaps[j] > 0 ==> IsDisc(n.sent[j]))
  {
    hide IsHistory, Plus;
    KeptThroughout(role, hs, inputs, k, false);
  }

  /** A party that follows its peer's numbers has accepted a version-checked handshake PDU in this
      connection, confirms the last PDU accepted and expects the number after it. */
  lemma ListeningIsFounded(role: Role, hs: seq<History>, inputs: seq<Input>, k: nat)
    requires IsHistory(role, hs, inputs) && k < |hs| && Listening(hs[k].party)
    ensures var h := hs[k];
            var accepted := h.receipts.accepted;
            && accepted != [] && Greets(accepted[0], role)
            && h.party.cst == accepted[|accepted| - 1].tel.seqNum && h.party.snr == Plus(h.party.cst, 1)
  {
    hide IsHistory, NumbersKept;
    KeptThroughout(role, hs, inputs, k, false);
  }

  lemma OpeningsStep(h: History, i: Input)
    ensures h.openings <= Advance(h, i).openings
  {
    hide Transition, Numbered, Receipted, Accounted;
  }

  lemma {:induction false} OpeningsGrow(role: Role, hs: seq<History>, inputs: seq<Input>, i: nat, j: nat)
    requires IsHistory(role, hs, inputs) && i <= j < |hs|
    ensures hs[i].openings <= hs[j].openings
    decreases j - i
  {
    hide Advance, NewHistory, Legal;
    if i < j {
      OpeningsGrow(role, hs, inputs, i, j - 1);
      assert Records(hs, inputs, j - 1);
      OpeningsStep(hs[j - 1], inputs[j - 1]);
    }
  }

  /** What one step adds to the accepted PDUs of a connection. */
  lemma StepAccepts(h: History, i: Input)
    requires Kept(h, false) && Legal(i) && (Listening(h.party) || h.party.state.Closed?)
    requires Advance(h, i).openings == h.openings
    ensures var h1 := Advance(h, i);
            var before, after := h.receipts.accepted, h1.receipts.accepted;
            && (Listening(h1.party) || h1.party.state.Closed?)
            && ((after == before && (Listening(h1.party) ==> Listening(h.party) && h1.party.snr == h.party.snr)) ||
                (|after| == |before| + 1 && before <= after &&
                 Listening(h.party) && after[|before|].tel.seqNum == h.party.snr))
  {
    hide Kept, Transition, Numbered, Accounted, Listening, PduOf;
    KeptWaits(h);
    StepReceipts(h.party, i);
  }

  /** Once the peer's numbers are followed, in particular while a retransmission is being asked for, the
      next PDU accepted in this connection is the one with exactly the number expected. */
  lemma {:induction false} NothingAcceptedOutOfOrder(role: Role, hs: seq<History>, inputs: seq<Input>, i: nat, j: nat)
    requires IsHistory(role, hs, inputs) && i <= j < |hs| && hs[i].openings == hs[j].openings
    requires Listening(hs[i].party) || hs[i].party.state.Closed?
    ensures var before, after := hs[i].receipts.accepted, hs[j].receipts.accepted;
            && before <= after
            && (|before| < |after| ==> Listening(hs[i].party) && after[|before|].tel.seqNum == hs[i].party.snr)
    decreases j - i
  {
    hide Kept, Advance, Listening, NewHistory, Legal;
    if i < j {
      KeptThroughout(role, hs, inputs, i, false);
      assert Records(hs, inputs, i);
      OpeningsGrow(role, hs, inputs, i, i + 1);
      OpeningsGrow(role, hs, inputs, i + 1, j);
      StepAccepts(hs[i], inputs[i]);
      NothingAcceptedOutOfOrder(role, hs, inputs, i + 1, j);
    }
  }

  /** A closed party that is not opened stays closed and accepts nothing. */
  lemma ClosedRests(h: History, i: Input)
    requires Legal(i) && h.party.state.Closed? && !(i.Handling? && i.event.OpenConn?)
    ensures Advance(h, i).party.state.Closed? && Advance(h, i).receipts == h.receipts
  {
    DecisionWhen(h.party, i);
    StatePerformed(h.party, i);
    hide Transition, ActionOf, Numbered, PartyRuns.Accounted, PduOf;
  }

  lemma CloseEnds(h: History, i: Input)
    requires i.Handling? && i.event.CloseConn?
    ensures Advance(h, i).party.state.Closed? && Advance(h, i).receipts == h.receipts
  {
    UserCloses(h.party, i.pdu, i.env);
    hide Transition, Numbered, PartyRuns.Accounted, PduOf;
  }

  /** After a user's close, whatever state it came in, the party is closed and accepts nothing until its user
      opens again. */
  lemma {:induction false} NothingAfterClose(role: Role, hs: seq<History>, inputs: seq<Input>, i: nat, j: nat)
    requires IsHistory(role, hs, inputs) && i < j < |hs|
    requires inputs[i].Handling? && inputs[i].event.CloseConn?
    requires forall k :: i < k < j ==> !(inputs[k].Handling? && inputs[k].event.OpenConn?)
    ensures hs[j].party.state.Closed? && hs[j].receipts == hs[i].receipts
    decreases j - i
  {
    hide Advance, NewHistory;
    assert Records(hs, inputs, j - 1);
    if j == i + 1 {
      CloseEnds(hs[i], inputs[i]);
    } else {
      NothingAfterClose(role, hs, inputs, i, j - 1);
      ClosedRests(hs[j - 1], inputs[j - 1]);
    }
  }

  lemma KeptWaits(h: History)
    requires Kept(h, false)
    ensures WaitsAsServer(h.party)
  {
  }

  /** While the party listens, what it has just sent confirms exactly the last PDU it accepted, that of
      the same step included. */
  lemma SendsConfirmLast(role: Role, hs: seq<History>, inputs: seq<Input>, k: nat)
    requires IsHistory(role, hs, inputs) && k < |inputs| && Listening(hs[k + 1].party)
    requires |hs[k].numbers.sent| < |hs[k + 1].numbers.sent|
    ensures var sent, accepted := hs[k + 1].numbers.sent, hs[k + 1].receipts.accepted;
            accepted != [] && sent[|sent| - 1].confSeq == accepted[|accepted| - 1].tel.seqNum
  {
    hide Kept, Advance, Listening;
    assert Records(hs, inputs, k);
    KeptThroughout(role, hs, inputs, k, false);
    KeptThroughout(role, hs, inputs, k + 1, false);
    LastConfirmed(hs[k + 1]);
    LastSent(hs[k], inputs[k]);
  }

  lemma LastSent(h: History, i: Input)
    requires Kept(h, false) && Legal(i) && Listening(Advance(h, i).party)
    requires |h.numbers.sent| < |Advance(h, i).numbers.sent|
    ensures var sent := Advance(h, i).numbers.sent;
            sent[|sent| - 1].confSeq == Advance(h, i).party.cst
  {
    hide Kept, Transition, Accounted, Receipted, Listening;
    KeptWaits(h);
    StepConfirms(h.party, i);
    StepReceipts(h.party, i);
  }

  lemma LastConfirmed(h: History)
    requires Kept(h, false) && Listening(h.party)
    ensures var accepted := h.receipts.accepted;
            accepted != [] && h.party.cst == accepted[|accepted| - 1].tel.seqNum
  {
  }

  lemma StepConfirms(s: Party, i: Input)
    requires Legal(i)
    ensures var o := Transition(s, i);
            Listening(o.party) && o.out.Some? ==> o.out.value.confSeq == o.party.cst
  {
    hide Plus, Minus, Signed, SafetyCode, Decide;
    Guards(Before(s, i), EventOf(i), PduOf(s, i), i.env.available);
  }

  /** Every closing of a live connection sends one disconnection request or answers one; the only other
      disconnection requests are answers to a timeout without a connection and to a wrong version. */
  lemma DisconnectionsBalance(role: Role, hs: seq<History>, inputs: seq<Input>, k: nat)
    requires IsHistory(role, hs, inputs) && k < |hs|
    ensures var a := hs[k].account;
            a.discs + a.byPeer == a.closings + a.rejections
  {
    hide IsHistory;
    KeptThroughout(role, hs, inputs, k, false);
  }

  // ---------- confirmed timestamps and supervision ----------

  /** Timestamp k without wrap-around: as far after the one before as the words say. */
  function Lifted(marks: seq<Word>, k: nat): nat
    requires k < |marks|
  {
    if k == 0 then marks[0] else Lifted(marks, k - 1) + Minus(marks[k], marks[k - 1])
  }

  lemma {:induction false} LiftedReduces(marks: seq<Word>, k: nat)
    requires k < |marks|
    ensures Lifted(marks, k) % 0x1_0000_0000 == marks[k]
  {
    if k > 0 {
      LiftedReduces(marks, k - 1);
      LiftStep(Lifted(marks, k - 1), marks[k - 1], marks[k]);
    }
  }

  lemma LiftStep(x: nat, y: Word, z: Word)
    requires x % 0x1_0000_0000 == y
    ensures (x + Minus(z, y)) % 0x1_0000_0000 == z
  {
  }

  /** The confirmed timestamps of a connection are a non-decreasing sequence of naturals with steps below
      T_MAX, reduced to words; so the deadline T_MAX after the last of them never moves back. */
  lemma ConfirmedStampsRise(role: Role, hs: seq<History>, inputs: seq<Input>, k: nat, j: nat)
    requires IsHistory(role, hs, inputs) && NeverAvailable(inputs) && k < |hs|
    requires j < |hs[k].receipts.marks|
    ensures var r := hs[k].receipts;
            && |r.marks| == |r.accepted|
            && Lifted(r.marks, j) % 0x1_0000_0000 == r.marks[j]
            && (j > 0 ==> r.marks[j] == r.accepted[j].tel.confStamp)
            && (j > 0 ==> Lifted(r.marks, j - 1) <= Lifted(r.marks, j) < Lifted(r.marks, j - 1) + T_MAX)
  {
    hide IsHistory, NumbersKept;
    KeptThroughout(role, hs, inputs, k, true);
    LiftedReduces(hs[k].receipts.marks, j);
  }

  /** The clock reading the supervision time is computed with. */
  function SupervisionTime(s: Party, i: Input): Word {
    if s.state.Down? then i.env.t1 else i.env.t0
  }

  /** After every accepted PDU, now + ti is ctsr + T_MAX modulo 2^32. */
  lemma AcceptanceSetsDeadline(s: Party, i: Input)
    requires Legal(i) && Transition(s, i).took
    ensures var after := Transition(s, i).party;
            && (SupervisionTime(s, i) + after.ti) % 0x1_0000_0000 == (after.ctsr + T_MAX) % 0x1_0000_0000
            && -0x8000_0000 <= after.ti < 0x8000_0000
  {
    hide Plus, Minus, Signed, Seal, Decide;
    Guards(Before(s, i), EventOf(i), PduOf(s, i), i.env.available);
    var after := Transition(s, i).party;
    assert after.ti == Signed(Minus(T_MAX, Minus(SupervisionTime(s, i), after.ctsr)));
    DeadlineArithmetic(SupervisionTime(s, i), after.ctsr);
  }

  lemma DeadlineArithmetic(now: Word, ctsr: Word)
    ensures var ti := Signed(Minus(T_MAX, Minus(now, ctsr)));
            (now + ti) % 0x1_0000_0000 == (ctsr + T_MAX) % 0x1_0000_0000 && -0x8000_0000 <= ti < 0x8000_0000
  {
  }

  /** What the caller does: any step, or one tick of the supervision time, which fires when it runs out. */
  datatype Beat = Tick(pdu: Pdu, env: Env) | Other(input: Input)

  function Beaten(s: Party, b: Beat): Outcome {
    match b
    case Tick(p, env) =>
      var s1 := s.(ti := s.ti - 1);
      if s1.ti <= 0 then Handle(s1, TiElapsed, p, env) else Outcome(s1, None, false)
    case Other(i) => Transition(s, i)
  }

  function Ticks(beats: seq<Beat>): nat {
    if beats == [] then 0 else One(beats[0].Tick?) + Ticks(beats[1..])
  }

  /** No PDU is accepted along the way. */
  predicate Silent(s: Party, beats: seq<Beat>)
    decreases |beats|
  {
    beats == [] || (!Beaten(s, beats[0]).took && Silent(Beaten(s, beats[0]).party, beats[1..]))
  }

  predicate ReachesClosed(s: Party, beats: seq<Beat>)
    decreases |beats|
  {
    s.state.Closed? || (beats != [] && ReachesClosed(Beaten(s, beats[0]).party, beats[1..]))
  }

  lemma SilenceKeepsTime(s: Party, i: Input)
    requires !Transition(s, i).took
    ensures Transition(s, i).party.ti == s.ti
  {
    hide Decide, SafetyCode, Plus;
  }

  /** Whatever else happens, a connection on which nothing is accepted is closed within max(ti, 1) ticks. */
  lemma {:induction false} SilentConnectionCloses(s: Party, beats: seq<Beat>)
    requires Silent(s, beats) && Ticks(beats) >= 1 && Ticks(beats) >= s.ti
    ensures ReachesClosed(s, beats)
    decreases |beats|
  {
    hide Transition;
    var b := beats[0];
    var s1 := Beaten(s, b).party;
    if b.Tick? && s.ti <= 1 {
      assert s1.state.Closed?;
      assert ReachesClosed(s1, beats[1..]);
    } else {
      if b.Other? {
        SilenceKeepsTime(s, b.input);
      }
      SilentConnectionCloses(s1, beats[1..]);
    }
  }
}
