/**
 Every run of one party against an arbitrary peer: how it numbers what it sends, what it accepts, and
 how its connections end.
 */
module PartyRuns {
  import opened Words
  import opened Pdu
  import opened Protocol

  /** One step of the environment: an event with its PDU, or a user's send. */
  datatype Input =
    | Handling(event: Event, pdu: Pdu, env: Env)
    | Sending(data: Payload, stamp: Word, env: Env)

  /** The event a received PDU is handed to the state machine with. */
  function ReceiveEvent(kind: Half): Option<Event> {
    if kind == CONNECTION_REQUEST then Some(RecvConnReq)
    else if kind == CONNECTION_RESPONSE then Some(RecvConnResp)
    else if kind == RETRANSMISSION_REQUEST then Some(RecvRetrReq)
    else if kind == RETRANSMISSION_RESPONSE then Some(RecvRetrResp)
    else if kind == DISCONNECTION_REQUEST then Some(RecvDiscReq)
    else if kind == HEARTBEAT then Some(RecvHb)
    else if kind == DATA then Some(RecvData)
    else if kind == RETRANSMITTED_DATA then Some(RecvRetrData)
    else None
  }

  predicate Local(e: Event) {
    e.ThElapsed? || e.TiElapsed? || e.OpenConn? || e.CloseConn?
  }

  /** A user's send comes as Sending; a receive event fits the type of its PDU. The content of received
      PDUs is arbitrary. */
  predicate Legal(i: Input) {
    i.Handling? ==> Local(i.event) || ReceiveEvent(i.pdu.tel.kind) == Some(i.event)
  }

  function Before(s: Party, i: Input): Party {
    if i.Sending? then Bump(s) else s
  }

  function EventOf(i: Input): Event {
    if i.Sending? then SendData else i.event
  }

  function PduOf(s: Party, i: Input): Pdu {
    if i.Sending? then Seal(DataTel(s, i.stamp, i.data)) else i.pdu
  }

  function ActionOf(s: Party, i: Input): Action {
    Decide(Before(s, i), EventOf(i), PduOf(s, i), i.env.available)
  }

  function Transition(s: Party, i: Input): Outcome {
    Perform(Before(s, i), ActionOf(s, i), PduOf(s, i), i.env)
  }

  // ---------- the numbers a party sends ----------

  /** A connection from its opening on: the number drawn, what was sent, how many sends were refused
      before each sent telegram, and how many since the last one. */
  datatype Numbers = Numbers(first: Word, sent: seq<Telegram>, gaps: seq<nat>, refused: nat)

  predicate IsHandshake(t: Telegram) {
    t.kind == CONNECTION_REQUEST || t.kind == CONNECTION_RESPONSE
  }

  predicate IsDisc(t: Telegram) {
    t.kind == DISCONNECTION_REQUEST
  }

  predicate Opens(before: Party, after: Party) {
    before.state.Closed? && !after.state.Closed?
  }

  /** A send is refused in every state before the connection is up. */
  predicate Refuses(s: Party, i: Input) {
    i.Sending? && (s.state.Closed? || s.state.Down? || s.state.Start?)
  }

  function Numbered(n: Numbers, s: Party, i: Input, o: Outcome): Numbers {
    var n1 := if Opens(s, o.party) then Numbers(i.env.draw, [], [], 0)
              else n.(refused := n.refused + if Refuses(s, i) then 1 else 0);
    if o.out.None? then n1 else Numbers(n1.first, n1.sent + [o.out.value], n1.gaps + [n1.refused], 0)
  }

  function LastNumber(n: Numbers): Word {
    if n.sent == [] then n.first else n.sent[|n.sent| - 1].seqNum
  }

  /** Numbers follow one another from the one drawn at the opening. A gap is as wide as the number of
      sends refused just before, and only a disconnection request comes after one. */
  ghost predicate Consecutive(first: Word, sent: seq<Telegram>, gaps: seq<nat>) {
    && |gaps| == |sent|
    && (sent != [] && IsHandshake(sent[0]) ==> sent[0].seqNum == first && gaps[0] == 0)
    && (sent != [] && !IsHandshake(sent[0]) ==> IsDisc(sent[0]) && sent[0].seqNum == Plus(first, 1 + gaps[0]))
    && (forall k :: 1 <= k < |sent| ==>
          !IsHandshake(sent[k]) && sent[k].seqNum == Plus(sent[k - 1].seqNum, 1 + gaps[k]))
    && (forall k :: 0 <= k < |gaps| && gaps[k] > 0 ==> IsDisc(sent[k]))
  }

  /** The party's send number is the last one sent plus the refused sends since. */
  ghost predicate Counts(n: Numbers, s: Party) {
    && s.snt == Plus(LastNumber(n), n.refused)
    && (s.state.Down? ==> n.sent == [] && n.refused == 0)
    && (Live(s) ==> n.sent != [] && n.refused == 0)
  }

  lemma AppendConsecutive(n: Numbers, t: Telegram, gap: nat)
    requires Consecutive(n.first, n.sent, n.gaps)
    requires if IsHandshake(t) then n.sent == [] && t.seqNum == n.first && gap == 0
             else t.seqNum == Plus(LastNumber(n), 1 + gap) && (gap > 0 || n.sent == [] ==> IsDisc(t))
    ensures Consecutive(n.first, n.sent + [t], n.gaps + [gap])
  {
  }

  predicate Live(s: Party) {
    !s.state.Closed? && !s.state.Down?
  }

  /** What one step does to the send number. */
  ghost predicate NumberEffect(s: Party, i: Input, o: Outcome) {
    if Opens(s, o.party) then
      o.party.snt == i.env.draw &&
      if o.out.None? then o.party.state.Down?
      else Live(o.party) && IsHandshake(o.out.value) && o.out.value.seqNum == i.env.draw
    else if o.out.None? then
      && o.party.snt == (if i.Sending? then Plus(s.snt, 1) else s.snt)
      && (Live(o.party) ==> Live(s) && !i.Sending?)
      && (o.party.state.Down? ==> s.state.Down? && !i.Sending?)
      && (i.Sending? ==> Refuses(s, i))
    else if IsHandshake(o.out.value) then
      s.state.Down? && !i.Sending? && o.party.snt == s.snt == o.out.value.seqNum && Live(o.party)
    else
      && o.party.snt == o.out.value.seqNum == Plus(s.snt, if Refuses(s, i) then 2 else 1)
      && (Refuses(s, i) || !Live(s) ==> IsDisc(o.out.value))
      && !o.party.state.Down?
  }

  lemma StepNumbers(s: Party, i: Input)
    requires Legal(i)
    ensures NumberEffect(s, i, Transition(s, i))
  {
    hide Plus, Minus, Signed, SafetyCode, Decide;
    Guards(Before(s, i), EventOf(i), PduOf(s, i), i.env.available);
    PlusPlus(s.snt, 1, 1);
  }

  ghost predicate NumbersKept(n: Numbers, s: Party) {
    Consecutive(n.first, n.sent, n.gaps) && Counts(n, s)
  }

  lemma CountsStep(n: Numbers, s: Party, i: Input, o: Outcome)
    requires Counts(n, s) && NumberEffect(s, i, o)
    ensures Counts(Numbered(n, s, i, o), o.party)
  {
    hide Plus;
    PlusZero(n.first);
    PlusZero(i.env.draw);
    PlusPlus(LastNumber(n), n.refused, 1);
    if o.out.Some? {
      PlusZero(o.out.value.seqNum);
    }
  }

  lemma NumbersStep(n: Numbers, s: Party, i: Input, o: Outcome)
    requires NumbersKept(n, s) && NumberEffect(s, i, o)
    ensures NumbersKept(Numbered(n, s, i, o), o.party)
  {
    CountsStep(n, s, i, o);
    assert Consecutive(i.env.draw, [], []);
    if o.out.Some? {
      if Opens(s, o.party) {
        AppendConsecutive(Numbers(i.env.draw, [], [], 0), o.out.value, 0);
      } else {
        PlusZero(n.first);
        PlusPlus(LastNumber(n), n.refused, 1);
        PlusPlus(LastNumber(n), n.refused, 2);
        hide Plus, Consecutive;
        AppendConsecutive(n, o.out.value, n.refused + if Refuses(s, i) then 1 else 0);
      }
    }
  }

  // ---------- what a party accepts ----------

  /** The PDUs regularly received since the connection was opened, and the confirmed timestamp the party
      held after each. */
  datatype Receipts = Receipts(accepted: seq<Pdu>, marks: seq<Word>)

  function Receipted(r: Receipts, s: Party, i: Input, o: Outcome): Receipts {
    if Opens(s, o.party) then Receipts([], [])
    else if o.took then Receipts(r.accepted + [PduOf(s, i)], r.marks + [o.party.ctsr])
    else r
  }

  /** The handshake PDU a role waits for, with a version that was checked. */
  predicate Greets(p: Pdu, role: Role) {
    p.tel.kind == (if role.Server? then CONNECTION_REQUEST else CONNECTION_RESPONSE) && VersionMatches(p)
  }

  /** Only a server waits for a connection request. */
  predicate WaitsAsServer(s: Party) {
    s.state.Down? ==> s.role.Server?
  }

  /** What one step does to the receive side. */
  ghost predicate ReceiptEffect(s: Party, i: Input, o: Outcome) {
    var t := PduOf(s, i).tel;
    && o.party.role == s.role && WaitsAsServer(o.party)
    && (Opens(s, o.party) ==> !o.took && !Listening(o.party))
    && (o.took ==>
          && !s.state.Closed? && Listening(o.party)
          && o.party.cst == t.seqNum && o.party.snr == Plus(t.seqNum, 1))
    && (o.took && !Listening(s) ==> Greets(PduOf(s, i), s.role))
    && (o.took && Listening(s) ==>
          && t.seqNum == s.snr && o.party.ctsr == t.confStamp
          && (i.env.available || Minus(t.confStamp, s.ctsr) < T_MAX))
    && (!o.took && Listening(o.party) ==>
          Listening(s) && o.party.snr == s.snr && o.party.cst == s.cst && o.party.ctsr == s.ctsr)
    && (!Listening(o.party) && !o.party.state.Closed? ==> Opens(s, o.party) || (!Listening(s) && !s.state.Closed?))
  }

  lemma StepReceipts(s: Party, i: Input)
    requires Legal(i) && WaitsAsServer(s)
    ensures ReceiptEffect(s, i, Transition(s, i))
  {
    hide Plus, Minus, Signed, Seal, Decide, VersionMatches;
    Guards(Before(s, i), EventOf(i), PduOf(s, i), i.env.available);
  }

  /** The accepted PDUs start with the handshake PDU and follow one another without a gap; the party
      expects the number after the last of them and confirms that last one. With timely, every
      timestamp is less than T_MAX after the one before. */
  ghost predicate ReceiptsKept(r: Receipts, s: Party, timely: bool) {
    && |r.marks| == |r.accepted|
    && (r.accepted != [] ==> Greets(r.accepted[0], s.role))
    && (forall k :: 1 <= k < |r.accepted| ==> r.accepted[k].tel.seqNum == Plus(r.accepted[k - 1].tel.seqNum, 1))
    && (forall k :: 1 <= k < |r.accepted| ==> r.marks[k] == r.accepted[k].tel.confStamp)
    && (timely ==> forall k :: 1 <= k < |r.marks| ==> Minus(r.marks[k], r.marks[k - 1]) < T_MAX)
    && (Listening(s) ==>
          && r.accepted != []
          && s.cst == r.accepted[|r.accepted| - 1].tel.seqNum
          && s.snr == Plus(s.cst, 1)
          && s.ctsr == r.marks[|r.marks| - 1])
    && (!Listening(s) && !s.state.Closed? ==> r.accepted == [])
  }

  lemma ReceiptsStep(r: Receipts, s: Party, i: Input, o: Outcome, timely: bool)
    requires ReceiptsKept(r, s, timely) && ReceiptEffect(s, i, o) && (timely ==> !i.env.available)
    ensures ReceiptsKept(Receipted(r, s, i, o), o.party, timely)
  {
    hide Plus, Minus, VersionMatches, PduOf;
  }

  // ---------- how connections end ----------

  /** How often a live connection was closed, how often because the peer asked for it, how many
      disconnection requests were sent, and how many of those answered a timeout without a connection or
      a version mismatch. */
  datatype Account = Account(closings: nat, byPeer: nat, discs: nat, rejections: nat)

  predicate Closes(s: Party, after: Party) {
    Live(s) && after.state.Closed?
  }

  predicate Rejects(s: Party, i: Input) {
    i.Handling? &&
    ((!Live(s) && i.event.TiElapsed?) || (s.state.Down? && i.event.RecvConnReq? && !VersionMatches(i.pdu)))
  }

  function One(b: bool): nat { if b then 1 else 0 }

  function Accounted(a: Account, s: Party, i: Input, o: Outcome): Account {
    Account(a.closings + One(Closes(s, o.party)),
            a.byPeer + One(Closes(s, o.party) && EventOf(i).RecvDiscReq?),
            a.discs + One(o.out.Some? && IsDisc(o.out.value)),
            a.rejections + One(Rejects(s, i)))
  }

  /** A live connection closes with exactly one disconnection request, unless the peer's caused it, and a
      disconnection request leaves the party closed. */
  ghost predicate EndEffect(s: Party, i: Input, o: Outcome) {
    var disc := o.out.Some? && IsDisc(o.out.value);
    && (disc ==> o.party.state.Closed?)
    && (Closes(s, o.party) ==> (disc <==> !EventOf(i).RecvDiscReq?))
    && (!Live(s) ==> (disc <==> Rejects(s, i)))
    && (Live(s) && disc ==> Closes(s, o.party))
  }

  lemma StepEnds(s: Party, i: Input)
    requires Legal(i)
    ensures EndEffect(s, i, Transition(s, i))
  {
    hide Plus, Minus, Signed, SafetyCode, VersionMatches;
  }

  // ---------- runs ----------

  datatype History = History(party: Party, numbers: Numbers, receipts: Receipts, account: Account, openings: nat)

  function NewHistory(role: Role): History {
    History(Initial(role), Numbers(0, [], [], 0), Receipts([], []), Account(0, 0, 0, 0), 0)
  }

  function Advance(h: History, i: Input): History {
    var s := h.party;
    var o := Transition(s, i);
    History(o.party,
            Numbered(h.numbers, s, i, o),
            Receipted(h.receipts, s, i, o),
            Accounted(h.account, s, i, o),
            h.openings + One(Opens(s, o.party)))
  }

  /** Input k of a run leads from its history k to its history k + 1. */
  ghost predicate Records(hs: seq<History>, inputs: seq<Input>, k: nat)
    requires k < |inputs| && |hs| == |inputs| + 1
  {
    Legal(inputs[k]) && hs[k + 1] == Advance(hs[k], inputs[k])
  }

  /** All histories of a run of a party in a role, from its initialisation. */
  ghost predicate IsHistory(role: Role, hs: seq<History>, inputs: seq<Input>) {
    && |hs| == |inputs| + 1 && hs[0] == NewHistory(role)
    && forall k :: 0 <= k < |inputs| ==> Records(hs, inputs, k)
  }

  /** No step finds unconfirmed payload available, as in the source, where that check always fails. */
  predicate NeverAvailable(inputs: seq<Input>) {
    forall k :: 0 <= k < |inputs| ==> !inputs[k].env.available
  }

  ghost predicate Kept(h: History, timely: bool) {
    && WaitsAsServer(h.party)
    && NumbersKept(h.numbers, h.party)
    && ReceiptsKept(h.receipts, h.party, timely)
    && h.account.discs + h.account.byPeer == h.account.closings + h.account.rejections
  }

  lemma StartKept(role: Role, timely: bool)
    ensures Kept(NewHistory(role), timely)
  {
  }

  lemma StepKeeps(h: History, i: Input, timely: bool)
    requires Kept(h, timely) && Legal(i) && (timely ==> !i.env.available)
    ensures Kept(Advance(h, i), timely)
  {
    hide Transition, Numbered, NumbersKept, NumberEffect, ReceiptsKept, Receipted, Listening;
    var o := Transition(h.party, i);
    StepNumbers(h.party, i);
    StepReceipts(h.party, i);
    StepEnds(h.party, i);
    NumbersStep(h.numbers, h.party, i, o);
    ReceiptsStep(h.receipts, h.party, i, o, timely);
  }

  lemma StepKeepsRole(h: History, i: Input)
    requires Kept(h, false) && Legal(i)
    ensures Advance(h, i).party.role == h.party.role
  {
    hide Transition, Numbered, Receipted, Accounted, NumbersKept, ReceiptsKept;
    StepReceipts(h.party, i);
  }

  lemma Untimely(h: History)
    requires Kept(h, true)
    ensures Kept(h, false)
  {
    hide NumbersKept;
  }

  lemma {:induction false} KeptThroughout(role: Role, hs: seq<History>, inputs: seq<Input>, k: nat, timely: bool)
    requires IsHistory(role, hs, inputs) && k < |hs| && (timely ==> NeverAvailable(inputs))
    ensures Kept(hs[k], timely) && hs[k].party.role == role
  {
    hide Kept, Advance;
    if k == 0 {
      StartKept(role, timely);
    } else {
      KeptThroughout(role, hs, inputs, k - 1, timely);
      assert Records(hs, inputs, k - 1);
      StepKeeps(hs[k - 1], inputs[k - 1], timely);
      if timely {
        Untimely(hs[k - 1]);
      }
      StepKeepsRole(hs[k - 1], inputs[k - 1]);
    }
  }
}
