/**
 What a party does in one step, cause by cause and field by field: which telegrams are sent when and what they
 say, what is accepted, when and why a connection ends, and what stays as it was. The numbers are those of the
 protocol: message types, reasons, the version, the 30 seconds.
 */
module Laws {
  import opened Words
  import Md4Spec
  import opened Pdu
  import opened Protocol
  import opened PartyRuns

  /** Every message type has an event of its own, and no other number has one. */
  lemma EventOfType(kind: Half)
    ensures ReceiveEvent(kind) ==
            if kind == 6200 then Some(RecvConnReq) else if kind == 6201 then Some(RecvConnResp)
            else if kind == 6212 then Some(RecvRetrReq) else if kind == 6213 then Some(RecvRetrResp)
            else if kind == 6216 then Some(RecvDiscReq) else if kind == 6220 then Some(RecvHb)
            else if kind == 6240 then Some(RecvData) else if kind == 6241 then Some(RecvRetrData) else None
  {
  }

  // ---------- causes ----------

  /** The first four bytes at the payload pointer spell the version. */
  predicate Versioned(p: Pdu) {
    var b := p.tel.payload + p.code;
    |b| >= 4 && b[0] == 0x30 && b[1] == 0x33 && b[2] == 0x30 && b[3] == 0x31
  }

  /** The confirmed timestamp is less than 30 after the last one, modulo 2^32. */
  predicate Timely(s: Party, p: Pdu) {
    (p.tel.confStamp - s.ctsr) % 0x1_0000_0000 < 30
  }

  predicate Connected(s: Party) {
    s.state.Up? || s.state.RetrReq? || s.state.RetrRun?
  }

  /** A handshake PDU is waited for and has come. */
  predicate Greeted(s: Party, i: Input) {
    i.Handling? && if i.event.RecvConnReq? then s.state.Down? else
                   i.event.RecvConnResp? && s.state.Start? && s.role.Client?
  }

  /** A PDU has come whose number and confirmed timestamp are checked. */
  predicate Checkable(s: Party, i: Input) {
    i.Handling? && match s.state
                   case Start => s.role.Server? && i.event.RecvHb?
                   case Up => i.event.RecvHb? || i.event.RecvData?
                   case RetrRun => i.event.RecvHb? || i.event.RecvData? || i.event.RecvRetrData?
                   case _ => false
  }

  /** A retransmission request has come where it is answered. */
  predicate Requested(s: Party, i: Input) {
    i.Handling? && i.event.RecvRetrReq? &&
    (s.state.Up? || s.state.RetrReq? || (s.state.RetrRun? && i.pdu.tel.seqNum != s.snr))
  }

  /** The type of the PDU has no place in this state. */
  predicate Unexpected(s: Party, i: Input) {
    i.Handling? && match i.event
                   case RecvConnReq => Live(s)
                   case RecvConnResp => Connected(s) || (s.state.Start? && s.role.Server?)
                   case RecvRetrReq => s.state.Start? || (s.state.RetrRun? && i.pdu.tel.seqNum == s.snr)
                   case RecvRetrResp => s.state.Start? || s.state.Up? || s.state.RetrRun?
                   case RecvHb => s.state.Start? && s.role.Client?
                   case RecvData => s.state.Start?
                   case RecvRetrData => s.state.Start? || s.state.Up?
                   case _ => false
  }

  /** A user service that is not provided in this state. */
  predicate NotAllowed(s: Party, i: Input) {
    if i.Sending? then s.state.Start? else i.event.OpenConn? && Live(s)
  }

  /** A user call that finds a server waiting. */
  predicate CallsOff(s: Party, i: Input) {
    s.state.Down? && (i.Sending? || i.event.OpenConn? || i.event.CloseConn?)
  }

  /** A PDU is regularly received. */
  predicate Acceptable(s: Party, i: Input) {
    || (Greeted(s, i) && Versioned(i.pdu))
    || (Checkable(s, i) && i.pdu.tel.seqNum == s.snr && Timely(s, i.pdu))
    || (Requested(s, i) && i.pdu.tel.seqNum == s.snr && i.env.available)
  }

  /** Why a step disconnects, as the code of the reason; none where it does not. */
  predicate Blames(s: Party, i: Input, reason: nat) {
    match reason
    case 0 => i.Handling? && i.event.CloseConn? && Live(s)
    case 2 => Unexpected(s, i)
    case 3 => Checkable(s, i) && s.state.Start? && i.pdu.tel.seqNum != s.snr
    case 4 => i.Handling? && i.event.TiElapsed?
    case 5 => NotAllowed(s, i)
    case 6 => Greeted(s, i) && !Versioned(i.pdu)
    case 7 => Requested(s, i) && !i.env.available
    case 8 => Checkable(s, i) && i.pdu.tel.seqNum == s.snr && !Timely(s, i.pdu)
    case _ => false
  }

  // ---------- the decision ----------

  lemma DecisionWhen(s: Party, i: Input)
    requires Legal(i)
    ensures var a := ActionOf(s, i);
      && (a.Listen? <==> i.Handling? && i.event.OpenConn? && s.state.Closed? && s.role.Server?)
      && (a.Call? <==> i.Handling? && i.event.OpenConn? && s.state.Closed? && s.role.Client?)
      && (a.Answer? <==> s.state.Down? && Greeted(s, i) && Versioned(i.pdu))
      && (a.Establish? <==> s.state.Start? && Greeted(s, i) && Versioned(i.pdu))
      && (a.Answer? || a.Establish? || a.Accept? <==> Acceptable(s, i))
      && (a.NoteConfirmed? <==> Requested(s, i) && i.pdu.tel.seqNum != s.snr && i.env.available)
      && (a.AskRetransmission? <==> Checkable(s, i) && !s.state.Start? && i.pdu.tel.seqNum != s.snr)
      && (a.EnterRun? <==> i.Handling? && i.event.RecvRetrResp? && s.state.RetrReq?)
      && (a.Forward? <==> i.Sending? && Connected(s))
      && (a.Beat? <==> i.Handling? && i.event.ThElapsed? && Live(s))
      && (a.Drop? <==> (i.Handling? && i.event.RecvDiscReq? && Live(s)) || CallsOff(s, i))
      && (a.Accept? ==> a.next == if i.event.RecvRetrReq? || i.event.RecvRetrData? then s.state else Up)
  {
    hide SafetyCode, Plus, Signed;
  }

  lemma ReasonWhen(s: Party, i: Input)
    requires Legal(i)
    ensures var a := ActionOf(s, i);
      && (a.Disconnect? ==> Blames(s, i, a.reason as nat))
      && forall r: nat :: Blames(s, i, r) ==> a.Disconnect? && a.reason as nat == r
  {
    hide SafetyCode, Plus, Signed;
  }

  // ---------- what is sent ----------

  predicate Sends(o: Outcome, kind: nat) {
    o.out.Some? && o.out.value.kind == kind
  }

  /** Which telegram is sent when; the six types are all that is ever sent. */
  lemma SentWhen(s: Party, i: Input)
    requires Legal(i)
    ensures var o := Transition(s, i);
      && (o.out.Some? ==> o.out.value.kind in {6200, 6201, 6212, 6216, 6220, 6240})
      && (Sends(o, 6200) <==> i.Handling? && i.event.OpenConn? && s.state.Closed? && s.role.Client?)
      && (Sends(o, 6201) <==> s.state.Down? && Greeted(s, i) && Versioned(i.pdu))
      && (Sends(o, 6212) <==> Checkable(s, i) && !s.state.Start? && i.pdu.tel.seqNum != s.snr)
      && (Sends(o, 6220) <==> (i.Handling? && i.event.ThElapsed? && Live(s)) ||
                              (s.state.Start? && Greeted(s, i) && Versioned(i.pdu)))
      && (Sends(o, 6240) <==> i.Sending? && Connected(s))
      && (Sends(o, 6216) <==> exists r :: Blames(s, i, r))
  {
    DecisionWhen(s, i);
    ReasonWhen(s, i);
    hide Blames, SafetyCode, Plus, Minus, Signed, ActionOf, Acceptable, Greeted, Versioned, Checkable, Requested,
      CallsOff, Live, Connected;
  }

  /** A disconnection request gives the reason, and there is one for exactly these causes. */
  lemma DisconnectsWhy(s: Party, i: Input, r: byte)
    requires Legal(i)
    ensures var o := Transition(s, i);
      && (Sends(o, 6216) && o.out.value.payload == [0, 0, 0, r] <==> Blames(s, i, r as nat))
      && (Sends(o, 6216) ==> |o.out.value.payload| == 4 && Blames(s, i, o.out.value.payload[3] as nat))
  {
    DecisionWhen(s, i);
    ReasonWhen(s, i);
    hide Blames, SafetyCode, Plus, Minus, Signed, ActionOf, Acceptable, Greeted, Versioned, Checkable, Requested,
      CallsOff, Live, Connected;
  }

  /** Version 0301, a receive buffer of 0xffff messages, eight bytes reserved. */
  const GREETING: seq<byte> := [0x30, 0x33, 0x30, 0x31, 0xff, 0xff, 0, 0, 0, 0, 0, 0, 0, 0]

  lemma GreetingIs()
    ensures HANDSHAKE_PAYLOAD == GREETING
  {
  }

  /** What every telegram that is sent says. Its timestamp is the last clock reading the step takes: the only
      one for a heartbeat, a retransmission request and a disconnection request, the one of the send itself
      for data, the second of a call or of taking a response, the third of an answer. */
  lemma SentSays(s: Party, i: Input)
    requires Legal(i) && Transition(s, i).out.Some?
    ensures var o := Transition(s, i);
      var t := o.out.value;
      && t.receiver == 0 && t.sender == 0
      && t.seqNum == o.party.snt
      && t.confSeq == (if t.kind == 6200 then 0 else o.party.cst)
      && t.confStamp == (if t.kind == 6200 then 0 else o.party.ctsr)
      && (t.kind == 6200 ==> t.stamp == i.env.t1 && t.payload == GREETING)
      && (t.kind == 6201 ==> t.stamp == i.env.t2 && t.payload == GREETING)
      && (t.kind == 6212 ==> t.stamp == i.env.t0 && t.payload == [])
      && (t.kind == 6216 ==> t.stamp == i.env.t0)
      && (t.kind == 6220 ==> t.stamp == (if o.took then i.env.t1 else i.env.t0) && t.payload == [])
      && (t.kind == 6240 ==> i.Sending? && t.stamp == i.stamp && t.payload == i.data)
  {
    DecisionWhen(s, i);
    GreetingIs();
    hide SafetyCode, Plus, Minus, Signed, ActionOf, Acceptable, Greeted, Versioned, Checkable, Requested,
      CallsOff, Live, Connected, HANDSHAKE_PAYLOAD, GREETING;
  }

  // ---------- what becomes of the party ----------

  /** The step ends the connection or the wait for one, and why. */
  ghost predicate Ended(s: Party, i: Input) {
    || (exists r :: Blames(s, i, r))
    || (i.Handling? && i.event.RecvDiscReq? && Live(s))
    || CallsOff(s, i)
  }

  predicate Opened(s: Party, i: Input) {
    i.Handling? && i.event.OpenConn? && s.state.Closed?
  }

  /** A request that is not in sequence and can be answered. */
  predicate Repeats(s: Party, i: Input) {
    Requested(s, i) && i.pdu.tel.seqNum != s.snr && i.env.available
  }

  lemma StatePerformed(s: Party, i: Input)
    requires Legal(i)
    ensures var a, o := ActionOf(s, i), Transition(s, i);
      && o.party.role == s.role && (o.took <==> a.Answer? || a.Establish? || a.Accept?)
      && o.party.state ==
         (match a
          case Disconnect(_) => Closed
          case Drop => Closed
          case Listen => Down
          case Call => Start
          case Answer => Start
          case Establish => Up
          case Accept(next) => next
          case NoteConfirmed => RetrReq
          case AskRetransmission => RetrReq
          case EnterRun => RetrRun
          case _ => s.state)
  {
    hide SafetyCode, Plus, Minus, Signed, ActionOf;
  }

  lemma AskedWhen(s: Party, i: Input)
    requires Legal(i)
    ensures Sends(Transition(s, i), 6212) <==> ActionOf(s, i).AskRetransmission?
  {
    SentWhen(s, i);
    DecisionWhen(s, i);
    hide *;
  }

  lemma EndedWhen(s: Party, i: Input)
    requires Legal(i)
    ensures Ended(s, i) <==> ActionOf(s, i).Disconnect? || ActionOf(s, i).Drop?
  {
    DecisionWhen(s, i);
    ReasonWhen(s, i);
    hide Blames, ActionOf, Versioned, Checkable, Requested, CallsOff, Live, Connected;
  }

  lemma StateBecomes(s: Party, i: Input)
    requires Legal(i)
    ensures var o := Transition(s, i);
      && o.party.role == s.role
      && (o.took <==> Acceptable(s, i))
      && o.party.state ==
         (if Ended(s, i) then Closed
          else if Opened(s, i) then if s.role.Server? then Down else Start
          else if Greeted(s, i) then if s.state.Start? then Up else Start
          else if Acceptable(s, i) then if i.event.RecvRetrReq? || i.event.RecvRetrData? then s.state else Up
          else if Repeats(s, i) || Sends(o, 6212) then RetrReq
          else if i.Handling? && i.event.RecvRetrResp? && s.state.RetrReq? then RetrRun
          else s.state)
  {
    DecisionWhen(s, i);
    StatePerformed(s, i);
    AskedWhen(s, i);
    EndedWhen(s, i);
    hide Ended, Transition, ActionOf, Versioned, Checkable, Requested, CallsOff, Live, Connected, Sends;
  }

  lemma TimeLeft(x: Word)
    ensures Signed(Minus(T_MAX, x)) % 0x1_0000_0000 == (30 - x) % 0x1_0000_0000
    ensures -0x8000_0000 <= Signed(Minus(T_MAX, x)) < 0x8000_0000
  {
  }

  lemma AcceptedFields(s: Party, i: Input)
    requires Legal(i) && i.Handling? && (ActionOf(s, i).Answer? || ActionOf(s, i).Establish? || ActionOf(s, i).Accept?)
    ensures var a, after, t := ActionOf(s, i), Transition(s, i).party, i.pdu.tel;
      var now := if a.Answer? then i.env.t1 else i.env.t0;
      && after.snr == Plus(t.seqNum, 1) && after.cst == t.seqNum && after.tsr == t.stamp
      && after.csr == (if a.Answer? then Minus(s.snt, 1) else t.confSeq)
      && after.ctsr == (if a.Answer? then i.env.t0 else t.confStamp)
      && after.trtd == Minus(now, after.ctsr) && after.ti == Signed(Minus(T_MAX, after.trtd))
      && after.snt == (if a.Establish? then Plus(s.snt, 1) else s.snt)
  {
    hide Plus, Minus, Signed, SafetyCode, ActionOf;
  }

  /** What an accepted PDU leaves behind. A server that answers notes its own last number as confirmed and
      the first clock reading as the confirmed timestamp, and supervises from the second. */
  lemma AcceptedLeaves(s: Party, i: Input)
    requires Legal(i) && Transition(s, i).took
    ensures i.Handling?
    ensures var after, t := Transition(s, i).party, i.pdu.tel;
      var now := if s.state.Down? then i.env.t1 else i.env.t0;
      && after.snr == (t.seqNum + 1) % 0x1_0000_0000
      && after.cst == t.seqNum
      && after.tsr == t.stamp
      && after.csr == (if s.state.Down? then (s.snt - 1) % 0x1_0000_0000 else t.confSeq)
      && after.ctsr == (if s.state.Down? then i.env.t0 else t.confStamp)
      && after.trtd == (now - after.ctsr) % 0x1_0000_0000
      && after.ti % 0x1_0000_0000 == (30 - after.trtd) % 0x1_0000_0000
      && -0x8000_0000 <= after.ti < 0x8000_0000
      && after.snt == (if s.state.Start? && s.role.Client? then (s.snt + 1) % 0x1_0000_0000 else s.snt)
  {
    DecisionWhen(s, i);
    StatePerformed(s, i);
    AcceptedFields(s, i);
    TimeLeft(Transition(s, i).party.trtd);
    hide Signed, Transition, ActionOf, Versioned, Timely, Checkable, Requested;
  }

  /** The number that a step's PDU carries; a user's data takes its number before it is refused. */
  function NumberOf(s: Party, i: Input): Word {
    if i.Sending? then (s.snt + 1) % 0x1_0000_0000 else i.pdu.tel.seqNum
  }

  /** What stays as it was where nothing is accepted. */
  lemma OtherwiseKept(s: Party, i: Input)
    requires Legal(i) && !Transition(s, i).took
    ensures var after := Transition(s, i).party;
      && after.snr == s.snr && after.tsr == s.tsr && after.trtd == s.trtd && after.ti == s.ti
      && after.cst == (if Ended(s, i) then NumberOf(s, i)
                       else if Opened(s, i) && s.role.Client? then 0 else s.cst)
      && after.csr == (if Repeats(s, i) then i.pdu.tel.confSeq else s.csr)
      && after.ctsr == (if Opened(s, i) && s.role.Client? then i.env.t0 else s.ctsr)
  {
    DecisionWhen(s, i);
    StatePerformed(s, i);
    EndedWhen(s, i);
    hide SafetyCode, ActionOf, Versioned, Checkable, Requested, CallsOff, Live, Connected, Ended;
  }

  lemma NumberPerformed(s: Party, i: Input)
    requires Legal(i)
    ensures var a, o := ActionOf(s, i), Transition(s, i);
      var sends := a.Disconnect? || a.AskRetransmission? || a.Beat? || a.Establish?;
      && (Sends(o, 6212) || Sends(o, 6216) || Sends(o, 6220) <==> sends)
      && o.party.snt == (if a.Listen? || a.Call? then i.env.draw
                         else if sends then Plus(Before(s, i).snt, 1) else Before(s, i).snt)
  {
    DecisionWhen(s, i);
    hide Plus, Minus, Signed, SafetyCode, ActionOf, Versioned, Timely, Checkable, Requested, Connected, Live;
  }

  /** The send number: drawn at an opening, one more for a user's data whether it is sent or not, and one
      more for every retransmission request, disconnection request and heartbeat. */
  lemma NumberBecomes(s: Party, i: Input)
    requires Legal(i)
    ensures var o := Transition(s, i);
      o.party.snt == if Opened(s, i) then i.env.draw
                     else (s.snt + One(i.Sending?) + One(Sends(o, 6212) || Sends(o, 6216) || Sends(o, 6220)))
                          % 0x1_0000_0000
  {
    DecisionWhen(s, i);
    NumberPerformed(s, i);
    PlusPlus(s.snt, 1, 1);
    hide Transition, ActionOf, Versioned, Timely, Checkable, Requested, Connected, Live, Sends;
  }

  // ---------- the three user services ----------

  /** A user's send: on a connection exactly one telegram, with the user's bytes, whose frame has them from
      byte 28 on; before the connection is up nothing, or the disconnection for a service not allowed. */
  lemma UserSends(s: Party, data: Payload, stamp: Word, env: Env)
    ensures var o := Transition(s, Sending(data, stamp, env));
      var next := (s.snt + 1) % 0x1_0000_0000;
      match s.state
      case Closed => o == Outcome(s.(snt := next), None, false)
      case Down => o.party.state == Closed && o.out == None
      case Start => o.party.state == Closed && Sends(o, 6216) && o.out.value.payload == [0, 0, 0, 5]
      case _ =>
        && o == Outcome(s.(snt := next), Some(Telegram(6240, 0, 0, next, s.cst, stamp, s.ctsr, data)), false)
        && Framed(data, Frame(o.out.value))
  {
    hide SafetyCode, Minus, Signed, Frame, Framed;
    FramedIs(Telegram(6240, 0, 0, (s.snt + 1) % 0x1_0000_0000, s.cst, stamp, s.ctsr, data));
  }

  /** The frame of a data PDU: 36 bytes and the data, the type 6240 in bytes 2 and 3, the data from byte 28. */
  predicate Framed(data: seq<byte>, f: seq<byte>) {
    && |f| == 36 + |data|
    && f[2] as int == 6240 / 256 && f[3] as int == 6240 % 256
    && f[28..28 + |data|] == data
  }

  lemma FramedIs(t: Telegram)
    requires t.kind == 6240
    ensures Framed(t.payload, Frame(t))
  {
    FrameLaid(t);
    hide Frame, Md4Spec.Digest;
  }

  /** A user's close: closed in every state, with a disconnection request exactly from START, UP, RETR_REQ and
      RETR_RUN. */
  lemma UserCloses(s: Party, p: Pdu, env: Env)
    ensures var o := Transition(s, Handling(CloseConn, p, env));
      && o.party.state == Closed && !o.took && (s.state != Closed ==> o.party.cst == p.tel.seqNum)
      && (o.out.Some? <==> s.state.Start? || s.state.Up? || s.state.RetrReq? || s.state.RetrRun?)
      && (o.out.Some? ==> Sends(o, 6216) && o.out.value.payload == [0, 0, 0, 0])
  {
    hide SafetyCode, Minus, Signed;
  }

  /** A user's open: from CLOSED into DOWN or, with a request, START; in DOWN it closes without a word, and
      anywhere else it ends the connection as a service not allowed. */
  lemma UserOpens(s: Party, p: Pdu, env: Env)
    ensures var o := Transition(s, Handling(OpenConn, p, env));
      && !o.took && (s.state != Closed ==> o.party.cst == p.tel.seqNum)
      && match s.state
         case Closed =>
           if s.role.Server? then o.party.state == Down && o.out == None
           else o.party.state == Start && Sends(o, 6200)
         case Down => o.party.state == Closed && o.out == None
         case _ => o.party.state == Closed && Sends(o, 6216) && o.out.value.payload == [0, 0, 0, 5]
  {
    hide SafetyCode, Minus, Signed;
  }
}
