/**
 The RaSTA connection protocol as a transition function on values.

 Decide is the transition table, arranged by event; Perform says what each action does to the party and
 which telegram it sends.
 */
module Protocol {
  import opened Words
  import opened Pdu

  datatype State = Closed | Down | Start | Up | RetrReq | RetrRun

  datatype Role = Client | Server

  datatype Event =
    | ThElapsed | TiElapsed
    | OpenConn | CloseConn | SendData
    | RecvConnReq | RecvConnResp | RecvRetrReq | RecvRetrResp | RecvDiscReq | RecvHb | RecvData | RecvRetrData

  /** Disconnection reasons, with their codes on the wire. */
  const USER_REQUEST: byte := 0
  const NOT_EXPECTED_RECV_MSG_TYPE: byte := 2
  const SEQ_NBR_ERR_FOR_CONNECTION: byte := 3
  const TIMEOUT_INCOMING_MSG: byte := 4
  const STATE_SERVICE_NOT_ALLOWED: byte := 5
  const PROTOCOL_VERSION_ERROR: byte := 6
  const FAIL_RETRANSMISSION: byte := 7
  const SEQ_ERR: byte := 8

  /** Timeouts set by Sm_Init, in seconds. */
  const T_MAX: Word := 30
  const T_H: Word := 10

  /** "0301" */
  const PROTOCOL_VERSION: seq<byte> := [0x30, 0x33, 0x30, 0x31]

  /** One end of a connection. ti is the supervision time left, which the caller counts down. */
  datatype Party = Party(
    role: Role,
    state: State,
    snr: Word,
    snt: Word,
    cst: Word,
    csr: Word,
    tsr: Word,
    ctsr: Word,
    trtd: Word,
    ti: int)

  /** What one handling of an event gets from outside: up to three clock readings in the order they are
      taken, the number drawn for a new connection, and whether all unconfirmed payload is available. */
  datatype Env = Env(t0: Word, t1: Word, t2: Word, draw: Word, available: bool)

  datatype Action =
    | Stay
    | Listen                    // server: wait for a connection request
    | Call                      // client: send the connection request
    | Answer                    // server: accept the request, send the response
    | Establish                 // client: accept the response, send a heartbeat
    | Accept(next: State)       // regular receipt
    | NoteConfirmed             // retransmission wanted of us: keep the confirmed number
    | AskRetransmission
    | EnterRun                  // retransmission announced to us
    | Forward                   // send the data PDU
    | Beat                      // send a heartbeat
    | Drop                      // close without a word
    | Disconnect(reason: byte)

  /** The payload pointer of a received PDU runs on into its safety code. */
  predicate VersionMatches(p: Pdu) {
    PROTOCOL_VERSION <= p.tel.payload + p.code
  }

  predicate InSequence(s: Party, p: Pdu) {
    p.tel.seqNum == s.snr
  }

  /** The unsigned difference is never negative, so this is the whole check. */
  predicate ConfirmedStampInSequence(s: Party, p: Pdu) {
    Minus(p.tel.confStamp, s.ctsr) < T_MAX
  }

  /** The checks on a numbered PDU: a gap is answered by gap, a stale timestamp by closing. */
  function Checked(s: Party, p: Pdu, gap: Action, next: State): Action {
    if !InSequence(s, p) then gap
    else if !ConfirmedStampInSequence(s, p) then Disconnect(SEQ_ERR)
    else Accept(next)
  }

  function Decide(s: Party, e: Event, p: Pdu, available: bool): Action {
    match e
    case TiElapsed => Disconnect(TIMEOUT_INCOMING_MSG)
    case ThElapsed => if s.state.Closed? || s.state.Down? then Stay else Beat
    case OpenConn =>
      (match s.state
       case Closed => if s.role.Server? then Listen else Call
       case Down => Drop
       case _ => Disconnect(STATE_SERVICE_NOT_ALLOWED))
    case CloseConn =>
      (match s.state
       case Closed => Stay
       case Down => Drop
       case _ => Disconnect(USER_REQUEST))
    case SendData =>
      (match s.state
       case Closed => Stay
       case Down => Drop
       case Start => Disconnect(STATE_SERVICE_NOT_ALLOWED)
       case _ => Forward)
    case RecvConnReq =>
      (match s.state
       case Closed => Stay
       case Down => if VersionMatches(p) then Answer else Disconnect(PROTOCOL_VERSION_ERROR)
       case _ => Disconnect(NOT_EXPECTED_RECV_MSG_TYPE))
    case RecvConnResp =>
      (match s.state
       case Closed => Stay
       case Down => Stay
       case Start =>
         if s.role.Server? then Disconnect(NOT_EXPECTED_RECV_MSG_TYPE)
         else if VersionMatches(p) then Establish
         else Disconnect(PROTOCOL_VERSION_ERROR)
       case _ => Disconnect(NOT_EXPECTED_RECV_MSG_TYPE))
    case RecvDiscReq =>
      if s.state.Closed? || s.state.Down? then Stay else Drop
    case RecvHb =>
      (match s.state
       case Start =>
         if s.role.Client? then Disconnect(NOT_EXPECTED_RECV_MSG_TYPE)
         else Checked(s, p, Disconnect(SEQ_NBR_ERR_FOR_CONNECTION), Up)
       case Up => Checked(s, p, AskRetransmission, Up)
       case RetrRun => Checked(s, p, AskRetransmission, Up)
       case _ => Stay)
    case RecvData =>
      (match s.state
       case Start => Disconnect(NOT_EXPECTED_RECV_MSG_TYPE)
       case Up => Checked(s, p, AskRetransmission, Up)
       case RetrRun => Checked(s, p, AskRetransmission, Up)
       case _ => Stay)
    case RecvRetrData =>
      (match s.state
       case Start => Disconnect(NOT_EXPECTED_RECV_MSG_TYPE)
       case Up => Disconnect(NOT_EXPECTED_RECV_MSG_TYPE)
       case RetrRun => Checked(s, p, AskRetransmission, RetrRun)
       case _ => Stay)
    case RecvRetrResp =>
      (match s.state
       case Closed => Stay
       case Down => Stay
       case RetrReq => EnterRun
       case _ => Disconnect(NOT_EXPECTED_RECV_MSG_TYPE))
    case RecvRetrReq =>
      (match s.state
       case Closed => Stay
       case Down => Stay
       case Start => Disconnect(NOT_EXPECTED_RECV_MSG_TYPE)
       case RetrRun =>
         if InSequence(s, p) then Disconnect(NOT_EXPECTED_RECV_MSG_TYPE)
         else if available then NoteConfirmed
         else Disconnect(FAIL_RETRANSMISSION)
       case _ =>
         if !available then Disconnect(FAIL_RETRANSMISSION)
         else if InSequence(s, p) then Accept(s.state)
         else NoteConfirmed)
  }

  /** The party has accepted a handshake PDU and follows the peer's numbers. */
  predicate Listening(s: Party) {
    s.state.Up? || s.state.RetrReq? || s.state.RetrRun? || (s.state.Start? && s.role.Server?)
  }

  /** When each action can be decided. */
  lemma Guards(s: Party, e: Event, p: Pdu, available: bool)
    ensures var a := Decide(s, e, p, available);
      && (a.Listen? || a.Call? <==> s.state.Closed? && e.OpenConn?)
      && (a.Listen? ==> s.role.Server?) && (a.Call? ==> s.role.Client?)
      && (a.Answer? ==> s.state.Down? && e.RecvConnReq? && VersionMatches(p))
      && (a.Establish? ==> s.state.Start? && s.role.Client? && e.RecvConnResp? && VersionMatches(p))
      && (a.Accept? ==> Listening(s) && InSequence(s, p) && (a.next.Up? || a.next.RetrReq? || a.next.RetrRun?))
      && (a.Accept? ==> e.RecvHb? || e.RecvData? || e.RecvRetrData? || (e.RecvRetrReq? && available))
      && (a.Accept? ==> ConfirmedStampInSequence(s, p) || available)
      && (a.NoteConfirmed? ==> Listening(s) && !s.state.Start? && e.RecvRetrReq? && available)
      && (a.AskRetransmission? ==> (s.state.Up? || s.state.RetrRun?) && !InSequence(s, p)
                                   && (e.RecvHb? || e.RecvData? || e.RecvRetrData?))
      && (a.EnterRun? ==> s.state.RetrReq? && e.RecvRetrResp?)
      && (a.Forward? ==> e.SendData? && Listening(s) && !s.state.Start?)
      && (e.SendData? ==> if s.state.Closed? then a.Stay? else if s.state.Down? then a.Drop?
                          else if s.state.Start? then a.Disconnect? else a.Forward?)
      && (a.Beat? <==> e.ThElapsed? && !s.state.Closed? && !s.state.Down?)
      && (a.Drop? ==> !s.state.Closed?)
  {
  }

  /** The events of a peer that never asks for a retransmission nor answers such a request. */
  predicate Plain(e: Event) {
    e.RecvConnReq? || e.RecvConnResp? || e.RecvDiscReq? || e.RecvHb? || e.RecvData?
  }

  /** Without a gap, what a plain PDU does outside the retransmission states. */
  lemma PlainGuards(s: Party, e: Event, p: Pdu, available: bool)
    requires !s.state.RetrReq? && !s.state.RetrRun? && Plain(e)
    requires Listening(s) && (e.RecvHb? || e.RecvData?) ==> InSequence(s, p)
    ensures var a := Decide(s, e, p, available);
      && (a.Stay? ==> s.state.Closed? || s.state.Down?)
      && (e.RecvDiscReq? ==> a.Stay? || a.Drop?)
      && (a.Stay? || a.Answer? || a.Establish? || a.Disconnect? || a.Drop? || (a.Accept? && a.next.Up?))
      && (a.Accept? ==> e.RecvHb? || e.RecvData?)
      && (a.Disconnect? ==> a.reason != SEQ_NBR_ERR_FOR_CONNECTION)
      && (a == Disconnect(SEQ_ERR) ==> Listening(s) && (e.RecvHb? || e.RecvData?) && !ConfirmedStampInSequence(s, p))
  {
  }

  // ---------- telegrams ----------

  /** Version, receive buffer size 0xffff, eight reserved bytes. */
  const HANDSHAKE_PAYLOAD: seq<byte> := PROTOCOL_VERSION + [0xff, 0xff] + Zeros(8)

  function Message(kind: Half, s: Party, now: Word, payload: Payload): Telegram {
    Telegram(kind, 0, 0, s.snt, s.cst, now, s.ctsr, payload)
  }

  function ConnReqTel(s: Party, now: Word): Telegram {
    Telegram(CONNECTION_REQUEST, 0, 0, s.snt, 0, now, 0, HANDSHAKE_PAYLOAD)
  }

  function DiscReqTel(s: Party, now: Word, reason: byte): Telegram {
    Message(DISCONNECTION_REQUEST, s, now, [0, 0, 0, reason])
  }

  /** The next number to send. */
  function Bump(s: Party): Party {
    s.(snt := Plus(s.snt, 1))
  }

  /** What a user's send prepares before the state machine sees it. */
  function DataTel(s: Party, now: Word, data: Payload): Telegram {
    Message(DATA, Bump(s), now, data)
  }

  function Received(s: Party, t: Telegram): Party {
    s.(snr := Plus(t.seqNum, 1), cst := t.seqNum, csr := t.confSeq, tsr := t.stamp, ctsr := t.confStamp)
  }

  function Supervised(s: Party, now: Word): Party {
    s.(trtd := Minus(now, s.ctsr), ti := Signed(Minus(T_MAX, Minus(now, s.ctsr))))
  }

  function Shut(s: Party, p: Pdu): Party {
    s.(cst := p.tel.seqNum, state := Closed)
  }

  /** The party after an event, the telegram it sent, and whether the PDU counted as regularly received. */
  datatype Outcome = Outcome(party: Party, out: Option<Telegram>, took: bool)

  function Perform(s: Party, a: Action, p: Pdu, env: Env): Outcome {
    match a
    case Stay => Outcome(s, None, false)
    case Listen => Outcome(s.(snt := env.draw, state := Down), None, false)
    case Call =>
      var s1 := s.(snt := env.draw, cst := 0, ctsr := env.t0, state := Start);
      Outcome(s1, Some(ConnReqTel(s1, env.t1)), false)
    case Answer =>
      var s1 := Received(s, p.tel).(csr := Minus(s.snt, 1), ctsr := env.t0, state := Start);
      var s2 := Supervised(s1, env.t1);
      Outcome(s2, Some(Message(CONNECTION_RESPONSE, s2, env.t2, HANDSHAKE_PAYLOAD)), true)
    case Establish =>
      var s1 := Bump(Supervised(Received(s, p.tel).(state := Up), env.t0));
      Outcome(s1, Some(Message(HEARTBEAT, s1, env.t1, [])), true)
    case Accept(next) =>
      Outcome(Supervised(Received(s, p.tel).(state := next), env.t0), None, true)
    case NoteConfirmed => Outcome(s.(csr := p.tel.confSeq, state := RetrReq), None, false)
    case AskRetransmission =>
      var s1 := Bump(s).(state := RetrReq);
      Outcome(s1, Some(Message(RETRANSMISSION_REQUEST, s1, env.t0, [])), false)
    case EnterRun => Outcome(s.(state := RetrRun), None, false)
    case Forward => Outcome(s, Some(p.tel), false)
    case Beat =>
      var s1 := Bump(s);
      Outcome(s1, Some(Message(HEARTBEAT, s1, env.t0, [])), false)
    case Drop => Outcome(Shut(s, p), None, false)
    case Disconnect(reason) =>
      var s1 := Bump(Shut(s, p));
      Outcome(s1, Some(DiscReqTel(s1, env.t0, reason)), false)
  }

  /** One call of the event handler. */
  function Handle(s: Party, e: Event, p: Pdu, env: Env): Outcome {
    Perform(s, Decide(s, e, p, env.available), p, env)
  }

  /** A party with everything it has sent and everything it has regularly received. */
  datatype Log = Log(party: Party, sent: seq<Telegram>, accepted: seq<Telegram>)

  function Took(l: Log, a: Action, p: Pdu, env: Env): Log {
    var o := Perform(l.party, a, p, env);
    Log(o.party,
        l.sent + (if o.out.Some? then [o.out.value] else []),
        l.accepted + (if o.took then [p.tel] else []))
  }

  function Logged(l: Log, e: Event, p: Pdu, env: Env): Log {
    Took(l, Decide(l.party, e, p, env.available), p, env)
  }

  /** PDU_S pdu = { 0 } */
  const ZERO_PDU: Pdu := Pdu(Telegram(0, 0, 0, 0, 0, 0, 0, []), [])

  /** A party after initialisation. */
  function Initial(role: Role): Party {
    Party(role, Closed, 0, 0, 0, 0, 0, 0, 0, T_MAX)
  }
}
