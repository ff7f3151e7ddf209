/**
 The state machine of one connection, updated in place, with the frames it puts on the wire.
 */
module Sm {
  import opened Words
  import Md4Spec
  import opened Pdu
  import opened PduStruct
  import opened Protocol
  import opened PartyRuns
  import opened Laws

  class SmType {
    const role: Role
    var state: State
    var snr: Word
    var snt: Word
    var cst: Word
    var csr: Word
    var tsr: Word
    var ctsr: Word
    var handler: State               // which state's handler is installed
    var th: Word
    var tMax: Word
    var ti: int
    var trtd: Word
    const buffToSend: array<byte>
    var wire: seq<seq<byte>>         // every buffer given to SendSpdu
    ghost var sent: seq<Telegram>     // what those buffers say
    ghost var accepted: seq<Telegram> // every PDU regularly received

    /** Every buffer on the wire is the sealed frame of the telegram that was sent. */
    ghost predicate Framed()
      reads this
    {
      |wire| == |sent| && forall i :: 0 <= i < |wire| ==> wire[i] == Frame(sent[i])
    }

    ghost predicate Ready()
      reads this
    {
      buffToSend.Length == 100 && tMax == T_MAX && Framed()
    }

    /** Between events the installed handler is the one of the state. */
    ghost predicate Valid()
      reads this
    {
      Ready() && handler == state
    }

    ghost function View(): Party
      reads this
    {
      Party(role, state, snr, snt, cst, csr, tsr, ctsr, trtd, ti)
    }

    ghost function Trace(): Log
      reads this
    {
      Log(View(), sent, accepted)
    }

    /** The version of a received PDU is looked at. */
    ghost predicate ChecksVersion(event: Event)
      reads this
    {
      (event.RecvConnReq? && state.Down?) || (event.RecvConnResp? && state.Start? && role.Client?)
    }

    /** What the source's caller provides with an event. */
    ghost predicate Deliverable(event: Event, pdu: PduS)
      reads this, pdu
    {
      && pdu.Covered()
      && (event.SendData? ==> pdu.Sealed() && pdu.messageLength <= MAX_PDU_LENGTH)
      && (ChecksVersion(event) ==> VersionReadable(pdu))
    }

    /** At least four bytes lie at the payload pointer, and where the payload is shorter than that they
        are followed by the safety code. */
    ghost predicate VersionReadable(pdu: PduS)
      reads pdu
    {
      && pdu.Covered() && pdu.payload.Some? && |pdu.PayloadBytes() + pdu.Code()| >= 4 && |pdu.payload.value| >= 4
      && pdu.payload.value[..4] == (pdu.PayloadBytes() + pdu.Code())[..4]
    }

    /** SafeCom_Init_Impl and Sm_Init for one connection. */
    constructor (role: Role)
      ensures Valid() && Trace() == Log(Initial(role), [], []) && fresh(buffToSend)
      ensures this.role == role && state == Closed && handler == Closed && wire == []
      ensures snr == 0 && snt == 0 && cst == 0 && csr == 0 && tsr == 0 && ctsr == 0 && trtd == 0
      ensures th == 10 && tMax == 30 && ti == 30
    {
      this.role := role;
      state := Closed;
      th := T_H;
      tMax := T_MAX;
      ti := T_MAX;
      trtd := 0;
      snr, snt, cst, csr, tsr, ctsr := 0, 0, 0, 0, 0, 0;
      handler := Closed;
      buffToSend := new byte[100];
      wire := [];
      sent := [];
      accepted := [];
    }

    // ---------- building and sending ----------

    method Fill(pdu: PduS, kind: Half, confSeq: Word, now: Word, confStamp: Word, payload: Option<seq<byte>>)
      requires pdu.Covered() && (payload.Some? ==> |payload.value| <= 14)
      modifies pdu
      ensures pdu.Sealed() && pdu.messageLength <= MAX_PDU_LENGTH
      ensures pdu.Tel() == Telegram(kind, 0, 0, snt, confSeq, now, confStamp,
        if payload.Some? then payload.value else [])
      ensures pdu.Says(kind, snt, confSeq, now, confStamp, if payload.Some? then payload.value else [])
    {
      hide Seal;
      pdu.messageLength := FIXED_FIELDS_LENGTH + (if payload.Some? then |payload.value| else 0);
      pdu.messageType := kind;
      pdu.receiverId := 0;
      pdu.senderId := 0;
      pdu.sequenceNumber := snt;
      pdu.confirmedSequenceNumber := confSeq;
      pdu.timestamp := now;
      pdu.confirmedTimestamp := confStamp;
      pdu.payload := payload;
      CalculateMd4(pdu);
    }

    method ConnReq(pdu: PduS, now: Word)
      requires pdu.Covered()
      modifies pdu
      ensures pdu.Sealed() && pdu.messageLength <= MAX_PDU_LENGTH && pdu.Tel() == ConnReqTel(View(), now)
      ensures pdu.Says(6200, snt, 0, now, 0, GREETING)
    {
      GreetingIs();
      Fill(pdu, CONNECTION_REQUEST, 0, now, 0, Some(HANDSHAKE_PAYLOAD));
    }

    method ConnResp(pdu: PduS, now: Word)
      requires pdu.Covered()
      modifies pdu
      ensures pdu.Sealed() && pdu.messageLength <= MAX_PDU_LENGTH
      ensures pdu.Tel() == Message(CONNECTION_RESPONSE, View(), now, HANDSHAKE_PAYLOAD)
      ensures pdu.Says(6201, snt, cst, now, ctsr, GREETING)
    {
      GreetingIs();
      Fill(pdu, CONNECTION_RESPONSE, cst, now, ctsr, Some(HANDSHAKE_PAYLOAD));
    }

    method RetrReq(pdu: PduS, now: Word)
      requires pdu.Covered()
      modifies this`snt, pdu
      ensures View() == Bump(old(View()))
      ensures pdu.Sealed() && pdu.messageLength <= MAX_PDU_LENGTH
      ensures pdu.Tel() == Message(RETRANSMISSION_REQUEST, View(), now, [])
      ensures snt == (old(snt) + 1) % 0x1_0000_0000 && pdu.Says(6212, snt, cst, now, ctsr, [])
    {
      snt := Plus(snt, 1);
      Fill(pdu, RETRANSMISSION_REQUEST, cst, now, ctsr, None);
    }

    method DiscReq(pdu: PduS, reason: byte, now: Word)
      requires pdu.Covered()
      modifies this`snt, pdu
      ensures View() == Bump(old(View()))
      ensures pdu.Sealed() && pdu.messageLength <= MAX_PDU_LENGTH && pdu.Tel() == DiscReqTel(View(), now, reason)
      ensures snt == (old(snt) + 1) % 0x1_0000_0000 && pdu.Says(6216, snt, cst, now, ctsr, [0, 0, 0, reason])
    {
      snt := Plus(snt, 1);
      Fill(pdu, DISCONNECTION_REQUEST, cst, now, ctsr, Some([0, 0, 0, reason]));
    }

    method Heartbeat(pdu: PduS, now: Word)
      requires pdu.Covered()
      modifies this`snt, pdu
      ensures View() == Bump(old(View()))
      ensures pdu.Sealed() && pdu.messageLength <= MAX_PDU_LENGTH && pdu.Tel() == Message(HEARTBEAT, View(), now, [])
      ensures snt == (old(snt) + 1) % 0x1_0000_0000 && pdu.Says(6220, snt, cst, now, ctsr, [])
    {
      snt := Plus(snt, 1);
      Fill(pdu, HEARTBEAT, cst, now, ctsr, None);
    }

    method Data(pdu: PduS, data: seq<byte>, now: Word)
      requires pdu.Covered() && |data| <= 14
      modifies this`snt, pdu
      ensures View() == Bump(old(View()))
      ensures pdu.Sealed() && pdu.messageLength <= MAX_PDU_LENGTH && pdu.Tel() == DataTel(old(View()), now, data)
      ensures snt == (old(snt) + 1) % 0x1_0000_0000 && pdu.Says(6240, snt, cst, now, ctsr, data)
    {
      snt := Plus(snt, 1);
      Fill(pdu, DATA, cst, now, ctsr, Some(data));
    }

    /** serialize_pdu into the send buffer, then SendSpdu with the length and the buffer. */
    method Transmit(pdu: PduS)
      requires Ready() && pdu.Sealed() && pdu.messageLength <= MAX_PDU_LENGTH
      modifies this`wire, this`sent, buffToSend
      ensures Ready() && sent == old(sent) + [pdu.Tel()]
    {
      hide SafetyCode, Header;
      SerializePdu(pdu, buffToSend, pdu.messageLength);
      assert Encode(pdu.Value()) == Frame(pdu.Tel());
      wire := wire + [buffToSend[..pdu.messageLength]];
      sent := sent + [pdu.Tel()];
    }

    // ---------- state handling ----------

    method CloseConnection(pdu: PduS)
      requires pdu.Covered()
      modifies this`cst, this`state, this`handler
      ensures View() == Shut(old(View()), pdu.Value())
    {
      cst := pdu.sequenceNumber;
      state := Closed;
      handler := Closed;
    }

    method ProcessRegularReceipt(pdu: PduS)
      requires pdu.Covered()
      modifies this`snr, this`cst, this`csr, this`tsr, this`ctsr, this`accepted
      ensures View() == Received(old(View()), pdu.Tel())
      ensures accepted == old(accepted) + [pdu.Tel()]
    {
      snr := Plus(pdu.sequenceNumber, 1);
      cst := pdu.sequenceNumber;
      csr := pdu.confirmedSequenceNumber;
      tsr := pdu.timestamp;
      ctsr := pdu.confirmedTimestamp;
      accepted := accepted + [pdu.Tel()];
    }

    method Supervise(now: Word)
      requires Ready()
      modifies this`trtd, this`ti
      ensures View() == Supervised(old(View()), now)
    {
      trtd := Minus(now, ctsr);
      ti := Signed(Minus(tMax, trtd));
    }

    method CheckVersion(pdu: PduS) returns (ok: bool)
      requires VersionReadable(pdu)
      ensures ok == VersionMatches(pdu.Value())
    {
      var bytes := pdu.payload.value;
      ghost var all := pdu.PayloadBytes() + pdu.Code();
      assert VersionMatches(pdu.Value()) <==> all[..4] == PROTOCOL_VERSION;
      ok := bytes[0] == PROTOCOL_VERSION[0] && bytes[1] == PROTOCOL_VERSION[1] &&
            bytes[2] == PROTOCOL_VERSION[2] && bytes[3] == PROTOCOL_VERSION[3];
    }

    method CheckSeqConfirmedTimestamp(pdu: PduS) returns (ok: bool)
      requires Ready() && pdu.Covered()
      ensures ok == ConfirmedStampInSequence(View(), pdu.Value())
    {
      ok := Minus(pdu.confirmedTimestamp, ctsr) < tMax;
    }

    // ---------- what the handlers do in their branches ----------

    method Disconnect(pdu: PduS, reason: byte, env: Env)
      requires Ready() && pdu.Covered()
      modifies this, pdu, buffToSend
      ensures Ready() && pdu.Covered()
        && Trace() == Took(old(Trace()), Action.Disconnect(reason), old(pdu.Value()), env)
    {
      hide Frame, Seal;
      CloseConnection(pdu);
      DiscReq(pdu, reason, env.t0);
      Transmit(pdu);
    }

    method Drop(pdu: PduS, env: Env)
      requires Ready() && pdu.Covered()
      modifies this, pdu, buffToSend
      ensures Ready() && pdu.Covered() && Trace() == Took(old(Trace()), Action.Drop, old(pdu.Value()), env)
      ensures state == Closed && wire == old(wire)
    {
      hide Frame, Seal;
      CloseConnection(pdu);
    }

    method Listen(pdu: PduS, env: Env)
      requires Ready() && pdu.Covered()
      modifies this, pdu, buffToSend
      ensures Ready() && pdu.Covered() && Trace() == Took(old(Trace()), Action.Listen, old(pdu.Value()), env)
    {
      hide Frame, Seal;
      snt := env.draw;
      state := Down;
    }

    method Call(pdu: PduS, env: Env)
      requires Ready() && pdu.Covered()
      modifies this, pdu, buffToSend
      ensures Ready() && pdu.Covered() && Trace() == Took(old(Trace()), Action.Call, old(pdu.Value()), env)
    {
      hide Frame, Seal;
      snt := env.draw;
      cst := 0;
      ctsr := env.t0;
      state := Start;
      ConnReq(pdu, env.t1);
      Transmit(pdu);
    }

    method Answer(pdu: PduS, env: Env)
      requires Ready() && pdu.Covered()
      modifies this, pdu, buffToSend
      ensures Ready() && pdu.Covered() && Trace() == Took(old(Trace()), Action.Answer, old(pdu.Value()), env)
    {
      hide Frame, Seal;
      ProcessRegularReceipt(pdu);
      csr := Minus(snt, 1);
      ctsr := env.t0;
      state := Start;
      Supervise(env.t1);
      ConnResp(pdu, env.t2);
      Transmit(pdu);
    }

    method Establish(pdu: PduS, env: Env)
      requires Ready() && pdu.Covered()
      modifies this, pdu, buffToSend
      ensures Ready() && pdu.Covered() && Trace() == Took(old(Trace()), Action.Establish, old(pdu.Value()), env)
    {
      hide Frame, Seal;
      ProcessRegularReceipt(pdu);
      state := Up;
      Supervise(env.t0);
      Heartbeat(pdu, env.t1);
      Transmit(pdu);
    }

    method Accept(pdu: PduS, next: State, env: Env)
      requires Ready() && pdu.Covered()
      modifies this, pdu, buffToSend
      ensures Ready() && pdu.Covered() && Trace() == Took(old(Trace()), Action.Accept(next), old(pdu.Value()), env)
    {
      hide Frame, Seal;
      ProcessRegularReceipt(pdu);
      state := next;
      Supervise(env.t0);
    }

    method NoteConfirmed(pdu: PduS, env: Env)
      requires Ready() && pdu.Covered()
      modifies this, pdu, buffToSend
      ensures Ready() && pdu.Covered() && Trace() == Took(old(Trace()), Action.NoteConfirmed, old(pdu.Value()), env)
    {
      hide Frame, Seal;
      csr := pdu.confirmedSequenceNumber;
      state := State.RetrReq;
    }

    method AskRetransmission(pdu: PduS, env: Env)
      requires Ready() && pdu.Covered()
      modifies this, pdu, buffToSend
      ensures Ready() && pdu.Covered() && Trace() == Took(old(Trace()), Action.AskRetransmission, old(pdu.Value()), env)
    {
      hide Frame, Seal;
      state := State.RetrReq;
      RetrReq(pdu, env.t0);
      Transmit(pdu);
    }

    method EnterRun(pdu: PduS, env: Env)
      requires Ready() && pdu.Covered()
      modifies this, pdu, buffToSend
      ensures Ready() && pdu.Covered() && Trace() == Took(old(Trace()), Action.EnterRun, old(pdu.Value()), env)
    {
      hide Frame, Seal;
      state := State.RetrRun;
    }

    method Forward(pdu: PduS, env: Env)
      requires Ready() && pdu.Covered() && pdu.Sealed() && pdu.messageLength <= MAX_PDU_LENGTH
      modifies this, pdu, buffToSend
      ensures Ready() && pdu.Covered() && Trace() == Took(old(Trace()), Action.Forward, old(pdu.Value()), env)
    {
      hide Frame, Seal;
      Transmit(pdu);
    }

    method Beat(pdu: PduS, env: Env)
      requires Ready() && pdu.Covered()
      modifies this, pdu, buffToSend
      ensures Ready() && pdu.Covered() && Trace() == Took(old(Trace()), Action.Beat, old(pdu.Value()), env)
    {
      hide Frame, Seal;
      Heartbeat(pdu, env.t0);
      Transmit(pdu);
    }

    /** The time check that follows the sequence check. */
    method AcceptInTime(pdu: PduS, next: State, env: Env)
      requires Ready() && pdu.Covered()
      modifies this, pdu, buffToSend
      ensures Ready() && pdu.Covered()
      ensures var inTime := ConfirmedStampInSequence(old(View()), old(pdu.Value()));
              Trace() == Took(old(Trace()), if inTime then Action.Accept(next) else Action.Disconnect(SEQ_ERR),
                              old(pdu.Value()), env)
    {
      hide Frame, Seal, Took, ConfirmedStampInSequence;
      var inTime := CheckSeqConfirmedTimestamp(pdu);
      if inTime {
        Accept(pdu, next, env);
      } else {
        Disconnect(pdu, SEQ_ERR, env);
      }
    }

    method HandleClosed(event: Event, pdu: PduS, env: Env)
      requires Ready() && Deliverable(event, pdu) && state.Closed?
      modifies this, pdu, buffToSend
      ensures Ready() && pdu.Covered() && Trace() == ByState(old(Trace()), event, old(pdu.Value()), env)
      ensures event.ThElapsed? || event.TiElapsed? ==> pdu.Value() == old(pdu.Value())
    {
      hide Frame, Seal, Took, VersionMatches, ConfirmedStampInSequence;
      StayTakesNothing(Trace(), pdu.Value(), env);
      match event {
        case OpenConn =>
          if role.Server? {
            Listen(pdu, env);
          } else {
            Call(pdu, env);
          }
        case _ =>
      }
    }

    method HandleDown(event: Event, pdu: PduS, env: Env)
      requires Ready() && Deliverable(event, pdu) && state.Down?
      modifies this, pdu, buffToSend
      ensures Ready() && pdu.Covered() && Trace() == ByState(old(Trace()), event, old(pdu.Value()), env)
      ensures event.ThElapsed? || event.TiElapsed? ==> pdu.Value() == old(pdu.Value())
      ensures event.OpenConn? || event.CloseConn? || event.SendData? ==> state == Closed && wire == old(wire)
    {
      hide Frame, Seal, Took, VersionMatches, ConfirmedStampInSequence;
      StayTakesNothing(Trace(), pdu.Value(), env);
      match event {
        case OpenConn | CloseConn | SendData => Drop(pdu, env);
        case RecvConnReq =>
          var known := CheckVersion(pdu);
          if known {
            Answer(pdu, env);
          } else {
            Disconnect(pdu, PROTOCOL_VERSION_ERROR, env);
          }
        case _ =>
      }
    }

    method HandleStart(event: Event, pdu: PduS, env: Env)
      requires Ready() && Deliverable(event, pdu) && state.Start?
      modifies this, pdu, buffToSend
      ensures Ready() && pdu.Covered() && Trace() == ByState(old(Trace()), event, old(pdu.Value()), env)
      ensures event.ThElapsed? || event.TiElapsed? ==> pdu.Value() == old(pdu.Value())
    {
      hide Frame, Seal, Took, VersionMatches, ConfirmedStampInSequence;
      StayTakesNothing(Trace(), pdu.Value(), env);
      match event {
        case OpenConn | SendData => Disconnect(pdu, STATE_SERVICE_NOT_ALLOWED, env);
        case RecvConnReq | RecvRetrReq | RecvRetrResp | RecvData | RecvRetrData =>
          Disconnect(pdu, NOT_EXPECTED_RECV_MSG_TYPE, env);
        case CloseConn => Disconnect(pdu, USER_REQUEST, env);
        case RecvConnResp =>
          if role.Server? {
            Disconnect(pdu, NOT_EXPECTED_RECV_MSG_TYPE, env);
          } else {
            var known := CheckVersion(pdu);
            if known {
              Establish(pdu, env);
            } else {
              Disconnect(pdu, PROTOCOL_VERSION_ERROR, env);
            }
          }
        case RecvDiscReq => Drop(pdu, env);
        case RecvHb =>
          if role.Client? {
            Disconnect(pdu, NOT_EXPECTED_RECV_MSG_TYPE, env);
          } else if snr == pdu.sequenceNumber {
            AcceptInTime(pdu, Up, env);
          } else {
            Disconnect(pdu, SEQ_NBR_ERR_FOR_CONNECTION, env);
          }
        case _ =>
      }
    }

    method HandleUp(event: Event, pdu: PduS, env: Env)
      requires Ready() && Deliverable(event, pdu) && state.Up?
      modifies this, pdu, buffToSend
      ensures Ready() && pdu.Covered() && Trace() == ByState(old(Trace()), event, old(pdu.Value()), env)
      ensures event.ThElapsed? || event.TiElapsed? ==> pdu.Value() == old(pdu.Value())
    {
      hide Frame, Seal, Took, VersionMatches, ConfirmedStampInSequence;
      StayTakesNothing(Trace(), pdu.Value(), env);
      match event {
        case OpenConn => Disconnect(pdu, STATE_SERVICE_NOT_ALLOWED, env);
        case CloseConn => Disconnect(pdu, USER_REQUEST, env);
        case SendData => Forward(pdu, env);
        case RecvConnReq | RecvConnResp | RecvRetrResp | RecvRetrData =>
          Disconnect(pdu, NOT_EXPECTED_RECV_MSG_TYPE, env);
        case RecvDiscReq => Drop(pdu, env);
        case RecvRetrReq =>
          if snr == pdu.sequenceNumber {
            if env.available {
              Accept(pdu, Up, env);
            } else {
              Disconnect(pdu, FAIL_RETRANSMISSION, env);
            }
          } else {
            if env.available {
              NoteConfirmed(pdu, env);
            } else {
              Disconnect(pdu, FAIL_RETRANSMISSION, env);
            }
          }
        case RecvHb | RecvData =>
          if snr == pdu.sequenceNumber {
            AcceptInTime(pdu, Up, env);
          } else {
            AskRetransmission(pdu, env);
          }
        case _ =>
      }
    }

    method HandleRetrReq(event: Event, pdu: PduS, env: Env)
      requires Ready() && Deliverable(event, pdu) && state.RetrReq?
      modifies this, pdu, buffToSend
      ensures Ready() && pdu.Covered() && Trace() == ByState(old(Trace()), event, old(pdu.Value()), env)
      ensures event.ThElapsed? || event.TiElapsed? ==> pdu.Value() == old(pdu.Value())
    {
      hide Frame, Seal, Took, VersionMatches, ConfirmedStampInSequence;
      StayTakesNothing(Trace(), pdu.Value(), env);
      match event {
        case OpenConn => Disconnect(pdu, STATE_SERVICE_NOT_ALLOWED, env);
        case CloseConn => Disconnect(pdu, USER_REQUEST, env);
        case RecvConnReq | RecvConnResp => Disconnect(pdu, NOT_EXPECTED_RECV_MSG_TYPE, env);
        case RecvDiscReq => Drop(pdu, env);
        case RecvRetrReq =>
          if snr == pdu.sequenceNumber {
            if env.available {
              Accept(pdu, State.RetrReq, env);
            } else {
              Disconnect(pdu, FAIL_RETRANSMISSION, env);
            }
          } else {
            if env.available {
              NoteConfirmed(pdu, env);
            } else {
              Disconnect(pdu, FAIL_RETRANSMISSION, env);
            }
          }
        case SendData => Forward(pdu, env);
        case RecvRetrResp => EnterRun(pdu, env);
        case _ =>
      }
    }

    method HandleRetrRun(event: Event, pdu: PduS, env: Env)
      requires Ready() && Deliverable(event, pdu) && state.RetrRun?
      modifies this, pdu, buffToSend
      ensures Ready() && pdu.Covered() && Trace() == ByState(old(Trace()), event, old(pdu.Value()), env)
      ensures event.ThElapsed? || event.TiElapsed? ==> pdu.Value() == old(pdu.Value())
    {
      hide Frame, Seal, Took, VersionMatches, ConfirmedStampInSequence;
      StayTakesNothing(Trace(), pdu.Value(), env);
      match event {
        case OpenConn => Disconnect(pdu, STATE_SERVICE_NOT_ALLOWED, env);
        case CloseConn => Disconnect(pdu, USER_REQUEST, env);
        case SendData => Forward(pdu, env);
        case RecvConnReq | RecvConnResp | RecvRetrResp => Disconnect(pdu, NOT_EXPECTED_RECV_MSG_TYPE, env);
        case RecvDiscReq => Drop(pdu, env);
        case RecvRetrReq =>
          if snr == pdu.sequenceNumber {
            Disconnect(pdu, NOT_EXPECTED_RECV_MSG_TYPE, env);
          } else {
            if env.available {
              NoteConfirmed(pdu, env);
            } else {
              Disconnect(pdu, FAIL_RETRANSMISSION, env);
            }
          }
        case RecvHb | RecvData =>
          if snr == pdu.sequenceNumber {
            AcceptInTime(pdu, Up, env);
          } else {
            AskRetransmission(pdu, env);
          }
        case RecvRetrData =>
          if snr == pdu.sequenceNumber {
            AcceptInTime(pdu, State.RetrRun, env);
          } else {
            AskRetransmission(pdu, env);
          }
        case _ =>
      }
    }

    /** Sm_HandleEvent: the installed handler, then the timers, then the handler of the new state. */
    method HandleEvent(event: Event, pdu: PduS, env: Env)
      requires Valid() && Deliverable(event, pdu)
      modifies this, pdu, buffToSend
      ensures Valid() && pdu.Covered()
      ensures Trace() == Logged(old(Trace()), event, old(pdu.Value()), env)
    {
      hide Frame, Seal, Logged;
      match handler {
        case Closed => HandleClosed(event, pdu, env);
        case Down => HandleDown(event, pdu, env);
        case Start => HandleStart(event, pdu, env);
        case Up => HandleUp(event, pdu, env);
        case RetrReq => HandleRetrReq(event, pdu, env);
        case RetrRun => HandleRetrRun(event, pdu, env);
      }
      HandleTimers(event, pdu, env);
      handler := state;
    }

    /** What follows the handler for the two timer events. */
    method HandleTimers(event: Event, pdu: PduS, env: Env)
      requires Ready() && pdu.Covered()
      modifies this, pdu, buffToSend
      ensures Ready() && pdu.Covered()
      ensures Trace() == if event.ThElapsed? || event.TiElapsed? then Logged(old(Trace()), event, old(pdu.Value()), env)
                         else old(Trace())
    {
      hide Frame, Seal, Took;
      StayTakesNothing(Trace(), pdu.Value(), env);
      if event.ThElapsed? {
        match state {
          case Start | Up | RetrReq | RetrRun => Beat(pdu, env);
          case _ =>
        }
      } else if event.TiElapsed? {
        Disconnect(pdu, TIMEOUT_INCOMING_MSG, env);
      }
    }

    // ---------- user services ----------

    /** SafeCom_SendData_Impl: the data PDU takes its number before the state machine is asked. */
    method SendData(data: seq<byte>, stamp: Word, env: Env)
      requires Valid() && |data| <= 14
      modifies this, buffToSend
      ensures Valid()
      ensures Trace() == Logged(Log(Bump(old(View())), old(sent), old(accepted)), Event.SendData,
                                Seal(DataTel(old(View()), stamp, data)), env)
      ensures match old(state)
              case Closed => state == Closed && wire == old(wire)
              case Down => state == Closed && wire == old(wire)
              case Start => state == Closed && Goes(old(wire), wire, 40) && Reads(wire[|old(wire)|], 6216, [0, 0, 0, 5])
              case _ =>
                && state == old(state)
                && Goes(old(wire), wire, 36 + |data|) && Reads(wire[|old(wire)|], 6240, data)
    {
      hide Frame, SafetyCode, Logged;
      ghost var l, w := Trace(), wire;
      var pdu := new PduS();
      Data(pdu, data, stamp);
      HandleEvent(Event.SendData, pdu, env);
      UserSends(l.party, data, stamp, env);
      StepLogged(l, Sending(data, stamp, env));
      WireAfter(w, l.sent, wire, Transition(l.party, Sending(data, stamp, env)).out);
    }

    /** SafeCom_OpenConnection_Impl passes an all-zero PDU. */
    method OpenConnection(env: Env)
      requires Valid()
      modifies this, buffToSend
      ensures Valid() && Trace() == Logged(old(Trace()), OpenConn, ZERO_PDU, env)
      ensures match old(state)
              case Closed =>
                if role.Server? then state == Down && wire == old(wire)
                else state == Start && Goes(old(wire), wire, 50) && Reads(wire[|old(wire)|], 6200, GREETING)
              case Down => state == Closed && wire == old(wire)
              case _ => state == Closed && Goes(old(wire), wire, 40) && Reads(wire[|old(wire)|], 6216, [0, 0, 0, 5])
      ensures old(state) != Closed ==> cst == 0
    {
      hide Frame, Logged;
      ghost var l, w := Trace(), wire;
      var pdu := new PduS();
      HandleEvent(OpenConn, pdu, env);
      UserOpens(l.party, ZERO_PDU, env);
      StepLogged(l, Handling(OpenConn, ZERO_PDU, env));
      WireAfter(w, l.sent, wire, Transition(l.party, Handling(OpenConn, ZERO_PDU, env)).out);
    }

    /** SafeCom_CloseConnection_Impl passes an all-zero PDU. */
    method CloseUserConnection(env: Env)
      requires Valid()
      modifies this, buffToSend
      ensures Valid() && Trace() == Logged(old(Trace()), CloseConn, ZERO_PDU, env)
      ensures state == Closed && (old(state) != Closed ==> cst == 0)
      ensures if old(state).Closed? || old(state).Down? then wire == old(wire)
              else Goes(old(wire), wire, 40) && Reads(wire[|old(wire)|], 6216, [0, 0, 0, 0])
    {
      hide Frame, Logged;
      ghost var l, w := Trace(), wire;
      var pdu := new PduS();
      HandleEvent(CloseConn, pdu, env);
      UserCloses(l.party, ZERO_PDU, env);
      StepLogged(l, Handling(CloseConn, ZERO_PDU, env));
      WireAfter(w, l.sent, wire, Transition(l.party, Handling(CloseConn, ZERO_PDU, env)).out);
    }
  }

  /** What the handlers do: everything but the timer events. */
  function ByState(l: Log, e: Event, p: Pdu, env: Env): Log {
    if e.ThElapsed? || e.TiElapsed? then l else Logged(l, e, p, env)
  }

  lemma StayTakesNothing(l: Log, p: Pdu, env: Env)
    ensures Took(l, Stay, p, env) == l
  {
  }

  /** One more buffer on the wire, of this size. */
  predicate Goes(before: seq<seq<byte>>, after: seq<seq<byte>>, size: nat) {
    |after| == |before| + 1 && before <= after && |after[|before|]| == size
  }

  /** A buffer with a type in bytes 2 and 3 and a payload from byte 28 on, up to the 8 bytes of the code. */
  predicate Reads(f: seq<byte>, kind: nat, payload: seq<byte>) {
    && |f| == 36 + |payload|
    && f[2] as int == kind / 256 && f[3] as int == kind % 256
    && f[28..|f| - 8] == payload
  }

  lemma FrameReads(t: Telegram)
    ensures |Frame(t)| == 36 + |t.payload| && Reads(Frame(t), t.kind, t.payload)
  {
    FrameLaid(t);
    hide Frame, Md4Spec.Digest;
  }

  lemma StepLogged(l: Log, i: Input)
    requires Legal(i)
    ensures var o := Transition(l.party, i);
      var l1 := Logged(Log(Before(l.party, i), l.sent, l.accepted), EventOf(i), PduOf(l.party, i), i.env);
      && l1.party == o.party
      && l1.sent == l.sent + if o.out.Some? then [o.out.value] else []
  {
    hide Perform, Decide, Seal;
  }

  lemma WireAfter(wire: seq<seq<byte>>, sent: seq<Telegram>, after: seq<seq<byte>>, out: Option<Telegram>)
    requires |wire| == |sent| && forall i :: 0 <= i < |wire| ==> wire[i] == Frame(sent[i])
    requires var sent1 := sent + if out.Some? then [out.value] else [];
             |after| == |sent1| && forall i :: 0 <= i < |after| ==> after[i] == Frame(sent1[i])
    ensures out.None? ==> after == wire
    ensures out.Some? ==> Goes(wire, after, 36 + |out.value.payload|) &&
                          Reads(after[|wire|], out.value.kind, out.value.payload)
  {
    hide Frame, Reads;
    if out.Some? {
      FrameReads(out.value);
    }
  }
}
