/**
 The state machine class at work: driven by any inputs of one party, and as a client and a server that
 exchange the bytes they put on the wire. What was proved of the runs on values holds of these objects.
 */
module SmRuns {
  import opened Words
  import Md4Spec
  import opened Pdu
  import opened PduStruct
  import opened Protocol
  import opened PartyRuns
  import opened FifoRuns
  import opened Sm
  import LossyRuns

  /** A user's data fits the scratch buffer of the safety code, and a PDU has a safety code unless it is
      the empty one that comes with a user call or a timer. */
  predicate Wellformed(i: Input) {
    match i
    case Sending(data, _, _) => |data| <= 14
    case Handling(e, p, _) => |p.code| == SAFETY_CODE_LENGTH || (Local(e) && p.code == [])
  }

  /** The structure for a PDU, its pointers set as deserialisation sets them. */
  method Load(p: Pdu) returns (pdu: PduS)
    requires |p.code| == SAFETY_CODE_LENGTH || p.code == []
    ensures fresh(pdu) && pdu.Covered() && pdu.Value() == p && pdu.payload == Some(p.tel.payload + p.code)
  {
    pdu := new PduS();
    pdu.messageLength := FIXED_FIELDS_LENGTH + |p.tel.payload|;
    pdu.messageType := p.tel.kind;
    pdu.receiverId, pdu.senderId := p.tel.receiver, p.tel.sender;
    pdu.sequenceNumber, pdu.confirmedSequenceNumber := p.tel.seqNum, p.tel.confSeq;
    pdu.timestamp, pdu.confirmedTimestamp := p.tel.stamp, p.tel.confStamp;
    pdu.payload := Some(p.tel.payload + p.code);
    pdu.safetyCode := if p.code == [] then None else Some(p.code);
    assert pdu.payload.value[..|p.tel.payload|] == p.tel.payload;
  }

  /** What one input adds to the log of a party. */
  function Fed(l: Log, i: Input): Log {
    var o := Transition(l.party, i);
    Log(o.party, l.sent + Sent(o.out), l.accepted + if o.took then [PduOf(l.party, i).tel] else [])
  }

  /** One input given to the state machine. */
  method Feed(sm: SmType, i: Input)
    requires sm.Valid() && Legal(i) && Wellformed(i)
    modifies sm, sm.buffToSend
    ensures sm.Valid() && sm.Trace() == Fed(old(sm.Trace()), i)
  {
    hide Frame, Seal, Perform, Decide;
    match i {
      case Sending(data, stamp, env) =>
        sm.SendData(data, stamp, env);
      case Handling(e, p, env) =>
        var pdu := Load(p);
        sm.HandleEvent(e, pdu, env);
    }
  }

  /** The log of a party after all inputs. */
  function LogAfter(role: Role, inputs: seq<Input>): Log
    decreases |inputs|
  {
    if inputs == [] then Log(Initial(role), [], [])
    else Fed(LogAfter(role, inputs[..|inputs| - 1]), inputs[|inputs| - 1])
  }

  /** Everything the steps of a run sent, one after another. */
  function SentIn(hs: seq<History>, inputs: seq<Input>): seq<Telegram>
    requires |inputs| <= |hs|
    decreases |inputs|
  {
    if inputs == [] then []
    else
      var k := |inputs| - 1;
      SentIn(hs, inputs[..k]) + Sent(Transition(hs[k].party, inputs[k]).out)
  }

  /** Everything they regularly received. */
  function TakenIn(hs: seq<History>, inputs: seq<Input>): seq<Telegram>
    requires |inputs| <= |hs|
    decreases |inputs|
  {
    if inputs == [] then []
    else
      var k := |inputs| - 1;
      TakenIn(hs, inputs[..k]) +
      if Transition(hs[k].party, inputs[k]).took then [PduOf(hs[k].party, inputs[k]).tel] else []
  }

  predicate EndsWith(all: seq<Telegram>, last: seq<Telegram>) {
    |last| <= |all| && all[|all| - |last|..] == last
  }

  /** The log holds exactly what the steps of the run sent and received; its ends are what the history keeps
      of the present connection. */
  lemma {:induction false} LogIsHistory(role: Role, hs: seq<History>, inputs: seq<Input>, k: nat)
    requires IsHistory(role, hs, inputs) && k <= |inputs|
    ensures var l := LogAfter(role, inputs[..k]);
            && l.party == hs[k].party && l.sent == SentIn(hs, inputs[..k]) && l.accepted == TakenIn(hs, inputs[..k])
            && EndsWith(l.sent, hs[k].numbers.sent)
            && EndsWith(l.accepted, LossyRuns.Telegrams(hs[k].receipts.accepted))
  {
    hide Transition, Accounted, PduOf;
    if k > 0 {
      var before := inputs[..k - 1];
      LogIsHistory(role, hs, inputs, k - 1);
      assert Records(hs, inputs, k - 1);
      assert inputs[..k][..k - 1] == before && inputs[..k][k - 1] == inputs[k - 1];
      LogStep(LogAfter(role, before), hs[k - 1], inputs[k - 1]);
    }
  }

  lemma LogStep(l: Log, h: History, i: Input)
    requires l.party == h.party && EndsWith(l.sent, h.numbers.sent)
      && EndsWith(l.accepted, LossyRuns.Telegrams(h.receipts.accepted))
    ensures var l1, h1 := Fed(l, i), Advance(h, i);
            && l1.party == h1.party && EndsWith(l1.sent, h1.numbers.sent)
            && EndsWith(l1.accepted, LossyRuns.Telegrams(h1.receipts.accepted))
  {
    hide Transition, Accounted;
    var o := Transition(h.party, i);
    var h1 := Advance(h, i);
    if Opens(h.party, o.party) {
      assert h1.numbers.sent == Sent(o.out) && h1.receipts.accepted == [];
      EndAppends(l.sent, [], Sent(o.out));
      EndAppends(l.accepted, [], []);
      assert Fed(l, i).accepted[|Fed(l, i).accepted|..] == [];
    } else {
      var took := if o.took then [PduOf(h.party, i)] else [];
      assert h1.numbers.sent == h.numbers.sent + Sent(o.out);
      assert h1.receipts.accepted == h.receipts.accepted + took;
      assert LossyRuns.Telegrams(h1.receipts.accepted) ==
        LossyRuns.Telegrams(h.receipts.accepted) + LossyRuns.Telegrams(took);
      assert LossyRuns.Telegrams(took) == if o.took then [PduOf(h.party, i).tel] else [];
      EndAppends(l.sent, h.numbers.sent, Sent(o.out));
      EndAppends(l.accepted, LossyRuns.Telegrams(h.receipts.accepted), LossyRuns.Telegrams(took));
    }
  }

  lemma EndAppends(all: seq<Telegram>, last: seq<Telegram>, more: seq<Telegram>)
    requires EndsWith(all, last)
    ensures EndsWith(all + more, last + more)
  {
    var n := |all| - |last|;
    assert (all + more)[n..] == all[n..] + more;
  }

  /** A buffer on the wire declares its own size, is read back as the telegram it was built from, and ends
      in the first half of the MD4 digest of all the bytes before. */
  ghost predicate Genuine(buffer: seq<byte>, t: Telegram) {
    && Decode(buffer) == Complete(Seal(t))
    && |buffer| == FIXED_FIELDS_LENGTH + |t.payload|
    && HalfAt(buffer, 0) == |buffer|
    && buffer[|buffer| - SAFETY_CODE_LENGTH..] ==
       Md4Spec.Digest(buffer[..|buffer| - SAFETY_CODE_LENGTH])[..SAFETY_CODE_LENGTH]
  }

  lemma FramesAreGenuine(wire: seq<seq<byte>>, sent: seq<Telegram>)
    requires |wire| == |sent| && forall k :: 0 <= k < |wire| ==> wire[k] == Frame(sent[k])
    ensures forall k :: 0 <= k < |wire| ==> Genuine(wire[k], sent[k])
  {
    hide Frame, SafetyCode, Decode, Md4Spec.Digest;
    forall k | 0 <= k < |wire| ensures Genuine(wire[k], sent[k]) {
      FrameIsSealed(sent[k]);
    }
  }

  /** Any inputs of one party, against any peer: the object ends where the run on values ends, has sent and
      received exactly what the run's steps did, and every buffer it put on the wire is the genuine frame of
      what was sent. */
  method Drive(role: Role, inputs: seq<Input>) returns (sm: SmType, ghost hs: seq<History>)
    requires forall k :: 0 <= k < |inputs| ==> Legal(inputs[k]) && Wellformed(inputs[k])
    ensures IsHistory(role, hs, inputs)
    ensures sm.Valid() && sm.Trace() == LogAfter(role, inputs) && sm.View() == hs[|inputs|].party
    ensures sm.sent == SentIn(hs, inputs) && sm.accepted == TakenIn(hs, inputs)
    ensures EndsWith(sm.sent, hs[|inputs|].numbers.sent)
    ensures |sm.wire| == |sm.sent| && forall k :: 0 <= k < |sm.wire| ==> Genuine(sm.wire[k], sm.sent[k])
  {
    hide Frame, Genuine, Legal, Fed, SentIn, TakenIn, EndsWith, Advance;
    sm := new SmType(role);
    hs := [NewHistory(role)];
    for i := 0 to |inputs|
      invariant sm.Valid() && fresh(sm) && fresh(sm.buffToSend)
      invariant IsHistory(role, hs, inputs[..i]) && sm.Trace() == LogAfter(role, inputs[..i])
    {
      Feed(sm, inputs[i]);
      HistoryGoesOn(role, hs, inputs[..i], inputs[i]);
      assert inputs[..i] + [inputs[i]] == inputs[..i + 1] && inputs[..i + 1][..i] == inputs[..i];
      hs := hs + [Advance(hs[i], inputs[i])];
    }
    assert inputs[..|inputs|] == inputs;
    LogIsHistory(role, hs, inputs, |inputs|);
    FramesAreGenuine(sm.wire, sm.sent);
  }

  lemma HistoryGoesOn(role: Role, hs: seq<History>, inputs: seq<Input>, i: Input)
    requires IsHistory(role, hs, inputs) && Legal(i)
    ensures IsHistory(role, hs + [Advance(hs[|inputs|], i)], inputs + [i])
  {
    hide Advance, Legal;
    forall k | 0 <= k < |inputs| ensures Records(hs + [Advance(hs[|inputs|], i)], inputs + [i], k) {
      assert Records(hs, inputs, k);
    }
  }

  // ---------- two objects and the bytes between them ----------

  /** The bytes in a channel are the frames of the telegrams in it. */
  ghost predicate Carries(buffers: seq<seq<byte>>, q: seq<Telegram>) {
    |buffers| == |q| && forall k :: 0 <= k < |q| ==> buffers[k] == Frame(q[k])
  }

  /** What the receive callback finds in a buffer: nothing below 36 bytes, the fixed fields alone when the
      length field asks for more than there is, with the four bytes behind them when it asks for less than
      any PDU, and otherwise a PDU. */
  function Seen(buffer: seq<byte>): Option<Pdu> {
    match Decode(buffer)
    case TooShort => None
    case Truncated => Some(Pdu(Fields(buffer, []), []))
    case Undersized => Some(Pdu(Fields(buffer, buffer[28..32]), []))
    case Complete(p) => Some(p)
  }

  /** The receive callback on any bytes, sent by the peer or not: the buffer is read into a structure and
      handled by its type. Left out is only a cut off handshake PDU where its version would be looked at, at
      a payload pointer that is NULL. */
  method Receive(sm: SmType, buffer: seq<byte>, env: Env)
    requires sm.Valid()
    requires Decode(buffer).Truncated? ==>
               var e := ReceiveEvent(HalfAt(buffer, 2)); e.None? || !sm.ChecksVersion(e.value)
    modifies sm, sm.buffToSend
    ensures sm.Valid()
    ensures var p := Seen(buffer);
            sm.Trace() == if p.None? || ReceiveEvent(p.value.tel.kind).None? then old(sm.Trace())
                          else Fed(old(sm.Trace()), Handling(ReceiveEvent(p.value.tel.kind).value, p.value, env))
  {
    hide Perform, Decide, WordAt, HalfAt, VersionMatches;
    var pdu := new PduS();
    Payloads(buffer);
    FieldsAndPayload(buffer);
    DeserializePdu(buffer, pdu);
    var event := ReceiveEvent(pdu.messageType);
    if event.Some? {
      sm.HandleEvent(event.value, pdu, env);
    }
  }

  lemma FieldsAndPayload(buffer: seq<byte>)
    ensures Decode(buffer).Undersized? ==>
              && 36 <= |buffer| && buffer[28..][..4] == buffer[28..32]
              && Fields(buffer, []).(payload := buffer[28..32]) == Fields(buffer, buffer[28..32])
  {
    hide HalfAt, WordAt;
  }

  /** Where a PDU is complete, payload and safety code lie one behind the other. */
  lemma Payloads(buffer: seq<byte>)
    ensures Decode(buffer).Complete? ==>
              var p := Decode(buffer).pdu;
              |p.code| == SAFETY_CODE_LENGTH && p.tel.payload + p.code <= buffer[28..]
  {
    hide HalfAt, WordAt, Encode;
    if Decode(buffer).Complete? {
      EncodeDecode(buffer);
      var p := Decode(buffer).pdu;
      var length := HalfAt(buffer, 0);
      assert p.tel.payload + p.code == buffer[28..length];
      assert buffer[28..][..length - 28] == buffer[28..length];
    }
  }

  /** The frame of a telegram acts as that telegram, sealed. */
  method ReceiveFrame(sm: SmType, buffer: seq<byte>, env: Env, ghost t: Telegram)
    requires sm.Valid() && buffer == Frame(t)
    modifies sm, sm.buffToSend
    ensures sm.Valid()
    ensures var e := ReceiveEvent(t.kind);
            sm.Trace() == if e.None? then old(sm.Trace()) else Fed(old(sm.Trace()), Handling(e.value, Seal(t), env))
  {
    FrameIsSealed(t);
    hide Frame, Seal, Decode, Fed;
    SealKeeps(t);
    Receive(sm, buffer, env);
  }

  lemma SealKeeps(t: Telegram)
    ensures Seal(t).tel == t
  {
  }

  /** What was appended to the wire in one input. */
  lemma WireGrows(before: seq<seq<byte>>, sentBefore: seq<Telegram>,
      after: seq<seq<byte>>, sentAfter: seq<Telegram>, out: seq<Telegram>)
    requires Carries(before, sentBefore) && Carries(after, sentAfter) && sentAfter == sentBefore + out
    ensures Carries(after[|before|..], out)
  {
    hide Frame;
  }

  /** One move of one party: it acts, or takes the next buffer from its channel. */
  method Play(sm: SmType, incoming: seq<seq<byte>>, m: Move, ghost n: Net)
    returns (rest: seq<seq<byte>>, out: seq<seq<byte>>)
    requires sm.Valid() && sm.View() == Me(n, m.role) && Carries(incoming, Incoming(n, m.role))
    requires Fair(m) && (m.Acts? ==> Wellformed(m.input))
    modifies sm, sm.buffToSend
    ensures sm.Valid()
    ensures var o := Effect(Me(n, m.role), InputOf(n, m));
            && sm.View() == o.party && sm.sent == old(sm.sent) + Sent(o.out)
            && Carries(rest, Rest(n, m)) && Carries(out, Sent(o.out))
  {
    hide Frame, Transition, Seal;
    var k := |sm.wire|;
    ghost var wire, sent := sm.wire, sm.sent;
    rest := incoming;
    if m.Acts? {
      Feed(sm, m.input);
    } else if incoming != [] {
      ReceiveFrame(sm, incoming[0], m.env, Incoming(n, m.role)[0]);
      rest := incoming[1..];
    }
    out := sm.wire[k..];
    WireGrows(wire, sent, sm.wire, sm.sent, Sent(Effect(Me(n, m.role), InputOf(n, m)).out));
  }

  lemma NothingSent()
    ensures SentBy(Client, [NOTHING], []) == SentBy(Server, [NOTHING], []) == []
  {
  }

  lemma WireCarries(sm: SmType)
    requires sm.Valid()
    ensures Carries(sm.wire, sm.sent)
  {
  }

  lemma NothingCarried()
    ensures Carries([], [])
  {
  }

  lemma MoreCarried(buffers: seq<seq<byte>>, q: seq<Telegram>, more: seq<seq<byte>>, out: seq<Telegram>)
    requires Carries(buffers, q) && Carries(more, out)
    ensures Carries(buffers + more, q + out)
  {
    hide Frame;
  }

  lemma RunGoesOn(nets: seq<Net>, moves: seq<Move>, m: Move)
    requires IsRun(nets, moves) && Fair(m)
    ensures IsRun(nets + [Next(nets[|moves|], m)], moves + [m])
  {
    hide Next, Fair;
    forall k | 0 <= k < |moves| ensures Leads(nets + [Next(nets[|moves|], m)], moves + [m], k) {
      assert Leads(nets, moves, k);
    }
  }

  /** Everything one of the two parties sent in a run. */
  function SentBy(role: Role, nets: seq<Net>, moves: seq<Move>): seq<Telegram>
    requires |moves| <= |nets|
    decreases |moves|
  {
    if moves == [] then []
    else
      var k := |moves| - 1;
      SentBy(role, nets, moves[..k]) +
      if moves[k].role == role then Sent(Effect(Me(nets[k], role), InputOf(nets[k], moves[k])).out) else []
  }

  lemma {:induction false} SentByPrefix(role: Role, nets: seq<Net>, more: seq<Net>, moves: seq<Move>)
    requires |moves| <= |nets|
    ensures SentBy(role, nets + more, moves) == SentBy(role, nets, moves)
    decreases |moves|
  {
    hide Effect, InputOf;
    if moves != [] {
      SentByPrefix(role, nets, more, moves[..|moves| - 1]);
    }
  }

  lemma SentByNext(role: Role, nets: seq<Net>, moves: seq<Move>, m: Move, n: Net)
    requires |nets| == |moves| + 1
    ensures SentBy(role, nets + [n], moves + [m]) ==
            SentBy(role, nets, moves) +
            if m.role == role then Sent(Effect(Me(nets[|moves|], role), InputOf(nets[|moves|], m)).out) else []
  {
    hide Effect, InputOf;
    SentByPrefix(role, nets, [n], moves);
    assert (moves + [m])[..|moves|] == moves;
  }

  /** A client and a server object exchanging bytes follow the two parties on values move by move. So
      they never see a gap. */
  method Exchange(moves: seq<Move>)
    returns (client: SmType, server: SmType, toServer: seq<seq<byte>>, toClient: seq<seq<byte>>, ghost nets: seq<Net>)
    requires forall k :: 0 <= k < |moves| ==> Fair(moves[k]) && (moves[k].Acts? ==> Wellformed(moves[k].input))
    ensures client.Valid() && server.Valid()
    ensures IsRun(nets, moves)
    ensures var n := nets[|moves|];
            && client.View() == n.client && server.View() == n.server
            && Carries(toServer, n.toServer) && Carries(toClient, n.toClient)
    ensures Carries(client.wire, SentBy(Client, nets, moves)) && Carries(server.wire, SentBy(Server, nets, moves))
    ensures !client.state.RetrReq? && !client.state.RetrRun? && !server.state.RetrReq? && !server.state.RetrRun?
  {
    hide Frame, Effect, InputOf, Rest, Carries, SentBy;
    NothingCarried();
    NothingSent();
    client := new SmType(Client);
    server := new SmType(Server);
    toServer, toClient := [], [];
    ghost var n := NOTHING;
    nets := [n];
    for i := 0 to |moves|
      invariant client.Valid() && server.Valid() && client != server && client.buffToSend != server.buffToSend
      invariant fresh(client) && fresh(server) && fresh(client.buffToSend) && fresh(server.buffToSend)
      invariant client.View() == n.client && server.View() == n.server
      invariant Carries(toServer, n.toServer) && Carries(toClient, n.toClient)
      invariant IsRun(nets, moves[..i]) && nets[i] == n
      invariant client.sent == SentBy(Client, nets, moves[..i]) && server.sent == SentBy(Server, nets, moves[..i])
    {
      var m := moves[i];
      if m.role.Client? {
        var rest, out := Play(client, toClient, m, n);
        MoreCarried(toServer, n.toServer, out, Sent(Effect(n.client, InputOf(n, m)).out));
        toServer, toClient := toServer + out, rest;
      } else {
        var rest, out := Play(server, toServer, m, n);
        MoreCarried(toClient, n.toClient, out, Sent(Effect(n.server, InputOf(n, m)).out));
        toServer, toClient := rest, toClient + out;
      }
      RunGoesOn(nets, moves[..i], m);
      SentByNext(Client, nets, moves[..i], m, Next(n, m));
      SentByNext(Server, nets, moves[..i], m, Next(n, m));
      assert moves[..i] + [m] == moves[..i + 1];
      n := Next(n, m);
      nets := nets + [n];
    }
    assert moves[..|moves|] == moves;
    WireCarries(client);
    WireCarries(server);
    NeverOutOfSequence(nets, moves, |moves|);
  }
}
