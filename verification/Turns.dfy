/**
 What a move of the client or the server of FifoRuns comes to, as effects on the party, its channels and
 its numbers and timestamps.
 */
module Turns {
  import opened Words
  import opened Pdu
  import opened Protocol
  import opened PartyRuns
  import opened FifoRuns

  // ---------- the steps of a party outside the retransmission states ----------

  predicate Payloaded(t: Telegram) { t.kind == HEARTBEAT || t.kind == DATA }

  /** The disconnection for a confirmed timestamp out of sequence. */
  predicate BlamesStamp(t: Telegram) {
    IsDisc(t) && t.payload == [0, 0, 0, SEQ_ERR]
  }

  predicate Shuts(s: Party, o: Outcome) {
    o.party.state.Closed? && !o.took && o.party.ctsr == s.ctsr && (o.out.Some? ==> IsDisc(o.out.value))
  }

  predicate Unlocks(s: Party, o: Outcome) {
    && s.state.Closed? && !o.took
    && if s.role.Server? then
         o.party.state.Down? && o.out.None? && o.party.ctsr == s.ctsr
       else
         && o.party.state.Start? && o.out.Some?
         && o.out.value.kind == CONNECTION_REQUEST && o.out.value.seqNum == o.party.snt
  }

  predicate Rests(s: Party, o: Outcome) {
    o.party == s && !o.took && o.out.None? && !Live(s)
  }

  predicate Speaks(s: Party, o: Outcome) {
    && Live(s) && !o.took && o.party == Bump(s) && o.out.Some? && Payloaded(o.out.value)
    && o.out.value.seqNum == o.party.snt && o.out.value.confSeq == s.cst && o.out.value.confStamp == s.ctsr
  }

  predicate Accepts(s: Party, t: Telegram, o: Outcome) {
    && Listening(s) && o.took && o.out.None? && o.party.state.Up? && Payloaded(t)
    && t.seqNum == s.snr && o.party.cst == t.seqNum && o.party.csr == t.confSeq && o.party.ctsr == t.confStamp
    && o.party.snt == s.snt
  }

  predicate Establishes(s: Party, t: Telegram, o: Outcome) {
    && s.role.Client? && s.state.Start? && o.took && o.party.state.Up? && t.kind == CONNECTION_RESPONSE
    && o.party.cst == t.seqNum && o.party.csr == t.confSeq && o.party.ctsr == t.confStamp
    && o.party.snt == Plus(s.snt, 1)
    && o.out.Some? && o.out.value.kind == HEARTBEAT && o.out.value.seqNum == o.party.snt
    && o.out.value.confSeq == t.seqNum && o.out.value.confStamp == t.confStamp
  }

  predicate Answers(s: Party, t: Telegram, o: Outcome) {
    && s.state.Down? && o.took && o.party.state.Start? && t.kind == CONNECTION_REQUEST
    && o.party.cst == t.seqNum && o.party.snt == s.snt
    && o.out.Some? && o.out.value.kind == CONNECTION_RESPONSE && o.out.value.seqNum == s.snt
    && o.out.value.confSeq == t.seqNum && o.out.value.confStamp == o.party.ctsr
  }

  /** Every step is one of these, and its outcome keeps the role. */
  predicate StepEffect(s: Party, t: Telegram, o: Outcome) {
    o.party.role == s.role &&
    (Shuts(s, o) || Unlocks(s, o) || Rests(s, o) || Speaks(s, o) ||
     Accepts(s, t, o) || Establishes(s, t, o) || Answers(s, t, o))
  }

  lemma OwnStep(s: Party, i: Input)
    requires Tame(s) && Own(i)
    ensures var o := Transition(s, i);
            && StepEffect(s, PduOf(s, i).tel, o) && !o.took
            && (Speaks(s, o) && s.state.Start? ==> EventOf(i).ThElapsed?)
            && (Unlocks(s, o) && s.role.Client? ==> o.party.ctsr == i.env.t0)
            && (o.out.Some? ==> !BlamesStamp(o.out.value))
  {
    hide Plus, Minus, Signed, SafetyCode;
  }

  /** A PDU taken from the channel, by what the decision was. */
  lemma TakenAction(r: Party, t: Telegram, a: Action, env: Env)
    requires a.Stay? ==> !Live(r)
    requires a.Stay? || a.Answer? || a.Establish? || a.Disconnect? || a.Drop? || (a.Accept? && a.next.Up?)
    requires a.Accept? ==> Listening(r) && Payloaded(t) && t.seqNum == r.snr
    requires a.Answer? ==> r.state.Down? && t.kind == CONNECTION_REQUEST
    requires a.Establish? ==> r.state.Start? && r.role.Client? && t.kind == CONNECTION_RESPONSE
    ensures var o := Perform(r, a, Seal(t), env);
            && StepEffect(r, t, o) && !Speaks(r, o) && !Unlocks(r, o)
            && (Live(r) && (a.Stay? || a.Drop?) ==> Shuts(r, o))
            && (r.state.Down? && o.party.state.Start? ==> o.party.ctsr == env.t0)
            && (o.out.Some? && BlamesStamp(o.out.value) ==> a == Disconnect(SEQ_ERR))
  {
    hide Plus, Minus, Signed, SafetyCode;
  }

  lemma TakenStep(r: Party, t: Telegram, env: Env)
    requires Tame(r) && WaitsAsServer(r) && Ordinary(t) && (Listening(r) && !Ends(t) ==> t.seqNum == r.snr)
    ensures ReceiveEvent(t.kind).Some?
    ensures var o := Transition(r, Handling(ReceiveEvent(t.kind).value, Seal(t), env));
            && StepEffect(r, t, o) && !Speaks(r, o) && !Unlocks(r, o)
            && (IsDisc(t) && Live(r) ==> Shuts(r, o))
            && (r.state.Down? && o.party.state.Start? ==> o.party.ctsr == env.t0)
            && (o.out.Some? && BlamesStamp(o.out.value) ==>
                  Listening(r) && Payloaded(t) && Minus(t.confStamp, r.ctsr) >= T_MAX)
  {
    var e := ReceiveEvent(t.kind).value;
    PlainGuards(r, e, Seal(t), env.available);
    Guards(r, e, Seal(t), env.available);
    TakenAction(r, t, Decide(r, e, Seal(t), env.available), env);
    hide Minus, SafetyCode, VersionMatches, Decide, Perform, StepEffect, Speaks, Shuts, BlamesStamp;
  }

  // ---------- moves ----------

  /** What a move of a party with incoming channel q comes to: o is its outcome, t the telegram it took
      unless it acted on its own. */
  ghost predicate Turn(s: Party, q: seq<Telegram>, own: bool, t: Telegram, o: Outcome) {
    && StepEffect(s, t, o)
    && if own then !o.took
       else q != [] && t == q[0] && !Speaks(s, o) && !Unlocks(s, o) && (IsDisc(t) && Live(s) ==> Shuts(s, o))
  }

  function Left(q: seq<Telegram>, own: bool): seq<Telegram> {
    if own || q == [] then q else q[1..]
  }

  function Played(n: Net, role: Role, own: bool, o: Outcome): Net {
    if role.Client? then
      Net(o.party, n.server, n.toServer + Sent(o.out), Left(n.toClient, own), n.sent + Sent(o.out))
    else
      Net(n.client, o.party, Left(n.toServer, own), n.toClient + Sent(o.out), n.sent + Sent(o.out))
  }

  /** The client calls, and the clock reading it notes. */
  predicate Calls(n: Net, m: Move) {
    m.role.Client? && Opens(n.client, Next(n, m).client)
  }

  /** The server answers a request. */
  predicate Replies(n: Net, m: Move) {
    m.role.Server? && n.server.state.Down? && Next(n, m).server.state.Start?
  }

  /** The client's heartbeat timer fires while it waits for the response. */
  predicate BeatsEarly(n: Net, m: Move) {
    m.Acts? && m.role.Client? && n.client.state.Start? && EventOf(m.input).ThElapsed?
  }

  /** The first clock reading of a move, which is the one a call and an answer note. */
  function Reading(m: Move): Word {
    if m.Acts? then m.input.env.t0 else m.env.t0
  }

  predicate FixedRoles(n: Net) {
    n.client.role.Client? && n.server.role.Server?
  }

  /** A move on an empty channel changes nothing; any other is a turn. */
  lemma MoveIsTurn(n: Net, m: Move) returns (own: bool, t: Telegram, o: Outcome)
    requires Orderly(n) && FixedRoles(n) && Fair(m)
    ensures var me := Me(n, m.role);
            if m.Takes? && Incoming(n, m.role) == [] then Next(n, m) == n
            else
              && Turn(me, Incoming(n, m.role), own, t, o) && own == m.Acts?
              && Next(n, m) == Played(n, m.role, own, o) && Me(Next(n, m), m.role) == o.party
              && (Speaks(me, o) && me.state.Start? && m.role.Client? ==> BeatsEarly(n, m))
              && (Calls(n, m) || Replies(n, m) ==> o.party.ctsr == Reading(m))
              && (o.out.Some? && BlamesStamp(o.out.value) ==>
                    !own && Listening(me) && Payloaded(t) && Minus(t.confStamp, me.ctsr) >= T_MAX)
  {
    var me, q := Me(n, m.role), Incoming(n, m.role);
    own, o := m.Acts?, Effect(me, InputOf(n, m));
    hide Transition, Direction, Shuts, Rests, Speaks, Accepts, Establishes, Answers, Listening, Payloaded,
      BlamesStamp, SafetyCode, Minus;
    if m.Acts? {
      t := PduOf(me, m.input).tel;
      OwnStep(me, m.input);
      EffectOpens(me, t, o);
    } else if q == [] {
      t := ZERO_PDU.tel;
      assert n.toServer + [] == n.toServer && n.toClient + [] == n.toClient && n.sent + [] == n.sent;
    } else {
      t := q[0];
      HeadFits(Me(n, if m.role.Client? then Server else Client), q, me);
      TakenStep(me, t, m.env);
      EffectOpens(me, t, o);
    }
  }

  /** Parties open by unlocking, and answer by taking the request. */
  lemma EffectOpens(s: Party, t: Telegram, o: Outcome)
    requires StepEffect(s, t, o)
    ensures Opens(s, o.party) <==> Unlocks(s, o)
    ensures s.state.Down? && o.party.state.Start? ==> o.took
  {
  }
}
