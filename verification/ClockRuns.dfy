/**
 When confirmed timestamps get a connection disconnected: the client and server of FifoRuns, under every
 interleaving and any number of openings, by the clock readings taken at calls and answers.
 */
module ClockRuns {
  import opened Words
  import opened Pdu
  import opened Protocol
  import opened PartyRuns
  import opened FifoRuns
  import opened Turns

  /** Nobody has disconnected because of a confirmed timestamp. */
  predicate Blameless(sent: seq<Telegram>) {
    forall k :: 0 <= k < |sent| ==> !BlamesStamp(sent[k])
  }

  /** The clock readings that can become confirmed timestamps are all in a set: those at which the server
      answers, and with early heartbeats those at which the client calls. Otherwise there is no early
      heartbeat. */
  predicate Reads(n: Net, m: Move, readings: iset<Word>, early: bool) {
    && (Replies(n, m) ==> Reading(m) in readings)
    && (if early then Calls(n, m) ==> Reading(m) in readings else !BeatsEarly(n, m))
  }

  ghost predicate Within(nets: seq<Net>, moves: seq<Move>, readings: iset<Word>, early: bool)
    requires |nets| == |moves| + 1
  {
    forall k :: 0 <= k < |moves| ==> Reads(nets[k], moves[k], readings, early)
  }

  // ---------- one reading ----------

  predicate Stamped(t: Telegram, z: Word) {
    Payloaded(t) || t.kind == CONNECTION_RESPONSE ==> t.confStamp == z
  }

  /** Whoever follows its peer holds z, and so does everything queued that is compared with it. */
  ghost predicate Level(n: Net, z: Word, early: bool) {
    && FixedRoles(n)
    && (Listening(n.server) ==> n.server.ctsr == z)
    && (n.client.state.Up? || (early && n.client.state.Start?) ==> n.client.ctsr == z)
    && (forall k :: 0 <= k < |n.toServer| ==> Stamped(n.toServer[k], z))
    && (forall k :: 0 <= k < |n.toClient| ==> Stamped(n.toClient[k], z))
    && Blameless(n.sent)
  }

  lemma ClientLevel(n: Net, own: bool, t: Telegram, o: Outcome, z: Word, early: bool)
    requires Level(n, z, early) && Tame(n.client) && WaitsAsServer(n.client) && Turn(n.client, n.toClient, own, t, o)
    requires Opens(n.client, o.party) && early ==> o.party.ctsr == z
    requires Speaks(n.client, o) && n.client.state.Start? ==> early
    requires o.out.Some? ==> !BlamesStamp(o.out.value)
    ensures Level(Played(n, Client, own, o), z, early)
  {
    hide Plus, BlamesStamp;
  }

  lemma ServerLevel(n: Net, own: bool, t: Telegram, o: Outcome, z: Word, early: bool)
    requires Level(n, z, early) && Tame(n.server) && Turn(n.server, n.toServer, own, t, o)
    requires n.server.state.Down? && o.party.state.Start? ==> o.party.ctsr == z
    requires o.out.Some? ==> !BlamesStamp(o.out.value)
    ensures Level(Played(n, Server, own, o), z, early)
  {
    hide Plus, BlamesStamp;
  }

  /** What a turn takes from a channel while listening carries the party's own confirmed timestamp. */
  lemma TakenStampFits(n: Net, role: Role, own: bool, t: Telegram, o: Outcome, z: Word, early: bool)
    requires Level(n, z, early) && Tame(Me(n, role)) && Listening(Me(n, role))
    requires Turn(Me(n, role), Incoming(n, role), own, t, o) && !own && Payloaded(t)
    ensures Minus(t.confStamp, Me(n, role).ctsr) == 0
  {
  }

  lemma MoveKeepsLevel(n: Net, m: Move, z: Word, early: bool)
    requires Orderly(n) && Fair(m) && Level(n, z, early) && Reads(n, m, iset{z}, early)
    ensures Level(Next(n, m), z, early)
  {
    hide Next, Turn, Direction, Listening, Payloaded, BlamesStamp, Minus, Stamped, Speaks, Reading, Opens;
    var own, t, o := MoveIsTurn(n, m);
    if !(m.Takes? && Incoming(n, m.role) == []) {
      if o.out.Some? && BlamesStamp(o.out.value) {
        TakenStampFits(n, m.role, own, t, o, z, early);
        assert false;
      }
      if m.role.Client? {
        ClientLevel(n, own, t, o, z, early);
      } else {
        ServerLevel(n, own, t, o, z, early);
      }
    }
  }

  lemma {:induction false} LevelThroughout(nets: seq<Net>, moves: seq<Move>, z: Word, early: bool, k: nat)
    requires IsRun(nets, moves) && k < |nets|
    requires forall j :: 0 <= j < k ==> Reads(nets[j], moves[j], iset{z}, early)
    ensures Level(nets[k], z, early)
  {
    hide Orderly, Next, Reads;
    if k > 0 {
      LevelThroughout(nets, moves, z, early, k - 1);
      RunStaysOrderly(nets, moves, k - 1);
      assert Leads(nets, moves, k - 1);
      MoveKeepsLevel(nets[k - 1], moves[k - 1], z, early);
    }
  }

  lemma BlamelessWhenLevel(nets: seq<Net>, moves: seq<Move>, readings: iset<Word>, early: bool, z: Word)
    requires IsRun(nets, moves) && Within(nets, moves, readings, early) && forall y :: y in readings ==> y == z
    ensures Blameless(nets[|moves|].sent)
  {
    hide Next, Replies, Calls, BeatsEarly, Blameless;
    LevelThroughout(nets, moves, z, early, |moves|);
  }

  // ---------- single steps at a clock reading ----------

  function At(now: Word): Env {
    Env(now, now, now, 0, false)
  }

  function Opening(now: Word): Input { Handling(OpenConn, ZERO_PDU, At(now)) }
  function Closing(now: Word): Input { Handling(CloseConn, ZERO_PDU, At(now)) }
  function Beating(now: Word): Input { Handling(ThElapsed, ZERO_PDU, At(now)) }

  function Arriving(e: Event, t: Telegram, now: Word): Input { Handling(e, Seal(t), At(now)) }

  lemma ServerListens(s: Party, y: Word)
    requires s.state.Closed? && s.role.Server?
    ensures Transition(s, Opening(y)) == Outcome(s.(snt := 0, state := Down), None, false)
  {
  }

  lemma ClientCalls(s: Party, x: Word)
    requires s.state.Closed? && s.role.Client?
    ensures var o := Transition(s, Opening(x));
            && o.party == s.(snt := 0, cst := 0, ctsr := x, state := Start) && o.out == Some(ConnReqTel(o.party, x))
  {
  }

  lemma ClientBeats(s: Party, x: Word)
    requires s.state.Start?
    ensures var o := Transition(s, Beating(x));
            o.party == Bump(s) && o.out == Some(Message(HEARTBEAT, o.party, x, []))
  {
  }

  lemma ClientCloses(s: Party, x: Word)
    requires s.state.Start?
    ensures var o := Transition(s, Closing(x));
            && o.party.state.Closed? && o.party.role == s.role
            && o.out.Some? && IsDisc(o.out.value) && !BlamesStamp(o.out.value)
  {
  }

  lemma VersionOfHandshake(p: Pdu)
    requires p.tel.payload == HANDSHAKE_PAYLOAD
    ensures VersionMatches(p)
  {
    assert PROTOCOL_VERSION <= HANDSHAKE_PAYLOAD + p.code;
  }

  lemma ServerAnswers(s: Party, t: Telegram, y: Word)
    requires s.state.Down? && t.kind == CONNECTION_REQUEST && t.seqNum == 0 && t.payload == HANDSHAKE_PAYLOAD
    ensures var o := Transition(s, Arriving(RecvConnReq, t, y));
            && o.party.state.Start? && o.party.role == s.role && o.party.snr == 1 && o.party.ctsr == y
            && o.out == Some(Message(CONNECTION_RESPONSE, o.party, y, HANDSHAKE_PAYLOAD))
  {
    hide Minus, Signed, VersionMatches, SafetyCode;
    VersionOfHandshake(Seal(t));
  }

  lemma ClientEstablishes(s: Party, t: Telegram, x: Word)
    requires s.state.Start? && s.role.Client? && t.kind == CONNECTION_RESPONSE && t.payload == HANDSHAKE_PAYLOAD
    ensures var o := Transition(s, Arriving(RecvConnResp, t, x));
            && o.party.state.Up? && o.party.role == s.role && o.party.snt == Plus(s.snt, 1)
            && o.party.ctsr == t.confStamp
            && o.out == Some(Message(HEARTBEAT, o.party, x, []))
  {
    hide Minus, Signed, Plus, VersionMatches, SafetyCode;
    VersionOfHandshake(Seal(t));
  }

  lemma ServerDrops(s: Party, t: Telegram, y: Word)
    requires s.state.Start? && IsDisc(t)
    ensures var o := Transition(s, Arriving(RecvDiscReq, t, y));
            o.party.state.Closed? && o.party.role == s.role && o.out.None?
  {
    hide SafetyCode;
  }

  /** A heartbeat in sequence is judged by its confirmed timestamp. */
  lemma ServerJudges(s: Party, t: Telegram, y: Word)
    requires s.role.Server? && (s.state.Start? || s.state.Up?) && t.kind == HEARTBEAT && t.seqNum == s.snr
    ensures var o := Transition(s, Arriving(RecvHb, t, y));
            && o.party.role == s.role
            && if Minus(t.confStamp, s.ctsr) < T_MAX then
                 o.party.state.Up? && o.party.ctsr == t.confStamp && o.party.snr == Plus(t.seqNum, 1) && o.out.None?
               else
                 o.party.state.Closed? && o.out.Some? && BlamesStamp(o.out.value)
  {
    hide Minus, Signed, Plus, SafetyCode;
  }

  // ---------- two readings ----------

  /** The server answers at y; the client closes, opens again and takes that answer for its new request; the
      server drops the first connection, opens again and answers at z; then it takes the heartbeat that
      confirms y. */
  function Reopened(y: Word, z: Word): seq<Move> {
    [Move.Acts(Server, Opening(y)), Move.Acts(Client, Opening(y)), Takes(Server, At(y)),
     Move.Acts(Client, Closing(y)), Move.Acts(Client, Opening(y)), Takes(Client, At(y)),
     Takes(Server, At(z)), Move.Acts(Server, Opening(z)), Takes(Server, At(z)), Takes(Server, At(z))]
  }

  /** All states of a sequence of moves. */
  function States(n: Net, moves: seq<Move>): (nets: seq<Net>)
    ensures |nets| == |moves| + 1 && nets[0] == n
    decreases |moves|
  {
    [n] + if moves == [] then [] else States(Next(n, moves[0]), moves[1..])
  }

  lemma {:induction false} StatesFollow(n: Net, moves: seq<Move>, k: nat)
    requires k < |moves|
    ensures States(n, moves)[k + 1] == Next(States(n, moves)[k], moves[k])
    decreases |moves|
  {
    hide Next;
    if k > 0 {
      StatesFollow(Next(n, moves[0]), moves[1..], k - 1);
    }
  }

  lemma StatesAreRun(moves: seq<Move>)
    requires forall k :: 0 <= k < |moves| ==> Fair(moves[k])
    ensures IsRun(States(NOTHING, moves), moves)
  {
    hide Next, States;
    forall k | 0 <= k < |moves| ensures Leads(States(NOTHING, moves), moves, k) {
      StatesFollow(NOTHING, moves, k);
    }
  }

  lemma FirstAnswer(nets: seq<Net>, y: Word, z: Word)
    requires IsRun(nets, Reopened(y, z))
    ensures var n := nets[3];
            && n.client.state.Start? && n.server.state.Start? && FixedRoles(n) && n.toServer == [] && |n.toClient| == 1
            && n.toClient[0].kind == CONNECTION_RESPONSE && n.toClient[0].payload == HANDSHAKE_PAYLOAD
            && n.toClient[0].confStamp == y
            && Blameless(n.sent)
  {
    hide Transition, SafetyCode;
    var moves := Reopened(y, z);
    assert Leads(nets, moves, 0) && Leads(nets, moves, 1) && Leads(nets, moves, 2);
    ServerListens(nets[0].server, y);
    ClientCalls(nets[1].client, y);
    ServerAnswers(nets[2].server, nets[2].toServer[0], y);
  }

  /** The client has closed and called again. */
  lemma CalledAgain(nets: seq<Net>, y: Word, z: Word)
    requires IsRun(nets, Reopened(y, z))
    ensures var n := nets[5];
            && n.client.state.Start? && n.client.role.Client? && n.client.snt == 0
            && n.server == nets[3].server && n.toClient == nets[3].toClient
            && |n.toServer| == 2 && IsDisc(n.toServer[0])
            && n.toServer[1].kind == CONNECTION_REQUEST && n.toServer[1].seqNum == 0
            && n.toServer[1].payload == HANDSHAKE_PAYLOAD
            && Blameless(n.sent)
  {
    hide Transition, SafetyCode, Blameless;
    FirstAnswer(nets, y, z);
    var moves := Reopened(y, z);
    assert Leads(nets, moves, 3) && Leads(nets, moves, 4);
    ClientCloses(nets[3].client, y);
    ClientCalls(nets[4].client, y);
    MoreSent(nets[3].sent, nets[4].sent, Transition(nets[3].client, Closing(y)).out);
    MoreSent(nets[4].sent, nets[5].sent, Transition(nets[4].client, Opening(y)).out);
  }

  /** The client is up with the stale answer. */
  lemma StaleAnswer(nets: seq<Net>, y: Word, z: Word)
    requires IsRun(nets, Reopened(y, z))
    ensures var n := nets[6];
            && n.server.state.Start? && n.server.role.Server? && |n.toServer| == 3 && IsDisc(n.toServer[0])
            && n.toServer[1].kind == CONNECTION_REQUEST && n.toServer[1].seqNum == 0
            && n.toServer[1].payload == HANDSHAKE_PAYLOAD
            && n.toServer[2].kind == HEARTBEAT && n.toServer[2].seqNum == 1 && n.toServer[2].confStamp == y
            && Blameless(n.sent)
  {
    hide Transition, SafetyCode, Blameless;
    FirstAnswer(nets, y, z);
    CalledAgain(nets, y, z);
    assert Leads(nets, Reopened(y, z), 5);
    ClientEstablishes(nets[5].client, nets[5].toClient[0], y);
    MoreSent(nets[5].sent, nets[6].sent, Transition(nets[5].client, Arriving(RecvConnResp, nets[5].toClient[0],
      y)).out);
  }

  lemma Dropped(nets: seq<Net>, y: Word, z: Word)
    requires IsRun(nets, Reopened(y, z))
    ensures var n := nets[8];
            && n.server.state.Down? && n.server.role.Server? && n.sent == nets[6].sent
            && |nets[6].toServer| == 3 && n.toServer == nets[6].toServer[1..]
  {
    hide Transition, SafetyCode, Blameless;
    StaleAnswer(nets, y, z);
    assert Leads(nets, Reopened(y, z), 6) && Leads(nets, Reopened(y, z), 7);
    ServerDrops(nets[6].server, nets[6].toServer[0], z);
    ServerListens(nets[7].server, z);
  }

  lemma SecondAnswer(nets: seq<Net>, y: Word, z: Word)
    requires IsRun(nets, Reopened(y, z))
    ensures var n := nets[9];
            && n.server.state.Start? && n.server.role.Server? && n.server.snr == 1 && n.server.ctsr == z
            && |n.toServer| == 1 && n.toServer[0].kind == HEARTBEAT && n.toServer[0].seqNum == 1
            && n.toServer[0].confStamp == y
            && Blameless(n.sent)
  {
    hide Transition, SafetyCode, Blameless;
    StaleAnswer(nets, y, z);
    Dropped(nets, y, z);
    assert Leads(nets, Reopened(y, z), 8);
    ServerAnswers(nets[8].server, nets[8].toServer[0], z);
    MoreSent(nets[8].sent, nets[9].sent, Transition(nets[8].server, Arriving(RecvConnReq, nets[8].toServer[0], z)).out);
  }

  /** The reopened run ends in a disconnection for the confirmed timestamp unless the first answer's reading
      is, modulo 2^32, less than T_MAX after the second's. */
  lemma ReopenedIsBlamed(nets: seq<Net>, y: Word, z: Word)
    requires IsRun(nets, Reopened(y, z))
    ensures Blameless(nets[10].sent) <==> Minus(y, z) < T_MAX
  {
    hide Transition, SafetyCode, Minus, Blameless;
    SecondAnswer(nets, y, z);
    assert Leads(nets, Reopened(y, z), 9);
    ServerJudges(nets[9].server, nets[9].toServer[0], z);
    MoreSent(nets[9].sent, nets[10].sent, Transition(nets[9].server, Arriving(RecvHb, nets[9].toServer[0], z)).out);
  }

  lemma MoreSent(before: seq<Telegram>, after: seq<Telegram>, out: Option<Telegram>)
    requires after == before + Sent(out)
    ensures Blameless(after) <==> Blameless(before) && (out.Some? ==> !BlamesStamp(out.value))
  {
    if out.Some? {
      assert after[|before|] == out.value;
    }
    assert forall k :: 0 <= k < |before| ==> after[k] == before[k];
  }

  /** The reopened run has no early heartbeat, and reads only y and z where it matters. */
  lemma ReopenedReads(nets: seq<Net>, y: Word, z: Word)
    requires IsRun(nets, Reopened(y, z))
    ensures Within(nets, Reopened(y, z), iset{y, z}, true) && Within(nets, Reopened(y, z), iset{y, z}, false)
  {
    hide Next;
  }

  lemma ReopenedFair(y: Word, z: Word)
    ensures forall k :: 0 <= k < |Reopened(y, z)| ==> Fair(Reopened(y, z)[k])
  {
  }

  lemma LaterOrEarlier(y: Word, z: Word)
    requires y != z
    ensures Minus(y, z) >= T_MAX || Minus(z, y) >= T_MAX
  {
  }

  /** Every run whose readings are from the set ends without a disconnection for a confirmed timestamp. */
  ghost predicate Safe(readings: iset<Word>, early: bool) {
    forall nets: seq<Net>, moves: seq<Move> ::
      IsRun(nets, moves) && Within(nets, moves, readings, early) ==> Blameless(nets[|moves|].sent)
  }

  lemma UnsafeWhenBlamed(readings: iset<Word>, early: bool, y: Word, z: Word)
    requires y in readings && z in readings && Minus(y, z) >= T_MAX
    ensures !Safe(readings, early)
  {
    hide Next, Blameless, States, Reopened, Minus;
    var moves := Reopened(y, z);
    var nets := States(NOTHING, moves);
    ReopenedFair(y, z);
    StatesAreRun(moves);
    ReopenedIsBlamed(nets, y, z);
    ReopenedReads(nets, y, z);
    WithinMore(nets, moves, y, z, readings, early);
    assert |moves| == 10 by { ReopenedLength(y, z); }
  }

  lemma ReopenedLength(y: Word, z: Word)
    ensures |Reopened(y, z)| == 10
  {
  }

  lemma WithinMore(nets: seq<Net>, moves: seq<Move>, y: Word, z: Word, readings: iset<Word>, early: bool)
    requires |nets| == |moves| + 1 && y in readings && z in readings
    requires Within(nets, moves, iset{y, z}, true) && Within(nets, moves, iset{y, z}, false)
    ensures Within(nets, moves, readings, early)
  {
    hide Next, Replies, Calls, BeatsEarly;
    forall k | 0 <= k < |moves| ensures Reads(nets[k], moves[k], readings, early) {
      assert Reads(nets[k], moves[k], iset{y, z}, early);
    }
  }

  /** Under every interleaving and any number of openings, confirmed timestamps are safe exactly when all
      the readings that can become one are equal. Without early heartbeats those are the readings at which
      the server answers, with them also those at which the client calls. */
  lemma SafeWhenLevel(readings: iset<Word>, early: bool)
    ensures Safe(readings, early) <==> forall y, z :: y in readings && z in readings ==> y == z
  {
    hide Blameless, Within;
    if forall y, z :: y in readings && z in readings ==> y == z {
      var z: Word :| readings == iset{} || z in readings;
      forall nets: seq<Net>, moves: seq<Move> | IsRun(nets, moves) && Within(nets, moves, readings, early)
        ensures Blameless(nets[|moves|].sent)
      {
        BlamelessWhenLevel(nets, moves, readings, early, z);
      }
    } else {
      var y, z :| y in readings && z in readings && y != z;
      LaterOrEarlier(y, z);
      if Minus(y, z) >= T_MAX {
        UnsafeWhenBlamed(readings, early, y, z);
      } else {
        UnsafeWhenBlamed(readings, early, z, y);
      }
    }
  }
}
