/**
 Two guards that make confirmed timestamps safe at any clock readings, with any number of openings: the
 client sends no heartbeat before it has the response, and opens only while no handshake telegram is under
 way. Neither can be left out.
 */
module GuardedRuns {
  import opened Words
  import opened Pdu
  import opened Protocol
  import opened PartyRuns
  import opened FifoRuns
  import opened Turns
  import opened ClockRuns
  import opened CalmRuns

  predicate NoHandshake(q: seq<Telegram>) {
    forall k :: 0 <= k < |q| ==> !IsHandshake(q[k])
  }

  /** The client opens only while neither channel holds a handshake telegram. */
  predicate OpensClear(n: Net, m: Move) {
    Calls(n, m) ==> NoHandshake(n.toServer) && NoHandshake(n.toClient)
  }

  /** Which of the guards a move must keep. */
  predicate Keeps(n: Net, m: Move, patient: bool, clear: bool) {
    (patient ==> !BeatsEarly(n, m)) && (clear ==> OpensClear(n, m))
  }

  ghost predicate AllKeep(nets: seq<Net>, moves: seq<Move>, patient: bool, clear: bool)
    requires |nets| == |moves| + 1
  {
    forall k :: 0 <= k < |moves| ==> Keeps(nets[k], moves[k], patient, clear)
  }

  // ---------- the invariant ----------

  predicate OneHandshake(q: seq<Telegram>) {
    forall j, k :: 0 <= j < k < |q| && IsHandshake(q[j]) ==> !IsHandshake(q[k])
  }

  /** One handshake telegram at most is under way, and none once the client is up. The server's confirmed
      timestamp is that of its answer, of everything numbered on its way to the server, which is never behind
      a request, and of the client once that is up; so is that of everything numbered behind the answer on
      its way to the client. */
  ghost predicate Clear(n: Net) {
    && FixedRoles(n)
    && OneHandshake(n.toServer) && OneHandshake(n.toClient) && (NoHandshake(n.toServer) || NoHandshake(n.toClient))
    && (n.client.state.Up? ==>
          && NoHandshake(n.toServer) && NoHandshake(n.toClient) && n.client.ctsr == n.server.ctsr
          && forall k :: 0 <= k < |n.toClient| && Payloaded(n.toClient[k]) ==> n.toClient[k].confStamp == n.server.ctsr)
    && (forall k :: 0 <= k < |n.toServer| && Payloaded(n.toServer[k]) ==> n.toServer[k].confStamp == n.server.ctsr)
    && (forall j, k :: 0 <= j < k < |n.toServer| && IsHandshake(n.toServer[j]) ==> !Payloaded(n.toServer[k]))
    && (forall k :: 0 <= k < |n.toClient| && IsHandshake(n.toClient[k]) ==> n.toClient[k].confStamp == n.server.ctsr)
    && (forall j, k :: 0 <= j < k < |n.toClient| && IsHandshake(n.toClient[j]) && Payloaded(n.toClient[k]) ==>
          n.toClient[k].confStamp == n.server.ctsr)
  }

  lemma ClientClear(n: Net, own: bool, t: Telegram, o: Outcome)
    requires Clear(n) && Tame(n.client) && WaitsAsServer(n.client) && Turn(n.client, n.toClient, own, t, o)
    requires Opens(n.client, o.party) ==> NoHandshake(n.toServer) && NoHandshake(n.toClient)
    requires !(Speaks(n.client, o) && n.client.state.Start?)
    ensures Clear(Played(n, Client, own, o))
  {
    hide Plus;
  }

  lemma ServerClear(n: Net, own: bool, t: Telegram, o: Outcome)
    requires Clear(n) && Tame(n.server) && Turn(n.server, n.toServer, own, t, o)
    ensures Clear(Played(n, Server, own, o))
  {
    hide Plus;
  }

  /** What a turn takes from a channel while listening carries the party's own confirmed timestamp. */
  lemma TakenStampIsOwn(n: Net, role: Role, own: bool, t: Telegram, o: Outcome)
    requires Clear(n) && Tame(Me(n, role)) && Listening(Me(n, role))
    requires Turn(Me(n, role), Incoming(n, role), own, t, o) && !own && Payloaded(t)
    ensures Minus(t.confStamp, Me(n, role).ctsr) == 0
  {
  }

  lemma ClearRoles(n: Net)
    requires Clear(n)
    ensures FixedRoles(n)
  {
  }

  lemma MoveKeepsClear(n: Net, m: Move)
    requires Orderly(n) && Fair(m) && Clear(n) && Blameless(n.sent) && Keeps(n, m, true, true)
    ensures Clear(Next(n, m)) && Blameless(Next(n, m).sent)
  {
    hide Next, Turn, Direction, Listening, Payloaded, BlamesStamp, Minus, Speaks, Reading, Opens, Clear, NoHandshake,
      Blameless;
    ClearRoles(n);
    var own, t, o := MoveIsTurn(n, m);
    if !(m.Takes? && Incoming(n, m.role) == []) {
      if o.out.Some? && BlamesStamp(o.out.value) {
        TakenStampIsOwn(n, m.role, own, t, o);
        assert false;
      }
      MoreSent(n.sent, Next(n, m).sent, o.out);
      if m.role.Client? {
        ClientClear(n, own, t, o);
      } else {
        ServerClear(n, own, t, o);
      }
    }
  }

  lemma NothingClear()
    ensures Clear(NOTHING) && Blameless(NOTHING.sent)
  {
  }

  lemma {:induction false} ClearThroughout(nets: seq<Net>, moves: seq<Move>, k: nat)
    requires IsRun(nets, moves) && AllKeep(nets, moves, true, true) && k < |nets|
    ensures Clear(nets[k]) && Blameless(nets[k].sent)
  {
    hide Orderly, Next, Keeps, Clear, Blameless;
    if k == 0 {
      NothingClear();
    } else {
      ClearThroughout(nets, moves, k - 1);
      RunStaysOrderly(nets, moves, k - 1);
      assert Leads(nets, moves, k - 1);
      MoveKeepsClear(nets[k - 1], moves[k - 1]);
    }
  }

  /** Under every interleaving, any number of openings and whatever the clocks read, nobody disconnects for a
      confirmed timestamp as long as the client keeps both guards. */
  lemma GuardedIsBlameless(nets: seq<Net>, moves: seq<Move>, k: nat)
    requires IsRun(nets, moves) && AllKeep(nets, moves, true, true) && k < |nets|
    ensures Blameless(nets[k].sent)
  {
    hide IsRun, AllKeep, Blameless;
    ClearThroughout(nets, moves, k);
  }

  // ---------- both guards are needed ----------

  /** Every run that keeps these guards ends without a disconnection for a confirmed timestamp. */
  ghost predicate SafeWith(patient: bool, clear: bool) {
    forall nets: seq<Net>, moves: seq<Move> ::
      IsRun(nets, moves) && AllKeep(nets, moves, patient, clear) ==> Blameless(nets[|moves|].sent)
  }

  /** The early heartbeat's run opens the client once, with nothing under way. */
  lemma EarlyBeatOpensClear(nets: seq<Net>, x: Word, y: Word)
    requires IsRun(nets, EarlyBeat(x, y))
    ensures AllKeep(nets, EarlyBeat(x, y), false, true)
  {
    hide Next, Transition, OpensNow, Opens;
    var moves := EarlyBeat(x, y);
    assert Leads(nets, moves, 0) && Leads(nets, moves, 1);
    NothingUnderWay(nets[0], moves[0], y);
    CallingOpens(nets[0], nets[1], moves[0], x, y);
    TakesNeverOpen(nets[5], moves[5]);
    forall k | 0 <= k < 7 ensures Keeps(nets[k], moves[k], false, true) {
      assert k == 1 || k == 2 || k == 5 || moves[k].role.Server?;
      CallsOpen(nets[k], moves[k]);
    }
  }

  lemma CallsOpen(n: Net, m: Move)
    ensures Calls(n, m) <==> m.role.Client? && OpensNow(n, m)
  {
    hide Next;
  }

  lemma NothingUnderWay(n: Net, m: Move, y: Word)
    requires n == NOTHING && m == Move.Acts(Server, Opening(y))
    ensures NoHandshake(Next(n, m).toServer) && NoHandshake(Next(n, m).toClient)
  {
    hide Transition;
    ServerListens(n.server, y);
  }

  lemma EarlyBeatFair(x: Word, y: Word)
    ensures |EarlyBeat(x, y)| == 7 && forall k :: 0 <= k < 7 ==> Fair(EarlyBeat(x, y)[k])
  {
  }

  lemma ImpatientIsUnsafe(clear: bool)
    ensures !SafeWith(false, clear)
  {
    hide Next, Blameless, States, EarlyBeat, Keeps, BeatsEarly, Calls;
    var moves := EarlyBeat(0, 1);
    var nets := States(NOTHING, moves);
    EarlyBeatFair(0, 1);
    StatesAreRun(moves);
    EarlyHeartbeatIsBlamed(nets, 0, 1);
    EarlyBeatOpensClear(nets, 0, 1);
    FewerGuards(nets, moves, false, true, false, clear);
  }

  /** The reopened run has no early heartbeat. */
  lemma ReopenedIsPatient(nets: seq<Net>, y: Word, z: Word)
    requires IsRun(nets, Reopened(y, z))
    ensures AllKeep(nets, Reopened(y, z), true, false)
  {
    hide Next;
  }

  lemma UnclearIsUnsafe(patient: bool)
    ensures !SafeWith(patient, false)
  {
    hide Next, Blameless, States, Reopened, Keeps, BeatsEarly, Calls;
    var moves := Reopened(0, 1);
    var nets := States(NOTHING, moves);
    ReopenedFair(0, 1);
    ReopenedLength(0, 1);
    StatesAreRun(moves);
    ReopenedIsBlamed(nets, 0, 1);
    ReopenedIsPatient(nets, 0, 1);
    FewerGuards(nets, moves, true, false, patient, false);
  }

  /** A run that keeps guards keeps fewer. */
  lemma FewerGuards(nets: seq<Net>, moves: seq<Move>, patient: bool, clear: bool, patient1: bool, clear1: bool)
    requires |nets| == |moves| + 1 && AllKeep(nets, moves, patient, clear)
    requires (patient1 ==> patient) && (clear1 ==> clear)
    ensures AllKeep(nets, moves, patient1, clear1)
  {
    hide BeatsEarly, OpensClear;
    forall k | 0 <= k < |moves| ensures Keeps(nets[k], moves[k], patient1, clear1) {
      assert Keeps(nets[k], moves[k], patient, clear);
    }
  }

  /** Confirmed timestamps are safe at all clock readings exactly with both guards. */
  lemma SafeWithBothGuards(patient: bool, clear: bool)
    ensures SafeWith(patient, clear) <==> patient && clear
  {
    hide Blameless, AllKeep;
    if patient && clear {
      forall nets: seq<Net>, moves: seq<Move> | IsRun(nets, moves) && AllKeep(nets, moves, patient, clear)
        ensures Blameless(nets[|moves|].sent)
      {
        GuardedIsBlameless(nets, moves, |moves|);
      }
    } else if !patient {
      ImpatientIsUnsafe(clear);
    } else {
      UnclearIsUnsafe(patient);
    }
  }
}
