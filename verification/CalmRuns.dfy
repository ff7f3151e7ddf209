/**
 The client and server of FifoRuns in runs with one connection each: numbers and confirmations are ordered
 across both channels, and confirmed timestamps are safe exactly when the client sends no heartbeat before
 it has the response, or the clocks read the same at call and answer.
 */
module CalmRuns {
  import opened Words
  import opened Pdu
  import opened Protocol
  import opened PartyRuns
  import opened FifoRuns
  import opened Turns
  import opened ClockRuns

  /** The two parties with what is queued between them, which of them has been opened, whether the client
      has sent a heartbeat before it had the response, and the clock readings at its call and at the
      server's answer. */
  datatype Calm = Calm(
    net: Net,
    clientOpened: bool,
    serverOpened: bool,
    early: bool,
    call: Option<Word>,
    answer: Option<Word>)

  function Opened(c: Calm, role: Role): bool {
    if role.Client? then c.clientOpened else c.serverOpened
  }

  predicate OpensNow(n: Net, m: Move) {
    Opens(Me(n, m.role), Me(Next(n, m), m.role))
  }

  function Moved(c: Calm, m: Move): Calm {
    var n := c.net;
    Calm(Next(n, m),
         c.clientOpened || (m.role.Client? && OpensNow(n, m)),
         c.serverOpened || (m.role.Server? && OpensNow(n, m)),
         c.early || BeatsEarly(n, m),
         if Calls(n, m) then Some(Reading(m)) else c.call,
         if Replies(n, m) then Some(Reading(m)) else c.answer)
  }

  /** Nobody opens twice. */
  predicate Permitted(c: Calm, m: Move) {
    Fair(m) && (OpensNow(c.net, m) ==> !Opened(c, m.role))
  }

  /** The send number does not wrap around. */
  predicate Unwrapped(c: Calm, m: Move) {
    OpensNow(c.net, m) || Me(c.net, m.role).snt <= Me(Next(c.net, m), m.role).snt
  }

  const QUIET: Calm := Calm(NOTHING, false, false, false, None, None)

  ghost predicate Continues(states: seq<Calm>, moves: seq<Move>, k: nat)
    requires k < |moves| && |states| == |moves| + 1
  {
    Permitted(states[k], moves[k]) && states[k + 1] == Moved(states[k], moves[k])
  }

  /** All states of a run, from the one in which nothing has happened. */
  ghost predicate IsCalmRun(states: seq<Calm>, moves: seq<Move>) {
    && |states| == |moves| + 1 && states[0] == QUIET
    && forall k :: 0 <= k < |moves| ==> Continues(states, moves, k)
  }

  ghost predicate NeverWraps(states: seq<Calm>, moves: seq<Move>)
    requires |states| == |moves| + 1
  {
    forall k :: 0 <= k < |moves| ==> Unwrapped(states[k], moves[k])
  }

  /** A calm run is a run of FifoRuns. */
  function Nets(states: seq<Calm>): (nets: seq<Net>)
    ensures |nets| == |states|
  {
    seq(|states|, k requires 0 <= k < |states| => states[k].net)
  }

  lemma CalmRunsAreRuns(states: seq<Calm>, moves: seq<Move>)
    requires IsCalmRun(states, moves)
    ensures IsRun(Nets(states), moves)
  {
    hide Next, Replies, Calls, BeatsEarly, OpensNow;
    forall k | 0 <= k < |moves| ensures Leads(Nets(states), moves, k) {
      assert Continues(states, moves, k);
    }
  }

  lemma OrderlyThroughout(states: seq<Calm>, moves: seq<Move>, k: nat)
    requires IsCalmRun(states, moves) && k < |states|
    ensures Orderly(states[k].net)
  {
    hide Orderly, IsCalmRun;
    assert |states| == |moves| + 1 by { CalmLength(states, moves); }
    CalmRunsAreRuns(states, moves);
    RunStaysOrderly(Nets(states), moves, k);
  }

  lemma CalmLength(states: seq<Calm>, moves: seq<Move>)
    requires IsCalmRun(states, moves)
    ensures |states| == |moves| + 1
  {
  }

  // ---------- one call and one answer ----------

  predicate AllDisc(q: seq<Telegram>) {
    forall k :: 0 <= k < |q| ==> IsDisc(q[k])
  }

  predicate Unanswered(c: Calm) {
    !c.serverOpened || c.net.server.state.Down?
  }

  /** Nobody is open who has not been opened, a call and an answer come after the opening, and without an
      early heartbeat nothing numbered is under way before the answer. */
  ghost predicate Once(c: Calm) {
    var n := c.net;
    && FixedRoles(n)
    && (!c.clientOpened ==> n.client.state.Closed? && c.call.None?)
    && (!c.serverOpened ==> n.server.state.Closed?)
    && (c.answer.Some? ==> !Unanswered(c))
    && (Unanswered(c) && !c.early ==>
          && !n.client.state.Up? && AllDisc(n.toClient)
          && forall k :: 0 <= k < |n.toServer| ==> !Payloaded(n.toServer[k]))
  }

  /** What a turn comes to for the whole connection: early says whether it is an early heartbeat. */
  function Turned(c: Calm, role: Role, own: bool, o: Outcome, early: bool,
      call: Option<Word>, answer: Option<Word>): Calm {
    var opens := Opens(Me(c.net, role), o.party);
    Calm(Played(c.net, role, own, o),
         c.clientOpened || (role.Client? && opens),
         c.serverOpened || (role.Server? && opens),
         c.early || early, call, answer)
  }

  /** A turn that opens only what has not been opened. */
  ghost predicate FirstTurn(c: Calm, role: Role, own: bool, t: Telegram, o: Outcome, early: bool) {
    && Turn(Me(c.net, role), Incoming(c.net, role), own, t, o)
    && (Opens(Me(c.net, role), o.party) ==> !Opened(c, role))
    && (role.Client? && Speaks(c.net.client, o) && c.net.client.state.Start? ==> early)
  }

  lemma ClientOnce(c: Calm, own: bool, t: Telegram, o: Outcome, early: bool, call: Option<Word>)
    requires Once(c) && Tame(c.net.client) && FirstTurn(c, Client, own, t, o, early)
    requires call.Some? ==> c.call == call || Opens(c.net.client, o.party)
    ensures Once(Turned(c, Client, own, o, early, call, c.answer))
  {
    hide Plus;
  }

  lemma ServerOnce(c: Calm, own: bool, t: Telegram, o: Outcome, answer: Option<Word>)
    requires Once(c) && Tame(c.net.server) && FirstTurn(c, Server, own, t, o, false)
    requires answer.Some? ==> c.answer == answer || (c.net.server.state.Down? && o.party.state.Start?)
    ensures Once(Turned(c, Server, own, o, false, c.call, answer))
  {
    hide Plus;
  }

  // ---------- numbers and confirmations across both channels ----------

  /** The numbers queued are exactly those after from up to to. */
  predicate Flow(from: int, q: seq<Telegram>, to: int) {
    |q| == to - from && forall k :: 0 <= k < |q| ==> Payloaded(q[k]) && q[k].seqNum == from + 1 + k
  }

  predicate Confirms(low: int, q: seq<Telegram>, high: int) {
    && low <= high
    && (forall k :: 0 <= k < |q| ==> low <= q[k].confSeq <= high)
    && (forall j, k :: 0 <= j < k < |q| ==> q[j].confSeq <= q[k].confSeq)
  }

  /** What is queued from s to r: numbers from the last r has accepted to the last s has sent,
      confirmations from the last r has seen to the last s has accepted. A server still waiting for its
      first heartbeat has seen none. */
  predicate Stream(s: Party, q: seq<Telegram>, r: Party) {
    Flow(r.cst, q, s.snt) && Confirms(if r.state.Start? then 0 else r.csr, q, s.cst)
  }

  lemma StreamSpeaks(s: Party, q: seq<Telegram>, r: Party, o: Outcome)
    requires Stream(s, q, r) && Speaks(s, o) && s.snt <= o.party.snt
    ensures Stream(o.party, q + Sent(o.out), r)
  {
    NoWrap(s.snt);
  }

  lemma NoWrap(x: Word)
    requires x <= Plus(x, 1)
    ensures Plus(x, 1) == x + 1
  {
  }

  lemma StreamAccepts(s: Party, q: seq<Telegram>, r: Party, o: Outcome)
    requires q != [] && Stream(s, q, r) && Accepts(r, q[0], o)
    ensures Stream(s, q[1..], o.party)
  {
  }

  /** The server has answered and the client has not seen it: the response comes first, then heartbeats,
      all confirming the request; unless the client is about to be told to disconnect. */
  predicate Replied(client: Party, toServer: seq<Telegram>, toClient: seq<Telegram>, server: Party) {
    && server.state.Start? && toServer == [] && server.cst == client.snt && toClient != []
    && (IsDisc(toClient[0]) ||
         (&& toClient[0].kind == CONNECTION_RESPONSE
          && Flow(toClient[0].seqNum, toClient[1..], server.snt)
          && forall k :: 0 <= k < |toClient| ==> toClient[k].confSeq == server.cst))
  }

  /** The client has called and the server has not answered: the request is the last thing queued, if it
      is still there. */
  predicate Asked(client: Party, toServer: seq<Telegram>) {
    forall k :: 0 <= k < |toServer| ==>
      IsDisc(toServer[k]) ||
      (k == |toServer| - 1 && toServer[k].kind == CONNECTION_REQUEST && toServer[k].seqNum == client.snt)
  }

  predicate Ordered(c: Calm) {
    var n := c.net;
    if n.client.state.Up? && Live(n.server) then
      Stream(n.client, n.toServer, n.server) && Stream(n.server, n.toClient, n.client)
    else if n.client.state.Start? && Live(n.server) then
      Replied(n.client, n.toServer, n.toClient, n.server)
    else if n.client.state.Start? && Unanswered(c) then
      Asked(n.client, n.toServer)
    else
      !c.clientOpened ==> AllDisc(n.toServer) && !Live(n.server)
  }

  lemma Established(c: Calm, t: Telegram, o: Outcome)
    requires Replied(c.net.client, c.net.toServer, c.net.toClient, c.net.server)
    requires t == c.net.toClient[0] && Establishes(c.net.client, t, o) && c.net.client.snt <= o.party.snt
    ensures Stream(o.party, [o.out.value], c.net.server) && Stream(c.net.server, c.net.toClient[1..], o.party)
  {
    NoWrap(c.net.client.snt);
  }

  lemma ListenerAccepts(s: Party, q: seq<Telegram>, r: Party, t: Telegram, o: Outcome)
    requires Stream(s, q, r) && Accepts(s, t, o) && s.cst <= t.seqNum
    ensures Stream(o.party, q, r)
  {
  }

  lemma ListenerSpeaks(s: Party, q: seq<Telegram>, r: Party, o: Outcome)
    requires Stream(s, q, r) && Speaks(r, o)
    ensures Stream(s, q, o.party)
  {
  }

  lemma NextInFlow(s: Party, q: seq<Telegram>, r: Party)
    requires Stream(s, q, r) && q != []
    ensures q[0].seqNum == r.cst + 1
  {
  }

  lemma ClientOrders(c: Calm, own: bool, t: Telegram, o: Outcome, call: Option<Word>)
    requires Once(c) && !c.early && Ordered(c) && Tame(c.net.client) && WaitsAsServer(c.net.client)
    requires FirstTurn(c, Client, own, t, o, false)
    requires Opens(c.net.client, o.party) || c.net.client.snt <= o.party.snt
    ensures Ordered(Turned(c, Client, own, o, false, call, c.answer))
  {
    hide Plus, Stream;
    var n := c.net;
    if Live(n.server) {
      if Speaks(n.client, o) {
        StreamSpeaks(n.client, n.toServer, n.server, o);
        ListenerSpeaks(n.server, n.toClient, n.client, o);
      } else if Accepts(n.client, t, o) {
        NextInFlow(n.server, n.toClient, n.client);
        StreamAccepts(n.server, n.toClient, n.client, o);
        ListenerAccepts(n.client, n.toServer, n.server, t, o);
        assert n.toServer + Sent(o.out) == n.toServer;
      } else if Establishes(n.client, t, o) {
        Established(c, t, o);
        assert n.toServer + Sent(o.out) == [o.out.value];
      }
    }
  }

  lemma ServerOrders(c: Calm, own: bool, t: Telegram, o: Outcome, answer: Option<Word>)
    requires Once(c) && !c.early && Ordered(c) && Tame(c.net.server) && WaitsAsServer(c.net.server)
    requires FirstTurn(c, Server, own, t, o, false)
    requires Opens(c.net.server, o.party) || c.net.server.snt <= o.party.snt
    ensures Ordered(Turned(c, Server, own, o, false, c.call, answer))
  {
    hide Plus, Stream;
    var n := c.net;
    if n.client.state.Up? {
      if Speaks(n.server, o) {
        StreamSpeaks(n.server, n.toClient, n.client, o);
        ListenerSpeaks(n.client, n.toServer, n.server, o);
      } else if Accepts(n.server, t, o) {
        NextInFlow(n.client, n.toServer, n.server);
        StreamAccepts(n.client, n.toServer, n.server, o);
        ListenerAccepts(n.server, n.toClient, n.client, t, o);
        assert n.toClient + Sent(o.out) == n.toClient;
      }
    } else if n.client.state.Start? && Speaks(n.server, o) {
      NoWrap(n.server.snt);
    }
  }

  // ---------- every permitted run ----------

  /** A move on an empty channel changes nothing; any other is a first turn. */
  lemma MoveIsFirstTurn(c: Calm, m: Move) returns (own: bool, t: Telegram, o: Outcome, early: bool)
    requires Orderly(c.net) && FixedRoles(c.net) && Permitted(c, m)
    ensures if m.Takes? && Incoming(c.net, m.role) == [] then Moved(c, m) == c
            else
              && FirstTurn(c, m.role, own, t, o, early) && early == BeatsEarly(c.net, m)
              && Moved(c, m) == Turned(c, m.role, own, o, early, Moved(c, m).call, Moved(c, m).answer)
              && Me(Next(c.net, m), m.role) == o.party && OpensNow(c.net, m) == Opens(Me(c.net, m.role), o.party)
  {
    hide Next, Turn, Direction, Orderly, Speaks, BlamesStamp, Minus, Listening, Payloaded, BeatsEarly, Reading;
    early := BeatsEarly(c.net, m);
    own, t, o := MoveIsTurn(c.net, m);
    if m.Takes? {
      TakesAreLate(c.net, m);
    }
  }

  lemma TakesAreLate(n: Net, m: Move)
    requires m.Takes?
    ensures !BeatsEarly(n, m)
  {
  }

  lemma MoveKeepsOnce(c: Calm, m: Move)
    requires Orderly(c.net) && Permitted(c, m) && Once(c)
    ensures Once(Moved(c, m))
  {
    var own, t, o, early := MoveIsFirstTurn(c, m);
    hide Next, Turn, Direction, Permitted, Speaks, Reading, FirstTurn, Once, BeatsEarly;
    if !(m.Takes? && Incoming(c.net, m.role) == []) {
      if m.role.Client? {
        ClientOnce(c, own, t, o, early, Moved(c, m).call);
      } else {
        ServerNeverEarly(c.net, m);
        ServerOnce(c, own, t, o, Moved(c, m).answer);
      }
    }
  }

  lemma ServerNeverEarly(n: Net, m: Move)
    requires m.role.Server?
    ensures !BeatsEarly(n, m)
  {
  }

  lemma QuietStart()
    ensures Once(QUIET) && Ordered(QUIET)
  {
  }

  lemma {:induction false} OnceThroughout(states: seq<Calm>, moves: seq<Move>, k: nat)
    requires IsCalmRun(states, moves) && k < |states|
    ensures Once(states[k])
  {
    hide Orderly, Once, Moved, Permitted;
    if k == 0 {
      QuietStart();
    } else {
      OnceThroughout(states, moves, k - 1);
      OrderlyThroughout(states, moves, k - 1);
      assert Continues(states, moves, k - 1);
      MoveKeepsOnce(states[k - 1], moves[k - 1]);
    }
  }

  lemma MoveKeepsOrder(c: Calm, m: Move)
    requires Orderly(c.net) && Permitted(c, m) && Once(c) && Ordered(c) && Unwrapped(c, m) && !Moved(c, m).early
    ensures Ordered(Moved(c, m))
  {
    OnceRoles(c);
    var own, t, o, early := MoveIsFirstTurn(c, m);
    hide Next, Turn, Direction, Permitted, Speaks, Reading, FirstTurn, Once, Ordered, BeatsEarly, Calls, Replies;
    if !(m.Takes? && Incoming(c.net, m.role) == []) {
      if m.role.Client? {
        ClientOrders(c, own, t, o, Moved(c, m).call);
      } else {
        ServerOrders(c, own, t, o, Moved(c, m).answer);
      }
    }
  }

  lemma OnceRoles(c: Calm)
    requires Once(c)
    ensures FixedRoles(c.net)
  {
  }

  lemma EarlyStays(c: Calm, m: Move)
    requires !Moved(c, m).early
    ensures !c.early
  {
  }

  lemma {:induction false} OrderThroughout(states: seq<Calm>, moves: seq<Move>, k: nat)
    requires IsCalmRun(states, moves) && NeverWraps(states, moves) && k < |states| && !states[k].early
    ensures Ordered(states[k])
  {
    hide Orderly, Once, Ordered, Moved, Permitted, Unwrapped;
    if k == 0 {
      QuietStart();
    } else {
      assert Continues(states, moves, k - 1);
      EarlyStays(states[k - 1], moves[k - 1]);
      OrderThroughout(states, moves, k - 1);
      OnceThroughout(states, moves, k - 1);
      OrderlyThroughout(states, moves, k - 1);
      MoveKeepsOrder(states[k - 1], moves[k - 1]);
    }
  }

  /** From a to b: the confirmations on their way back, and the numbers on their way there, lie in order
      between what the two ends have confirmed, accepted and sent. */
  predicate InOrder(a: Party, toB: seq<Telegram>, toA: seq<Telegram>, b: Party) {
    && a.csr <= b.cst <= a.snt && b.snr == Plus(b.cst, 1)
    && (forall k :: 0 <= k < |toA| ==> a.csr <= toA[k].confSeq <= b.cst)
    && (forall j, k :: 0 <= j < k < |toA| ==> toA[j].confSeq <= toA[k].confSeq)
    && (forall k :: 0 <= k < |toB| ==> toB[k].seqNum == b.cst + 1 + k)
    && b.cst + |toB| == a.snt
  }

  lemma ExpectsNext(s: Party, q: seq<Telegram>, r: Party)
    requires Direction(s, q, r) && Stream(s, q, r) && Listening(r) && Live(s)
    ensures r.snr == Plus(r.cst, 1)
  {
  }

  /** In runs without an early heartbeat, as long as no number wraps around, whenever both are up both
      directions are in order. */
  lemma NumbersInOrder(states: seq<Calm>, moves: seq<Move>, k: nat)
    requires IsCalmRun(states, moves) && NeverWraps(states, moves) && k < |states| && !states[k].early
    ensures var n := states[k].net;
            n.client.state.Up? && n.server.state.Up? ==>
              InOrder(n.client, n.toServer, n.toClient, n.server) && InOrder(n.server, n.toClient, n.toServer, n.client)
  {
    hide IsCalmRun, NeverWraps, Direction, Plus, Once;
    OrderlyThroughout(states, moves, k);
    OrderThroughout(states, moves, k);
    var n := states[k].net;
    if n.client.state.Up? && n.server.state.Up? {
      ExpectsNext(n.client, n.toServer, n.server);
      ExpectsNext(n.server, n.toClient, n.client);
    }
  }

  // ---------- confirmed timestamps ----------

  /** No early heartbeat, or the same clock reading at call and answer. */
  predicate InStep(c: Calm) {
    c.early && c.call.Some? && c.answer.Some? ==> c.call == c.answer
  }

  /** A move does not change what has been noted before. */
  lemma NotedOnce(c: Calm, m: Move)
    requires Once(c) && Permitted(c, m)
    ensures c.early ==> Moved(c, m).early
    ensures c.call.Some? ==> Moved(c, m).call == c.call
    ensures c.answer.Some? ==> Moved(c, m).answer == c.answer
  {
    hide Next;
  }

  lemma {:induction false} NotedForGood(states: seq<Calm>, moves: seq<Move>, j: nat, k: nat)
    requires IsCalmRun(states, moves) && j <= k < |states|
    ensures states[j].early ==> states[k].early
    ensures states[j].call.Some? ==> states[k].call == states[j].call
    ensures states[j].answer.Some? ==> states[k].answer == states[j].answer
    decreases k - j
  {
    hide Once, Moved, Permitted;
    if j < k {
      NotedForGood(states, moves, j, k - 1);
      OnceThroughout(states, moves, k - 1);
      assert Continues(states, moves, k - 1);
      NotedOnce(states[k - 1], moves[k - 1]);
    }
  }

  /** The one reading that counts in a run that ends in step. */
  function Noted(c: Calm): Word {
    if c.answer.Some? then c.answer.value else if c.call.Some? then c.call.value else 0
  }

  lemma ReadsNoted(states: seq<Calm>, moves: seq<Move>, j: nat, k: nat)
    requires IsCalmRun(states, moves) && j < k < |states| && InStep(states[k])
    ensures Reads(states[j].net, moves[j], iset{Noted(states[k])}, states[k].early)
  {
    hide Next, Replies, Calls, BeatsEarly, OpensNow;
    assert Continues(states, moves, j);
    NotedForGood(states, moves, j + 1, k);
  }

  /** With one connection each, neither party disconnects because of a confirmed timestamp as long as there
      has been no early heartbeat or call and answer read the same. */
  lemma NeverOutOfTime(states: seq<Calm>, moves: seq<Move>, k: nat)
    requires IsCalmRun(states, moves) && k < |states| && InStep(states[k])
    ensures Blameless(states[k].net.sent)
  {
    hide IsCalmRun, Reads, Blameless, InStep, Noted;
    assert |states| == |moves| + 1 by { CalmLength(states, moves); }
    CalmRunsAreRuns(states, moves);
    var nets := Nets(states);
    forall j | 0 <= j < k ensures Reads(nets[j], moves[j], iset{Noted(states[k])}, states[k].early) {
      ReadsNoted(states, moves, j, k);
    }
    LevelThroughout(nets, moves, Noted(states[k]), states[k].early, k);
  }

  // ---------- the heartbeat that may not come early ----------

  /** Both open, the client beats while it waits for the response, the server takes request and heartbeat,
      the client takes the response and the server the heartbeat that follows. The client's clock reads x
      when it calls, the server's reads y when it answers. */
  function EarlyBeat(x: Word, y: Word): seq<Move> {
    [Move.Acts(Server, Opening(y)), Move.Acts(Client, Opening(x)), Move.Acts(Client, Beating(x)),
     Takes(Server, At(y)), Takes(Server, At(y)), Takes(Client, At(x)), Takes(Server, At(y))]
  }

  lemma AnsweredEarly(nets: seq<Net>, x: Word, y: Word)
    requires IsRun(nets, EarlyBeat(x, y))
    ensures Calls(nets[1], EarlyBeat(x, y)[1]) && BeatsEarly(nets[2], EarlyBeat(x, y)[2])
    ensures Replies(nets[3], EarlyBeat(x, y)[3])
    ensures var n := nets[4];
            && n.client.state.Start? && n.client.role.Client? && n.client.snt == 1
            && n.server.state.Start? && n.server.role.Server? && n.server.snr == 1 && n.server.ctsr == y
            && |n.toServer| == 1 && n.toServer[0].kind == HEARTBEAT && n.toServer[0].seqNum == 1
            && n.toServer[0].confStamp == x
            && |n.toClient| == 1 && n.toClient[0].kind == CONNECTION_RESPONSE
            && n.toClient[0].payload == HANDSHAKE_PAYLOAD && n.toClient[0].confStamp == y
  {
    hide Transition, SafetyCode;
    var moves := EarlyBeat(x, y);
    assert Leads(nets, moves, 0) && Leads(nets, moves, 1) && Leads(nets, moves, 2) && Leads(nets, moves, 3);
    ServerListens(nets[0].server, y);
    ClientCalls(nets[1].client, x);
    ClientBeats(nets[2].client, x);
    ServerAnswers(nets[3].server, nets[3].toServer[0], y);
  }

  /** The server judges the early heartbeat. */
  lemma JudgedEarly(nets: seq<Net>, x: Word, y: Word)
    requires IsRun(nets, EarlyBeat(x, y))
    ensures if Minus(x, y) >= T_MAX then !Blameless(nets[5].sent)
            else
              var n := nets[5];
              && n.client == nets[4].client && n.toClient == nets[4].toClient && n.toServer == []
              && n.server.state.Up? && n.server.role.Server? && n.server.snr == 2 && n.server.ctsr == x
  {
    hide Transition, SafetyCode, Minus, Blameless;
    AnsweredEarly(nets, x, y);
    assert Leads(nets, EarlyBeat(x, y), 4);
    ServerJudges(nets[4].server, nets[4].toServer[0], y);
    MoreSent(nets[4].sent, nets[5].sent, Transition(nets[4].server, Arriving(RecvHb, nets[4].toServer[0], y)).out);
  }

  /** The client takes the response and confirms its timestamp. */
  lemma EstablishedLate(nets: seq<Net>, x: Word, y: Word)
    requires IsRun(nets, EarlyBeat(x, y)) && Minus(x, y) < T_MAX
    ensures var n := nets[6];
            && n.server.state.Up? && n.server.role.Server? && n.server.snr == 2 && n.server.ctsr == x
            && |n.toServer| == 1 && n.toServer[0].kind == HEARTBEAT && n.toServer[0].seqNum == 2
            && n.toServer[0].confStamp == y
  {
    hide Transition, SafetyCode, Minus, Blameless;
    AnsweredEarly(nets, x, y);
    JudgedEarly(nets, x, y);
    assert Leads(nets, EarlyBeat(x, y), 5);
    ClientEstablishes(nets[5].client, nets[5].toClient[0], x);
  }

  lemma SentGrows(n: Net, m: Move)
    ensures n.sent <= Next(n, m).sent
  {
    hide Effect, InputOf, Rest;
  }

  lemma BlameStays(nets: seq<Net>, moves: seq<Move>, j: nat, k: nat)
    requires IsRun(nets, moves) && j <= k < |nets| && !Blameless(nets[j].sent)
    ensures !Blameless(nets[k].sent)
    decreases k - j
  {
    hide BlamesStamp, Next;
    if j < k {
      BlameStays(nets, moves, j, k - 1);
      assert Leads(nets, moves, k - 1);
      SentGrows(nets[k - 1], moves[k - 1]);
      var i :| 0 <= i < |nets[k - 1].sent| && BlamesStamp(nets[k - 1].sent[i]);
      assert nets[k].sent[i] == nets[k - 1].sent[i];
    }
  }

  /** At different readings, the early heartbeat ends in a disconnection for the confirmed timestamp: its
      own if the client's reading is not less than T_MAX after the server's, otherwise that of the
      heartbeat that follows the response. */
  lemma EarlyHeartbeatIsBlamed(nets: seq<Net>, x: Word, y: Word)
    requires IsRun(nets, EarlyBeat(x, y)) && x != y
    ensures !Blameless(nets[7].sent)
  {
    hide Transition, SafetyCode, Minus, Blameless;
    JudgedEarly(nets, x, y);
    if Minus(x, y) >= T_MAX {
      BlameStays(nets, EarlyBeat(x, y), 5, 7);
    } else {
      EstablishedLate(nets, x, y);
      OneIsLater(x, y);
      assert Leads(nets, EarlyBeat(x, y), 6);
      ServerJudges(nets[6].server, nets[6].toServer[0], y);
      MoreSent(nets[6].sent, nets[7].sent, Transition(nets[6].server, Arriving(RecvHb, nets[6].toServer[0], y)).out);
    }
  }

  lemma OneIsLater(x: Word, y: Word)
    requires x != y && Minus(x, y) < T_MAX
    ensures Minus(y, x) >= T_MAX
  {
  }

  /** All states of a sequence of moves. */
  function CalmStates(c: Calm, moves: seq<Move>): (states: seq<Calm>)
    ensures |states| == |moves| + 1 && states[0] == c
    decreases |moves|
  {
    [c] + if moves == [] then [] else CalmStates(Moved(c, moves[0]), moves[1..])
  }

  lemma {:induction false} CalmStatesFollow(c: Calm, moves: seq<Move>, k: nat)
    requires k < |moves|
    ensures CalmStates(c, moves)[k + 1] == Moved(CalmStates(c, moves)[k], moves[k])
    decreases |moves|
  {
    hide Moved;
    if k > 0 {
      CalmStatesFollow(Moved(c, moves[0]), moves[1..], k - 1);
    }
  }

  lemma TakesNeverOpen(n: Net, m: Move)
    requires m.Takes?
    ensures !OpensNow(n, m)
  {
    if Me(n, m.role).state.Closed? && InputOf(n, m).Some? {
      ClosedStaysClosed(Me(n, m.role), InputOf(n, m).value);
    }
    hide Transition;
  }

  lemma ClosedStaysClosed(s: Party, i: Input)
    requires s.state.Closed? && i.Handling? && !Local(i.event)
    ensures Transition(s, i).party.state.Closed?
  {
  }

  lemma EarlyBeatPermitted(states: seq<Calm>, x: Word, y: Word)
    requires states == CalmStates(QUIET, EarlyBeat(x, y))
    ensures IsCalmRun(states, EarlyBeat(x, y))
  {
    hide Next, OpensNow, Calls, BeatsEarly, Replies, CalmStates;
    var moves := EarlyBeat(x, y);
    forall k | 0 <= k < 7 ensures Continues(states, moves, k) {
      CalmStatesFollow(QUIET, moves, k);
      if k == 2 {
        CalmStatesFollow(QUIET, moves, 0);
        CalmStatesFollow(QUIET, moves, 1);
        CallingOpens(states[0].net, states[1].net, moves[0], x, y);
      } else if k >= 3 {
        TakesNeverOpen(states[k].net, moves[k]);
      } else if k == 1 {
        CalmStatesFollow(QUIET, moves, 0);
      }
    }
  }

  /** After the client has called, its own heartbeat does not open it again. */
  lemma CallingOpens(n: Net, n1: Net, m: Move, x: Word, y: Word)
    requires n == NOTHING && m == Move.Acts(Server, Opening(y)) && n1 == Next(n, m)
    ensures !OpensNow(Next(n1, Move.Acts(Client, Opening(x))), Move.Acts(Client, Beating(x)))
  {
    hide Transition;
    ClientCalls(n1.client, x);
  }

  lemma EarlyBeatNotes(states: seq<Calm>, x: Word, y: Word)
    requires IsCalmRun(states, EarlyBeat(x, y))
    ensures states[7].early && states[7].call == Some(x) && states[7].answer == Some(y)
  {
    hide Next, Calls, BeatsEarly, Replies, OpensNow;
    var moves := EarlyBeat(x, y);
    CalmRunsAreRuns(states, moves);
    AnsweredEarly(Nets(states), x, y);
    assert Continues(states, moves, 1) && Continues(states, moves, 2) && Continues(states, moves, 3);
    NotedForGood(states, moves, 2, 7);
    NotedForGood(states, moves, 3, 7);
    NotedForGood(states, moves, 4, 7);
  }

  /** Every run with one connection each that ends with these notes ends without a disconnection for a
      confirmed timestamp. */
  ghost predicate AlwaysBlameless(early: bool, x: Word, y: Word) {
    forall states: seq<Calm>, moves: seq<Move> ::
      IsCalmRun(states, moves) && NotedAs(states[|moves|], early, x, y) ==> Blameless(states[|moves|].net.sent)
  }

  predicate NotedAs(c: Calm, early: bool, x: Word, y: Word) {
    c.early == early && c.call == Some(x) && c.answer == Some(y)
  }

  /** With one connection each, confirmed timestamps are safe exactly when there is no early heartbeat or the
      client's clock at its call and the server's at its answer read the same. */
  lemma BlamelessExactly(early: bool, x: Word, y: Word)
    ensures AlwaysBlameless(early, x, y) <==> (early ==> x == y)
  {
    hide Next, Blameless, Moved, Permitted, CalmStates, EarlyBeat;
    if early ==> x == y {
      forall states: seq<Calm>, moves: seq<Move> | IsCalmRun(states, moves) && NotedAs(states[|moves|], early, x, y)
        ensures Blameless(states[|moves|].net.sent)
      {
        NeverOutOfTime(states, moves, |moves|);
      }
    } else {
      var moves := EarlyBeat(x, y);
      var states := CalmStates(QUIET, moves);
      assert |moves| == 7 by { EarlyBeatLength(x, y); }
      EarlyBeatPermitted(states, x, y);
      EarlyBeatNotes(states, x, y);
      CalmRunsAreRuns(states, moves);
      EarlyHeartbeatIsBlamed(Nets(states), x, y);
      assert NotedAs(states[|moves|], early, x, y) && !Blameless(states[|moves|].net.sent);
    }
  }

  lemma EarlyBeatLength(x: Word, y: Word)
    ensures |EarlyBeat(x, y)| == 7
  {
  }
}
