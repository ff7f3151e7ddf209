/**
 A client and a server joined by two lossless first-in first-out channels, under every interleaving of
 user calls, timers and deliveries and any number of closings and openings.

 Neither ever sees a gap: behind a handshake PDU the channel holds consecutive numbers up to the next PDU
 that ends the connection.
 */
module FifoRuns {
  import opened Words
  import opened Pdu
  import opened Protocol
  import opened PartyRuns

  datatype Net = Net(
    client: Party,
    server: Party,
    toServer: seq<Telegram>,
    toClient: seq<Telegram>,
    sent: seq<Telegram>)

  /** One party acts on its own, or takes the next telegram from its channel. */
  datatype Move =
    | Acts(role: Role, input: Input)
    | Takes(role: Role, env: Env)

  /** What a party can do by itself: a user call or a timer, with whatever PDU the caller passes. */
  predicate Own(i: Input) {
    i.Sending? || Local(i.event)
  }

  predicate Fair(m: Move) {
    m.Acts? ==> Own(m.input)
  }

  const NOTHING: Net := Net(Initial(Client), Initial(Server), [], [], [])

  function Me(n: Net, role: Role): Party {
    if role.Client? then n.client else n.server
  }

  function Incoming(n: Net, role: Role): seq<Telegram> {
    if role.Client? then n.toClient else n.toServer
  }

  /** The input a move amounts to; none when the channel is empty or the type is unknown. */
  function InputOf(n: Net, m: Move): Option<Input> {
    match m
    case Acts(_, i) => Some(i)
    case Takes(role, env) =>
      var q := Incoming(n, role);
      if q == [] || ReceiveEvent(q[0].kind).None? then None
      else Some(Handling(ReceiveEvent(q[0].kind).value, Seal(q[0]), env))
  }

  function Effect(s: Party, i: Option<Input>): Outcome {
    if i.None? then Outcome(s, None, false) else Transition(s, i.value)
  }

  function Sent(out: Option<Telegram>): seq<Telegram> {
    if out.None? then [] else [out.value]
  }

  function Rest(n: Net, m: Move): seq<Telegram> {
    var q := Incoming(n, m.role);
    if m.Takes? && q != [] then q[1..] else q
  }

  function Next(n: Net, m: Move): Net {
    var o := Effect(Me(n, m.role), InputOf(n, m));
    if m.role.Client? then
      Net(o.party, n.server, n.toServer + Sent(o.out), Rest(n, m), n.sent + Sent(o.out))
    else
      Net(n.client, o.party, Rest(n, m), n.toClient + Sent(o.out), n.sent + Sent(o.out))
  }

  /** Move k of a run leads from its state k to its state k + 1. */
  ghost predicate Leads(nets: seq<Net>, moves: seq<Move>, k: nat)
    requires k < |moves| && |nets| == |moves| + 1
  {
    Fair(moves[k]) && nets[k + 1] == Next(nets[k], moves[k])
  }

  /** All states of a run, from the one in which nothing has happened. */
  ghost predicate IsRun(nets: seq<Net>, moves: seq<Move>) {
    && |nets| == |moves| + 1 && nets[0] == NOTHING
    && forall k :: 0 <= k < |moves| ==> Leads(nets, moves, k)
  }

  // ---------- the invariant of one direction ----------

  predicate Tame(s: Party) {
    !s.state.RetrReq? && !s.state.RetrRun?
  }

  predicate Ordinary(t: Telegram) {
    IsHandshake(t) || IsDisc(t) || t.kind == HEARTBEAT || t.kind == DATA
  }

  predicate Ends(t: Telegram) {
    IsHandshake(t) || IsDisc(t)
  }

  /** Not a retransmission request, and not the disconnection for a number out of sequence. */
  predicate Polite(t: Telegram) {
    Ordinary(t) && !(IsDisc(t) && t.payload == [0, 0, 0, SEQ_NBR_ERR_FOR_CONNECTION])
  }

  /** A receiver expecting number n will find exactly that in the channel, and so on until a PDU that
      ends the connection; if it drains the channel first, that is the sender's next number. */
  ghost predicate Chain(n: Word, q: seq<Telegram>, s: Party)
    decreases |q|
  {
    if q == [] then !Live(s) || Plus(s.snt, 1) == n
    else Ends(q[0]) || (q[0].seqNum == n && Chain(Plus(n, 1), q[1..], s))
  }

  ghost predicate Chains(q: seq<Telegram>, s: Party) {
    forall k :: 0 <= k < |q| && IsHandshake(q[k]) ==> Chain(Plus(q[k].seqNum, 1), q[k + 1..], s)
  }

  ghost predicate Direction(s: Party, q: seq<Telegram>, r: Party) {
    && (forall k :: 0 <= k < |q| ==> Ordinary(q[k]))
    && Chains(q, s)
    && (Listening(r) ==> Chain(r.snr, q, s))
  }

  /** What a step does to the party as a sender. */
  ghost predicate SendEffect(s: Party, o: Outcome) {
    match o.out
    case None => !Live(o.party) || (Live(s) && o.party.snt == s.snt)
    case Some(t) =>
      && Polite(t)
      && (IsDisc(t) ==> !Live(o.party))
      && (IsHandshake(t) ==> o.party.snt == t.seqNum)
      && (!Ends(t) ==> Live(s) && o.party.snt == t.seqNum == Plus(s.snt, 1))
  }

  lemma {:induction false} ChainGoesOn(n: Word, q: seq<Telegram>, s: Party, o: Outcome)
    requires Chain(n, q, s) && SendEffect(s, o)
    ensures Chain(n, q + Sent(o.out), o.party)
    decreases |q|
  {
    hide Plus;
    if q == [] {
      assert q + Sent(o.out) == Sent(o.out);
      if o.out.Some? && !Ends(o.out.value) {
        assert [o.out.value][1..] == [];
      }
    } else {
      assert (q + Sent(o.out))[1..] == q[1..] + Sent(o.out);
      if !Ends(q[0]) {
        ChainGoesOn(Plus(n, 1), q[1..], s, o);
      }
    }
  }

  lemma SenderKeeps(s: Party, q: seq<Telegram>, r: Party, o: Outcome)
    requires Direction(s, q, r) && SendEffect(s, o)
    ensures Direction(o.party, q + Sent(o.out), r)
  {
    hide Plus, Chain;
    var q1 := q + Sent(o.out);
    forall k | 0 <= k < |q1| && IsHandshake(q1[k]) ensures Chain(Plus(q1[k].seqNum, 1), q1[k + 1..], o.party) {
      if k < |q| {
        assert q1[k + 1..] == q[k + 1..] + Sent(o.out);
        ChainGoesOn(Plus(q[k].seqNum, 1), q[k + 1..], s, o);
      } else {
        assert q1[k + 1..] == [];
        ChainEmpty(Plus(q1[k].seqNum, 1), o.party);
      }
    }
    if Listening(r) {
      ChainGoesOn(r.snr, q, s, o);
    }
  }

  lemma ChainEmpty(n: Word, s: Party)
    requires !Live(s) || Plus(s.snt, 1) == n
    ensures Chain(n, [], s)
  {
  }

  lemma ChainHead(n: Word, q: seq<Telegram>, s: Party)
    requires q != [] && Chain(n, q, s) && !Ends(q[0])
    ensures q[0].seqNum == n && Chain(Plus(n, 1), q[1..], s)
  {
  }

  // ---------- what the two kinds of move do ----------

  lemma OwnMove(s: Party, i: Input)
    requires Tame(s) && Own(i) && WaitsAsServer(s)
    ensures var o := Transition(s, i);
            Tame(o.party) && SendEffect(s, o) && !o.took && ReceiptEffect(s, i, o)
  {
    StepReceipts(s, i);
    StepNumbers(s, i);
    OwnMovePolite(s, i);
    hide Transition, Plus, ReceiptEffect;
  }

  lemma OwnMovePolite(s: Party, i: Input)
    requires Tame(s) && Own(i)
    ensures var o := Transition(s, i);
            && Tame(o.party) && !o.took
            && (o.out.Some? ==> Polite(o.out.value) && (IsDisc(o.out.value) <==> !Live(o.party)))
  {
    hide Plus, Minus, Signed, SafetyCode;
  }

  lemma TakenMovePolite(r: Party, t: Telegram, env: Env)
    requires Tame(r) && Ordinary(t) && (Listening(r) && !Ends(t) ==> t.seqNum == r.snr)
    ensures ReceiveEvent(t.kind).Some?
    ensures var o := Transition(r, Handling(ReceiveEvent(t.kind).value, Seal(t), env));
            && Tame(o.party)
            && (o.out.Some? ==> Polite(o.out.value) && (IsDisc(o.out.value) <==> !Live(o.party)))
            && (Listening(r) && !o.party.state.Closed? ==> o.took && !Ends(t))
            && (o.took && !Listening(r) ==> IsHandshake(t))
  {
    var e := ReceiveEvent(t.kind).value;
    PlainGuards(r, e, Seal(t), env.available);
    Guards(r, e, Seal(t), env.available);
    hide Plus, Minus, Signed, SafetyCode, Decide, VersionMatches, ConfirmedStampInSequence;
  }

  lemma TakenMove(r: Party, t: Telegram, env: Env)
    requires Tame(r) && WaitsAsServer(r) && Ordinary(t) && (Listening(r) && !Ends(t) ==> t.seqNum == r.snr)
    ensures ReceiveEvent(t.kind).Some?
    ensures var i := Handling(ReceiveEvent(t.kind).value, Seal(t), env);
            var o := Transition(r, i);
            && Tame(o.party) && SendEffect(r, o) && ReceiptEffect(r, i, o)
            && (Listening(r) && !o.party.state.Closed? ==> o.took && !Ends(t))
            && (o.took && !Listening(r) ==> IsHandshake(t))
  {
    TakenMovePolite(r, t, env);
    var i := Handling(ReceiveEvent(t.kind).value, Seal(t), env);
    StepReceipts(r, i);
    StepNumbers(r, i);
    hide Transition, Plus, ReceiptEffect, Seal;
  }

  // ---------- the whole net ----------

  ghost predicate Orderly(n: Net) {
    && Tame(n.client) && Tame(n.server)
    && WaitsAsServer(n.client) && WaitsAsServer(n.server)
    && Direction(n.client, n.toServer, n.server)
    && Direction(n.server, n.toClient, n.client)
    && (forall k :: 0 <= k < |n.sent| ==> Polite(n.sent[k]))
  }

  /** Taking the head of the channel keeps the direction it comes from. */
  lemma ReceiverKeeps(s: Party, q: seq<Telegram>, r: Party, i: Input, o: Outcome)
    requires q != [] && Direction(s, q, r) && ReceiptEffect(r, i, o) && PduOf(r, i).tel == q[0]
    requires Listening(r) && !o.party.state.Closed? ==> o.took && !Ends(q[0])
    requires o.took && !Listening(r) ==> IsHandshake(q[0])
    ensures Direction(s, q[1..], o.party)
  {
    hide Plus, Chain, PduOf;
    forall k | 0 <= k < |q[1..]|
      && IsHandshake(q[1..][k]) ensures Chain(Plus(q[1..][k].seqNum, 1), q[1..][k + 1..], s) {
      assert q[1..][k + 1..] == q[k + 2..];
      assert q[1..][k] == q[k + 1];
    }
    if Listening(o.party) && Listening(r) {
      ChainHead(r.snr, q, s);
    }
  }

  /** Acting on its own keeps the direction a party listens to. */
  lemma ListenerKeeps(s: Party, q: seq<Telegram>, r: Party, i: Input, o: Outcome)
    requires Direction(s, q, r) && ReceiptEffect(r, i, o) && !o.took
    ensures Direction(s, q, o.party)
  {
  }

  /** One party's step keeps both directions: the one it listens to and the one it sends into. */
  lemma MoveKeeps(me: Party, peer: Party, incoming: seq<Telegram>, outgoing: seq<Telegram>, m: Move, n: Net)
    requires Fair(m) && me == Me(n, m.role) && incoming == Incoming(n, m.role)
    requires Tame(me) && WaitsAsServer(me)
    requires Direction(peer, incoming, me) && Direction(me, outgoing, peer)
    ensures var o := Effect(me, InputOf(n, m));
            && Tame(o.party) && WaitsAsServer(o.party)
            && Direction(peer, Rest(n, m), o.party)
            && Direction(o.party, outgoing + Sent(o.out), peer)
            && (o.out.Some? ==> Polite(o.out.value))
  {
    hide Transition, Direction, SafetyCode;
    var o := Effect(me, InputOf(n, m));
    if m.Acts? {
      OwnMove(me, m.input);
      ListenerKeeps(peer, incoming, me, m.input, o);
      SenderKeeps(me, outgoing, peer, o);
    } else if incoming == [] {
      assert outgoing + [] == outgoing;
    } else {
      HeadFits(peer, incoming, me);
      TakenMove(me, incoming[0], m.env);
      ReceiverKeeps(peer, incoming, me, InputOf(n, m).value, o);
      SenderKeeps(me, outgoing, peer, o);
    }
  }

  lemma HeadFits(s: Party, q: seq<Telegram>, r: Party)
    requires q != [] && Direction(s, q, r)
    ensures Ordinary(q[0]) && (Listening(r) && !Ends(q[0]) ==> q[0].seqNum == r.snr)
  {
  }

  lemma NextKeeps(n: Net, m: Move)
    requires Orderly(n) && Fair(m)
    ensures Orderly(Next(n, m))
  {
    hide Direction, Effect, InputOf, Rest;
    if m.role.Client? {
      MoveKeeps(n.client, n.server, n.toClient, n.toServer, m, n);
    } else {
      MoveKeeps(n.server, n.client, n.toServer, n.toClient, m, n);
    }
  }

  lemma {:induction false} RunStaysOrderly(nets: seq<Net>, moves: seq<Move>, k: nat)
    requires IsRun(nets, moves) && k < |nets|
    ensures Orderly(nets[k])
  {
    hide Orderly, Next;
    if k == 0 {
      NothingIsOrderly();
    } else {
      RunStaysOrderly(nets, moves, k - 1);
      assert Leads(nets, moves, k - 1);
      NextKeeps(nets[k - 1], moves[k - 1]);
    }
  }

  lemma NothingIsOrderly()
    ensures Orderly(NOTHING)
  {
  }

  /** In no interleaving does a party ever enter a retransmission state, ask for a retransmission, or
      disconnect because of a number out of sequence. */
  lemma NeverOutOfSequence(nets: seq<Net>, moves: seq<Move>, k: nat)
    requires IsRun(nets, moves) && k < |nets|
    ensures Tame(nets[k].client) && Tame(nets[k].server)
    ensures forall j :: 0 <= j < |nets[k].sent| ==>
              && nets[k].sent[j].kind != RETRANSMISSION_REQUEST
              && !(IsDisc(nets[k].sent[j]) && nets[k].sent[j].payload == [0, 0, 0, SEQ_NBR_ERR_FOR_CONNECTION])
  {
    hide Next;
    RunStaysOrderly(nets, moves, k);
  }
}
