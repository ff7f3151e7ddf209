/**
 A client and a server over a network that may lose, duplicate and reorder what was sent but forges
 nothing: any telegram ever sent may be delivered any number of times, at any time, or never.

 With one connection each and fewer than 2^32 sends, what one accepts is a prefix of what the other sent.
 */
module LossyRuns {
  import opened Words
  import opened Pdu
  import opened Protocol
  import opened PartyRuns
  import opened FifoRuns

  datatype World = World(client: History, server: History, fromClient: seq<Telegram>, fromServer: seq<Telegram>)

  /** One party acts on its own, or gets the telegram the other sent as number index, counting from 0. */
  datatype Happening = Acts(role: Role, input: Input) | Gets(role: Role, index: nat, env: Env)

  predicate Possible(e: Happening) {
    e.Acts? ==> Own(e.input)
  }

  function Beginning(): World {
    World(NewHistory(Client), NewHistory(Server), [], [])
  }

  function Mine(w: World, role: Role): History {
    if role.Client? then w.client else w.server
  }

  /** What the network may deliver to a party. */
  function Pool(w: World, role: Role): seq<Telegram> {
    if role.Client? then w.fromServer else w.fromClient
  }

  function InputFor(w: World, e: Happening): Option<Input> {
    match e
    case Acts(_, i) => Some(i)
    case Gets(role, k, env) =>
      var pool := Pool(w, role);
      if k >= |pool| || ReceiveEvent(pool[k].kind).None? then None
      else Some(Handling(ReceiveEvent(pool[k].kind).value, Seal(pool[k]), env))
  }

  function Progress(h: History, i: Option<Input>): History {
    if i.None? then h else Advance(h, i.value)
  }

  function NextWorld(w: World, e: Happening): World {
    var i := InputFor(w, e);
    var h := Mine(w, e.role);
    var out := Sent(Effect(h.party, i).out);
    if e.role.Client? then World(Progress(h, i), w.server, w.fromClient + out, w.fromServer)
    else World(w.client, Progress(h, i), w.fromClient, w.fromServer + out)
  }

  /** Happening k of a run leads from its world k to its world k + 1. */
  ghost predicate Passes(worlds: seq<World>, events: seq<Happening>, k: nat)
    requires k < |events| && |worlds| == |events| + 1
  {
    Possible(events[k]) && worlds[k + 1] == NextWorld(worlds[k], events[k])
  }

  /** All worlds of a run, from the beginning. */
  ghost predicate IsLossyRun(worlds: seq<World>, events: seq<Happening>) {
    && |worlds| == |events| + 1 && worlds[0] == Beginning()
    && forall k :: 0 <= k < |events| ==> Passes(worlds, events, k)
  }

  /** One connection per party and fewer than 2^32 sends. */
  predicate Bounded(w: World) {
    && w.client.openings <= 1 && w.server.openings <= 1
    && |w.fromClient| < 0x1_0000_0000 && |w.fromServer| < 0x1_0000_0000
  }

  // ---------- one party as a sender ----------

  /** Before its only opening a party sends nothing but disconnection requests; afterwards they come last. */
  ghost predicate SendsOnce(h: History, pool: seq<Telegram>) {
    var sent := h.numbers.sent;
    && |sent| <= |pool|
    && (forall k :: 0 <= k < |pool| ==> IsDisc(pool[k]) || pool[k] in sent)
    && (forall j, k :: 0 <= j < k < |sent| && IsDisc(sent[j]) ==> IsDisc(sent[k]))
    && (!h.party.state.Closed? ==> h.openings == 1 && forall k :: 0 <= k < |sent| ==> !IsDisc(sent[k]))
    && (h.openings == 0 ==> forall k :: 0 <= k < |sent| ==> IsDisc(sent[k]))
  }

  lemma SenderStep(h: History, pool: seq<Telegram>, i: Input)
    requires Kept(h, false) && SendsOnce(h, pool) && Legal(i) && Advance(h, i).openings <= 1
    ensures SendsOnce(Advance(h, i), pool + Sent(Transition(h.party, i).out))
  {
    hide Transition, Receipted, Accounted, Plus, Consecutive, ReceiptsKept, PduOf, Legal, Rejects, LastNumber;
    StepNumbers(h.party, i);
    StepEnds(h.party, i);
    var o := Transition(h.party, i);
    var sent, sent1 := h.numbers.sent, Advance(h, i).numbers.sent;
    if Opens(h.party, o.party) {
      assert sent1 == Sent(o.out);
    } else {
      assert sent1 == sent + Sent(o.out);
    }
  }

  /** The telegram at position k that is not a disconnection request carries the k-th number. */
  lemma {:induction false} NumberAt(h: History, pool: seq<Telegram>, k: nat)
    requires Kept(h, false) && SendsOnce(h, pool) && k < |h.numbers.sent| && !IsDisc(h.numbers.sent[k])
    ensures h.numbers.sent[k].seqNum == Plus(h.numbers.first, k)
    ensures IsHandshake(h.numbers.sent[k]) <==> k == 0
    decreases k
  {
    hide ReceiptsKept;
    if k == 0 {
      PlusZero(h.numbers.first);
    } else {
      NumberAt(h, pool, k - 1);
      PlusPlus(h.numbers.first, k - 1, 1);
    }
  }

  // ---------- one direction ----------

  /** The receiver has accepted the first telegrams the sender sent, none of them a disconnection request. */
  ghost predicate Follows(receiver: History, sender: History) {
    var accepted, sent := receiver.receipts.accepted, sender.numbers.sent;
    && |accepted| <= |sent|
    && forall k :: 0 <= k < |accepted| ==> accepted[k].tel == sent[k] && !IsDisc(sent[k])
  }

  lemma NothingFollowed(receiver: History, sender: History)
    requires Follows(receiver, sender) && forall t :: t in sender.numbers.sent ==> IsDisc(t)
    ensures receiver.receipts.accepted == []
  {
    if receiver.receipts.accepted != [] {
      FirstFollowed(receiver, sender);
      assert false;
    }
  }

  lemma FirstFollowed(receiver: History, sender: History)
    requires Follows(receiver, sender) && receiver.receipts.accepted != []
    ensures exists t :: t in sender.numbers.sent && !IsDisc(t)
  {
    assert receiver.receipts.accepted[0].tel in sender.numbers.sent;
  }

  lemma SenderKeepsFollowing(receiver: History, sender: History, pool: seq<Telegram>, i: Input)
    requires Follows(receiver, sender) && SendsOnce(sender, pool) && Advance(sender, i).openings <= 1
    ensures Follows(receiver, Advance(sender, i))
  {
    hide Transition, Receipted, Accounted;
    var o := Transition(sender.party, i);
    if Opens(sender.party, o.party) {
      assert sender.openings == 0;
      NothingFollowed(receiver, sender);
    } else {
      assert Advance(sender, i).numbers.sent == sender.numbers.sent + Sent(o.out);
    }
  }

  lemma OwnTakesNothing(s: Party, i: Input)
    requires Own(i)
    ensures Legal(i) && !Transition(s, i).took
  {
    hide Plus, Minus, Signed, SafetyCode, Decide;
    Guards(Before(s, i), EventOf(i), PduOf(s, i), i.env.available);
  }

  lemma DiscNeverTaken(s: Party, i: Input)
    requires Legal(i) && IsDisc(PduOf(s, i).tel)
    ensures !Transition(s, i).took
  {
    hide Plus, Minus, Signed, SafetyCode, Decide;
    Guards(Before(s, i), EventOf(i), PduOf(s, i), i.env.available);
  }

  lemma NotTakenFollows(receiver: History, sender: History, i: Input)
    requires Follows(receiver, sender) && !Transition(receiver.party, i).took
    ensures Follows(Advance(receiver, i), sender)
  {
    hide Transition, Numbered, Accounted;
  }

  lemma SameNumber(first: Word, k: nat, n: nat)
    requires k < 0x1_0000_0000 && n < 0x1_0000_0000 && Plus(first, k) == Plus(first, n)
    ensures k == n
  {
  }

  /** Whatever was ever sent, the receiver takes only the telegram it is waiting for. */
  lemma TakenIsNext(receiver: History, sender: History, pool: seq<Telegram>, t: Telegram, env: Env)
    requires Kept(receiver, false) && Kept(sender, false) && SendsOnce(sender, pool) && Follows(receiver, sender)
    requires t in pool && |pool| < 0x1_0000_0000 && ReceiveEvent(t.kind).Some?
    ensures Follows(Advance(receiver, Handling(ReceiveEvent(t.kind).value, Seal(t), env)), sender)
  {
    var i := Handling(ReceiveEvent(t.kind).value, Seal(t), env);
    if !Transition(receiver.party, i).took {
      NotTakenFollows(receiver, sender, i);
    } else {
      if IsDisc(t) {
        DiscNeverTaken(receiver.party, i);
      }
      var sent := sender.numbers.sent;
      var k :| 0 <= k < |sent| && sent[k] == t;
      NumberAt(sender, pool, k);
      TakenAt(receiver, sender, pool, i, k);
    }
  }

  lemma TakenAt(receiver: History, sender: History, pool: seq<Telegram>, i: Input, k: nat)
    requires Kept(receiver, false) && Kept(sender, false) && SendsOnce(sender, pool) && Follows(receiver, sender)
    requires Legal(i) && i.Handling? && Transition(receiver.party, i).took && |pool| < 0x1_0000_0000
    requires k < |sender.numbers.sent| && i.pdu.tel == sender.numbers.sent[k] && !IsDisc(i.pdu.tel)
    requires i.pdu.tel.seqNum == Plus(sender.numbers.first, k) && (IsHandshake(i.pdu.tel) <==> k == 0)
    ensures Follows(Advance(receiver, i), sender)
  {
    hide Transition, Numbered, NumbersKept, Accounted, Plus, Listening;
    var accepted := receiver.receipts.accepted;
    StepReceipts(receiver.party, i);
    ReceiptsOf(receiver);
    if Listening(receiver.party) {
      var last := |accepted| - 1;
      NumberAt(sender, pool, last);
      PlusPlus(sender.numbers.first, last, 1);
      SameNumber(sender.numbers.first, k, |accepted|);
    }
    assert k == |accepted|;
  }

  lemma ReceiptsOf(h: History)
    requires Kept(h, false)
    ensures var r, s := h.receipts, h.party;
      && (Listening(s) ==> r.accepted != [] && s.snr == Plus(r.accepted[|r.accepted| - 1].tel.seqNum, 1))
      && (!Listening(s) && !s.state.Closed? ==> r.accepted == [])
      && WaitsAsServer(s)
  {
  }

  // ---------- the whole world ----------

  ghost predicate Faithful(w: World) {
    && Kept(w.client, false) && Kept(w.server, false)
    && SendsOnce(w.client, w.fromClient) && SendsOnce(w.server, w.fromServer)
    && Follows(w.server, w.client) && Follows(w.client, w.server)
  }

  lemma EventKeeps(me: History, peer: History, mine: seq<Telegram>, pool: seq<Telegram>, e: Happening, w: World)
    requires Possible(e) && me == Mine(w, e.role) && pool == Pool(w, e.role)
    requires Kept(me, false) && Kept(peer, false) && SendsOnce(me, mine) && SendsOnce(peer, pool)
    requires Follows(me, peer) && Follows(peer, me)
    requires Progress(me, InputFor(w, e)).openings <= 1 && |pool| < 0x1_0000_0000
    ensures var h := Progress(me, InputFor(w, e));
            && Kept(h, false) && Follows(h, peer) && Follows(peer, h)
            && SendsOnce(h, mine + Sent(Effect(me.party, InputFor(w, e)).out))
  {
    hide Kept, Transition, Advance, Follows, SafetyCode;
    var input := InputFor(w, e);
    if input.None? {
      assert mine + [] == mine;
    } else {
      var i := input.value;
      if e.Acts? {
        OwnTakesNothing(me.party, i);
        NotTakenFollows(me, peer, i);
      } else {
        assert pool[e.index] in pool;
        TakenIsNext(me, peer, pool, pool[e.index], e.env);
      }
      StepKeeps(me, i, false);
      SenderStep(me, mine, i);
      SenderKeepsFollowing(peer, me, mine, i);
    }
  }

  lemma NextFaithful(w: World, e: Happening)
    requires Faithful(w) && Possible(e) && Bounded(w) && Bounded(NextWorld(w, e))
    ensures Faithful(NextWorld(w, e))
  {
    hide Kept, Follows, SendsOnce, InputFor, Progress, Effect;
    if e.role.Client? {
      EventKeeps(w.client, w.server, w.fromClient, w.fromServer, e, w);
    } else {
      EventKeeps(w.server, w.client, w.fromServer, w.fromClient, e, w);
    }
  }

  lemma BoundedBefore(w: World, e: Happening)
    requires Bounded(NextWorld(w, e))
    ensures Bounded(w)
  {
    hide Transition, Numbered, Receipted, Accounted;
  }

  lemma {:induction false} FaithfulThroughout(worlds: seq<World>, events: seq<Happening>, k: nat)
    requires IsLossyRun(worlds, events) && k < |worlds| && Bounded(worlds[k])
    ensures Faithful(worlds[k])
  {
    hide Faithful, Bounded, NextWorld, Beginning;
    if k == 0 {
      BeginningFaithful();
    } else {
      assert Passes(worlds, events, k - 1);
      BoundedBefore(worlds[k - 1], events[k - 1]);
      FaithfulThroughout(worlds, events, k - 1);
      NextFaithful(worlds[k - 1], events[k - 1]);
    }
  }

  /** What one party accepted is a prefix of what the other sent in its connection. */
  lemma AcceptedIsPrefixOfSent(worlds: seq<World>, events: seq<Happening>, k: nat)
    requires IsLossyRun(worlds, events) && k < |worlds| && Bounded(worlds[k])
    ensures var w := worlds[k];
            && Telegrams(w.server.receipts.accepted) <= w.client.numbers.sent
            && Telegrams(w.client.receipts.accepted) <= w.server.numbers.sent
  {
    hide IsLossyRun, Kept, Bounded, SendsOnce;
    FaithfulThroughout(worlds, events, k);
  }

  lemma BeginningFaithful()
    ensures Faithful(Beginning())
  {
    hide Kept;
    StartKept(Client, false);
    StartKept(Server, false);
  }

  function Telegrams(pdus: seq<Pdu>): (tels: seq<Telegram>)
    ensures |tels| == |pdus|
  {
    seq(|pdus|, k requires 0 <= k < |pdus| => pdus[k].tel)
  }
}
