/**
 What becomes of the users' data: between the two users of FifoRuns, over lossless channels and any number of
 closings and openings, and between those of LossyRuns, over a network that loses, duplicates and reorders.
 */
module DataRuns {
  import opened Words
  import opened Pdu
  import opened Protocol
  import opened PartyRuns
  import opened FifoRuns
  import opened Laws
  import LossyRuns

  /** The payloads of the data telegrams among these. */
  function DataIn(tels: seq<Telegram>): seq<Payload>
    decreases |tels|
  {
    if tels == [] then []
    else (if tels[0].kind == 6240 then [tels[0].payload] else []) + DataIn(tels[1..])
  }

  lemma {:induction false} DataInConcat(x: seq<Telegram>, y: seq<Telegram>)
    ensures DataIn(x + y) == DataIn(x) + DataIn(y)
    decreases |x|
  {
    if x == [] {
      assert x + y == y;
    } else {
      assert (x + y)[1..] == x[1..] + y;
      DataInConcat(x[1..], y);
    }
  }

  lemma {:induction false} NoData(tels: seq<Telegram>)
    requires forall k :: 0 <= k < |tels| ==> tels[k].kind != 6240
    ensures DataIn(tels) == []
    decreases |tels|
  {
    if tels != [] {
      NoData(tels[1..]);
    }
  }

  lemma {:induction false} DataThere(tels: seq<Telegram>, k: nat)
    requires k < |tels| && tels[k].kind == 6240
    ensures DataIn(tels) != []
    decreases |tels|
  {
    if k > 0 {
      DataThere(tels[1..], k - 1);
    }
  }

  predicate EndsWith(whole: seq<Payload>, part: seq<Payload>) {
    |part| <= |whole| && whole[|whole| - |part|..] == part
  }

  /** part is a contiguous stretch of whole. */
  ghost predicate Stretch(whole: seq<Payload>, part: seq<Payload>) {
    exists i :: StandsAt(whole, part, i)
  }

  predicate StandsAt(whole: seq<Payload>, part: seq<Payload>, i: int) {
    0 <= i <= |whole| - |part| && whole[i..i + |part|] == part
  }

  lemma StretchGrows(whole: seq<Payload>, part: seq<Payload>, more: seq<Payload>)
    requires Stretch(whole, part)
    ensures Stretch(whole + more, part)
  {
    var i :| StandsAt(whole, part, i);
    assert StandsAt(whole + more, part, i);
  }

  lemma EndStretches(whole: seq<Payload>, part: seq<Payload>)
    requires EndsWith(whole, part)
    ensures Stretch(whole, part)
  {
    assert StandsAt(whole, part, |whole| - |part|);
  }

  lemma EndGrows(whole: seq<Payload>, part: seq<Payload>, more: seq<Payload>)
    requires EndsWith(whole, part)
    ensures EndsWith(whole + more, part + more)
  {
    assert (whole + more)[|whole| - |part|..] == whole[|whole| - |part|..] + more;
  }

  // ---------- one step ----------

  /** What a user hands over on a connection; sends without one are refused. */
  function Submitted(s: Party, i: Option<Input>): seq<Payload> {
    if i.Some? && i.value.Sending? && Connected(s) then [i.value.data] else []
  }

  /** Exactly the data that is handed over is put into a data telegram. */
  lemma SubmittedIsSent(s: Party, i: Option<Input>)
    requires i.Some? ==> Legal(i.value)
    ensures DataIn(Sent(Effect(s, i).out)) == Submitted(s, i)
  {
    if i.Some? {
      SentWhen(s, i.value);
      if Transition(s, i.value).out.Some? {
        SentSays(s, i.value);
      }
    }
    hide Transition;
  }

  // ---------- over lossless channels ----------

  /** What a user has handed over, what data its party has taken from the channel, what of it was accepted
      in the present connection, and how often the party has opened. */
  datatype Book = Book(given: seq<Payload>, taken: seq<Payload>, accepted: seq<Payload>, openings: nat)

  function Head(n: Net, m: Move): seq<Telegram> {
    var q := Incoming(n, m.role);
    if m.Takes? && q != [] then [q[0]] else []
  }

  /** What a receiver has accepted after it has taken head from the channel, if anything. */
  function Credited(accepted: seq<Payload>, r: Party, head: seq<Telegram>, o: Outcome): seq<Payload> {
    (if Opens(r, o.party) then [] else accepted) + (if o.took then DataIn(head) else [])
  }

  /** The book of the party that moves. */
  function Booked(b: Book, n: Net, m: Move): Book {
    var s, i := Me(n, m.role), InputOf(n, m);
    var o := Effect(s, i);
    Book(b.given + Submitted(s, i),
         b.taken + DataIn(Head(n, m)),
         Credited(b.accepted, s, Head(n, m), o),
         b.openings + One(Opens(s, o.party)))
  }

  /** A party's book after the first k moves of a run. */
  function BookAfter(nets: seq<Net>, moves: seq<Move>, role: Role, k: nat): Book
    requires k <= |moves| <= |nets|
  {
    if k == 0 then Book([], [], [], 0)
    else
      var b := BookAfter(nets, moves, role, k - 1);
      if moves[k - 1].role == role then Booked(b, nets[k - 1], moves[k - 1]) else b
  }

  /** One direction: what was handed over has been taken or is on its way, and what was accepted is a stretch
      of what was taken, its end while the peer is followed. */
  ghost predicate Delivers(given: seq<Payload>, q: seq<Telegram>, r: Party, taken: seq<Payload>,
      accepted: seq<Payload>)
  {
    && given == taken + DataIn(q)
    && Stretch(taken, accepted)
    && (Listening(r) ==> EndsWith(taken, accepted))
    && (!Listening(r) && !r.state.Closed? ==> accepted == [])
  }

  /** The same for a sender that has opened once at most: its handshake telegram is ahead of all its data. */
  ghost predicate DeliversAll(s: Party, openings: nat, given: seq<Payload>, q: seq<Telegram>, r: Party,
      taken: seq<Payload>, accepted: seq<Payload>)
  {
    && (openings == 0 ==> s.state.Closed?)
    && (openings == 0 || s.state.Down? ==> given == [])
    && (forall k :: 0 <= k < |q| && IsHandshake(q[k]) ==> taken == [] && DataIn(q[..k]) == [])
    && accepted <= taken
    && (Listening(r) ==> accepted == taken)
  }

  /** What a move does to a party as a receiver; head is the telegram it takes, if any. */
  ghost predicate Hears(s: Party, head: seq<Telegram>, o: Outcome) {
    && |head| <= 1
    && (Opens(s, o.party) ==> !o.took && !Listening(o.party))
    && (o.took ==> head != [] && Listening(o.party) && !s.state.Closed?)
    && (o.took && !Listening(s) ==> IsHandshake(head[0]))
    && (!o.took && Listening(o.party) ==> Listening(s) && head == [])
    && (!Listening(o.party) && !o.party.state.Closed? ==> Opens(s, o.party) || (!Listening(s) && !s.state.Closed?))
  }

  lemma MoveHears(me: Party, peer: Party, m: Move, n: Net)
    requires Fair(m) && me == Me(n, m.role) && Tame(me) && WaitsAsServer(me)
    requires Direction(peer, Incoming(n, m.role), me)
    ensures Hears(me, Head(n, m), Effect(me, InputOf(n, m)))
    ensures InputOf(n, m).Some? ==> Legal(InputOf(n, m).value)
  {
    var q := Incoming(n, m.role);
    if m.Acts? {
      OwnMove(me, m.input);
    } else if q != [] {
      HeadFits(peer, q, me);
      TakenMove(me, q[0], m.env);
    }
    hide Transition, Direction, SafetyCode, SendEffect, Plus, Minus, VersionMatches, Tame, Listening;
  }

  /** What a move does to a party as a sender. */
  ghost predicate Gives(s: Party, data: seq<Payload>, o: Outcome) {
    && DataIn(Sent(o.out)) == data
    && (data != [] ==> Connected(s))
    && (o.out.Some? && IsHandshake(o.out.value) ==> Opens(s, o.party) || s.state.Down?)
    && (o.party.state.Down? ==> Opens(s, o.party) || s.state.Down?)
  }

  lemma StepGives(s: Party, i: Option<Input>)
    requires i.Some? ==> Legal(i.value)
    ensures Gives(s, Submitted(s, i), Effect(s, i))
  {
    SubmittedIsSent(s, i);
    if i.Some? {
      StepNumbers(s, i.value);
    }
    hide Transition, Plus, Refuses, DataIn;
  }

  // ---------- both directions of a step ----------

  lemma SenderDelivers(given: seq<Payload>, q: seq<Telegram>, r: Party, taken: seq<Payload>, accepted: seq<Payload>,
      out: seq<Telegram>)
    requires Delivers(given, q, r, taken, accepted)
    ensures Delivers(given + DataIn(out), q + out, r, taken, accepted)
  {
    hide DataIn, Stretch, EndsWith, Listening;
    DataInConcat(q, out);
  }

  lemma HandshakeHoldsNone(t: Telegram)
    requires IsHandshake(t)
    ensures DataIn([t]) == []
  {
    NoData([t]);
  }

  lemma NothingEnds(whole: seq<Payload>)
    ensures EndsWith(whole, []) && Stretch(whole, [])
  {
    assert whole[|whole|..] == [];
    EndStretches(whole, []);
  }

  lemma CreditedIs(accepted: seq<Payload>, r: Party, head: seq<Telegram>, o: Outcome)
    requires Hears(r, head, o)
    ensures Credited(accepted, r, head, o) ==
            if Opens(r, o.party) then [] else if o.took then accepted + DataIn(head) else accepted
  {
    hide DataIn, Listening;
    assert accepted + [] == accepted;
  }

  lemma NoneTaken(taken: seq<Payload>)
    ensures taken + DataIn([]) == taken
  {
  }

  lemma ReceiverDelivers(given: seq<Payload>, head: seq<Telegram>, rest: seq<Telegram>, r: Party,
      taken: seq<Payload>, accepted: seq<Payload>, o: Outcome)
    requires Delivers(given, head + rest, r, taken, accepted) && Hears(r, head, o)
    ensures Delivers(given, rest, o.party, taken + DataIn(head), Credited(accepted, r, head, o))
  {
    hide DataIn, Stretch, EndsWith, Listening, Opens, Credited;
    var all := taken + DataIn(head);
    DataInConcat(head, rest);
    assert given == all + DataIn(rest);
    CreditedIs(accepted, r, head, o);
    NothingEnds(all);
    if o.took {
      if Listening(r) {
        EndGrows(taken, accepted, DataIn(head));
        EndStretches(all, accepted + DataIn(head));
      } else {
        assert head == [head[0]];
        HandshakeHoldsNone(head[0]);
        assert accepted + DataIn(head) == [];
      }
    } else {
      StretchGrows(taken, accepted, DataIn(head));
      if head == [] {
        NoneTaken(taken);
      }
    }
  }

  lemma SenderDeliversAll(s: Party, openings: nat, given: seq<Payload>, q: seq<Telegram>, r: Party,
      taken: seq<Payload>, accepted: seq<Payload>, data: seq<Payload>, o: Outcome)
    requires Delivers(given, q, r, taken, accepted) && DeliversAll(s, openings, given, q, r, taken, accepted)
    requires Gives(s, data, o) && openings + One(Opens(s, o.party)) <= 1
    ensures DeliversAll(o.party, openings + One(Opens(s, o.party)), given + data, q + Sent(o.out), r, taken, accepted)
  {
    hide DataIn, Stretch, EndsWith, Listening;
    var q1 := q + Sent(o.out);
    forall k | 0 <= k < |q1| && IsHandshake(q1[k]) ensures taken == [] && DataIn(q1[..k]) == [] {
      if k < |q| {
        assert q1[..k] == q[..k];
      } else {
        assert q1[..k] == q;
      }
    }
  }

  lemma ReceiverDeliversAll(s: Party, openings: nat, given: seq<Payload>, head: seq<Telegram>, rest: seq<Telegram>,
      r: Party, taken: seq<Payload>, accepted: seq<Payload>, o: Outcome)
    requires Delivers(given, head + rest, r, taken, accepted) && Hears(r, head, o)
    requires DeliversAll(s, openings, given, head + rest, r, taken, accepted)
    ensures DeliversAll(s, openings, given, rest, o.party, taken + DataIn(head), Credited(accepted, r, head, o))
  {
    hide DataIn, Stretch, EndsWith, Listening, Opens, Credited;
    var q := head + rest;
    forall k | 0 <= k < |rest| && IsHandshake(rest[k]) ensures taken + DataIn(head) == [] && DataIn(rest[..k]) == [] {
      assert q[k + |head|] == rest[k];
      assert q[..k + |head|] == head + rest[..k];
      DataInConcat(head, rest[..k]);
    }
    CreditedIs(accepted, r, head, o);
    if o.took && !Listening(r) {
      assert q[0] == head[0] && head == [head[0]];
      HandshakeHoldsNone(head[0]);
      assert accepted + DataIn(head) == [] && taken + DataIn(head) == [];
    } else if head == [] {
      NoneTaken(taken);
    }
  }

  // ---------- runs ----------

  /** The direction from a sender with its book to a receiver with its own. */
  ghost predicate Carries(s: Party, mine: Book, q: seq<Telegram>, r: Party, theirs: Book) {
    && Delivers(mine.given, q, r, theirs.taken, theirs.accepted)
    && (mine.openings <= 1 ==> DeliversAll(s, mine.openings, mine.given, q, r, theirs.taken, theirs.accepted))
  }

  lemma HeadAndRest(n: Net, m: Move)
    ensures Head(n, m) + Rest(n, m) == Incoming(n, m.role)
  {
  }

  lemma MoveCarries(me: Party, peer: Party, outgoing: seq<Telegram>, m: Move, n: Net, mine: Book, theirs: Book)
    requires Fair(m) && me == Me(n, m.role) && Tame(me) && WaitsAsServer(me)
    requires Direction(peer, Incoming(n, m.role), me)
    requires Carries(me, mine, outgoing, peer, theirs) && Carries(peer, theirs, Incoming(n, m.role), me, mine)
    ensures var o, b := Effect(me, InputOf(n, m)), Booked(mine, n, m);
      && Carries(o.party, b, outgoing + Sent(o.out), peer, theirs)
      && Carries(peer, theirs, Rest(n, m), o.party, b)
  {
    hide Direction, Delivers, DeliversAll, Hears, Gives, Head, Rest, Effect, InputOf, Incoming, DataIn, Submitted,
      Opens, Tame, WaitsAsServer, Me, Credited;
    var o, data := Effect(me, InputOf(n, m)), Submitted(me, InputOf(n, m));
    MoveHears(me, peer, m, n);
    StepGives(me, InputOf(n, m));
    SubmittedIsSent(me, InputOf(n, m));
    HeadAndRest(n, m);
    SenderDelivers(mine.given, outgoing, peer, theirs.taken, theirs.accepted, Sent(o.out));
    ReceiverDelivers(theirs.given, Head(n, m), Rest(n, m), me, mine.taken, mine.accepted, o);
    if mine.openings + One(Opens(me, o.party)) <= 1 {
      SenderDeliversAll(me, mine.openings, mine.given, outgoing, peer, theirs.taken, theirs.accepted, data, o);
    }
    if theirs.openings <= 1 {
      ReceiverDeliversAll(peer, theirs.openings, theirs.given, Head(n, m), Rest(n, m), me, mine.taken, mine.accepted,
        o);
    }
  }

  ghost predicate Accounted(n: Net, client: Book, server: Book) {
    Carries(n.client, client, n.toServer, n.server, server) && Carries(n.server, server, n.toClient, n.client, client)
  }

  lemma NextAccounted(n: Net, m: Move, client: Book, server: Book)
    requires Orderly(n) && Fair(m) && Accounted(n, client, server)
    ensures Accounted(Next(n, m), if m.role.Client? then Booked(client, n, m) else client,
                                  if m.role.Server? then Booked(server, n, m) else server)
  {
    hide Carries, Direction, Effect, InputOf, Rest, Booked;
    if m.role.Client? {
      MoveCarries(n.client, n.server, n.toServer, m, n, client, server);
    } else {
      MoveCarries(n.server, n.client, n.toClient, m, n, server, client);
    }
  }

  lemma NothingAccounted()
    ensures Accounted(NOTHING, Book([], [], [], 0), Book([], [], [], 0))
  {
    NothingEnds([]);
  }

  lemma {:induction false} AccountedThroughout(nets: seq<Net>, moves: seq<Move>, k: nat)
    requires IsRun(nets, moves) && k <= |moves|
    ensures Accounted(nets[k], BookAfter(nets, moves, Client, k), BookAfter(nets, moves, Server, k))
  {
    hide Accounted, Next, Booked, Fair, Orderly;
    if k == 0 {
      NothingAccounted();
    } else {
      AccountedThroughout(nets, moves, k - 1);
      assert Leads(nets, moves, k - 1);
      RunStaysOrderly(nets, moves, k - 1);
      NextAccounted(nets[k - 1], moves[k - 1], BookAfter(nets, moves, Client, k - 1),
        BookAfter(nets, moves, Server, k - 1));
    }
  }

  function Other(role: Role): Role {
    if role.Client? then Server else Client
  }

  /** Over lossless channels, with any number of closings and openings, the data a party has accepted in its
      connection is a contiguous stretch of what the peer's user has handed over, in order and unchanged, and
      a prefix of it if the peer has opened only once. */
  lemma DataArrivesInOrder(nets: seq<Net>, moves: seq<Move>, role: Role, k: nat)
    requires IsRun(nets, moves) && k <= |moves|
    ensures var mine, theirs := BookAfter(nets, moves, role, k), BookAfter(nets, moves, Other(role), k);
      && Stretch(theirs.given, mine.accepted)
      && (theirs.openings <= 1 ==> mine.accepted <= theirs.given)
  {
    assert |nets| == |moves| + 1;
    hide IsRun, Stretch, DataIn, BookAfter;
    AccountedThroughout(nets, moves, k);
    var n := nets[k];
    var mine, theirs := BookAfter(nets, moves, role, k), BookAfter(nets, moves, Other(role), k);
    StretchGrows(mine.taken, mine.accepted, DataIn(Incoming(n, role)));
  }

  // ---------- over a network that loses, duplicates and reorders ----------

  /** Everything a user has handed over in the first k events of a run. */
  function SubmittedIn(worlds: seq<LossyRuns.World>, events: seq<LossyRuns.Happening>, role: Role, k: nat): seq<Payload>
    requires k <= |events| <= |worlds|
  {
    if k == 0 then []
    else
      var w, e := worlds[k - 1], events[k - 1];
      SubmittedIn(worlds, events, role, k - 1) +
      if e.role == role then Submitted(LossyRuns.Mine(w, role).party, LossyRuns.InputFor(w, e)) else []
  }

  lemma DataInPrefix(x: seq<Telegram>, y: seq<Telegram>)
    requires x <= y
    ensures DataIn(x) <= DataIn(y)
  {
    DataInConcat(x, y[|x|..]);
    assert x + y[|x|..] == y;
  }

  lemma ProgressSends(h: History, pool: seq<Telegram>, i: Option<Input>)
    requires LossyRuns.SendsOnce(h, pool) && (i.Some? ==> Legal(i.value)) && LossyRuns.Progress(h, i).openings <= 1
    ensures DataIn(LossyRuns.Progress(h, i).numbers.sent) == DataIn(h.numbers.sent) + Submitted(h.party, i)
  {
    hide Transition, DataIn, Submitted, Receipted, PartyRuns.Accounted;
    var out := Sent(Effect(h.party, i).out);
    SubmittedIsSent(h.party, i);
    DataInConcat(h.numbers.sent, out);
    if i.None? {
      assert h.numbers.sent + out == h.numbers.sent;
    } else if Opens(h.party, Transition(h.party, i.value).party) {
      NoData(h.numbers.sent);
      assert LossyRuns.Progress(h, i).numbers.sent == out;
    } else {
      assert LossyRuns.Progress(h, i).numbers.sent == h.numbers.sent + out;
    }
  }

  lemma HappensLegally(w: LossyRuns.World, e: LossyRuns.Happening)
    requires LossyRuns.Possible(e)
    ensures LossyRuns.InputFor(w, e).Some? ==> Legal(LossyRuns.InputFor(w, e).value)
  {
  }

  lemma {:induction false} SentIsSubmitted(worlds: seq<LossyRuns.World>, events: seq<LossyRuns.Happening>, role: Role,
      k: nat)
    requires LossyRuns.IsLossyRun(worlds, events) && k <= |events| && LossyRuns.Bounded(worlds[k])
    ensures DataIn(LossyRuns.Mine(worlds[k], role).numbers.sent) == SubmittedIn(worlds, events, role, k)
  {
    hide LossyRuns.Bounded, LossyRuns.InputFor, LossyRuns.Progress, LossyRuns.SendsOnce, Kept, LossyRuns.Follows,
      Submitted, Effect, Sent, Legal;
    if k > 0 {
      var w, e := worlds[k - 1], events[k - 1];
      assert LossyRuns.Passes(worlds, events, k - 1);
      LossyRuns.BoundedBefore(w, e);
      SentIsSubmitted(worlds, events, role, k - 1);
      if e.role == role {
        LossyRuns.FaithfulThroughout(worlds, events, k - 1);
        HappensLegally(w, e);
        OpenedOnce(worlds[k], role);
        ProgressSends(LossyRuns.Mine(w, role), if role.Client? then w.fromClient else w.fromServer,
          LossyRuns.InputFor(w, e));
      }
    }
  }

  lemma OpenedOnce(w: LossyRuns.World, role: Role)
    requires LossyRuns.Bounded(w)
    ensures LossyRuns.Mine(w, role).openings <= 1
  {
  }

  /** With one connection each and fewer than 2^32 sends, the data one party has accepted is a prefix of what
      the other's user has handed over, whatever the network loses, duplicates and reorders. */
  lemma DataIsPrefix(worlds: seq<LossyRuns.World>, events: seq<LossyRuns.Happening>, role: Role, k: nat)
    requires LossyRuns.IsLossyRun(worlds, events) && k <= |events| && LossyRuns.Bounded(worlds[k])
    ensures DataIn(LossyRuns.Telegrams(LossyRuns.Mine(worlds[k], role).receipts.accepted)) <=
            SubmittedIn(worlds, events, Other(role), k)
  {
    assert |worlds| == |events| + 1;
    hide LossyRuns.Bounded, LossyRuns.IsLossyRun, DataIn;
    LossyRuns.AcceptedIsPrefixOfSent(worlds, events, k);
    SentIsSubmitted(worlds, events, Other(role), k);
    DataInPrefix(LossyRuns.Telegrams(LossyRuns.Mine(worlds[k], role).receipts.accepted),
      LossyRuns.Mine(worlds[k], Other(role)).numbers.sent);
  }
}
