/** Two honest ends of one session and a relay that may drop, repeat, reorder,
    relabel or invent frames, holding every box sealed so far but no session key. */
module SessionStream {
  import opened Encoding
  import opened LiveSession

  /** One end, with what it sent and what it accepted, in order. */
  datatype End = End(channel: Channel, sent: seq<Event>, got: seq<Event>)

  /** `sealed`: every box the two ends ever made, in order. */
  datatype World = World(creator: End, joiner: End, seals: seq<Body>)

  datatype Action =
    | Identify(role: Role, id: Bytes)
    | Say(role: Role, utf8: Bytes)
    | Hang(role: Role, reason: CloseReason)
    | Drop(role: Role)                     // the client discards the channel
    | Deliver(role: Role, frame: Frame)    // any frame the relay can build

  function At(w: World, r: Role): End {
    if r.Creator? then w.creator else w.joiner
  }

  function Put(w: World, r: Role, e: End): World {
    if r.Creator? then w.(creator := e) else w.(joiner := e)
  }

  function Start(m: Material): World {
    World(End(Opening(m, Creator), [], []), End(Opening(m, Joiner), [], []), [])
  }

  /** The relay has every sealed box, and can make its own only under other keys. */
  predicate Available(m: Material, w: World, body: Body) {
    body.Box? && body.key in {m.creatorToJoiner, m.joinerToCreator} ==> body in w.seals
  }

  predicate Enabled(m: Material, w: World, a: Action) {
    a.Deliver? ==> Available(m, w, a.frame.body)
  }

  function AfterSend(w: World, r: Role, c: Channel, sent: Sent, e: Event): World {
    var end := At(w, r);
    if sent.NotSent? then Put(w, r, end.(channel := c))
    else Put(w, r, End(c, end.sent + [e], end.got)).(seals := w.seals + [sent.frame.body])
  }

  predicate Ready(w: World) {
    |w.creator.channel.sessionId| == 16 && |w.joiner.channel.sessionId| == 16
  }

  function DeliveredAs(e: End, v: Received): (e': End)
    ensures e'.channel.sessionId == e.channel.sessionId && e'.sent == e.sent
  {
    End(AfterReceive(e.channel, v), e.sent, if v.Accepted? then e.got + [v.event] else e.got)
  }

  ghost function Delivered(e: End, f: Frame): End
    requires |e.channel.sessionId| == 16
  {
    DeliveredAs(e, Verdict(e.channel, f))
  }

  ghost function Next(w: World, a: Action): (w': World)
    requires Ready(w)
    ensures Ready(w')
  {
    var end := At(w, a.role);
    match a
    case Identify(r, id) =>
      var (c, sent) := SendIdentity(end.channel, id);
      AfterSend(w, r, c, sent, Identity(Normalised(id)))
    case Say(r, utf8) =>
      var (c, sent) := SendText(end.channel, utf8);
      AfterSend(w, r, c, sent, Text(utf8))
    case Hang(r, reason) =>
      var (c, sent) := SendClose(end.channel, reason);
      AfterSend(w, r, c, sent, Close(reason))
    case Drop(r) => Put(w, r, end.(channel := Discard(end.channel)))
    case Deliver(r, f) => Put(w, r, Delivered(end, f))
  }

  ghost function Run(m: Material, actions: seq<Action>): (w: World)
    requires |m.sessionId| == 16
    ensures Ready(w)
  {
    if actions == [] then Start(m) else Next(Run(m, actions[..|actions| - 1]), actions[|actions| - 1])
  }

  ghost predicate Possible(m: Material, actions: seq<Action>)
    requires |m.sessionId| == 16
  {
    actions == [] || (Possible(m, actions[..|actions| - 1])
                      && Enabled(m, Run(m, actions[..|actions| - 1]), actions[|actions| - 1]))
  }

  // --------------------------------------------------------------- invariant

  /** The box an end makes for its n-th event. */
  ghost function SealOf(m: Material, r: Role, n: nat, e: Event): Body
    requires |m.sessionId| == 16 && n <= COUNTER_MAX && Encodable(e)
  {
    var d := Outgoing(r);
    Box(KeyFor(m, d), Nonce(d, n), Aad(m.sessionId, d, n), Payload(e))
  }

  ghost predicate SealedBy(m: Material, e: End, r: Role, body: Body)
    requires |m.sessionId| == 16
  {
    exists n :: 0 <= n < |e.sent| <= COUNTER_MAX + 1 && Encodable(e.sent[n]) && body == SealOf(m, r, n, e.sent[n])
  }

  /** A usable channel holds its session's keys and counts what happened. */
  ghost predicate EndOk(m: Material, e: End, r: Role)
    requires |m.sessionId| == 16
  {
    var c := e.channel;
    && c.role == r && c.sessionId == m.sessionId
    && |e.sent| <= COUNTER_MAX + 1
    && (forall n | 0 <= n < |e.sent| :: Encodable(e.sent[n]))
    && (c.failed ==> c.discarded)
    && (!c.discarded ==>
          && c.sendKey == KeyFor(m, Outgoing(r))
          && c.receiveKey == KeyFor(m, Outgoing(Peer(r)))
          && c.sendCounter == |e.sent|
          && c.receiveCounter == |e.got|
          && (c.peerIdentityReceived <==> e.got != [])
          && (forall i | 0 <= i < |e.got| :: !e.got[i].Close?))
  }

  /** Accepted events: identity or close first, one identity, nothing after close. */
  ghost predicate WellShaped(got: seq<Event>) {
    && (got != [] ==> got[0].Identity? || got[0].Close?)
    && (forall i | 0 < i < |got| :: !got[i].Identity?)
    && (forall i | 0 <= i < |got| - 1 :: !got[i].Close?)
  }

  ghost predicate Inv(m: Material, w: World)
    requires |m.sessionId| == 16
  {
    && EndOk(m, w.creator, Creator) && EndOk(m, w.joiner, Joiner)
    && (forall i | 0 <= i < |w.seals| ::
          SealedBy(m, w.creator, Creator, w.seals[i]) || SealedBy(m, w.joiner, Joiner, w.seals[i]))
    && w.creator.got <= w.joiner.sent && w.joiner.got <= w.creator.sent
    && WellShaped(w.creator.got) && WellShaped(w.joiner.got)
  }

  lemma SealedByGrows(m: Material, e: End, e': End, r: Role, body: Body)
    requires |m.sessionId| == 16 && SealedBy(m, e, r, body)
    requires e.sent <= e'.sent && |e'.sent| <= COUNTER_MAX + 1
    ensures SealedBy(m, e', r, body)
  {
    var n :| 0 <= n < |e.sent| <= COUNTER_MAX + 1 && Encodable(e.sent[n]) && body == SealOf(m, r, n, e.sent[n]);
    assert e'.sent[n] == e.sent[n];
  }

  /** What a send does to one end: nothing, or one more event and its box. */
  ghost predicate SendsOne(m: Material, e: End, r: Role, c: Channel, sent: Sent, event: Event)
    requires |m.sessionId| == 16
  {
    if sent.NotSent? then c == e.channel
    else
      && |e.sent| <= COUNTER_MAX && Encodable(event)
      && sent.frame.body == SealOf(m, r, |e.sent|, event)
      && EndOk(m, End(c, e.sent + [event], e.got), r)
  }

  lemma SendIdentityOne(m: Material, e: End, r: Role, id: Bytes)
    requires |m.sessionId| == 16 && EndOk(m, e, r)
    ensures var (c, sent) := SendIdentity(e.channel, id);
            SendsOne(m, e, r, c, sent, Identity(Normalised(id)))
  {
    hide Layout, Nonce, Aad, Payload;
  }

  lemma SendTextOne(m: Material, e: End, r: Role, utf8: Bytes)
    requires |m.sessionId| == 16 && EndOk(m, e, r)
    ensures var (c, sent) := SendText(e.channel, utf8);
            SendsOne(m, e, r, c, sent, Text(utf8))
  {
    hide Layout, Nonce, Aad, Payload;
  }

  lemma SendCloseOne(m: Material, e: End, r: Role, reason: CloseReason)
    requires |m.sessionId| == 16 && EndOk(m, e, r)
    ensures var (c, sent) := SendClose(e.channel, reason);
            SendsOne(m, e, r, c, sent, Close(reason))
  {
    hide Layout, Nonce, Aad, Payload;
  }

  lemma SendKeeps(m: Material, w: World, r: Role, c: Channel, sent: Sent, event: Event)
    requires |m.sessionId| == 16 && Inv(m, w)
    requires SendsOne(m, At(w, r), r, c, sent, event)
    ensures Inv(m, AfterSend(w, r, c, sent, event))
  {
    var w' := AfterSend(w, r, c, sent, event);
    if sent.Sealed? {
      var e, e' := At(w, r), At(w', r);
      assert e'.sent[|e.sent|] == event;
      assert SealedBy(m, e', r, sent.frame.body);
      forall i | 0 <= i < |w'.seals|
        ensures SealedBy(m, w'.creator, Creator, w'.seals[i]) || SealedBy(m, w'.joiner, Joiner, w'.seals[i])
      {
        if i < |w.seals| {
          assert w'.seals[i] == w.seals[i];
          if SealedBy(m, e, r, w.seals[i]) {
            SealedByGrows(m, e, e', r, w.seals[i]);
          } else {
            assert SealedBy(m, At(w, Peer(r)), Peer(r), w.seals[i]);
          }
        }
      }
    }
  }

  /** A box at the next position of the peer's direction is not one of our own. */
  lemma NotOurOwn(m: Material, e: End, r: Role, body: Body, n: Count64)
    requires |m.sessionId| == 16 && body.Box? && body.nonce == Nonce(Outgoing(Peer(r)), n)
    ensures !SealedBy(m, e, r, body)
  {
    if SealedBy(m, e, r, body) {
      var k :| 0 <= k < |e.sent| <= COUNTER_MAX + 1 && Encodable(e.sent[k]) && body == SealOf(m, r, k, e.sent[k]);
      NonceInjective(Outgoing(r), k, Outgoing(Peer(r)), n);
      assert false;
    }
  }

  lemma SealedAtPosition(m: Material, e: End, r: Role, body: Body, n: Count64)
    requires |m.sessionId| == 16 && SealedBy(m, e, r, body) && body.nonce == Nonce(Outgoing(r), n)
    ensures n < |e.sent| && DecodePayload(body.payload) == Good(e.sent[n])
  {
    var k :| 0 <= k < |e.sent| <= COUNTER_MAX + 1 && Encodable(e.sent[k]) && body == SealOf(m, r, k, e.sent[k]);
    NonceInjective(Outgoing(r), k, Outgoing(r), n);
    PayloadRoundTrip(e.sent[k]);
  }

  /** A box that a channel accepts was sealed for the session, the direction and
      the counter of that channel, even if another session used the same keys. */
  lemma BoxOpensOnlyInItsSession(m: Material, r: Role, n: Count64, e: Event, c: Channel, f: Frame)
    requires |m.sessionId| == 16 && |c.sessionId| == 16 && Encodable(e)
    requires f.body == SealOf(m, r, n, e) && Verdict(c, f).Accepted?
    ensures c.sessionId == m.sessionId && c.role == Peer(r) && c.receiveCounter == n
    ensures Verdict(c, f).event == e
  {
    AcceptedIsNextBox(c, f);
    AadInjective(m.sessionId, Outgoing(r), n, c.sessionId, Outgoing(Peer(c.role)), c.receiveCounter);
    PayloadRoundTrip(e);
  }

  lemma SealsAreOurs(m: Material, w: World, body: Body, r: Role)
    requires |m.sessionId| == 16 && Inv(m, w) && body in w.seals
    ensures SealedBy(m, At(w, r), r, body) || SealedBy(m, At(w, Peer(r)), Peer(r), body)
  {
  }

  /** An available body opens at an end only if the peer sealed it for exactly
      this position, whatever metadata the relay put on the frame. */
  lemma OpensOnlyInOrder(m: Material, w: World, r: Role, f: Frame)
    requires |m.sessionId| == 16 && Inv(m, w) && Available(m, w, f.body) && Ready(w)
    requires Verdict(At(w, r).channel, f).Accepted?
    ensures var n := |At(w, r).got|; var sent := At(w, Peer(r)).sent;
            n < |sent| && Verdict(At(w, r).channel, f).event == sent[n]
  {
    var c := At(w, r).channel;
    AcceptedIsNextBox(c, f);
    SealsAreOurs(m, w, f.body, r);
    NotOurOwn(m, At(w, r), r, f.body, c.receiveCounter);
    SealedAtPosition(m, At(w, Peer(r)), Peer(r), f.body, c.receiveCounter);
  }

  lemma ReceiveKeepsEnd(m: Material, e: End, r: Role, v: Received)
    requires |m.sessionId| == 16 && EndOk(m, e, r) && WellShaped(e.got)
    requires v.Accepted? ==> Usable(e.channel) && Permitted(e.channel, v.event)
    requires v == Refused(Discarded) <==> !Usable(e.channel)
    ensures EndOk(m, DeliveredAs(e, v), r) && WellShaped(DeliveredAs(e, v).got)
  {
  }

  lemma NextKeeps(m: Material, w: World, a: Action)
    requires |m.sessionId| == 16 && Inv(m, w) && Ready(w) && Enabled(m, w, a)
    ensures Inv(m, Next(w, a))
  {
    var end := At(w, a.role);
    match a
    case Identify(r, id) =>
      SendIdentityOne(m, end, r, id);
      var (c, sent) := SendIdentity(end.channel, id);
      SendKeeps(m, w, r, c, sent, Identity(Normalised(id)));
    case Say(r, utf8) =>
      SendTextOne(m, end, r, utf8);
      var (c, sent) := SendText(end.channel, utf8);
      SendKeeps(m, w, r, c, sent, Text(utf8));
    case Hang(r, reason) =>
      SendCloseOne(m, end, r, reason);
      var (c, sent) := SendClose(end.channel, reason);
      SendKeeps(m, w, r, c, sent, Close(reason));
    case Drop(r) => PutKeeps(m, w, r, end.(channel := Discard(end.channel)));
    case Deliver(r, f) =>
      DeliverKeeps(m, w, r, f);
  }

  /** An end may change as long as its stream of sent events does not. */
  lemma PutKeeps(m: Material, w: World, r: Role, e: End)
    requires |m.sessionId| == 16 && Inv(m, w) && EndOk(m, e, r) && e.sent == At(w, r).sent
    requires e.got <= At(w, Peer(r)).sent && WellShaped(e.got)
    ensures Inv(m, Put(w, r, e))
  {
    var w' := Put(w, r, e);
    forall i | 0 <= i < |w'.seals|
      ensures SealedBy(m, w'.creator, Creator, w'.seals[i]) || SealedBy(m, w'.joiner, Joiner, w'.seals[i])
    {
      assert w'.seals[i] == w.seals[i];
      if SealedBy(m, At(w, r), r, w.seals[i]) {
        SealedByGrows(m, At(w, r), e, r, w.seals[i]);
      } else {
        assert SealedBy(m, At(w, Peer(r)), Peer(r), w.seals[i]);
      }
    }
  }

  lemma GotInOrder(e: End, v: Received, peerSent: seq<Event>)
    requires e.got <= peerSent
    requires v.Accepted? ==> |e.got| < |peerSent| && v.event == peerSent[|e.got|]
    ensures DeliveredAs(e, v).got <= peerSent
  {
  }

  lemma DeliverKeeps(m: Material, w: World, r: Role, f: Frame)
    requires |m.sessionId| == 16 && Inv(m, w) && Ready(w) && Available(m, w, f.body)
    ensures Inv(m, Next(w, Deliver(r, f)))
  {
    hide Verdict, WellShaped;
    var end, v := At(w, r), Verdict(At(w, r).channel, f);
    ReceiveKeepsEnd(m, end, r, v);
    if v.Accepted? {
      OpensOnlyInOrder(m, w, r, f);
    }
    GotInOrder(end, v, At(w, Peer(r)).sent);
    PutKeeps(m, w, r, DeliveredAs(end, v));
  }

  lemma {:induction false} RunKeeps(m: Material, actions: seq<Action>)
    requires |m.sessionId| == 16 && Possible(m, actions)
    ensures Inv(m, Run(m, actions))
  {
    if actions != [] {
      RunKeeps(m, actions[..|actions| - 1]);
      NextKeeps(m, Run(m, actions[..|actions| - 1]), actions[|actions| - 1]);
    }
  }

  /** Stream integrity: whatever the relay does, what one end accepts is a prefix
      of what the other end sent, opening with an identity or a close, with at
      most one identity and nothing after a close. */
  lemma StreamIntegrity(m: Material, actions: seq<Action>)
    requires |m.sessionId| == 16 && Possible(m, actions)
    ensures var w := Run(m, actions);
            && w.creator.got <= w.joiner.sent && w.joiner.got <= w.creator.sent
            && WellShaped(w.creator.got) && WellShaped(w.joiner.got)
  {
    RunKeeps(m, actions);
  }

  /** A failed or closed end never accepts or sends again, and dropping a channel makes
      it such an end. */
  lemma DiscardIsFinal(m: Material, actions: seq<Action>, a: Action)
    requires |m.sessionId| == 16 && Possible(m, actions)
    ensures var w, w' := Run(m, actions), Next(Run(m, actions), a);
            && (At(w, a.role).channel.discarded ==> w' == w)
            && (a.Drop? ==> At(w', a.role).channel.discarded && At(w', Peer(a.role)) == At(w, Peer(a.role)))
  {
    RunKeeps(m, actions);
  }

  // ------------------------------------------------------------ nonce safety

  /** The box carries the nonce of one of the first `c` creator events or of one of
      the first `j` joiner events. */
  ghost predicate NumberedWithin(c: nat, j: nat, body: Body) {
    body.Box? && exists r: Role, n: nat :: n < (if r.Creator? then c else j) && n <= COUNTER_MAX
                                           && body.nonce == Nonce(Outgoing(r), n)
  }

  ghost predicate Numbered(w: World) {
    && |w.seals| == |w.creator.sent| + |w.joiner.sent|
    && |w.creator.sent| <= COUNTER_MAX + 1 && |w.joiner.sent| <= COUNTER_MAX + 1
    && (forall i | 0 <= i < |w.seals| :: NumberedWithin(|w.creator.sent|, |w.joiner.sent|, w.seals[i]))
    && (forall i, j | 0 <= i < j < |w.seals| :: w.seals[i].nonce != w.seals[j].nonce)
  }

  lemma NextNonceIsFresh(c: nat, j: nat, body: Body, r: Role, n: nat)
    requires NumberedWithin(c, j, body) && n == (if r.Creator? then c else j) && n <= COUNTER_MAX
    ensures body.nonce != Nonce(Outgoing(r), n)
  {
    var s: Role, k: nat :| k < (if s.Creator? then c else j) && k <= COUNTER_MAX && body.nonce == Nonce(Outgoing(s), k);
    if body.nonce == Nonce(Outgoing(r), n) {
      NonceInjective(Outgoing(s), k, Outgoing(r), n);
      assert false;
    }
  }

  lemma NumberedWithinGrows(c: nat, j: nat, body: Body, c': nat, j': nat)
    requires NumberedWithin(c, j, body) && c <= c' && j <= j'
    ensures NumberedWithin(c', j', body)
  {
    var s: Role, k: nat :| k < (if s.Creator? then c else j) && k <= COUNTER_MAX && body.nonce == Nonce(Outgoing(s), k);
    assert k < (if s.Creator? then c' else j');
  }

  lemma NewestIsNumbered(c: nat, j: nat, body: Body, r: Role, n: nat)
    requires body.Box? && n < (if r.Creator? then c else j) && n <= COUNTER_MAX && body.nonce == Nonce(Outgoing(r), n)
    ensures NumberedWithin(c, j, body)
  {
  }

  lemma SendNumbers(m: Material, w: World, r: Role, c: Channel, sent: Sent, event: Event)
    requires |m.sessionId| == 16 && Numbered(w) && SendsOne(m, At(w, r), r, c, sent, event)
    ensures Numbered(AfterSend(w, r, c, sent, event))
  {
    hide Layout, Nonce, Aad, Payload;
    if sent.Sealed? {
      var w' := AfterSend(w, r, c, sent, event);
      var a, b, a', b' := |w.creator.sent|, |w.joiner.sent|, |w'.creator.sent|, |w'.joiner.sent|;
      NewestIsNumbered(a', b', sent.frame.body, r, |At(w, r).sent|);
      forall i | 0 <= i < |w.seals|
        ensures NumberedWithin(a', b', w.seals[i]) && w.seals[i].nonce != sent.frame.body.nonce
      {
        NumberedWithinGrows(a, b, w.seals[i], a', b');
        NextNonceIsFresh(a, b, w.seals[i], r, |At(w, r).sent|);
      }
    }
  }

  lemma NextNumbers(m: Material, w: World, a: Action)
    requires |m.sessionId| == 16 && Inv(m, w) && Ready(w) && Numbered(w)
    ensures Numbered(Next(w, a))
  {
    var end := At(w, a.role);
    match a
    case Identify(r, id) =>
      SendIdentityOne(m, end, r, id);
      var (c, sent) := SendIdentity(end.channel, id);
      SendNumbers(m, w, r, c, sent, Identity(Normalised(id)));
    case Say(r, utf8) =>
      SendTextOne(m, end, r, utf8);
      var (c, sent) := SendText(end.channel, utf8);
      SendNumbers(m, w, r, c, sent, Text(utf8));
    case Hang(r, reason) =>
      SendCloseOne(m, end, r, reason);
      var (c, sent) := SendClose(end.channel, reason);
      SendNumbers(m, w, r, c, sent, Close(reason));
    case Drop(r) =>
    case Deliver(r, f) =>
  }

  /** Nonce uniqueness (section 2.8 of RFC 8439): over any run no two encryptions
      share a nonce, across both directions and keys, although discarding a
      channel resets its counter to zero. */
  lemma {:induction false} NoncesNeverRepeat(m: Material, actions: seq<Action>)
    requires |m.sessionId| == 16 && Possible(m, actions)
    ensures Numbered(Run(m, actions))
  {
    if actions != [] {
      var front := actions[..|actions| - 1];
      NoncesNeverRepeat(m, front);
      RunKeeps(m, front);
      NextNumbers(m, Run(m, front), actions[|actions| - 1]);
    }
  }
}
