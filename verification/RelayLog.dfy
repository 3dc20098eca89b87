/** Every frame the relay ever queues, in order: what each action of a run sends is
    written out from the action and the state it meets. */
module RelayLog {
  import opened Encoding
  import L = LiveSession
  import opened Handshake
  import opened Options
  import opened RelayState
  import opened RelayInvariant
  import opened RelayExact
  import opened RelayRuns

  /** Both ends that can be sent a frame are told. */
  function BothTold(s: Relay, pair: nat, reason: string, full: set<RelayConnection>): seq<Delivery>
    requires pair in s.routes
  {
    NoticeTo(s, s.routes[pair].creator, pair, reason, full) + NoticeTo(s, s.routes[pair].joiner, pair, reason, full)
  }

  /** Data goes to the other end as it came, or nowhere. */
  function SendsData(s: Relay, c: RelayConnection, pair: nat, sessionId: nat, direction: L.Direction, counter: nat,
                     body: Bytes, full: set<RelayConnection>): seq<Delivery> {
    if TakesData(s, c, pair, sessionId, direction) && Reachable(s, Opposite(s.routes[pair], c), full)
    then [Delivery(Opposite(s.routes[pair], c), DataFrame(pair, sessionId, direction, counter, body))]
    else []
  }

  /** A first proof in time goes to the other end as it came, and is then answered. */
  function SendsProof(s: Relay, c: RelayConnection, pair: nat, proof: Bytes, now: real, full: set<RelayConnection>)
    : seq<Delivery>
  {
    if !AtEnd(s, c, pair) then []
    else
      var r := s.routes[pair];
      var role := if c == r.creator then L.Creator else L.Joiner;
      if now > r.deadline then BothTold(s, pair, "handshake_timeout", full)
      else if (if role.Creator? then r.creatorProof else r.joinerProof) || !Reachable(s, Opposite(r, c), full) then []
      else
        [Delivery(Opposite(r, c), ProofFrame(pair, role, proof))]
        + if Reachable(s, c, full) then [Delivery(c, ProofTaken(pair))] else []
  }

  /** The peer, if there is one that can be sent a frame, is told. */
  function PeerTold(s: Relay, c: RelayConnection, pair: nat, reason: string, full: set<RelayConnection>)
    : seq<Delivery>
  {
    if AtEnd(s, c, pair) then NoticeTo(s, Opposite(s.routes[pair], c), pair, reason, full) else []
  }

  /** All that one action sends. */
  function Sends(s: Relay, a: Action): seq<Delivery> {
    match a
    case Data(c, pair, sessionId, direction, counter, body, full) =>
      SendsData(s, c, pair, sessionId, direction, counter, body, full)
    case Shake(c, pair, proof, now, full) => SendsProof(s, c, pair, proof, now, full)
    case Hang(c, pair, full) => if Reachable(s, c, full) then PeerTold(s, c, pair, "peer_close", full) else []
    case Leave(c, _, full) =>
      if c in s.links && s.links[c].pair.Some? then PeerTold(s, c, s.links[c].pair.value, "peer_disconnect", full)
      else []
    case ExpireRoute(pair, now, full) =>
      if pair in s.routes && !(s.routes[pair].creatorProof && s.routes[pair].joinerProof)
         && s.routes[pair].deadline <= now
      then BothTold(s, pair, "handshake_timeout", full)
      else []
    case _ => []
  }

  ghost function Sent(actions: seq<Action>): seq<Delivery> {
    if actions == [] then []
    else
      var front := actions[..|actions| - 1];
      var a := actions[|actions| - 1];
      Sent(front) + if Possible(Run(START, front), a) then Sends(Run(START, front).relay, a) else []
  }

  lemma LeaveSends(w: World, c: RelayConnection, now: real, full: set<RelayConnection>)
    requires Inv(w) && Known(w.relay) && c in w.relay.links
    ensures Depart(w.relay, c, now, full).1 == Sends(w.relay, Leave(c, now, full))
  {
    var s := w.relay;
    assert PairOk(w, c);
    if c in s.live {
      DepartExactly(s, c, now, full);
    } else if s.links[c].pair.Some? {
      assert s.links[c].pair.value !in s.routes;
    }
  }

  lemma ActionSends(w: World, a: Action)
    requires Inv(w) && Possible(w, a)
    ensures Apply(w.relay, a).1 == Sends(w.relay, a)
  {
    hide Inv, Depart, Prove, Forward, HangUp, ExpiredRoute, Join, CreateRoom, CancelRoom, Reserve, Cleaned;
    var s := w.relay;
    match a
    case Data(c, pair, sessionId, direction, counter, body, full) =>
      DataExactly(s, c, pair, sessionId, direction, counter, body, full);
    case Shake(c, pair, proof, now, full) => ProofExactly(s, c, pair, proof, now, full);
    case Hang(c, pair, full) =>
      ShapeOf(w);
      HangUpExactly(s, c, pair, full);
    case Leave(c, now, full) => LeaveSends(w, c, now, full);
    case ExpireRoute(pair, now, full) => ExpiryExactly(s, pair, now, full);
    case _ =>
  }

  lemma ShapeOf(w: World)
    requires Inv(w)
    ensures Shape(w.relay)
  {
  }

  /** The log of any run is what its actions send, in their order: every frame, with
      every field and its recipient, and no other. */
  lemma {:induction false} LogExactly(actions: seq<Action>)
    ensures Run(START, actions).log == Sent(actions)
  {
    if actions != [] {
      var front, a := actions[..|actions| - 1], actions[|actions| - 1];
      LogExactly(front);
      StartOk();
      RunKeeps(START, front);
      if Possible(Run(START, front), a) {
        ActionSends(Run(START, front), a);
      }
    }
  }

  // ------------------------------------------------------------ session data

  function DataOf(log: seq<Delivery>): seq<Delivery> {
    if log == [] then []
    else DataOf(log[..|log| - 1]) + if log[|log| - 1].frame.DataFrame? then [log[|log| - 1]] else []
  }

  /** One delivery for every data request of the run that the route accepts and whose
      recipient can be sent a frame. */
  ghost function ForwardedData(actions: seq<Action>): seq<Delivery> {
    if actions == [] then []
    else
      var front := actions[..|actions| - 1];
      var a := actions[|actions| - 1];
      ForwardedData(front)
      + if a.Data? && Possible(Run(START, front), a)
        then SendsData(Run(START, front).relay, a.who, a.pair, a.sessionId, a.direction, a.counter, a.body, a.full)
        else []
  }

  lemma {:induction false} DataOfAppend(log: seq<Delivery>, more: seq<Delivery>)
    ensures DataOf(log + more) == DataOf(log) + DataOf(more)
  {
    if more == [] {
      assert log + more == log;
    } else {
      assert (log + more)[..|log + more| - 1] == log + more[..|more| - 1];
      DataOfAppend(log, more[..|more| - 1]);
    }
  }

  lemma {:induction false} NoDataOf(log: seq<Delivery>)
    requires forall i | 0 <= i < |log| :: !log[i].frame.DataFrame?
    ensures DataOf(log) == []
  {
    if log != [] {
      NoDataOf(log[..|log| - 1]);
    }
  }

  /** The data frames the relay ever queues are exactly those its clients passed in, each
      once, unchanged, in order, and to the other end of the route. */
  lemma {:induction false} DataForwardedExactly(actions: seq<Action>)
    ensures DataOf(Run(START, actions).log) == ForwardedData(actions)
  {
    hide Run, Possible, Sends, SendsData, DataOf;
    LogExactly(actions);
    if actions == [] {
      NoDataOf([]);
    } else {
      var front, a := actions[..|actions| - 1], actions[|actions| - 1];
      DataForwardedExactly(front);
      LogExactly(front);
      NoDataOf([]);
      if Possible(Run(START, front), a) {
        DataOfAppend(Sent(front), Sends(Run(START, front).relay, a));
        DataOfSends(Run(START, front).relay, a);
      }
      assert Sent(front) + [] == Sent(front) && ForwardedData(front) + [] == ForwardedData(front);
    }
  }

  lemma DataOfSends(s: Relay, a: Action)
    ensures DataOf(Sends(s, a))
            == if a.Data? then SendsData(s, a.who, a.pair, a.sessionId, a.direction, a.counter, a.body, a.full) else []
  {
    var more := Sends(s, a);
    if a.Data? && more != [] {
      assert more[..0] == [] && more == [more[0]];
    } else {
      NoDataOf(more);
    }
  }
}
