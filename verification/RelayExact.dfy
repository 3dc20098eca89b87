/** What every request does to the relay, read off the state before it: when it
    succeeds, which entries it touches, and which frames it queues. */
module RelayExact {
  import opened Encoding
  import opened LiveSession
  import opened Handshake
  import opened Options
  import opened RelayState
  import opened RelayInvariant

  // ------------------------------------------------------------------- rooms

  /** The room has not expired and its creator is still connected. */
  predicate Lives(s: Relay, room: nat, now: real)
    requires Known(s)
  {
    room in s.rooms && now < s.rooms[room].expiresAt && !s.links[s.rooms[room].creator].closed
  }

  /** The connection waits in a room that outlives the clean-up. */
  predicate StillWaits(s: Relay, c: RelayConnection, now: real)
    requires Known(s) && c in s.links
  {
    s.links[c].room.Some? && Lives(s, s.links[c].room.value, now)
  }

  /** The two relays differ in rooms, routes and the pointers of connections at most. */
  predicate SameOtherwise(s: Relay, s': Relay) {
    s'.links.Keys == s.links.Keys && s'.live == s.live && s'.reservations == s.reservations
  }

  /** The clean-up drops exactly the rooms that do not live on, and exactly the
      pointers of connected clients to them. */
  lemma CleanedExactly(s: Relay, now: real)
    requires Shape(s) && Known(s)
    ensures var q := Cleaned(s, now);
            && SameOtherwise(s, q) && q.routes == s.routes && Known(q)
            && (forall r :: r in q.rooms <==> Lives(s, r, now))
            && (forall r | r in q.rooms :: q.rooms[r] == s.rooms[r])
            && (forall d | d in s.live ::
                  q.links[d] == s.links[d].(room := if StillWaits(s, d, now) then s.links[d].room else None))
            && (forall d | d in s.links ::
                  q.links[d] == s.links[d] || q.links[d] == s.links[d].(room := None))
  {
    CleanedShape(s, now);
    ShapeKnown(Cleaned(s, now));
    forall d | d in s.live
      ensures Cleaned(s, now).links[d] == s.links[d].(room := if StillWaits(s, d, now) then s.links[d].room else None)
    {
      assert LiveOk(s, d);
    }
  }

  /** A create succeeds exactly when the connection has no pair and no room that
      outlives the clean-up, and no living room and no route has the id. It then adds
      that room and the pointer to it, and does nothing else beside the clean-up. */
  lemma CreateExactly(s: Relay, c: RelayConnection, room: nat, hello: Hello, now: real)
    requires Shape(s) && Known(s) && c in s.live && c in s.links
    ensures var (s', ok) := CreateRoom(s, c, room, hello, now);
            && (ok <==>
                  && s.links[c].pair.None? && !StillWaits(s, c, now)
                  && !Lives(s, room, now) && forall p | p in s.routes :: s.routes[p].roomId != room)
            && SameOtherwise(s, s') && s'.routes == s.routes
            && (forall r :: r in s'.rooms <==> Lives(s, r, now) || (ok && r == room))
            && (forall r | r in s'.rooms ::
                  s'.rooms[r] == if ok && r == room then Room(c, hello, now + WAIT) else s.rooms[r])
            && (forall d | d in s.live ::
                  s'.links[d] == s.links[d].(room := if ok && d == c then Some(room)
                                                     else if StillWaits(s, d, now) then s.links[d].room else None))
  {
    CleanedExactly(s, now);
  }

  /** A cancel succeeds exactly for a connection that waits, and takes its room and its
      pointer away, and nothing else. */
  lemma CancelExactly(s: Relay, c: RelayConnection)
    requires Shape(s) && Known(s) && c in s.live && c in s.links
    ensures var (s', ok) := CancelRoom(s, c);
            && (ok <==> s.links[c].room.Some?)
            && (ok ==> s.links[c].room.value in s.rooms && s.rooms[s.links[c].room.value].creator == c)
            && s' == s.(rooms := if ok then s.rooms - {s.links[c].room.value} else s.rooms,
                        links := s.links[c := s.links[c].(room := None)])
  {
    assert LiveOk(s, c);
    assert s.links[c].room.None? ==> s.links[c := s.links[c].(room := None)] == s.links;
  }

  /** A join that the limiter allows succeeds exactly when the joiner is free and the
      room is living. It then turns the room into a route between the two, with both
      hellos and a deadline, and does nothing else beside the clean-up. */
  lemma JoinExactly(s: Relay, c: RelayConnection, room: nat, hello: Hello, now: real, pair: nat)
    requires Shape(s) && Known(s) && c in s.live && c in s.links && pair !in s.routes
    ensures var (s', route) := Join(s, c, room, hello, now, false, pair);
            && (route.Some? <==> s.links[c].pair.None? && !StillWaits(s, c, now) && Lives(s, room, now))
            && SameOtherwise(s, s')
            && (forall r :: r in s'.rooms <==> Lives(s, r, now) && !(route.Some? && r == room))
            && (forall r | r in s'.rooms :: s'.rooms[r] == s.rooms[r])
            && (route.None? ==> s'.routes == s.routes)
            && (route.Some? ==>
                  && s'.routes == s.routes[pair := route.value]
                  && route.value == Route(room, s.rooms[room].creator, c, s.rooms[room].hello, hello,
                                          now + HANDSHAKE_TIME, false, false, None))
            && (forall d | d in s.live ::
                  s'.links[d] == if route.Some? && (d == c || d == s.rooms[room].creator)
                                 then s.links[d].(room := None, pair := Some(pair))
                                 else s.links[d].(room := if StillWaits(s, d, now) then s.links[d].room else None))
  {
    CleanedExactly(s, now);
    if Lives(s, room, now) {
      assert IdOk(s, room, room);
      assert LiveOk(s, s.rooms[room].creator);
    }
    assert LiveOk(s, c);
    hide Shape, LiveOk, IdOk, Cleaned;
  }

  /** A join that the limiter refuses does nothing. */
  lemma LimitedJoinExactly(s: Relay, c: RelayConnection, room: nat, hello: Hello, now: real, pair: nat)
    requires Known(s) && c in s.links
    ensures Join(s, c, room, hello, now, true, pair) == (s, None)
  {
  }

  // ------------------------------------------------------------ reservations

  /** The reservation has a holder, or its lease is still running. */
  predicate Kept(s: Relay, token: nat, now: real) {
    token in s.reservations && (s.reservations[token].holder.Some? || now < s.reservations[token].expiresAt)
  }

  /** A token is given out exactly when nobody else holds it and no lease of it runs. */
  lemma ReserveExactly(s: Relay, c: RelayConnection, token: nat, now: real)
    requires c in s.links
    ensures var (s', ok) := Reserve(s, c, token, now);
            && (ok <==> !Kept(s, token, now) || s.reservations[token].holder == Some(c))
            && (forall t :: t in s'.reservations <==> Kept(s, t, now) || (ok && t == token))
            && (forall t | t in s'.reservations ::
                  s'.reservations[t]
                  == if ok && t == token then Reservation(Some(c), now + LEASE) else s.reservations[t])
            && s' == s.(reservations := s'.reservations, links := s'.links)
            && s'.links == if ok then s.links[c := s.links[c].(token := Some(token))] else s.links
  {
  }

  /** A heartbeat moves the end of the connection's own reservation, and no other. */
  lemma TouchExactly(s: Relay, c: RelayConnection, now: real)
    requires c in s.links
    ensures var s' := Touch(s, c, now);
            && s' == s.(reservations := s'.reservations) && s'.reservations.Keys == s.reservations.Keys
            && forall t | t in s.reservations ::
                 s'.reservations[t]
                 == if s.links[c].token == Some(t) && s.reservations[t].holder == Some(c)
                    then Reservation(Some(c), now + LEASE) else s.reservations[t]
  {
  }

  // ------------------------------------------------------------------ routes

  /** The other end. */
  function Opposite(r: Route, c: RelayConnection): RelayConnection {
    if c == r.creator then r.joiner else r.creator
  }

  /** The connection can be sent a frame. */
  predicate Reachable(s: Relay, c: RelayConnection, full: set<RelayConnection>) {
    c in s.links && !s.links[c].closed && c !in full
  }

  /** The connection is an end of the route. */
  predicate AtEnd(s: Relay, c: RelayConnection, pair: nat) {
    pair in s.routes && (s.routes[pair].creator == c || s.routes[pair].joiner == c)
  }

  /** The route accepts data from this end: both ends have proved, the direction is
      the sender's, and the session id is the pinned one, if any. */
  predicate TakesData(s: Relay, c: RelayConnection, pair: nat, sessionId: nat, direction: Direction) {
    && AtEnd(s, c, pair)
    && s.routes[pair].creatorProof && s.routes[pair].joinerProof
    && direction == (if c == s.routes[pair].creator then CreatorToJoiner else JoinerToCreator)
    && s.routes[pair].sessionId in {None, Some(sessionId)}
  }

  /** Data is accepted exactly on an active route, in the sender's direction, under
      the pinned session id, which it pins; the other end is sent the same frame if it
      can be sent one, and nobody anything else. */
  lemma DataExactly(s: Relay, c: RelayConnection, pair: nat, sessionId: nat, direction: Direction, counter: nat,
                    body: Bytes, full: set<RelayConnection>)
    requires Known(s) && c in s.links
    ensures var (s', told, ending) := Forward(s, c, pair, sessionId, direction, counter, body, full);
            if !TakesData(s, c, pair, sessionId, direction) then s' == s && told == [] && ending == Invalid
            else
              var r := s.routes[pair];
              && s' == s.(routes := s.routes[pair := r.(sessionId := Some(sessionId))])
              && told == (if Reachable(s, Opposite(r, c), full)
                          then [Delivery(Opposite(r, c), DataFrame(pair, sessionId, direction, counter, body))] else [])
              && (ending == Answered <==> Reachable(s, Opposite(r, c), full) && Reachable(s, c, full))
              && ending != Invalid
  {
  }

  /** What closing a route leaves: the route and the pairing of both ends are gone. */
  predicate RouteGone(s: Relay, s': Relay, pair: nat)
    requires pair in s.routes
  {
    && s'.routes == s.routes - {pair} && s'.links.Keys == s.links.Keys
    && s' == s.(routes := s'.routes, links := s'.links)
    && forall d | d in s.links ::
         s'.links[d] == if d == s.routes[pair].creator || d == s.routes[pair].joiner
                        then s.links[d].(pair := None) else s.links[d]
  }

  function NoticeTo(s: Relay, c: RelayConnection, pair: nat, reason: string, full: set<RelayConnection>)
    : seq<Delivery>
  {
    if Reachable(s, c, full) then [Delivery(c, CloseFrame(Some(pair), reason))] else []
  }

  /** A proof is taken exactly from an end that has not proved yet, up to the deadline;
      the other end is sent these bytes under the sender's role if it can be, and the
      sender its answer after that. After the deadline the route closes instead, and
      both ends are told. */
  lemma ProofExactly(s: Relay, c: RelayConnection, pair: nat, proof: Bytes, now: real, full: set<RelayConnection>)
    requires Known(s) && c in s.links
    ensures var (s', told, ending) := Prove(s, c, pair, proof, now, full);
            if !AtEnd(s, c, pair) then s' == s && told == [] && ending == Invalid
            else
              var r := s.routes[pair];
              var role := if c == r.creator then Creator else Joiner;
              var peer := Opposite(r, c);
              if now > r.deadline then
                && ending == Invalid && RouteGone(s, s', pair)
                && told == NoticeTo(s, r.creator, pair, "handshake_timeout", full)
                           + NoticeTo(s, r.joiner, pair, "handshake_timeout", full)
              else if (if role.Creator? then r.creatorProof else r.joinerProof) then
                s' == s && told == [] && ending == Invalid
              else
                && s' == s.(routes := s.routes[pair := if role.Creator? then r.(creatorProof := true)
                                                       else r.(joinerProof := true)])
                && told == (if !Reachable(s, peer, full) then []
                            else [Delivery(peer, ProofFrame(pair, role, proof))]
                                 + if Reachable(s, c, full) then [Delivery(c, ProofTaken(pair))] else [])
                && (ending == Answered <==> Reachable(s, peer, full) && Reachable(s, c, full)) && ending != Invalid
  {
  }

  /** An end that can still be answered closes its route, and its peer is told. */
  lemma HangUpExactly(s: Relay, c: RelayConnection, pair: nat, full: set<RelayConnection>)
    requires Shape(s) && Known(s) && c in s.links
    ensures var (s', told, ending) := HangUp(s, c, pair, full);
            && (ending == Answered <==> Reachable(s, c, full) && AtEnd(s, c, pair))
            && (ending == Broken <==> !Reachable(s, c, full))
            && (if ending != Answered then s' == s && told == []
                else RouteGone(s, s', pair)
                     && told == NoticeTo(s, Opposite(s.routes[pair], c), pair, "peer_close", full))
  {
    assert IdOk(s, pair, pair);
  }

  /** Maintenance closes exactly the routes that are not active by their deadline. */
  lemma ExpiryExactly(s: Relay, pair: nat, now: real, full: set<RelayConnection>)
    requires Known(s)
    ensures var (s', told) := ExpiredRoute(s, pair, now, full);
            if pair in s.routes && !(s.routes[pair].creatorProof && s.routes[pair].joinerProof)
               && s.routes[pair].deadline <= now
            then
              && RouteGone(s, s', pair)
              && told == NoticeTo(s, s.routes[pair].creator, pair, "handshake_timeout", full)
                         + NoticeTo(s, s.routes[pair].joiner, pair, "handshake_timeout", full)
            else s' == s && told == []
  {
  }

  // -------------------------------------------------------------- departures

  /** What a departure does before it closes a route. */
  ghost function Unlisted(s: Relay, c: RelayConnection, now: real): Relay
    requires Known(s) && c in s.links
  {
    DropRoom(Released(s.(live := s.live - {c}), c, now), c)
  }

  lemma UnlistedExactly(s: Relay, c: RelayConnection, now: real)
    requires Shape(s) && Known(s) && c in s.live && c in s.links
    ensures var q := Unlisted(s, c, now);
            && q.live == s.live - {c} && q.links == s.links && q.routes == s.routes
            && q.reservations.Keys == s.reservations.Keys
            && (forall t | t in s.reservations ::
                  q.reservations[t] == if s.links[c].token == Some(t) && s.reservations[t].holder == Some(c)
                                       then Reservation(None, now + LEASE) else s.reservations[t])
            && q.rooms == (if s.links[c].room.Some? then s.rooms - {s.links[c].room.value} else s.rooms)
  {
    assert LiveOk(s, c);
  }

  /** The one end closes, or is gone, and the other is told. */
  lemma CloseTellsOther(q: Relay, c: RelayConnection, pair: nat, full: set<RelayConnection>)
    requires pair in q.routes && AtEnd(q, c, pair) && q.routes[pair].creator != q.routes[pair].joiner
    requires q.routes[pair].creator in q.links && q.routes[pair].joiner in q.links
    ensures var (s', told) := CloseRoute(q, pair, Some(c), "peer_disconnect", full);
            && RouteGone(q, s', pair)
            && told == NoticeTo(q, Opposite(q.routes[pair], c), pair, "peer_disconnect", full)
  {
  }

  lemma DepartCloses(s: Relay, c: RelayConnection, now: real, full: set<RelayConnection>)
    requires Known(s) && c in s.links && Unlisted(s, c, now).routes == s.routes
    requires Unlisted(s, c, now).links == s.links
    ensures Depart(s, c, now, full)
            == if s.links[c].pair.None? then (Unlisted(s, c, now), [])
               else CloseRoute(Unlisted(s, c, now), s.links[c].pair.value, Some(c), "peer_disconnect", full)
  {
    hide DropRoom, Released, CloseRoute;
  }

  lemma PairedAtEnd(s: Relay, c: RelayConnection)
    requires Shape(s) && c in s.live && c in s.links && s.links[c].pair.Some?
    ensures var pair := s.links[c].pair.value;
            && AtEnd(s, c, pair) && s.routes[pair].creator != s.routes[pair].joiner
            && s.routes[pair].creator in s.links && s.routes[pair].joiner in s.links
  {
    assert LiveOk(s, c);
    assert IdOk(s, s.links[c].pair.value, s.links[c].pair.value);
  }

  /** A departure unlists the connection, starts the lease of the token it holds, drops
      the room it waits in, and closes its route, of which the peer is told. */
  lemma DepartExactly(s: Relay, c: RelayConnection, now: real, full: set<RelayConnection>)
    requires Shape(s) && Known(s) && c in s.live && c in s.links
    ensures var (s', told) := Depart(s, c, now, full);
            && s'.live == s.live - {c} && s'.links.Keys == s.links.Keys
            && s'.reservations.Keys == s.reservations.Keys
            && (forall t | t in s.reservations ::
                  s'.reservations[t] == if s.links[c].token == Some(t) && s.reservations[t].holder == Some(c)
                                        then Reservation(None, now + LEASE) else s.reservations[t])
            && s'.rooms == (if s.links[c].room.Some? then s.rooms - {s.links[c].room.value} else s.rooms)
            && s'.routes == (if s.links[c].pair.Some? then s.routes - {s.links[c].pair.value} else s.routes)
            && (forall d | d in s.links ::
                  s'.links[d] == if s.links[c].pair.Some? && AtEnd(s, d, s.links[c].pair.value)
                                 then s.links[d].(pair := None) else s.links[d])
            && (s.links[c].pair.Some? ==> AtEnd(s, c, s.links[c].pair.value))
            && told == (if s.links[c].pair.None? then []
                        else
                          NoticeTo(s, Opposite(s.routes[s.links[c].pair.value], c), s.links[c].pair.value,
                                   "peer_disconnect", full))
  {
    UnlistedExactly(s, c, now);
    if s.links[c].pair.Some? {
      PairedAtEnd(s, c);
    }
    DepartCloses(s, c, now, full);
    hide Shape, Known, Unlisted, Depart, CloseRoute;
    if s.links[c].pair.Some? {
      CloseTellsOther(Unlisted(s, c, now), c, s.links[c].pair.value, full);
    }
  }
}
