/** What the relay remembers about live sessions: connections, waiting rooms, routes
    and display-id reservations, and what each request does to them. Identifiers are
    the numbers their 16 bytes spell. */
module RelayState {
  import opened Encoding
  import opened LiveSession
  import opened Handshake
  import opened Options

  const LEASE := 90.0
  const WAIT := 900.0
  const HANDSHAKE_TIME := 30.0

  /** The mutable fields of one connection. */
  class RelayConnection {
    var closed: bool
    var token: Option<nat>
    var room: Option<nat>
    var pair: Option<nat>

    constructor ()
      ensures View() == Link(false, None, None, None)
    {
      closed, token, room, pair := false, None, None, None;
    }

    function View(): Link
      reads this
    {
      Link(closed, token, room, pair)
    }
  }

  datatype Link = Link(closed: bool, token: Option<nat>, room: Option<nat>, pair: Option<nat>)

  datatype Room = Room(creator: RelayConnection, hello: Hello, expiresAt: real)

  datatype Route = Route(
    roomId: nat, creator: RelayConnection, joiner: RelayConnection, creatorHello: Hello, joinerHello: Hello,
    deadline: real, creatorProof: bool, joinerProof: bool, sessionId: Option<nat>)

  datatype Reservation = Reservation(holder: Option<RelayConnection>, expiresAt: real)

  /** `links` has every connection there ever was, `live` those the server lists. */
  datatype Relay = Relay(
    links: map<RelayConnection, Link>,
    live: set<RelayConnection>,
    rooms: map<nat, Room>,
    routes: map<nat, Route>,
    reservations: map<nat, Reservation>)

  datatype RelayFrame =
    | ProofFrame(pair: nat, role: Role, proof: Bytes)
    | ProofTaken(pair: nat)
    | DataFrame(pair: nat, sessionId: nat, direction: Direction, counter: nat, body: Bytes)
    | CloseFrame(about: Option<nat>, reason: string)

  datatype Delivery = Delivery(to: RelayConnection, frame: RelayFrame)

  /** How a handler ends: an answer, `FrameError`, or `ConnectionError`. */
  datatype Ending = Answered | Invalid | Broken

  function Pick(r: Route, role: Role): RelayConnection {
    if role.Creator? then r.creator else r.joiner
  }

  function Proved(r: Route, role: Role): bool {
    if role.Creator? then r.creatorProof else r.joinerProof
  }

  predicate IsActive(r: Route) {
    r.creatorProof && r.joinerProof
  }

  predicate IsEnd(r: Route, c: RelayConnection) {
    c == r.creator || c == r.joiner
  }

  function RoleOf(r: Route, c: RelayConnection): Role {
    if c == r.creator then Creator else Joiner
  }

  /** References only ever lead to known connections. */
  ghost predicate Known(s: Relay) {
    && s.live <= s.links.Keys
    && (forall r | r in s.rooms :: s.rooms[r].creator in s.links)
    && (forall p | p in s.routes :: s.routes[p].creator in s.links && s.routes[p].joiner in s.links)
  }

  // ------------------------------------------------------------ reservations

  function Pruned(s: Relay, now: real): Relay {
    s.(reservations := map t | t in s.reservations
                               && !(s.reservations[t].holder.None? && s.reservations[t].expiresAt <= now)
                           :: s.reservations[t])
  }

  /** `_handle_display_reserve` with `reserve_display`. */
  function Reserve(s: Relay, c: RelayConnection, token: nat, now: real): (Relay, bool)
    requires c in s.links
  {
    var q := Pruned(s, now);
    if token in q.reservations && q.reservations[token].holder != Some(c) then (q, false)
    else
      (q.(reservations := q.reservations[token := Reservation(Some(c), now + LEASE)],
          links := q.links[c := q.links[c].(token := Some(token))]),
       true)
  }

  function Touch(s: Relay, c: RelayConnection, now: real): Relay
    requires c in s.links
  {
    var t := s.links[c].token;
    if t.Some? && t.value in s.reservations && s.reservations[t.value].holder == Some(c) then
      s.(reservations := s.reservations[t.value := s.reservations[t.value].(expiresAt := now + LEASE)])
    else s
  }

  /** The lease starts when the holder goes. */
  function Released(s: Relay, c: RelayConnection, now: real): Relay
    requires c in s.links
  {
    var t := s.links[c].token;
    if t.Some? && t.value in s.reservations && s.reservations[t.value].holder == Some(c) then
      s.(reservations := s.reservations[t.value := Reservation(None, now + LEASE)])
    else s
  }

  // ------------------------------------------------------------------- rooms

  predicate Stale(s: Relay, r: nat, now: real)
    requires r in s.rooms && s.rooms[r].creator in s.links
  {
    s.rooms[r].expiresAt <= now || s.links[s.rooms[r].creator].closed
  }

  /** The connection waits in a room that is being dropped. */
  ghost predicate LosesRoom(s: Relay, c: RelayConnection, now: real)
    requires Known(s) && c in s.links
  {
    var r := s.links[c].room;
    r.Some? && r.value in s.rooms && s.rooms[r.value].creator == c && Stale(s, r.value, now)
  }

  /** `_cleanup_sessions`. */
  ghost function Cleaned(s: Relay, now: real): (s': Relay)
    requires Known(s)
    ensures s'.links.Keys == s.links.Keys
  {
    s.(rooms := map r | r in s.rooms && !Stale(s, r, now) :: s.rooms[r],
       links := map c | c in s.links :: if LosesRoom(s, c, now) then s.links[c].(room := None) else s.links[c])
  }

  /** One turn of the clean-up loop. */
  function DropStale(s: Relay, r: nat, now: real): (s': Relay)
    requires r in s.rooms ==> s.rooms[r].creator in s.links
  {
    if r !in s.rooms || !Stale(s, r, now) then s
    else
      var c := s.rooms[r].creator;
      s.(rooms := s.rooms - {r},
         links := if s.links[c].room == Some(r) then s.links[c := s.links[c].(room := None)] else s.links)
  }

  /** The clean-up with the rooms in `todo` still to look at. */
  ghost function CleanedBut(s: Relay, now: real, todo: set<nat>): (s': Relay)
    requires Known(s)
    ensures s'.links.Keys == s.links.Keys
  {
    s.(rooms := map r | r in s.rooms && (r in todo || !Stale(s, r, now)) :: s.rooms[r],
       links := map c | c in s.links ::
                  if LosesRoom(s, c, now) && s.links[c].room.value !in todo then s.links[c].(room := None)
                  else s.links[c])
  }

  lemma CleanNext(s: Relay, now: real, todo: set<nat>, r: nat)
    requires Known(s) && r in todo && todo <= s.rooms.Keys
    ensures Known(CleanedBut(s, now, todo))
    ensures DropStale(CleanedBut(s, now, todo), r, now) == CleanedBut(s, now, todo - {r})
  {
    var d, q' := DropStale(CleanedBut(s, now, todo), r, now), CleanedBut(s, now, todo - {r});
    assert d.rooms == q'.rooms;
    assert d.links.Keys == q'.links.Keys;
    forall c | c in s.links
      ensures d.links[c] == q'.links[c]
    {
      CleanNextLink(s, now, todo, r, c);
    }
    assert d.links == q'.links;
  }

  lemma CleanNextLink(s: Relay, now: real, todo: set<nat>, r: nat, c: RelayConnection)
    requires Known(s) && r in todo && todo <= s.rooms.Keys && c in s.links
    ensures Known(CleanedBut(s, now, todo))
    ensures c in DropStale(CleanedBut(s, now, todo), r, now).links
    ensures DropStale(CleanedBut(s, now, todo), r, now).links[c] == CleanedBut(s, now, todo - {r}).links[c]
  {
  }

  lemma CleanEnds(s: Relay, now: real)
    requires Known(s)
    ensures CleanedBut(s, now, s.rooms.Keys) == s && CleanedBut(s, now, {}) == Cleaned(s, now)
  {
    assert CleanedBut(s, now, s.rooms.Keys).rooms == s.rooms;
    assert CleanedBut(s, now, s.rooms.Keys).links == s.links;
    assert CleanedBut(s, now, {}).rooms == Cleaned(s, now).rooms;
    assert CleanedBut(s, now, {}).links == Cleaned(s, now).links;
  }

  predicate Busy(s: Relay, c: RelayConnection)
    requires c in s.links
  {
    s.links[c].room.Some? || s.links[c].pair.Some?
  }

  predicate RoomTaken(s: Relay, room: nat) {
    room in s.rooms || exists p :: p in s.routes && s.routes[p].roomId == room
  }

  /** `create_waiting_room`. */
  ghost function CreateRoom(s: Relay, c: RelayConnection, room: nat, hello: Hello, now: real): (Relay, bool)
    requires Known(s) && c in s.links
  {
    var q := Cleaned(s, now);
    if Busy(q, c) || RoomTaken(q, room) then (q, false)
    else
      (q.(rooms := q.rooms[room := Room(c, hello, now + WAIT)],
          links := q.links[c := q.links[c].(room := Some(room))]),
       true)
  }

  /** `cancel_waiting_room`. */
  function CancelRoom(s: Relay, c: RelayConnection): (Relay, bool)
    requires c in s.links
  {
    var r := s.links[c].room;
    var freed := s.(links := s.links[c := s.links[c].(room := None)]);
    if r.None? then (s, false)
    else if r.value !in s.rooms || s.rooms[r.value].creator != c then (freed, false)
    else (freed.(rooms := s.rooms - {r.value}), true)
  }

  /** `join_waiting_room`; `limited` is the join limiter's verdict and `pair` the
      fresh pair id. */
  ghost function Join(s: Relay, c: RelayConnection, room: nat, hello: Hello, now: real, limited: bool, pair: nat)
    : (Relay, Option<Route>)
    requires Known(s) && c in s.links
  {
    var q := Cleaned(s, now);
    if limited then (s, None)
    else if Busy(q, c) || room !in q.rooms then (q, None)
    else
      var creator := q.rooms[room].creator;
      var popped := q.(rooms := q.rooms - {room});
      if q.links[creator].closed || q.links[creator].pair.Some? then (popped, None)
      else
        var route := Route(room, creator, c, q.rooms[room].hello, hello, now + HANDSHAKE_TIME, false, false, None);
        var left := q.links[creator := q.links[creator].(room := None, pair := Some(pair))];
        (popped.(routes := q.routes[pair := route],
                 links := left[c := left[c].(pair := Some(pair))]),
         Some(route))
  }

  // ------------------------------------------------------------------ routes

  /** A queue takes a frame unless the connection is closed or it is full. */
  predicate CanSend(s: Relay, c: RelayConnection, full: set<RelayConnection>)
    requires c in s.links
  {
    !s.links[c].closed && c !in full
  }

  function Unpaired(links: map<RelayConnection, Link>, c: RelayConnection): (l: map<RelayConnection, Link>)
    ensures l.Keys == links.Keys
  {
    if c in links then links[c := links[c].(pair := None)] else links
  }

  /** `_close_route`: the route goes, both ends are unpaired, and every end but the
      source that can still take a frame is told. */
  function CloseRoute(s: Relay, pair: nat, source: Option<RelayConnection>, reason: string, full: set<RelayConnection>)
    : (Relay, seq<Delivery>)
    requires pair in s.routes ==> s.routes[pair].creator in s.links && s.routes[pair].joiner in s.links
  {
    if pair !in s.routes then (s, [])
    else
      var r := s.routes[pair];
      (s.(routes := s.routes - {pair}, links := Unpaired(Unpaired(s.links, r.creator), r.joiner)),
       Notice(s, r.creator, pair, source, reason, full) + Notice(s, r.joiner, pair, source, reason, full))
  }

  function Notice(s: Relay, c: RelayConnection, pair: nat, source: Option<RelayConnection>, reason: string,
                  full: set<RelayConnection>): seq<Delivery>
    requires c in s.links
  {
    if source == Some(c) || !CanSend(s, c, full) then [] else [Delivery(c, CloseFrame(Some(pair), reason))]
  }

  predicate OnRoute(s: Relay, c: RelayConnection, pair: nat) {
    pair in s.routes && IsEnd(s.routes[pair], c)
  }

  function Told(s: Relay, c: RelayConnection, f: RelayFrame, full: set<RelayConnection>): seq<Delivery>
    requires c in s.links
  {
    if CanSend(s, c, full) then [Delivery(c, f)] else []
  }

  function MarkProof(r: Route, role: Role): Route {
    if role.Creator? then r.(creatorProof := true) else r.(joinerProof := true)
  }

  /** `mark_handshake_proof` and the answer of its handler. */
  ghost function Prove(s: Relay, c: RelayConnection, pair: nat, proof: Bytes, now: real, full: set<RelayConnection>)
    : (Relay, seq<Delivery>, Ending)
    requires Known(s) && c in s.links
  {
    if !OnRoute(s, c, pair) then (s, [], Invalid)
    else
      var r := s.routes[pair];
      var role := RoleOf(r, c);
      if now > r.deadline then
        var (s', told) := CloseRoute(s, pair, None, "handshake_timeout", full);
        (s', told, Invalid)
      else if Proved(r, role) then (s, [], Invalid)
      else
        var s' := s.(routes := s.routes[pair := MarkProof(r, role)]);
        var peer := Pick(r, Peer(role));
        if !CanSend(s, peer, full) then (s', [], Broken)
        else
          (s', [Delivery(peer, ProofFrame(pair, role, proof))] + Told(s, c, ProofTaken(pair), full),
           if CanSend(s, c, full) then Answered else Broken)
  }

  /** `route_session_data` and the answer of its handler. */
  ghost function Forward(s: Relay, c: RelayConnection, pair: nat, sessionId: nat, direction: Direction, counter: nat,
                         body: Bytes, full: set<RelayConnection>): (Relay, seq<Delivery>, Ending)
    requires Known(s) && c in s.links
  {
    if !OnRoute(s, c, pair) || !IsActive(s.routes[pair]) then (s, [], Invalid)
    else
      var r := s.routes[pair];
      if direction != Outgoing(RoleOf(r, c)) then (s, [], Invalid)
      else if r.sessionId.Some? && r.sessionId != Some(sessionId) then (s, [], Invalid)
      else
        var s' := s.(routes := s.routes[pair := r.(sessionId := Some(sessionId))]);
        var peer := Pick(r, Peer(RoleOf(r, c)));
        if !CanSend(s, peer, full) then (s', [], Broken)
        else
          (s', [Delivery(peer, DataFrame(pair, sessionId, direction, counter, body))],
           if CanSend(s, c, full) then Answered else Broken)
  }

  /** `close_session_route`: only an end may close, and only its peer is told. */
  ghost function HangUp(s: Relay, c: RelayConnection, pair: nat, full: set<RelayConnection>)
    : (Relay, seq<Delivery>, Ending)
    requires Known(s) && c in s.links
  {
    if !CanSend(s, c, full) then (s, [], Broken)
    else if !OnRoute(s, c, pair) then (s, [], Invalid)
    else
      var (s', told) := CloseRoute(s, pair, Some(c), "peer_close", full);
      (s', told, Answered)
  }

  /** The half of `_expire_sessions` that looks at one route. */
  function ExpiredRoute(s: Relay, pair: nat, now: real, full: set<RelayConnection>): (Relay, seq<Delivery>)
    requires pair in s.routes ==> s.routes[pair].creator in s.links && s.routes[pair].joiner in s.links
  {
    if pair in s.routes && !IsActive(s.routes[pair]) && s.routes[pair].deadline <= now then
      CloseRoute(s, pair, None, "handshake_timeout", full)
    else (s, [])
  }

  // ------------------------------------------------- arrivals and departures

  function Connect(s: Relay, c: RelayConnection): Relay {
    s.(links := s.links[c := Link(false, None, None, None)], live := s.live + {c})
  }

  function MarkClosed(s: Relay, c: RelayConnection): Relay
    requires c in s.links
  {
    s.(links := s.links[c := s.links[c].(closed := true)])
  }

  function DropRoom(s: Relay, c: RelayConnection): Relay
    requires c in s.links
  {
    var r := s.links[c].room;
    if r.Some? && r.value in s.rooms && s.rooms[r.value].creator == c then s.(rooms := s.rooms - {r.value}) else s
  }

  /** `_connection_closed`. */
  ghost function Depart(s: Relay, c: RelayConnection, now: real, full: set<RelayConnection>): (Relay, seq<Delivery>)
    requires Known(s) && c in s.links
  {
    var q := DropRoom(Released(s.(live := s.live - {c}), c, now), c);
    var p := s.links[c].pair;
    if p.None? then (q, []) else CloseRoute(q, p.value, Some(c), "peer_disconnect", full)
  }

  /** The state changes of `rotate_access`, once every connection has closed. */
  function Rotated(s: Relay): Relay {
    s.(live := {}, rooms := map[], routes := map[], reservations := map[])
  }
}
