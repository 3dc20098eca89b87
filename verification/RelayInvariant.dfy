/** The shape of the relay's rooms, routes and back-pointers, and that every request
    keeps it. */
module RelayInvariant {
  import opened Encoding
  import opened Handshake
  import opened RelayState
  import opened Options

  ghost predicate RoomOk(s: Relay, r: nat) {
    r in s.rooms ==>
      var c := s.rooms[r].creator;
      c in s.live && c in s.links && s.links[c].room == Some(r)
  }

  ghost predicate RouteOk(s: Relay, p: nat) {
    p in s.routes ==>
      var a, b := s.routes[p].creator, s.routes[p].joiner;
      && a != b && a in s.live && b in s.live && a in s.links && b in s.links
      && s.links[a].pair == Some(p) && s.links[b].pair == Some(p)
  }

  /** A listed connection waits in its own room, or is on its own route, or neither. */
  ghost predicate LiveOk(s: Relay, c: RelayConnection) {
    c in s.live ==>
      && c in s.links
      && (s.links[c].room.Some? ==>
            && s.links[c].pair.None?
            && s.links[c].room.value in s.rooms && s.rooms[s.links[c].room.value].creator == c)
      && (s.links[c].pair.Some? ==> OnRoute(s, c, s.links[c].pair.value))
  }

  /** No room shares its id with a route. */
  ghost predicate RoomApart(s: Relay, p: nat) {
    p in s.routes ==> s.routes[p].roomId !in s.rooms
  }

  ghost predicate RoutesApart(s: Relay, p: nat, q: nat) {
    p in s.routes && q in s.routes && p != q ==> s.routes[p].roomId != s.routes[q].roomId
  }

  ghost predicate IdOk(s: Relay, n: nat, m: nat) {
    RoomOk(s, n) && RouteOk(s, n) && RoomApart(s, n) && RoutesApart(s, n, m)
  }

  ghost predicate Shape(s: Relay) {
    && s.live <= s.links.Keys
    && (forall c {:trigger LiveOk(s, c)} | c in s.links :: LiveOk(s, c))
    && (forall n: nat, m: nat {:trigger IdOk(s, n, m)} :: IdOk(s, n, m))
  }

  lemma ShapeKnown(s: Relay)
    requires Shape(s)
    ensures Known(s)
  {
    forall r | r in s.rooms
      ensures s.rooms[r].creator in s.links
    {
      assert IdOk(s, r, r);
    }
    forall p | p in s.routes
      ensures s.routes[p].creator in s.links && s.routes[p].joiner in s.links
    {
      assert IdOk(s, p, p);
    }
  }

  // ------------------------------------------------------------------ tokens

  ghost predicate TokenOk(s: Relay, c: RelayConnection) {
    c in s.live && c in s.links && s.links[c].token.Some? ==>
      s.links[c].token.value in s.reservations && s.reservations[s.links[c].token.value].holder == Some(c)
  }

  ghost predicate HolderOk(s: Relay, t: nat) {
    t in s.reservations && s.reservations[t].holder.Some? ==>
      var c := s.reservations[t].holder.value;
      c in s.live && c in s.links && s.links[c].token == Some(t)
  }

  /** Reservations and the tokens of listed connections name each other. */
  ghost predicate Tokens(s: Relay) {
    && s.live <= s.links.Keys
    && (forall c {:trigger TokenOk(s, c)} | c in s.links :: TokenOk(s, c))
    && (forall t: nat {:trigger HolderOk(s, t)} :: HolderOk(s, t))
  }

  /** Room and route requests leave tokens alone. */
  ghost predicate SameTokens(s: Relay, s': Relay) {
    && s'.live == s.live && s'.reservations == s.reservations && s'.links.Keys == s.links.Keys
    && forall c | c in s.links :: s'.links[c].token == s.links[c].token
  }

  lemma SameTokensKeeps(s: Relay, s': Relay)
    requires Tokens(s) && SameTokens(s, s')
    ensures Tokens(s')
  {
    forall c | c in s'.links
      ensures TokenOk(s', c)
    {
      assert TokenOk(s, c);
    }
    forall t: nat
      ensures HolderOk(s', t)
    {
      assert HolderOk(s, t);
    }
  }

  lemma PrunedTokens(s: Relay, now: real)
    requires Tokens(s)
    ensures Tokens(Pruned(s, now))
  {
    var q := Pruned(s, now);
    forall c | c in q.links
      ensures TokenOk(q, c)
    {
      assert TokenOk(s, c);
    }
    forall t: nat
      ensures HolderOk(q, t)
    {
      assert HolderOk(s, t);
    }
  }

  lemma ReserveTokens(s: Relay, c: RelayConnection, token: nat, now: real)
    requires Tokens(s) && c in s.live && c in s.links && s.links[c].token.None?
    ensures Tokens(Reserve(s, c, token, now).0)
  {
    var q, s' := Pruned(s, now), Reserve(s, c, token, now).0;
    PrunedTokens(s, now);
    forall d | d in s'.links
      ensures TokenOk(s', d)
    {
      assert TokenOk(q, d);
    }
    forall t: nat
      ensures HolderOk(s', t)
    {
      assert HolderOk(q, t);
    }
  }

  lemma TouchTokens(s: Relay, c: RelayConnection, now: real)
    requires Tokens(s) && c in s.links
    ensures Tokens(Touch(s, c, now))
  {
    var s' := Touch(s, c, now);
    forall d | d in s'.links
      ensures TokenOk(s', d)
    {
      assert TokenOk(s, d);
    }
    forall t: nat
      ensures HolderOk(s', t)
    {
      assert HolderOk(s, t);
    }
  }

  /** A connection that leaves gives up its reservation. */
  lemma ReleasedTokens(s: Relay, c: RelayConnection, now: real)
    requires Tokens(s) && c in s.links
    ensures Tokens(Released(s.(live := s.live - {c}), c, now))
  {
    var s' := Released(s.(live := s.live - {c}), c, now);
    assert TokenOk(s, c);
    forall d | d in s'.links
      ensures TokenOk(s', d)
    {
      assert TokenOk(s, d);
    }
    forall t: nat
      ensures HolderOk(s', t)
    {
      assert HolderOk(s, t);
    }
  }

  // ------------------------------------------------------------------- rooms

  lemma CleanedShape(s: Relay, now: real)
    requires Shape(s) && Known(s)
    ensures Shape(Cleaned(s, now)) && SameTokens(s, Cleaned(s, now))
  {
    var q := Cleaned(s, now);
    forall n: nat, m: nat
      ensures IdOk(q, n, m)
    {
      assert IdOk(s, n, m);
    }
    forall d | d in q.links
      ensures LiveOk(q, d)
    {
      assert LiveOk(s, d);
    }
  }

  /** After a clean-up every room's creator is connected. */
  lemma CleanedOpen(s: Relay, now: real, r: nat)
    requires Shape(s) && Known(s) && r in Cleaned(s, now).rooms
    ensures r in s.rooms && s.rooms[r].creator in s.links
    ensures var q := Cleaned(s, now);
            q.rooms[r] == s.rooms[r] && q.rooms[r].expiresAt > now && !q.links[q.rooms[r].creator].closed
  {
  }

  /** A free connection opens a room under an unused id. */
  lemma RoomAdded(q: Relay, c: RelayConnection, room: nat, hello: Hello, at: real)
    requires Shape(q) && c in q.live && c in q.links && !Busy(q, c) && !RoomTaken(q, room)
    ensures Shape(q.(rooms := q.rooms[room := Room(c, hello, at)],
                     links := q.links[c := q.links[c].(room := Some(room))]))
  {
    var s' := q.(rooms := q.rooms[room := Room(c, hello, at)], links := q.links[c := q.links[c].(room := Some(room))]);
    assert LiveOk(q, c);
    forall n: nat, m: nat
      ensures IdOk(s', n, m)
    {
      assert IdOk(q, n, m);
    }
    forall d | d in s'.links
      ensures LiveOk(s', d)
    {
      assert LiveOk(q, d);
    }
  }

  /** A room goes together with its creator's pointer, or its creator. */
  lemma RoomRemoved(s: Relay, s': Relay, c: RelayConnection)
    requires Shape(s) && c in s.live && c in s.links && s.links[c].room.Some?
    requires s'.rooms == s.rooms - {s.links[c].room.value} && s'.routes == s.routes
    requires s'.links.Keys == s.links.Keys
    requires forall d | d in s.links && d != c :: s'.links[d] == s.links[d]
    requires s'.live == s.live && s'.links[c] == s.links[c].(room := None)
    ensures Shape(s')
  {
    assert LiveOk(s, c);
    forall n: nat, m: nat
      ensures IdOk(s', n, m)
    {
      assert IdOk(s, n, m);
    }
    forall d | d in s'.links
      ensures LiveOk(s', d)
    {
      assert LiveOk(s, d);
    }
  }

  lemma CreateRoomShape(s: Relay, c: RelayConnection, room: nat, hello: Hello, now: real)
    requires Shape(s) && Known(s) && c in s.live && c in s.links
    ensures Shape(CreateRoom(s, c, room, hello, now).0) && SameTokens(s, CreateRoom(s, c, room, hello, now).0)
  {
    CleanedShape(s, now);
    var q := Cleaned(s, now);
    if !Busy(q, c) && !RoomTaken(q, room) {
      RoomAdded(q, c, room, hello, now + WAIT);
    }
  }

  lemma CancelRoomShape(s: Relay, c: RelayConnection)
    requires Shape(s) && c in s.live && c in s.links
    ensures Shape(CancelRoom(s, c).0) && SameTokens(s, CancelRoom(s, c).0)
  {
    assert LiveOk(s, c);
    if s.links[c].room.Some? {
      RoomRemoved(s, CancelRoom(s, c).0, c);
    }
  }

  // ------------------------------------------------------------------ routes

  /** The waiting creator and a free joiner move from a room to a route. */
  lemma RouteOpened(q: Relay, c: RelayConnection, room: nat, pair: nat, route: Route)
    requires Shape(q) && c in q.live && c in q.links && !Busy(q, c) && room in q.rooms && pair !in q.routes
    requires q.rooms[room].creator in q.links
    requires route.roomId == room && route.creator == q.rooms[room].creator && route.joiner == c
    ensures var creator := q.rooms[room].creator;
            var left := q.links[creator := q.links[creator].(room := None, pair := Some(pair))];
            c != creator
            && Shape(q.(rooms := q.rooms - {room}, routes := q.routes[pair := route],
                        links := left[c := left[c].(pair := Some(pair))]))
  {
    var creator := q.rooms[room].creator;
    var left := q.links[creator := q.links[creator].(room := None, pair := Some(pair))];
    var s' := q.(rooms := q.rooms - {room}, routes := q.routes[pair := route],
                 links := left[c := left[c].(pair := Some(pair))]);
    assert IdOk(q, room, room) && LiveOk(q, creator) && LiveOk(q, c);
    forall n: nat, m: nat
      ensures IdOk(s', n, m)
    {
      assert IdOk(q, n, m) && IdOk(q, m, n);
    }
    forall d | d in s'.links
      ensures LiveOk(s', d)
    {
      assert LiveOk(q, d);
    }
  }

  /** The creator found behind a room is always free to pair: the branch of a join
      that drops a room and leaves its creator waiting is never taken. */
  lemma WaitingCreatorIsFree(s: Relay, c: RelayConnection, room: nat, now: real)
    requires Shape(s) && Known(s) && c in s.live && c in s.links
    requires room in Cleaned(s, now).rooms && !Busy(Cleaned(s, now), c)
    ensures var q := Cleaned(s, now);
            var creator := q.rooms[room].creator;
            creator in q.links && !q.links[creator].closed && q.links[creator].pair.None? && creator != c
  {
    CleanedShape(s, now);
    CleanedOpen(s, now, room);
    var q := Cleaned(s, now);
    assert IdOk(q, room, room) && LiveOk(q, q.rooms[room].creator);
  }

  lemma JoinShape(s: Relay, c: RelayConnection, room: nat, hello: Hello, now: real, limited: bool, pair: nat)
    requires Shape(s) && Known(s) && c in s.live && c in s.links && pair !in s.routes
    ensures var (s', route) := Join(s, c, room, hello, now, limited, pair); Shape(s') && SameTokens(s, s')
  {
    var q := Cleaned(s, now);
    CleanedShape(s, now);
    if !limited && !Busy(q, c) && room in q.rooms {
      WaitingCreatorIsFree(s, c, room, now);
      RouteOpened(q, c, room, pair, Join(s, c, room, hello, now, limited, pair).1.value);
    }
  }

  /** A join succeeds exactly when the limiter allows it, the joiner is free and the
      room is there; it pairs two different connections. */
  lemma JoinExact(s: Relay, c: RelayConnection, room: nat, hello: Hello, now: real, limited: bool, pair: nat)
    requires Shape(s) && Known(s) && c in s.live && c in s.links
    ensures var (s', route) := Join(s, c, room, hello, now, limited, pair);
            && (route.Some? <==> !limited && !Busy(Cleaned(s, now), c) && room in Cleaned(s, now).rooms)
            && (route.Some? ==> route.value.creator != c && route.value.joiner == c && room in s.rooms
                                && route.value.creator == s.rooms[room].creator
                                && route.value.creatorHello == s.rooms[room].hello && route.value.joinerHello == hello)
            && (route.None? ==> s' == s || s' == Cleaned(s, now))
  {
    if !limited && !Busy(Cleaned(s, now), c) && room in Cleaned(s, now).rooms {
      WaitingCreatorIsFree(s, c, room, now);
    }
  }

  /** A room opened at `at` pairs a free joiner before its 900 seconds are over and
      not after, as long as its creator stays connected. */
  lemma RoomOpenExactly(s: Relay, c: RelayConnection, room: nat, hello: Hello, at: real,
                        d: RelayConnection, answer: Hello, now: real, pair: nat)
    requires Shape(s) && Known(s) && c in s.live && d in s.live && c in s.links && d in s.links
    requires CreateRoom(s, c, room, hello, at).1 && !s.links[d].closed
    requires var s1 := CreateRoom(s, c, room, hello, at).0; d in s1.links && !Busy(s1, d)
    ensures var s1 := CreateRoom(s, c, room, hello, at).0;
            Known(s1)
            && (Join(s1, d, room, answer, now, false, pair).1.Some? <==> now < at + WAIT && !s.links[c].closed)
  {
    var s1 := CreateRoom(s, c, room, hello, at).0;
    CreateRoomShape(s, c, room, hello, at);
    ShapeKnown(s1);
    JoinExact(s1, d, room, answer, now, false, pair);
  }

  /** After a join at `at` each end may prove until its 30 seconds are over, once. */
  lemma ProofWindowExactly(s: Relay, d: RelayConnection, room: nat, answer: Hello, at: real, pair: nat,
                           c: RelayConnection, proof: Bytes, now: real, full: set<RelayConnection>)
    requires Shape(s) && Known(s) && d in s.live && d in s.links && pair !in s.routes
    requires Join(s, d, room, answer, at, false, pair).1.Some?
    requires var (s1, route) := Join(s, d, room, answer, at, false, pair); c in s1.links && IsEnd(route.value, c)
    ensures var s1 := Join(s, d, room, answer, at, false, pair).0;
            Known(s1)
            && var (s2, told, ending) := Prove(s1, c, pair, proof, now, full);
               && (ending != Invalid <==> now <= at + HANDSHAKE_TIME)
               && (pair in s2.routes <==> now <= at + HANDSHAKE_TIME)
               && (ending != Invalid ==>
                     Known(s2) && c in s2.links && Prove(s2, c, pair, proof, now, full).2 == Invalid)
  {
    var s1 := Join(s, d, room, answer, at, false, pair).0;
    JoinShape(s, d, room, answer, at, false, pair);
    ShapeKnown(s1);
    FirstProof(s1, pair, c, proof, now, full);
  }

  lemma FirstProof(s: Relay, pair: nat, c: RelayConnection, proof: Bytes, now: real, full: set<RelayConnection>)
    requires Known(s) && c in s.links && OnRoute(s, c, pair) && !Proved(s.routes[pair], RoleOf(s.routes[pair], c))
    ensures var (s', told, ending) := Prove(s, c, pair, proof, now, full);
            && (ending != Invalid <==> now <= s.routes[pair].deadline)
            && (pair in s'.routes <==> now <= s.routes[pair].deadline)
            && (ending != Invalid ==> Known(s') && c in s'.links && Prove(s', c, pair, proof, now, full).2 == Invalid)
  {
  }

  /** A cancel answers whether the connection was waiting, and its other branch is
      never taken. */
  lemma CancelExact(s: Relay, c: RelayConnection)
    requires Shape(s) && c in s.live && c in s.links
    ensures CancelRoom(s, c).1 <==> s.links[c].room.Some?
  {
    assert LiveOk(s, c);
  }

  lemma RouteClosed(s: Relay, pair: nat)
    requires Shape(s) && pair in s.routes
    requires s.routes[pair].creator in s.links && s.routes[pair].joiner in s.links
    ensures var r := s.routes[pair];
            Shape(s.(routes := s.routes - {pair}, links := Unpaired(Unpaired(s.links, r.creator), r.joiner)))
  {
    var r := s.routes[pair];
    var s' := s.(routes := s.routes - {pair}, links := Unpaired(Unpaired(s.links, r.creator), r.joiner));
    assert IdOk(s, pair, pair) && LiveOk(s, r.creator) && LiveOk(s, r.joiner);
    forall n: nat, m: nat
      ensures IdOk(s', n, m)
    {
      assert IdOk(s, n, m);
    }
    forall d | d in s'.links
      ensures LiveOk(s', d)
    {
      assert LiveOk(s, d);
    }
  }

  lemma CloseRouteShape(s: Relay, pair: nat, source: Option<RelayConnection>, reason: string,
                        full: set<RelayConnection>)
    requires Shape(s) && Known(s)
    ensures Shape(CloseRoute(s, pair, source, reason, full).0)
    ensures SameTokens(s, CloseRoute(s, pair, source, reason, full).0)
  {
    if pair in s.routes {
      RouteClosed(s, pair);
    }
  }

  /** Closing a route frees both ends, touches nothing else, and tells exactly the
      ends other than the source whose queue takes the notice. */
  lemma CloseExact(s: Relay, pair: nat, source: Option<RelayConnection>, reason: string, full: set<RelayConnection>,
                   c: RelayConnection)
    requires Shape(s) && Known(s) && pair in s.routes && c in s.links
    ensures var (s', told) := CloseRoute(s, pair, source, reason, full);
            && s'.routes == s.routes - {pair} && s'.rooms == s.rooms && s'.reservations == s.reservations
            && c in s'.links
            && (IsEnd(s.routes[pair], c) ==> !Busy(s', c))
            && (!IsEnd(s.routes[pair], c) ==> s'.links[c] == s.links[c])
            && (Delivery(c, CloseFrame(Some(pair), reason)) in told
                <==> IsEnd(s.routes[pair], c) && source != Some(c) && CanSend(s, c, full))
  {
    assert IdOk(s, pair, pair) && LiveOk(s, c);
    var r := s.routes[pair];
    var told := CloseRoute(s, pair, source, reason, full).1;
    assert told == Notice(s, r.creator, pair, source, reason, full) + Notice(s, r.joiner, pair, source, reason, full);
  }

  /** Flags and session ids do not touch the shape. */
  lemma RouteUpdated(s: Relay, pair: nat, r: Route)
    requires Shape(s) && pair in s.routes
    requires r.roomId == s.routes[pair].roomId
    requires r.creator == s.routes[pair].creator && r.joiner == s.routes[pair].joiner
    ensures Shape(s.(routes := s.routes[pair := r])) && SameTokens(s, s.(routes := s.routes[pair := r]))
  {
    var s' := s.(routes := s.routes[pair := r]);
    forall n: nat, m: nat
      ensures IdOk(s', n, m)
    {
      assert IdOk(s, n, m);
    }
    forall d | d in s'.links
      ensures LiveOk(s', d)
    {
      assert LiveOk(s, d);
    }
  }

  // ------------------------------------------------- arrivals and departures

  lemma ConnectKeeps(s: Relay, c: RelayConnection)
    requires Shape(s) && Tokens(s) && c !in s.links
    ensures Shape(Connect(s, c)) && Tokens(Connect(s, c))
  {
    var s' := Connect(s, c);
    forall n: nat, m: nat
      ensures IdOk(s', n, m)
    {
      assert IdOk(s, n, m);
    }
    forall t: nat
      ensures HolderOk(s', t)
    {
      assert HolderOk(s, t);
    }
    forall d | d in s'.links
      ensures LiveOk(s', d) && TokenOk(s', d)
    {
      if d in s.links {
        assert LiveOk(s, d) && TokenOk(s, d);
      }
    }
  }

  lemma CloseKeeps(s: Relay, c: RelayConnection)
    requires Shape(s) && Tokens(s) && c in s.links
    ensures Shape(MarkClosed(s, c)) && Tokens(MarkClosed(s, c))
  {
    var s' := MarkClosed(s, c);
    SameTokensKeeps(s, s');
    forall n: nat, m: nat
      ensures IdOk(s', n, m)
    {
      assert IdOk(s, n, m);
    }
    forall d | d in s'.links
      ensures LiveOk(s', d)
    {
      assert LiveOk(s, d);
    }
  }
}
