/** Runs of the relay: every interleaving of requests, closes, departures, expiry and
    rotation, with every frame it put on a queue. */
module RelayRuns {
  import opened Encoding
  import L = LiveSession
  import opened Handshake
  import opened RelayState
  import opened RelayInvariant
  import opened Options

  /** `issued` keeps the last state of every route ever opened. */
  datatype World = World(relay: Relay, issued: map<nat, Route>, log: seq<Delivery>)

  datatype Action =
    | Arrive(who: RelayConnection)
    | MarkClose(who: RelayConnection)
    | Leave(who: RelayConnection, now: real, full: set<RelayConnection>)
    | Display(who: RelayConnection, token: nat, now: real)
    | Beat(who: RelayConnection, now: real)
    | Wait(who: RelayConnection, room: nat, hello: Hello, now: real)
    | Cancel(who: RelayConnection)
    | Enter(who: RelayConnection, room: nat, hello: Hello, now: real, limited: bool, pair: nat)
    | Shake(who: RelayConnection, pair: nat, proof: Bytes, now: real, full: set<RelayConnection>)
    | Data(who: RelayConnection, pair: nat, sessionId: nat, direction: L.Direction, counter: nat, body: Bytes,
           full: set<RelayConnection>)
    | Hang(who: RelayConnection, pair: nat, full: set<RelayConnection>)
    | PruneTokens(now: real)
    | ExpireRooms(now: real)
    | ExpireRoute(pair: nat, now: real, full: set<RelayConnection>)
    | Rotate

  predicate HasActor(a: Action) {
    !a.PruneTokens? && !a.ExpireRooms? && !a.ExpireRoute? && !a.Rotate?
  }

  /** Connections are new objects; only listed ones make requests, one display id
      each; a connection leaves once closed; pair ids are fresh random numbers;
      rotation clears the tables after closing everyone. */
  ghost predicate Enabled(w: World, a: Action) {
    && (a.Arrive? ==> a.who !in w.relay.links)
    && (HasActor(a) && !a.Arrive? && !a.Leave? ==> a.who in w.relay.live)
    && (a.Leave? ==> a.who in w.relay.links && w.relay.links[a.who].closed)
    && (a.Display? && a.who in w.relay.links ==> w.relay.links[a.who].token.None?)
    && (a.Enter? ==> a.pair !in w.issued)
    && (a.Rotate? ==> forall c | c in w.relay.live && c in w.relay.links :: w.relay.links[c].closed)
  }

  ghost function Apply(s: Relay, a: Action): (Relay, seq<Delivery>)
    requires Known(s) && (HasActor(a) && !a.Arrive? ==> a.who in s.links)
  {
    match a
    case Arrive(c) => (Connect(s, c), [])
    case MarkClose(c) => (MarkClosed(s, c), [])
    case Leave(c, now, full) => Depart(s, c, now, full)
    case Display(c, token, now) => (Reserve(s, c, token, now).0, [])
    case Beat(c, now) => (Touch(s, c, now), [])
    case Wait(c, room, hello, now) => (CreateRoom(s, c, room, hello, now).0, [])
    case Cancel(c) => (CancelRoom(s, c).0, [])
    case Enter(c, room, hello, now, limited, pair) => (Join(s, c, room, hello, now, limited, pair).0, [])
    case Shake(c, pair, proof, now, full) =>
      var (s', told, _) := Prove(s, c, pair, proof, now, full);
      (s', told)
    case Data(c, pair, sessionId, direction, counter, body, full) =>
      var (s', told, _) := Forward(s, c, pair, sessionId, direction, counter, body, full);
      (s', told)
    case Hang(c, pair, full) =>
      var (s', told, _) := HangUp(s, c, pair, full);
      (s', told)
    case PruneTokens(now) => (Pruned(s, now), [])
    case ExpireRooms(now) => (Cleaned(s, now), [])
    case ExpireRoute(pair, now, full) => ExpiredRoute(s, pair, now, full)
    case Rotate => (Rotated(s), [])
  }

  ghost function Next(w: World, a: Action): World
    requires Known(w.relay) && (HasActor(a) && !a.Arrive? ==> a.who in w.relay.links)
  {
    var (s', told) := Apply(w.relay, a);
    World(s', w.issued + s'.routes, w.log + told)
  }

  // --------------------------------------------------------------- invariant

  /** A pair id still on an old connection is never a live route it could close. */
  ghost predicate PairOk(w: World, c: RelayConnection) {
    c in w.relay.links && w.relay.links[c].pair.Some? ==>
      var p := w.relay.links[c].pair.value;
      p in w.issued && (p in w.relay.routes ==> c in w.relay.live)
  }

  ghost predicate IssuedOk(w: World, p: nat) {
    p in w.relay.routes ==> p in w.issued && w.issued[p] == w.relay.routes[p]
  }

  ghost predicate Inv(w: World) {
    && Shape(w.relay) && Tokens(w.relay)
    && (forall c {:trigger PairOk(w, c)} | c in w.relay.links :: PairOk(w, c))
    && (forall p: nat {:trigger IssuedOk(w, p)} :: IssuedOk(w, p))
  }

  /** A stale pair id closes nothing: a route closed on departure is the leaver's. */
  lemma DepartKeeps(w: World, c: RelayConnection, now: real, full: set<RelayConnection>)
    requires Inv(w) && c in w.relay.links && Known(w.relay)
    ensures Shape(Depart(w.relay, c, now, full).0) && Tokens(Depart(w.relay, c, now, full).0)
  {
    var s := w.relay;
    assert PairOk(w, c) && LiveOk(s, c);
    ReleasedTokens(s, c, now);
    if c in s.live {
      LiveDeparts(s, c, now, full);
    } else {
      LateDeparts(s, c, now, full);
    }
    var q := DropRoom(Released(s.(live := s.live - {c}), c, now), c);
    SameTokensKeeps(Released(s.(live := s.live - {c}), c, now), q);
    SameTokensKeeps(q, Depart(s, c, now, full).0);
  }

  lemma LiveDeparts(s: Relay, c: RelayConnection, now: real, full: set<RelayConnection>)
    requires Shape(s) && Known(s) && c in s.live && c in s.links
    ensures Shape(Depart(s, c, now, full).0)
  {
    var s' := Depart(s, c, now, full).0;
    forall n: nat, m: nat
      ensures IdOk(s', n, m)
    {
      LiveDepartsIds(s, c, now, full, n, m);
    }
    LiveDepartsLinks(s, c, now, full);
  }

  lemma LiveDepartsIds(s: Relay, c: RelayConnection, now: real, full: set<RelayConnection>, n: nat, m: nat)
    requires Shape(s) && Known(s) && c in s.live && c in s.links
    ensures IdOk(Depart(s, c, now, full).0, n, m)
  {
    assert LiveOk(s, c);
    assert IdOk(s, n, m);
    if s.links[c].pair.Some? {
      assert IdOk(s, s.links[c].pair.value, s.links[c].pair.value);
    }
  }

  lemma LiveDepartsLinks(s: Relay, c: RelayConnection, now: real, full: set<RelayConnection>)
    requires Shape(s) && Known(s) && c in s.live && c in s.links
    ensures var s' := Depart(s, c, now, full).0; forall d | d in s'.links :: LiveOk(s', d)
  {
    var s' := Depart(s, c, now, full).0;
    assert LiveOk(s, c);
    if s.links[c].pair.Some? {
      assert IdOk(s, s.links[c].pair.value, s.links[c].pair.value);
    }
    forall d | d in s'.links
      ensures LiveOk(s', d)
    {
      assert LiveOk(s, d);
    }
  }

  lemma LateDeparts(s: Relay, c: RelayConnection, now: real, full: set<RelayConnection>)
    requires Shape(s) && Known(s) && c !in s.live && c in s.links
    requires s.links[c].pair.Some? ==> s.links[c].pair.value !in s.routes
    ensures Shape(Depart(s, c, now, full).0)
    ensures Depart(s, c, now, full).0.rooms == s.rooms && Depart(s, c, now, full).0.routes == s.routes
  {
    var s' := Depart(s, c, now, full).0;
    assert s.links[c].room.Some? ==> IdOk(s, s.links[c].room.value, s.links[c].room.value);
    forall n: nat, m: nat
      ensures IdOk(s', n, m)
    {
      assert IdOk(s, n, m);
    }
    forall d | d in s'.links
      ensures LiveOk(s', d)
    {
      assert LiveOk(s, d);
    }
  }

  lemma ApplyKeeps(w: World, a: Action)
    requires Inv(w) && Enabled(w, a) && Known(w.relay)
    ensures HasActor(a) && !a.Arrive? ==> a.who in w.relay.links
    ensures Shape(Apply(w.relay, a).0) && Tokens(Apply(w.relay, a).0)
  {
    if a.Leave? {
      DepartKeeps(w, a.who, a.now, a.full);
    } else if a.Enter? {
      assert IssuedOk(w, a.pair);
      EnterKeeps(w.relay, a.who, a.room, a.hello, a.now, a.limited, a.pair);
    } else if a.Shake? || a.Data? || a.Hang? || a.ExpireRoute? {
      RouteActionKeeps(w.relay, a);
    } else if a.Wait? || a.Cancel? || a.ExpireRooms? {
      RoomActionKeeps(w.relay, a);
    } else {
      TokenActionKeeps(w.relay, a);
    }
  }

  lemma EnterKeeps(s: Relay, c: RelayConnection, room: nat, hello: Hello, now: real, limited: bool, pair: nat)
    requires Shape(s) && Tokens(s) && Known(s) && c in s.live && c in s.links && pair !in s.routes
    ensures var s' := Join(s, c, room, hello, now, limited, pair).0; Shape(s') && Tokens(s')
  {
    JoinShape(s, c, room, hello, now, limited, pair);
    SameTokensKeeps(s, Join(s, c, room, hello, now, limited, pair).0);
  }

  lemma RouteActionKeeps(s: Relay, a: Action)
    requires Shape(s) && Tokens(s) && Known(s) && (HasActor(a) ==> a.who in s.links)
    requires a.Shake? || a.Data? || a.Hang? || a.ExpireRoute?
    ensures Shape(Apply(s, a).0) && Tokens(Apply(s, a).0)
  {
    match a
    case Shake(c, pair, proof, now, full) => ProveKeeps(s, c, pair, proof, now, full);
    case Data(c, pair, sessionId, direction, counter, body, full) =>
      ForwardKeeps(s, c, pair, sessionId, direction, counter, body, full);
    case Hang(c, pair, full) => CloseKeepsBoth(s, pair, Some(c), "peer_close", full);
    case ExpireRoute(pair, now, full) => CloseKeepsBoth(s, pair, None, "handshake_timeout", full);
  }

  lemma RoomActionKeeps(s: Relay, a: Action)
    requires Shape(s) && Tokens(s) && Known(s) && (HasActor(a) ==> a.who in s.live && a.who in s.links)
    requires a.Wait? || a.Cancel? || a.ExpireRooms?
    ensures Shape(Apply(s, a).0) && Tokens(Apply(s, a).0)
  {
    match a {
      case Wait(c, room, hello, now) => CreateRoomShape(s, c, room, hello, now);
      case Cancel(c) => CancelRoomShape(s, c);
      case ExpireRooms(now) => CleanedShape(s, now);
    }
    SameTokensKeeps(s, Apply(s, a).0);
  }

  lemma TokenActionKeeps(s: Relay, a: Action)
    requires Shape(s) && Tokens(s) && Known(s)
    requires if a.Arrive? then a.who !in s.links else HasActor(a) ==> a.who in s.links && a.who in s.live
    requires a.Display? ==> s.links[a.who].token.None?
    requires a.Arrive? || a.MarkClose? || a.Display? || a.Beat? || a.PruneTokens? || a.Rotate?
    ensures Shape(Apply(s, a).0) && Tokens(Apply(s, a).0)
  {
    match a
    case Arrive(c) => ConnectKeeps(s, c);
    case MarkClose(c) => CloseKeeps(s, c);
    case Display(c, token, now) => ReserveKeeps(s, c, token, now);
    case Beat(c, now) => BeatKeeps(s, c, now);
    case PruneTokens(now) => PruneKeeps(s, now);
    case Rotate => RotatedKeeps(s);
  }

  lemma BeatKeeps(s: Relay, c: RelayConnection, now: real)
    requires Shape(s) && Tokens(s) && c in s.links
    ensures Shape(Touch(s, c, now)) && Tokens(Touch(s, c, now))
  {
    TouchTokens(s, c, now);
    SameShape(s, Touch(s, c, now));
  }

  lemma PruneKeeps(s: Relay, now: real)
    requires Shape(s) && Tokens(s)
    ensures Shape(Pruned(s, now)) && Tokens(Pruned(s, now))
  {
    PrunedTokens(s, now);
    SameShape(s, Pruned(s, now));
  }

  lemma SameShape(s: Relay, s': Relay)
    requires Shape(s) && s'.rooms == s.rooms && s'.routes == s.routes
    requires s'.live == s.live && s'.links.Keys == s.links.Keys
    requires forall c | c in s.links :: s'.links[c].room == s.links[c].room && s'.links[c].pair == s.links[c].pair
    ensures Shape(s')
  {
    forall n: nat, m: nat
      ensures IdOk(s', n, m)
    {
      assert IdOk(s, n, m);
    }
    forall d | d in s'.links
      ensures LiveOk(s', d)
    {
      assert LiveOk(s, d);
    }
  }

  lemma ReserveKeeps(s: Relay, c: RelayConnection, token: nat, now: real)
    requires Shape(s) && Tokens(s) && c in s.live && c in s.links && s.links[c].token.None?
    ensures Shape(Reserve(s, c, token, now).0) && Tokens(Reserve(s, c, token, now).0)
  {
    ReserveTokens(s, c, token, now);
    SameShape(s, Reserve(s, c, token, now).0);
  }

  lemma CloseKeepsBoth(s: Relay, pair: nat, source: Option<RelayConnection>, reason: string, full: set<RelayConnection>)
    requires Shape(s) && Tokens(s) && Known(s)
    ensures Shape(CloseRoute(s, pair, source, reason, full).0) && Tokens(CloseRoute(s, pair, source, reason, full).0)
  {
    CloseRouteShape(s, pair, source, reason, full);
    SameTokensKeeps(s, CloseRoute(s, pair, source, reason, full).0);
  }

  lemma ProveKeeps(s: Relay, c: RelayConnection, pair: nat, proof: Bytes, now: real, full: set<RelayConnection>)
    requires Shape(s) && Tokens(s) && Known(s) && c in s.links
    ensures Shape(Prove(s, c, pair, proof, now, full).0) && Tokens(Prove(s, c, pair, proof, now, full).0)
  {
    CloseKeepsBoth(s, pair, None, "handshake_timeout", full);
    if OnRoute(s, c, pair) {
      var r := MarkProof(s.routes[pair], RoleOf(s.routes[pair], c));
      RouteUpdated(s, pair, r);
      SameTokensKeeps(s, s.(routes := s.routes[pair := r]));
    }
  }

  lemma ForwardKeeps(s: Relay, c: RelayConnection, pair: nat, sessionId: nat, direction: L.Direction, counter: nat,
                     body: Bytes, full: set<RelayConnection>)
    requires Shape(s) && Tokens(s) && Known(s) && c in s.links
    ensures var s' := Forward(s, c, pair, sessionId, direction, counter, body, full).0; Shape(s') && Tokens(s')
  {
    if OnRoute(s, c, pair) {
      var r := s.routes[pair].(sessionId := Some(sessionId));
      RouteUpdated(s, pair, r);
      SameTokensKeeps(s, s.(routes := s.routes[pair := r]));
    }
  }

  lemma RotatedKeeps(s: Relay)
    requires Shape(s)
    ensures Shape(Rotated(s)) && Tokens(Rotated(s))
  {
    var s' := Rotated(s);
    assert forall n: nat, m: nat :: IdOk(s', n, m);
    assert forall d | d in s'.links :: LiveOk(s', d) && TokenOk(s', d);
    assert forall t: nat :: HolderOk(s', t);
  }

  /** How one connection's pair id may change in a step. */
  ghost predicate PairMoves(s: Relay, s': Relay, c: RelayConnection) {
    c in s'.links && s'.links[c].pair.Some? ==>
      var p := s'.links[c].pair.value;
      || (p in s'.routes && c in s'.live)
      || (c in s.links && s.links[c].pair == Some(p)
          && (p in s'.routes ==> p in s.routes && (c in s.live ==> c in s'.live)))
  }

  lemma PairsMove(w: World, a: Action, c: RelayConnection)
    requires Inv(w) && Enabled(w, a) && Known(w.relay) && (HasActor(a) && !a.Arrive? ==> a.who in w.relay.links)
    ensures PairMoves(w.relay, Apply(w.relay, a).0, c)
  {
    if a.Leave? {
      assert PairOk(w, a.who) && LiveOk(w.relay, a.who);
      LeaveMovesPairs(w.relay, a.who, a.now, a.full, c);
    } else if a.Enter? {
      assert IssuedOk(w, a.pair);
      if c in w.relay.links {
        assert PairOk(w, c);
      }
      JoinMovesPairs(w.relay, a.who, a.room, a.hello, a.now, a.limited, a.pair, c);
    } else {
      OthersMovePairs(w.relay, a, c);
    }
  }

  lemma OthersMovePairs(s: Relay, a: Action, c: RelayConnection)
    requires Known(s) && !a.Leave? && !a.Enter? && (HasActor(a) && !a.Arrive? ==> a.who in s.links)
    ensures PairMoves(s, Apply(s, a).0, c)
  {
    if a.Shake? || a.Data? || a.Hang? || a.ExpireRoute? {
      RouteActionMovesPairs(s, a, c);
    } else {
      TableActionMovesPairs(s, a, c);
    }
  }

  lemma RouteActionMovesPairs(s: Relay, a: Action, c: RelayConnection)
    requires Known(s) && (HasActor(a) ==> a.who in s.links)
    requires a.Shake? || a.Data? || a.Hang? || a.ExpireRoute?
    ensures PairMoves(s, Apply(s, a).0, c)
  {
  }

  /** No other request touches a pair id. */
  lemma TableActionMovesPairs(s: Relay, a: Action, c: RelayConnection)
    requires Known(s) && (HasActor(a) && !a.Arrive? ==> a.who in s.links)
    requires !a.Leave? && !a.Enter? && !a.Shake? && !a.Data? && !a.Hang? && !a.ExpireRoute?
    ensures PairMoves(s, Apply(s, a).0, c)
  {
  }

  lemma LeaveMovesPairs(s: Relay, d: RelayConnection, now: real, full: set<RelayConnection>, c: RelayConnection)
    requires Shape(s) && Known(s) && d in s.links
    requires s.links[d].pair.Some? && s.links[d].pair.value in s.routes ==> OnRoute(s, d, s.links[d].pair.value)
    ensures PairMoves(s, Depart(s, d, now, full).0, c)
  {
  }

  lemma JoinMovesPairs(s: Relay, d: RelayConnection, room: nat, hello: Hello, now: real, limited: bool, pair: nat,
                       c: RelayConnection)
    requires Shape(s) && Known(s) && d in s.live && d in s.links && pair !in s.routes
    requires c in s.links && s.links[c].pair.Some? ==> s.links[c].pair.value != pair
    ensures PairMoves(s, Join(s, d, room, hello, now, limited, pair).0, c)
  {
    CleanedShape(s, now);
    var q := Cleaned(s, now);
    assert IdOk(q, room, room);
  }

  lemma NextKeeps(w: World, a: Action)
    requires Inv(w) && Enabled(w, a) && Known(w.relay)
    ensures HasActor(a) && !a.Arrive? ==> a.who in w.relay.links
    ensures Inv(Next(w, a))
  {
    ApplyKeeps(w, a);
    var w' := Next(w, a);
    forall c | c in w'.relay.links
      ensures PairOk(w', c)
    {
      PairsMove(w, a, c);
      if c in w.relay.links {
        assert PairOk(w, c);
      }
    }
    forall p: nat
      ensures IssuedOk(w', p)
    {
    }
  }

  // -------------------------------------------------------------------- runs

  const START: World := World(Relay(map[], {}, map[], map[], map[]), map[], [])

  ghost predicate Possible(w: World, a: Action) {
    Enabled(w, a) && Known(w.relay) && (HasActor(a) && !a.Arrive? ==> a.who in w.relay.links)
  }

  /** The run over the actions that can happen; the others are skipped. */
  ghost function Run(w: World, actions: seq<Action>): World {
    if actions == [] then w
    else
      var front := Run(w, actions[..|actions| - 1]);
      var a := actions[|actions| - 1];
      if Possible(front, a) then Next(front, a) else front
  }

  lemma {:induction false} RunKeeps(w: World, actions: seq<Action>)
    requires Inv(w)
    ensures Inv(Run(w, actions))
  {
    if actions != [] {
      var front := Run(w, actions[..|actions| - 1]);
      RunKeeps(w, actions[..|actions| - 1]);
      if Possible(front, actions[|actions| - 1]) {
        NextKeeps(front, actions[|actions| - 1]);
      }
    }
  }

  lemma StartOk()
    ensures Inv(START)
  {
    var s := START.relay;
    assert forall n: nat, m: nat :: IdOk(s, n, m);
    assert forall t: nat :: HolderOk(s, t);
    assert forall p: nat :: IssuedOk(START, p);
  }

  /** The room and route invariant over every run: ends are distinct and point back,
      a room's creator points back, nobody is both waiting and paired, and an id
      names at most one room or route. */
  lemma {:induction false} RoomsAndRoutes(actions: seq<Action>)
    ensures var s := Run(START, actions).relay;
            && (forall p | p in s.routes ::
                  var r := s.routes[p];
                  r.creator != r.joiner && r.creator in s.links && r.joiner in s.links
                  && s.links[r.creator].pair == Some(p) && s.links[r.joiner].pair == Some(p))
            && (forall n | n in s.rooms ::
                  s.rooms[n].creator in s.links && s.links[s.rooms[n].creator].room == Some(n))
            && (forall c | c in s.live :: c in s.links && (s.links[c].room.None? || s.links[c].pair.None?))
            && (forall p, q | p in s.routes && q in s.routes && p != q :: s.routes[p].roomId != s.routes[q].roomId)
            && (forall p | p in s.routes :: s.routes[p].roomId !in s.rooms)
  {
    StartOk();
    RunKeeps(START, actions);
    ShapeMeans(Run(START, actions).relay);
  }

  lemma ShapeMeans(s: Relay)
    requires Shape(s)
    ensures forall p | p in s.routes ::
              var r := s.routes[p];
              r.creator != r.joiner && r.creator in s.links && r.joiner in s.links
              && s.links[r.creator].pair == Some(p) && s.links[r.joiner].pair == Some(p)
    ensures forall n | n in s.rooms ::
              s.rooms[n].creator in s.links && s.links[s.rooms[n].creator].room == Some(n)
    ensures forall c | c in s.live :: c in s.links && (s.links[c].room.None? || s.links[c].pair.None?)
    ensures forall p, q | p in s.routes && q in s.routes && p != q :: s.routes[p].roomId != s.routes[q].roomId
    ensures forall p | p in s.routes :: s.routes[p].roomId !in s.rooms
  {
    forall c | c in s.live
      ensures c in s.links && (s.links[c].room.None? || s.links[c].pair.None?)
    {
      assert LiveOk(s, c);
    }
    forall p, q | p in s.routes && q in s.routes && p != q
      ensures s.routes[p].roomId != s.routes[q].roomId
    {
      assert IdOk(s, p, q);
    }
    forall p | p in s.routes
      ensures s.routes[p].roomId !in s.rooms
    {
      assert IdOk(s, p, p);
    }
    forall p | p in s.routes
      ensures var r := s.routes[p];
              r.creator != r.joiner && r.creator in s.links && r.joiner in s.links
              && s.links[r.creator].pair == Some(p) && s.links[r.joiner].pair == Some(p)
    {
      assert IdOk(s, p, p);
    }
    forall n | n in s.rooms
      ensures s.rooms[n].creator in s.links && s.links[s.rooms[n].creator].room == Some(n)
    {
      assert IdOk(s, n, n);
    }
  }

  /** Two branches of the relay are dead in every run: a join never drops a room
      while leaving its creator waiting, and never pairs a connection with itself;
      a cancel never finds a pointer to a room that is not there. */
  lemma {:induction false} DeadBranches(actions: seq<Action>, c: RelayConnection, room: nat, hello: Hello, now: real,
                                        limited: bool, pair: nat)
    requires var s := Run(START, actions).relay; c in s.live && c in s.links && Known(s)
    ensures var s := Run(START, actions).relay;
            var (s', route) := Join(s, c, room, hello, now, limited, pair);
            && (route.Some? <==> !limited && !Busy(Cleaned(s, now), c) && room in Cleaned(s, now).rooms)
            && (route.Some? ==> route.value.creator != route.value.joiner)
            && (route.None? ==> s' == s || s' == Cleaned(s, now))
            && (CancelRoom(s, c).1 <==> s.links[c].room.Some?)
  {
    StartOk();
    RunKeeps(START, actions);
    var s := Run(START, actions).relay;
    JoinExact(s, c, room, hello, now, limited, pair);
    CancelExact(s, c);
  }

  // ------------------------------------------------------------- display ids

  /** No two listed connections ever hold the same display token. */
  lemma {:induction false} TokensExclusive(actions: seq<Action>, c: RelayConnection, d: RelayConnection)
    requires var s := Run(START, actions).relay;
             c in s.live && d in s.live && c in s.links && d in s.links
             && s.links[c].token.Some? && s.links[c].token == s.links[d].token
    ensures c == d
    ensures var s := Run(START, actions).relay;
            var t := s.links[c].token.value;
            forall now :: t in Pruned(s, now).reservations && Pruned(s, now).reservations[t].holder == Some(c)
  {
    StartOk();
    RunKeeps(START, actions);
    var s := Run(START, actions).relay;
    assert TokenOk(s, c) && TokenOk(s, d);
  }

  function TimeOf(a: Action): Option<real> {
    match a
    case Leave(_, now, _) => Some(now)
    case Display(_, _, now) => Some(now)
    case Beat(_, now) => Some(now)
    case Wait(_, _, _, now) => Some(now)
    case Enter(_, _, _, now, _, _) => Some(now)
    case Shake(_, _, _, now, _) => Some(now)
    case PruneTokens(now) => Some(now)
    case ExpireRooms(now) => Some(now)
    case ExpireRoute(_, now, _) => Some(now)
    case _ => None
  }

  predicate Before(actions: seq<Action>, end: real) {
    forall a | a in actions :: !a.Rotate? && (TimeOf(a).Some? ==> TimeOf(a).value < end)
  }

  /** The token is leased to nobody until `end`. */
  predicate Leased(s: Relay, token: nat, end: real) {
    token in s.reservations && s.reservations[token] == Reservation(None, end)
  }

  /** The actions that can touch a reservation. */
  predicate OfTokens(a: Action) {
    a.Leave? || a.Display? || a.Beat? || a.PruneTokens? || a.Rotate?
  }

  lemma OthersKeepReservations(s: Relay, a: Action)
    requires Known(s) && (HasActor(a) && !a.Arrive? ==> a.who in s.links) && !OfTokens(a)
    ensures Apply(s, a).0.reservations == s.reservations
  {
  }

  lemma NextKeepsLease(w: World, a: Action, token: nat, end: real)
    requires Possible(w, a) && Leased(w.relay, token, end)
    requires !a.Rotate? && (TimeOf(a).Some? ==> TimeOf(a).value < end)
    ensures Leased(Next(w, a).relay, token, end)
  {
    if OfTokens(a) {
      TokenActionKeepsLease(w.relay, a, token, end);
    } else {
      OthersKeepReservations(w.relay, a);
    }
  }

  lemma TokenActionKeepsLease(s: Relay, a: Action, token: nat, end: real)
    requires Known(s) && (HasActor(a) ==> a.who in s.links) && Leased(s, token, end)
    requires OfTokens(a) && !a.Rotate? && (TimeOf(a).Some? ==> TimeOf(a).value < end)
    ensures Leased(Apply(s, a).0, token, end)
  {
  }

  lemma {:induction false} LeaseHolds(w: World, actions: seq<Action>, token: nat, end: real)
    requires Leased(w.relay, token, end) && Before(actions, end)
    ensures Leased(Run(w, actions).relay, token, end)
  {
    if actions != [] {
      var front := actions[..|actions| - 1];
      LeaseHolds(w, front, token, end);
      if Possible(Run(w, front), actions[|actions| - 1]) {
        NextKeepsLease(Run(w, front), actions[|actions| - 1], token, end);
      }
    }
  }

  /** Once its holder leaves, a token is refused to everyone, the same user included,
      for the whole lease, and given out at its end; rotation aside. */
  lemma LeaseIsExact(actions: seq<Action>, c: RelayConnection, token: nat, at: real, full: set<RelayConnection>,
                     later: seq<Action>, d: RelayConnection, now: real)
    requires Possible(Run(START, actions), Leave(c, at, full))
    requires var s := Run(START, actions).relay; c in s.live && s.links[c].token == Some(token)
    requires Before(later, at + LEASE)
    requires d in Run(Next(Run(START, actions), Leave(c, at, full)), later).relay.links
    ensures Reserve(Run(Next(Run(START, actions), Leave(c, at, full)), later).relay, d, token, now).1
            <==> now >= at + LEASE
  {
    StartOk();
    RunKeeps(START, actions);
    var w := Run(START, actions);
    assert TokenOk(w.relay, c);
    var w1 := Next(w, Leave(c, at, full));
    assert Leased(w1.relay, token, at + LEASE);
    LeaseHolds(w1, later, token, at + LEASE);
  }

  // ------------------------------------------------------ what routes carry

  /** A route only gains proofs and its one session id. */
  predicate Grows(r: Route, r': Route) {
    && r' == r.(creatorProof := r'.creatorProof, joinerProof := r'.joinerProof, sessionId := r'.sessionId)
    && (r.creatorProof ==> r'.creatorProof) && (r.joinerProof ==> r'.joinerProof)
    && (r.sessionId.Some? ==> r'.sessionId == r.sessionId)
  }

  function Receiver(r: Route, d: L.Direction): RelayConnection {
    if d.CreatorToJoiner? then r.joiner else r.creator
  }

  /** Why a queued frame was allowed. */
  predicate DeliveryOk(issued: map<nat, Route>, d: Delivery) {
    match d.frame
    case ProofFrame(p, role, _) => p in issued && Proved(issued[p], role) && d.to == Pick(issued[p], L.Peer(role))
    case ProofTaken(p) => p in issued && IsEnd(issued[p], d.to) && Proved(issued[p], RoleOf(issued[p], d.to))
    case DataFrame(p, sessionId, direction, _, _) =>
      p in issued && IsActive(issued[p]) && issued[p].sessionId == Some(sessionId)
      && d.to == Receiver(issued[p], direction)
    case CloseFrame(_, _) => true
  }

  predicate SameProof(a: RelayFrame, b: RelayFrame) {
    a.ProofFrame? && b.ProofFrame? && a.pair == b.pair && a.role == b.role
  }

  ghost predicate LogOk(w: World) {
    && (forall i | 0 <= i < |w.log| :: DeliveryOk(w.issued, w.log[i]))
    && (forall i, j | 0 <= i < j < |w.log| :: !SameProof(w.log[i].frame, w.log[j].frame))
    && (forall p | p in w.issued :: w.issued[p].creator != w.issued[p].joiner)
  }

  lemma DeliveryStays(issued: map<nat, Route>, issued': map<nat, Route>, d: Delivery)
    requires DeliveryOk(issued, d)
    requires forall p | p in issued :: p in issued' && Grows(issued[p], issued'[p])
    ensures DeliveryOk(issued', d)
  {
  }

  ghost predicate RouteMoves(s: Relay, s': Relay, opening: Option<nat>, p: nat) {
    p in s'.routes ==> opening == Some(p) || (p in s.routes && Grows(s.routes[p], s'.routes[p]))
  }

  lemma RoutesMove(s: Relay, a: Action, p: nat)
    requires Known(s) && (HasActor(a) && !a.Arrive? ==> a.who in s.links)
    ensures RouteMoves(s, Apply(s, a).0, if a.Enter? then Some(a.pair) else None, p)
  {
    if a.Enter? {
      EnterMovesRoutes(s, a.who, a.room, a.hello, a.now, a.limited, a.pair, p);
    } else if a.Shake? {
      ShakeMovesRoutes(s, a.who, a.pair, a.proof, a.now, a.full, p);
    } else if a.Data? {
      DataMovesRoutes(s, a.who, a.pair, a.sessionId, a.direction, a.counter, a.body, a.full, p);
    } else {
      OthersMoveRoutes(s, a, p);
    }
  }

  lemma EnterMovesRoutes(s: Relay, c: RelayConnection, room: nat, hello: Hello, now: real, limited: bool, pair: nat,
                         p: nat)
    requires Known(s) && c in s.links
    ensures RouteMoves(s, Join(s, c, room, hello, now, limited, pair).0, Some(pair), p)
  {
  }

  lemma ShakeMovesRoutes(s: Relay, c: RelayConnection, pair: nat, proof: Bytes, now: real, full: set<RelayConnection>,
                         p: nat)
    requires Known(s) && c in s.links
    ensures RouteMoves(s, Prove(s, c, pair, proof, now, full).0, None, p)
  {
  }

  lemma DataMovesRoutes(s: Relay, c: RelayConnection, pair: nat, sessionId: nat, direction: L.Direction, counter: nat,
                        body: Bytes, full: set<RelayConnection>, p: nat)
    requires Known(s) && c in s.links
    ensures RouteMoves(s, Forward(s, c, pair, sessionId, direction, counter, body, full).0, None, p)
  {
  }

  lemma OthersMoveRoutes(s: Relay, a: Action, p: nat)
    requires Known(s) && (HasActor(a) && !a.Arrive? ==> a.who in s.links) && !a.Enter? && !a.Shake? && !a.Data?
    ensures RouteMoves(s, Apply(s, a).0, None, p)
  {
    if a.Leave? || a.Hang? || a.ExpireRoute? {
      ClosingMovesRoutes(s, a, p);
    }
  }

  lemma ClosingMovesRoutes(s: Relay, a: Action, p: nat)
    requires Known(s) && (HasActor(a) ==> a.who in s.links) && (a.Leave? || a.Hang? || a.ExpireRoute?)
    ensures RouteMoves(s, Apply(s, a).0, None, p)
  {
  }

  lemma IssuedGrows(w: World, a: Action)
    requires Inv(w) && Possible(w, a)
    ensures forall p | p in w.issued :: p in Next(w, a).issued && Grows(w.issued[p], Next(w, a).issued[p])
  {
    forall p | p in w.issued
      ensures p in Next(w, a).issued && Grows(w.issued[p], Next(w, a).issued[p])
    {
      assert IssuedOk(w, p);
      RoutesMove(w.relay, a, p);
    }
  }

  /** The frames of one request: at most one proof, of a role not proved before. */
  ghost predicate ToldOk(w: World, issued': map<nat, Route>, told: seq<Delivery>) {
    && (forall i | 0 <= i < |told| ::
          DeliveryOk(issued', told[i])
          && (told[i].frame.ProofFrame? ==>
                i == 0 && told[i].frame.pair in w.issued && !Proved(w.issued[told[i].frame.pair], told[i].frame.role)))
  }

  lemma Tells(w: World, a: Action)
    requires Inv(w) && Possible(w, a)
    ensures ToldOk(w, Next(w, a).issued, Apply(w.relay, a).1)
  {
    if a.Shake? {
      TellsProof(w, a);
    } else if a.Data? {
      TellsData(w, a);
    } else {
      TellsClosing(w.relay, a);
    }
  }

  /** Every other request queues nothing but notices of closed routes. */
  lemma TellsClosing(s: Relay, a: Action)
    requires Known(s) && (HasActor(a) && !a.Arrive? ==> a.who in s.links) && !a.Shake? && !a.Data?
    ensures forall d | d in Apply(s, a).1 :: d.frame.CloseFrame?
  {
  }

  lemma TellsProof(w: World, a: Action)
    requires Inv(w) && Possible(w, a) && a.Shake?
    ensures ToldOk(w, Next(w, a).issued, Apply(w.relay, a).1)
  {
    assert IssuedOk(w, a.pair) && IdOk(w.relay, a.pair, a.pair);
  }

  lemma TellsData(w: World, a: Action)
    requires Inv(w) && Possible(w, a) && a.Data?
    ensures ToldOk(w, Next(w, a).issued, Apply(w.relay, a).1)
  {
    assert IssuedOk(w, a.pair) && IdOk(w.relay, a.pair, a.pair);
  }

  lemma NextKeepsLog(w: World, a: Action)
    requires Inv(w) && LogOk(w) && Possible(w, a)
    ensures LogOk(Next(w, a))
  {
    var w', told := Next(w, a), Apply(w.relay, a).1;
    NextKeeps(w, a);
    IssuedGrows(w, a);
    Tells(w, a);
    forall i | 0 <= i < |w'.log|
      ensures DeliveryOk(w'.issued, w'.log[i])
    {
      if i < |w.log| {
        DeliveryStays(w.issued, w'.issued, w.log[i]);
      }
    }
    forall i, j | 0 <= i < j < |w'.log|
      ensures !SameProof(w'.log[i].frame, w'.log[j].frame)
    {
      if i < |w.log| {
        assert DeliveryOk(w.issued, w.log[i]);
      }
    }
    forall p | p in w'.issued
      ensures w'.issued[p].creator != w'.issued[p].joiner
    {
      assert IdOk(w'.relay, p, p);
    }
  }

  lemma {:induction false} RunKeepsLog(w: World, actions: seq<Action>)
    requires Inv(w) && LogOk(w)
    ensures LogOk(Run(w, actions))
  {
    if actions != [] {
      var front := actions[..|actions| - 1];
      RunKeepsLog(w, front);
      RunKeeps(w, front);
      if Possible(Run(w, front), actions[|actions| - 1]) {
        NextKeepsLog(Run(w, front), actions[|actions| - 1]);
      }
    }
  }

  /** Each role's proof is forwarded at most once per pairing, ever. */
  lemma {:induction false} ProofsForwardedOnce(actions: seq<Action>, i: nat, j: nat)
    requires i < j < |Run(START, actions).log|
    ensures !SameProof(Run(START, actions).log[i].frame, Run(START, actions).log[j].frame)
  {
    StartOk();
    RunKeepsLog(START, actions);
  }

  /** All data ever forwarded for one pairing carries one session id; each direction
      has one recipient, and the two recipients differ. */
  lemma {:induction false} DataStaysInSession(actions: seq<Action>, i: nat, j: nat)
    requires var log := Run(START, actions).log;
             i < |log| && j < |log| && log[i].frame.DataFrame? && log[j].frame.DataFrame?
             && log[i].frame.pair == log[j].frame.pair
    ensures var log := Run(START, actions).log;
            && log[i].frame.sessionId == log[j].frame.sessionId
            && (log[i].to == log[j].to <==> log[i].frame.direction == log[j].frame.direction)
  {
    StartOk();
    RunKeepsLog(START, actions);
    var w := Run(START, actions);
    assert DeliveryOk(w.issued, w.log[i]) && DeliveryOk(w.issued, w.log[j]);
  }

  /** A client whose own proof was answered and who holds its peer's proof finds an
      open route active: its data, sent in its own direction, is refused only for a
      session id other than the one in use. */
  lemma {:induction false} FirstDataFindsActiveRoute(actions: seq<Action>, c: RelayConnection, i: nat, j: nat,
                                                     sessionId: nat, counter: nat, body: Bytes,
                                                     full: set<RelayConnection>)
    requires var w := Run(START, actions);
             i < |w.log| && j < |w.log| && w.log[i].to == c && w.log[j].to == c
             && w.log[i].frame.ProofTaken? && w.log[j].frame.ProofFrame? && w.log[i].frame.pair == w.log[j].frame.pair
             && w.log[i].frame.pair in w.relay.routes && Known(w.relay) && c in w.relay.links
    ensures var w := Run(START, actions);
            var p := w.log[i].frame.pair;
            var r := w.relay.routes[p];
            && IsEnd(r, c) && IsActive(r)
            && (Forward(w.relay, c, p, sessionId, L.Outgoing(RoleOf(r, c)), counter, body, full).2 == Invalid
                <==> r.sessionId.Some? && r.sessionId != Some(sessionId))
  {
    StartOk();
    RunKeeps(START, actions);
    RunKeepsLog(START, actions);
    var w := Run(START, actions);
    assert DeliveryOk(w.issued, w.log[i]) && DeliveryOk(w.issued, w.log[j]);
    assert IssuedOk(w, w.log[i].frame.pair);
  }
}
