/** The relay's session handlers on its own objects: dictionaries of rooms, routes and
    reservations, and connections that are updated in place. Each method changes the
    state as the request of the same name does in `RelayState`. */
module RelayServer {
  import opened Encoding
  import L = LiveSession
  import opened Handshake
  import opened RelayState
  import RateLimiter
  import opened Options

  class Server {
    ghost var everyone: set<RelayConnection>
    var connections: set<RelayConnection>
    var waitingRooms: map<nat, Room>
    var routes: map<nat, Route>
    var reservations: map<nat, Reservation>
    var joinLimiter: RateLimiter.WindowRateLimiter

    ghost function View(): Relay
      reads this, everyone
    {
      Relay(map c | c in everyone :: c.View(), connections, waitingRooms, routes, reservations)
    }

    ghost predicate Valid()
      reads this, everyone
    {
      Known(View()) && joinLimiter.policy == RateLimiter.JOINS
    }

    constructor ()
      ensures Valid() && View() == Relay(map[], {}, map[], map[], map[]) && everyone == {}
    {
      everyone, connections := {}, {};
      waitingRooms, routes, reservations := map[], map[], map[];
      joinLimiter := new RateLimiter.WindowRateLimiter(RateLimiter.JOINS);
    }

    method Accept() returns (c: RelayConnection)
      requires Valid()
      modifies this
      ensures Valid() && fresh(c) && everyone == old(everyone) + {c}
      ensures View() == Connect(old(View()), c)
    {
      c := new RelayConnection();
      everyone := everyone + {c};
      connections := connections + {c};
      assert View().links == old(View()).links[c := c.View()];
    }

    // ---------------------------------------------------------- reservations

    method PruneReservations(now: real)
      requires Valid()
      modifies this`reservations
      ensures Valid() && View() == Pruned(old(View()), now)
    {
      var todo := reservations.Keys;
      while todo != {}
        invariant todo <= reservations.Keys
        invariant reservations == map t | t in old(reservations)
                    && (t in todo || !(old(reservations)[t].holder.None? && old(reservations)[t].expiresAt <= now))
                    :: old(reservations)[t]
      {
        var t :| t in todo;
        todo := todo - {t};
        if reservations[t].holder.None? && reservations[t].expiresAt <= now {
          reservations := reservations - {t};
        }
      }
    }

    method ReserveDisplay(c: RelayConnection, token: nat, now: real) returns (ok: bool)
      requires Valid() && c in everyone
      modifies this`reservations, c`token
      ensures Valid() && (View(), ok) == Reserve(old(View()), c, token, now)
    {
      PruneReservations(now);
      if token in reservations {
        if reservations[token].holder == Some(c) {
          reservations := reservations[token := reservations[token].(expiresAt := now + LEASE)];
        } else {
          return false;
        }
      } else {
        reservations := reservations[token := Reservation(Some(c), now + LEASE)];
      }
      ok := true;
      c.token := Some(token);
      assert View().links == old(View()).links[c := c.View()];
    }

    method TouchDisplay(c: RelayConnection, now: real)
      requires Valid() && c in everyone
      modifies this`reservations
      ensures Valid() && View() == Touch(old(View()), c, now)
    {
      if c.token.None? {
        return;
      }
      var t := c.token.value;
      if t in reservations && reservations[t].holder == Some(c) {
        reservations := reservations[t := reservations[t].(expiresAt := now + LEASE)];
      }
    }

    // ----------------------------------------------------------------- rooms

    method CleanupRoom(r: nat, now: real)
      requires Valid()
      modifies this`waitingRooms, everyone`room
      ensures Valid() && View() == DropStale(old(View()), r, now)
    {
      if r in waitingRooms {
        var creator := waitingRooms[r].creator;
        assert creator in View().links;
        if waitingRooms[r].expiresAt <= now || creator.closed {
          waitingRooms := waitingRooms - {r};
          if creator.room == Some(r) {
            creator.room := None;
            assert View().links == old(View()).links[creator := creator.View()];
          } else {
            assert View().links == old(View()).links;
          }
        }
      }
    }

    method CleanupSessions(now: real)
      requires Valid()
      modifies this`waitingRooms, everyone`room
      ensures Valid() && View() == Cleaned(old(View()), now)
    {
      ghost var s := View();
      CleanEnds(s, now);
      var todo := waitingRooms.Keys;
      while todo != {}
        invariant todo <= s.rooms.Keys
        invariant Valid() && View() == CleanedBut(s, now, todo)
      {
        var r :| r in todo;
        CleanNext(s, now, todo, r);
        CleanupRoom(r, now);
        todo := todo - {r};
      }
    }

    method OpenRoom(c: RelayConnection, room: nat, hello: Hello, at: real)
      requires Valid() && c in everyone
      modifies this`waitingRooms, c`room
      ensures Valid()
      ensures View() == old(View()).(rooms := old(View()).rooms[room := Room(c, hello, at)],
                                     links := old(View()).links[c := old(View()).links[c].(room := Some(room))])
    {
      waitingRooms := waitingRooms[room := Room(c, hello, at)];
      c.room := Some(room);
      assert View().links == old(View()).links[c := c.View()];
    }

    method CreateWaitingRoom(c: RelayConnection, room: nat, hello: Hello, now: real) returns (ok: bool)
      requires Valid() && c in everyone
      modifies this`waitingRooms, everyone`room
      ensures Valid() && (View(), ok) == CreateRoom(old(View()), c, room, hello, now)
    {
      CleanupSessions(now);
      assert View().links[c] == c.View();
      if c.room.Some? || c.pair.Some? {
        return false;
      }
      if room in waitingRooms || exists p :: p in routes && routes[p].roomId == room {
        return false;
      }
      OpenRoom(c, room, hello, now + WAIT);
      ok := true;
    }

    method CancelWaitingRoom(c: RelayConnection) returns (ok: bool)
      requires Valid() && c in everyone
      modifies this`waitingRooms, c`room
      ensures Valid() && (View(), ok) == CancelRoom(old(View()), c)
    {
      if c.room.None? {
        return false;
      }
      var room := c.room.value;
      if room !in waitingRooms || waitingRooms[room].creator != c {
        c.room := None;
        assert View().links == old(View()).links[c := c.View()];
        return false;
      }
      waitingRooms := waitingRooms - {room};
      c.room := None;
      ok := true;
      assert View().links == old(View()).links[c := c.View()];
    }

    method Repoint(c: RelayConnection, room: Option<nat>, pair: Option<nat>)
      requires Valid() && c in everyone
      modifies c`room, c`pair
      ensures Valid()
      ensures View() == old(View()).(links := old(View()).links[c := old(View()).links[c].(room := room, pair := pair)])
    {
      c.room := room;
      c.pair := pair;
      assert View().links == old(View()).links[c := c.View()];
    }

    method OpenRoute(pair: nat, route: Route)
      requires Valid() && route.creator in everyone && route.joiner in everyone
      modifies this`routes, everyone`room, everyone`pair
      ensures Valid()
      ensures var links := old(View()).links;
              var left := links[route.creator := links[route.creator].(room := None, pair := Some(pair))];
              View() == old(View()).(routes := old(View()).routes[pair := route],
                                     links := left[route.joiner := left[route.joiner].(pair := Some(pair))])
    {
      SetRoute(pair, route);
      Repoint(route.creator, None, Some(pair));
      assert View().links[route.joiner] == route.joiner.View();
      Repoint(route.joiner, route.joiner.room, Some(pair));
    }

    /** The limiter is asked before anything is looked at, and told of every join it
        allows, successful or not. */
    method AllowJoin(peer: string, now: real) returns (allowed: bool)
      requires Valid()
      modifies joinLimiter
      ensures Valid() && View() == old(View())
      ensures var (checked, retry) := RateLimiter.RetryAfter(old(joinLimiter.Of(peer)), now);
              && (allowed <==> retry == 0)
              && joinLimiter.Of(peer)
                 == if allowed then RateLimiter.Record(RateLimiter.JOINS, checked, now).0 else checked
      ensures joinLimiter.Only(peer)
    {
      var retry := joinLimiter.RetryAfterKey(peer, now);
      if retry != 0 {
        return false;
      }
      var _ := joinLimiter.RecordKey(peer, now);
      allowed := true;
    }

    method JoinWaitingRoom(c: RelayConnection, peer: string, room: nat, hello: Hello, now: real, pair: nat)
      returns (route: Option<Route>)
      requires Valid() && c in everyone
      modifies this`waitingRooms, this`routes, everyone`room, everyone`pair, joinLimiter
      ensures Valid()
      ensures var (checked, retry) := RateLimiter.RetryAfter(old(joinLimiter.Of(peer)), now);
              && (View(), route) == Join(old(View()), c, room, hello, now, retry != 0, pair)
              && joinLimiter.Of(peer)
                 == if retry == 0 then RateLimiter.Record(RateLimiter.JOINS, checked, now).0 else checked
      ensures joinLimiter.Only(peer)
    {
      var allowed := AllowJoin(peer, now);
      if !allowed {
        return None;
      }
      route := PairInRoom(c, room, hello, now, pair);
    }

    method PairInRoom(c: RelayConnection, room: nat, hello: Hello, now: real, pair: nat) returns (route: Option<Route>)
      requires Valid() && c in everyone
      modifies this`waitingRooms, this`routes, everyone`room, everyone`pair
      ensures Valid() && (View(), route) == Join(old(View()), c, room, hello, now, false, pair)
    {
      CleanupSessions(now);
      ghost var q := View();
      assert q.links[c] == c.View();
      if c.room.Some? || c.pair.Some? || room !in waitingRooms {
        return None;
      }
      var found := waitingRooms[room];
      assert q.links[found.creator] == found.creator.View();
      waitingRooms := waitingRooms - {room};
      assert View() == q.(rooms := waitingRooms);
      if found.creator.closed || found.creator.pair.Some? {
        return None;
      }
      var opening := Route(room, found.creator, c, found.hello, hello, now + HANDSHAKE_TIME, false, false, None);
      OpenRoute(pair, opening);
      route := Some(opening);
    }

    // ---------------------------------------------------------------- routes

    method SendTo(c: RelayConnection, f: RelayFrame, full: set<RelayConnection>)
      returns (told: seq<Delivery>, sent: bool)
      requires Valid() && c in everyone
      ensures sent == CanSend(View(), c, full) && told == Told(View(), c, f, full)
    {
      sent := !c.closed && c !in full;
      told := if sent then [Delivery(c, f)] else [];
    }

    method Unpair(pair: nat)
      requires Valid() && pair in routes
      modifies this`routes, everyone`pair
      ensures Valid()
      ensures var s := old(View());
              View() == s.(routes := s.routes - {pair},
                           links := Unpaired(Unpaired(s.links, s.routes[pair].creator), s.routes[pair].joiner))
    {
      var r := routes[pair];
      assert r.creator in View().links && r.joiner in View().links;
      routes := routes - {pair};
      r.creator.pair := None;
      ghost var left := View().links;
      assert left == old(View()).links[r.creator := r.creator.View()];
      r.joiner.pair := None;
      assert View().links == left[r.joiner := r.joiner.View()];
    }

    method Notify(c: RelayConnection, pair: nat, source: Option<RelayConnection>, reason: string,
                  full: set<RelayConnection>) returns (told: seq<Delivery>)
      requires Valid() && c in everyone
      ensures told == Notice(View(), c, pair, source, reason, full)
    {
      told := [];
      if source != Some(c) && !c.closed && c !in full {
        told := [Delivery(c, CloseFrame(Some(pair), reason))];
      }
    }

    method CloseSession(pair: nat, source: Option<RelayConnection>, reason: string, full: set<RelayConnection>)
      returns (told: seq<Delivery>)
      requires Valid()
      modifies this`routes, everyone`pair
      ensures Valid() && View() == CloseRoute(old(View()), pair, source, reason, full).0
      ensures told == old(CloseRoute(View(), pair, source, reason, full)).1
    {
      if pair !in routes {
        return [];
      }
      var r := routes[pair];
      Unpair(pair);
      var first := Notify(r.creator, pair, source, reason, full);
      var second := Notify(r.joiner, pair, source, reason, full);
      told := first + second;
    }

    method SetRoute(pair: nat, r: Route)
      requires Valid() && r.creator in everyone && r.joiner in everyone
      modifies this`routes
      ensures Valid() && View() == old(View()).(routes := old(View()).routes[pair := r])
    {
      routes := routes[pair := r];
      assert View().links == old(View()).links;
    }

    method MarkHandshakeProof(c: RelayConnection, pair: nat, proof: Bytes, now: real, full: set<RelayConnection>)
      returns (told: seq<Delivery>, ending: Ending)
      requires Valid() && c in everyone
      modifies this`routes, everyone`pair
      ensures Valid() && View() == Prove(old(View()), c, pair, proof, now, full).0
      ensures told == old(Prove(View(), c, pair, proof, now, full)).1
      ensures ending == old(Prove(View(), c, pair, proof, now, full)).2
    {
      if pair !in routes || (c != routes[pair].creator && c != routes[pair].joiner) {
        return [], Invalid;
      }
      var route := routes[pair];
      if now > route.deadline {
        told := CloseSession(pair, None, "handshake_timeout", full);
        return told, Invalid;
      }
      if c == route.creator {
        if route.creatorProof {
          return [], Invalid;
        }
        told, ending := ForwardProof(c, pair, route.(creatorProof := true), L.Creator, route.joiner, proof, full);
      } else {
        if route.joinerProof {
          return [], Invalid;
        }
        told, ending := ForwardProof(c, pair, route.(joinerProof := true), L.Joiner, route.creator, proof, full);
      }
    }

    /** The mark is set before the proof is queued, and stays if that fails. */
    method ForwardProof(c: RelayConnection, pair: nat, marked: Route, role: L.Role, peer: RelayConnection, proof: Bytes,
                        full: set<RelayConnection>)
      returns (told: seq<Delivery>, ending: Ending)
      requires Valid() && c in everyone && peer in everyone && marked.creator in everyone && marked.joiner in everyone
      modifies this`routes
      ensures Valid() && View() == old(View()).(routes := old(View()).routes[pair := marked])
      ensures var s := old(View());
              if CanSend(s, peer, full) then
                told == [Delivery(peer, ProofFrame(pair, role, proof))] + Told(s, c, ProofTaken(pair), full)
                && ending == (if CanSend(s, c, full) then Answered else Broken)
              else told == [] && ending == Broken
    {
      SetRoute(pair, marked);
      var sent;
      told, sent := SendTo(peer, ProofFrame(pair, role, proof), full);
      if !sent {
        return [], Broken;
      }
      var ack;
      ack, sent := SendTo(c, ProofTaken(pair), full);
      told := told + ack;
      ending := if sent then Answered else Broken;
    }

    /** The first data of a route pins its session id; later data must name it. */
    method PinSession(pair: nat, sessionId: nat) returns (agreed: bool)
      requires Valid() && pair in routes
      modifies this`routes
      ensures Valid() && agreed == (old(routes[pair]).sessionId in {None, Some(sessionId)})
      ensures var pinned := old(routes[pair]).(sessionId := Some(sessionId));
              View() == if agreed then old(View()).(routes := old(routes)[pair := pinned]) else old(View())
    {
      var route := routes[pair];
      if route.sessionId.None? {
        SetRoute(pair, route.(sessionId := Some(sessionId)));
        return true;
      }
      agreed := route.sessionId.value == sessionId;
      assert agreed ==> routes[pair := route.(sessionId := Some(sessionId))] == routes;
    }

    method RouteSessionData(c: RelayConnection, pair: nat, sessionId: nat, direction: L.Direction, counter: nat,
                            body: Bytes, full: set<RelayConnection>)
      returns (told: seq<Delivery>, ending: Ending)
      requires Valid() && c in everyone
      modifies this`routes
      ensures Valid() && View() == Forward(old(View()), c, pair, sessionId, direction, counter, body, full).0
      ensures told == old(Forward(View(), c, pair, sessionId, direction, counter, body, full)).1
      ensures ending == old(Forward(View(), c, pair, sessionId, direction, counter, body, full)).2
    {
      if pair !in routes || (c != routes[pair].creator && c != routes[pair].joiner) {
        return [], Invalid;
      }
      var route := routes[pair];
      if !route.creatorProof || !route.joinerProof {
        return [], Invalid;
      }
      var expected := if c == route.creator then L.CreatorToJoiner else L.JoinerToCreator;
      if direction != expected {
        return [], Invalid;
      }
      var agreed := PinSession(pair, sessionId);
      if !agreed {
        return [], Invalid;
      }
      var peer := if c == route.creator then route.joiner else route.creator;
      var sent;
      told, sent := SendTo(peer, DataFrame(pair, sessionId, direction, counter, body), full);
      assert sent == CanSend(old(View()), Pick(route, L.Peer(RoleOf(route, c))), full);
      ending := if sent && !c.closed && c !in full then Answered else Broken;
    }

    method CloseSessionRoute(c: RelayConnection, pair: nat, full: set<RelayConnection>)
      returns (told: seq<Delivery>, ending: Ending)
      requires Valid() && c in everyone
      modifies this`routes, everyone`pair
      ensures Valid() && View() == HangUp(old(View()), c, pair, full).0
      ensures told == old(HangUp(View(), c, pair, full)).1 && ending == old(HangUp(View(), c, pair, full)).2
    {
      if c.closed || c in full {
        return [], Broken;
      }
      if pair !in routes || (c != routes[pair].creator && c != routes[pair].joiner) {
        return [], Invalid;
      }
      told := CloseSession(pair, Some(c), "peer_close", full);
      ending := Answered;
    }

    method ExpireRoute(pair: nat, now: real, full: set<RelayConnection>) returns (told: seq<Delivery>)
      requires Valid()
      modifies this`routes, everyone`pair
      ensures Valid()
      ensures (View(), told) == ExpiredRoute(old(View()), pair, now, full)
    {
      told := [];
      if pair in routes && !(routes[pair].creatorProof && routes[pair].joinerProof) && routes[pair].deadline <= now {
        told := CloseSession(pair, None, "handshake_timeout", full);
      }
    }

    // ------------------------------------------------------------ departures

    method CloseConnection(c: RelayConnection)
      requires Valid() && c in everyone
      modifies c`closed
      ensures Valid() && View() == MarkClosed(old(View()), c)
    {
      c.closed := true;
      assert View().links == old(View()).links[c := c.View()];
    }

    method LeaveTables(c: RelayConnection, now: real)
      requires Valid() && c in everyone
      modifies this`connections, this`reservations, this`waitingRooms
      ensures Valid()
      ensures View() == DropRoom(Released(old(View()).(live := old(View()).live - {c}), c, now), c)
    {
      connections := connections - {c};
      if c.token.Some? {
        var t := c.token.value;
        if t in reservations && reservations[t].holder == Some(c) {
          reservations := reservations[t := Reservation(None, now + LEASE)];
        }
      }
      if c.room.Some? {
        var r := c.room.value;
        if r in waitingRooms && waitingRooms[r].creator == c {
          waitingRooms := waitingRooms - {r};
        }
      }
      assert View().links == old(View()).links;
    }

    method ConnectionClosed(c: RelayConnection, now: real, full: set<RelayConnection>) returns (told: seq<Delivery>)
      requires Valid() && c in everyone
      modifies this`connections, this`reservations, this`waitingRooms, this`routes, everyone`pair
      ensures Valid()
      ensures View() == Depart(old(View()), c, now, full).0
      ensures told == old(Depart(View(), c, now, full)).1
    {
      LeaveTables(c, now);
      told := [];
      if c.pair.Some? {
        told := CloseSession(c.pair.value, Some(c), "peer_disconnect", full);
      }
    }

    /** The part of `rotate_access` between two suspensions. */
    method ClearForRotation()
      requires Valid()
      modifies this`connections, this`waitingRooms, this`routes, this`reservations, this`joinLimiter
      ensures Valid() && View() == Rotated(old(View()))
      ensures fresh(joinLimiter) && forall peer: string :: joinLimiter.Of(peer) == RateLimiter.FRESH
    {
      connections := {};
      waitingRooms, routes, reservations := map[], map[], map[];
      joinLimiter := new RateLimiter.WindowRateLimiter(RateLimiter.JOINS);
    }
  }
}
