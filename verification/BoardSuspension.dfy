/** The list request that is suspended at the wrong moment, seen from the client. */
module BoardSuspension {
  import opened Board
  import opened BoardEvents
  import opened BoardReplica
  import opened Options
  import BoardPublication
  import BoardSubscription

  const EMPTY_BOARD := BoardSubscription.EMPTY_BOARD

  function Asked(first: Record): seq<Action> {
    [Activity(Post(first, 0)), Start(false), BeginList(LIFETIME)]
  }

  function Mislabelled(first: Record, second: Record): seq<Action> {
    Asked(first) + [Activity(Post(second, LIFETIME))]
  }

  const ADOPTION: seq<Action> := [EndList(0), Read, Resume, ServeSubscribe, Read, Resume]

  /** A client that has asked for its first page while the relay is suspended in it
      with no rows in hand. */
  ghost predicate Waiting(s: System) {
    && Keyed(s.relay.table.messages)
    && s == EMPTY_BOARD.(relay := s.relay, held := Some(Held(List(0, None), [], 2)),
                         client := EMPTY_BOARD.client.(sync := Paging(0, None, 0, map[])))
  }

  /** A client that waits for an empty list adopts the empty board at whatever
      sequence number the reply names, and is subscribed from there. */
  lemma Adopts(s: System, k: Keyring)
    requires Waiting(s)
    ensures var n := |s.relay.log|;
            Run(s, ADOPTION, k) == s.(held := None, subscribed := true, lastRead := n,
                                      client := Client(Replica(map[], n), true, Idle, false, false))
  {
    hide Run, Next;
    var n := |s.relay.log|;
    var s1 := s.(held := None, toClient := [Page(n, false, 0, 0, true, [])]);
    Labels(s, k);
    ReadsPage(s1, k);
    var s3 := s1.(toClient := [], requests := [Subscribe(n)], client := s.client.(sync := Subscribing(0, n, map[])));
    Subscribes(s3, k);
    RunAppend(s1, [Read, Resume], [ServeSubscribe, Read, Resume], k);
    assert [Read, Resume] + [ServeSubscribe, Read, Resume] == ADOPTION[1..];
    RunAppend(s, [EndList(0)], ADOPTION[1..], k);
    assert [EndList(0)] + ADOPTION[1..] == ADOPTION;
  }

  lemma Labels(s: System, k: Keyring)
    requires Waiting(s)
    ensures Run(s, [EndList(0)], k) == s.(held := None, toClient := [Page(|s.relay.log|, false, 0, 0, true, [])])
  {
    RunOne(s, EndList(0), k);
    assert s.toClient + [Page(|s.relay.log|, false, 0, 0, true, [])] == [Page(|s.relay.log|, false, 0, 0, true, [])];
  }

  lemma ReadsPage(s: System, k: Keyring)
    requires Keyed(s.relay.table.messages) && s.slot.None? && s.requests == []
    requires s.client.sync == Paging(0, None, 0, map[]) && !s.client.byResync
    requires s.toClient == [Page(|s.relay.log|, false, 0, 0, true, [])]
    ensures var n := |s.relay.log|;
            Run(s, [Read, Resume], k)
            == s.(toClient := [], requests := [Subscribe(n)], client := s.client.(sync := Subscribing(0, n, map[])))
  {
    var n := |s.relay.log|;
    RunOne(s, Read, k);
    var read := s.(toClient := [], slot := Some(s.toClient[0]));
    assert s.toClient[1..] == [] && Run(s, [Read], k) == read;
    RunOne(read, Resume, k);
    RunAppend(s, [Read], [Resume], k);
    assert [Read] + [Resume] == [Read, Resume];
    assert AddRows(map[], [], k) == map[] && s.requests + [Subscribe(n)] == [Subscribe(n)];
  }

  lemma Subscribes(s: System, k: Keyring)
    requires Keyed(s.relay.table.messages) && s.slot.None? && s.held.None? && s.toClient == [] && !s.subscribed
    requires s.requests == [Subscribe(|s.relay.log|)]
    requires s.client == Client(Replica(map[], 0), false, Subscribing(0, |s.relay.log|, map[]), false, false)
    ensures var n := |s.relay.log|;
            Run(s, [ServeSubscribe, Read, Resume], k)
            == s.(requests := [], subscribed := true, lastRead := n,
                  client := Client(Replica(map[], n), true, Idle, false, false))
  {
    hide Run;
    var n := |s.relay.log|;
    var served := s.(requests := [], subscribed := true, lastRead := n, toClient := [Subscribed(true, n)]);
    RunOne(s, ServeSubscribe, k);
    assert s.requests[1..] == [] && s.toClient + [Subscribed(true, n)] == [Subscribed(true, n)];
    ReadsGrant(served, k);
    RunAppend(s, [ServeSubscribe], [Read, Resume], k);
    assert [ServeSubscribe] + [Read, Resume] == [ServeSubscribe, Read, Resume];
  }

  lemma ReadsGrant(s: System, k: Keyring)
    requires Keyed(s.relay.table.messages) && s.slot.None? && s.requests == []
    requires s.toClient == [Subscribed(true, |s.relay.log|)]
    requires s.client == Client(Replica(map[], 0), false, Subscribing(0, |s.relay.log|, map[]), false, false)
    ensures Run(s, [Read, Resume], k)
            == s.(toClient := [], client := Client(Replica(map[], |s.relay.log|), true, Idle, false, false))
  {
    hide Run;
    RunOne(s, Read, k);
    var read := s.(toClient := [], slot := Some(s.toClient[0]));
    assert s.toClient[1..] == [];
    RunOne(read, Resume, k);
    RunAppend(s, [Read], [Resume], k);
    assert [Read] + [Resume] == [Read, Resume];
  }

  /** One row is stored and expires while the client asks for its first page. */
  lemma Suspends(first: Record, k: Keyring)
    requires |first.ciphertext| <= MAX_CIPHERTEXT
    ensures var s := Run(EMPTY_BOARD, Asked(first), k);
            && Waiting(s) && RelayOk(s.relay) && CleanRun(EMPTY_BOARD, Asked(first), k)
            && s.relay == BoardPublication.RelaySteps(BoardPublication.NEW_RELAY, [Post(first, 0), Expire(LIFETIME)])
  {
    hide Run, Next, CleanRun, RelayStep;
    var r1 := RelayStep(BoardPublication.NEW_RELAY, Post(first, 0));
    BoardPublication.FirstPost(first);
    BoardPublication.PostThenExpiryEmpties(first);
    TwoSteps(first);
    Asks(first, r1, k);
    var s2 := Run(EMPTY_BOARD, [Activity(Post(first, 0)), Start(false)], k);
    assert first.id in ExpiredIds(r1.table, LIFETIME);
    Begins(s2, k);
    RunOne(s2, BeginList(LIFETIME), k);
    RunAppend(EMPTY_BOARD, [Activity(Post(first, 0)), Start(false)], [BeginList(LIFETIME)], k);
    assert [Activity(Post(first, 0)), Start(false)] + [BeginList(LIFETIME)] == Asked(first);
    AskedIsClean(first, k);
  }

  lemma Asks(first: Record, r: Relay, k: Keyring)
    requires r == RelayStep(BoardPublication.NEW_RELAY, Post(first, 0))
    ensures Run(EMPTY_BOARD, [Activity(Post(first, 0)), Start(false)], k)
            == EMPTY_BOARD.(relay := r, requests := [List(0, None)],
                            client := EMPTY_BOARD.client.(sync := Paging(0, None, 0, map[])))
  {
    hide Run, RelayStep;
    var s1 := EMPTY_BOARD.(relay := r);
    RunOne(EMPTY_BOARD, Activity(Post(first, 0)), k);
    assert EMPTY_BOARD.toClient + [] == EMPTY_BOARD.toClient;
    RunOne(s1, Start(false), k);
    assert s1.requests + [List(0, None)] == [List(0, None)];
    RunAppend(EMPTY_BOARD, [Activity(Post(first, 0))], [Start(false)], k);
    assert [Activity(Post(first, 0))] + [Start(false)] == [Activity(Post(first, 0)), Start(false)];
  }

  lemma AskedIsClean(first: Record, k: Keyring)
    requires CleanOp(BoardPublication.NEW_RELAY, Post(first, 0))
    ensures CleanRun(EMPTY_BOARD, Asked(first), k)
  {
    hide Next, CleanOp;
    var a := Asked(first);
    assert a[..2][..1] == a[..1] && a[..1][..0] == [];
    assert CleanAction(EMPTY_BOARD, a[0]);
    assert CleanRun(EMPTY_BOARD, a[..1], k);
    assert CleanRun(EMPTY_BOARD, a[..2], k);
  }

  lemma TwoSteps(first: Record)
    ensures BoardPublication.RelaySteps(BoardPublication.NEW_RELAY, [Post(first, 0), Expire(LIFETIME)])
            == RelayStep(RelayStep(BoardPublication.NEW_RELAY, Post(first, 0)), Expire(LIFETIME))
  {
    BoardPublication.StepsSnoc(BoardPublication.NEW_RELAY, [], Post(first, 0));
    BoardPublication.StepsSnoc(BoardPublication.NEW_RELAY, [Post(first, 0)], Expire(LIFETIME));
    assert [] + [Post(first, 0)] == [Post(first, 0)];
    assert [Post(first, 0)] + [Expire(LIFETIME)] == [Post(first, 0), Expire(LIFETIME)];
  }

  lemma Begins(s: System, k: Keyring)
    requires Keyed(s.relay.table.messages) && ExpiredIds(s.relay.table, LIFETIME) != {} && !s.subscribed
    requires s.requests == [List(0, None)] && s.held.None?
    requires var r := RelayStep(s.relay, Expire(LIFETIME)); r.table.messages == map[] && |r.log| == 2
    ensures Next(s, BeginList(LIFETIME), k)
            == s.(relay := RelayStep(s.relay, Expire(LIFETIME)), requests := [],
                  held := Some(Held(List(0, None), [], 2)))
  {
    assert s.requests[1..] == [] && s.toClient + [] == s.toClient;
  }

  /** A client that adopts a mislabelled list: the first post expires while the client
      asks for its first page, and a second one is accepted before the reply is
      labelled. The client subscribes at the number of the second post and holds the
      board without it, with nothing in flight that could tell it. */
  lemma MislabelledListIsAdopted(first: Record, second: Record, k: Keyring)
    requires first.id != second.id && k(second)
    requires |first.ciphertext| <= MAX_CIPHERTEXT && |second.ciphertext| <= MAX_CIPHERTEXT
    ensures var before := Run(EMPTY_BOARD, Mislabelled(first, second), k);
            var s := Run(EMPTY_BOARD, Mislabelled(first, second) + ADOPTION, k);
            && CleanRun(EMPTY_BOARD, Mislabelled(first, second), k) && !CleanAction(before, EndList(0))
            && s.client.synced && s.client.sync.Idle? && !s.client.resync && s.subscribed
            && s.requests == [] && s.toClient == [] && s.slot.None? && s.held.None?
            && s.client.replica == Replica(map[], |s.relay.log|)
            && second.id in Readables(s.relay.table.messages, k) && !Consistent(s.relay, s.client.replica, k)
  {
    hide Next, CleanOp, RelayStep;
    var r := BoardPublication.RelaySteps(BoardPublication.NEW_RELAY, [Post(first, 0), Expire(LIFETIME)]);
    var op, s3 := Post(second, LIFETIME), Run(EMPTY_BOARD, Asked(first), k);
    Suspends(first, k);
    BoardPublication.PostThenExpiryEmpties(first);
    BoardPublication.SecondPostIsPublished(r, second);
    Misses(s3, second, k);
    assert Mislabelled(first, second)[..3] == Asked(first);
    Adopts(Next(s3, Activity(op), k), k);
    RunAppend(EMPTY_BOARD, Mislabelled(first, second), ADOPTION, k);
  }

  lemma Misses(s: System, second: Record, k: Keyring)
    requires Waiting(s) && RelayOk(s.relay) && s.relay.table.messages == map[] && |s.relay.log| == 2 && k(second)
    requires CleanOp(s.relay, Post(second, LIFETIME))
    requires var r' := RelayStep(s.relay, Post(second, LIFETIME));
             r'.table.messages == map[second.id := Fresh(second, LIFETIME)] && |r'.log| == 3
    ensures var s' := Next(s, Activity(Post(second, LIFETIME)), k);
            && Waiting(s') && s'.relay == RelayStep(s.relay, Post(second, LIFETIME))
            && !TrueLabel(s'.relay, s'.held.value)
            && !Consistent(s'.relay, Replica(map[], |s'.relay.log|), k)
            && second.id in Readables(s'.relay.table.messages, k)
  {
    var op := Post(second, LIFETIME);
    var s' := Next(s, Activity(op), k);
    assert s.toClient + [] == s.toClient;
    RelayStepKeeps(s.relay, op);
    BoardAtEnd(s'.relay);
    BoardAtEnd(s.relay);
    BoardAtExtends(s.relay, s'.relay, 2);
    assert HeldOk(s.relay, s.held.value) by {
      assert Listing(map[]) == [];
    }
    HeldExtends(s.relay, op, s.held.value);
    LabelExactly(s'.relay, s'.held.value);
    ListingIsSorted(s'.relay.table.messages);
    assert Holds(s'.relay.table.messages, Fresh(second, LIFETIME));
  }
}
