/** What in-order delivery adds: a subscription starts a gapless stream of events,
    and a client is fresh exactly when it read none of them before it adopted. */
module BoardSubscription {
  import opened Board
  import opened BoardEvents
  import opened BoardReplica
  import BoardPublication
  import opened Options

  /** The events waiting in a queue are numbered from+1, ..., to without a gap,
      and a successful subscription reply stands just before the event after it. */
  ghost predicate Consecutive(q: seq<Frame>, from: nat, to: nat) {
    if q == [] then from == to
    else if q[0].Pushed? then q[0].sequence == from + 1 && Consecutive(q[1..], from + 1, to)
    else (q[0].Subscribed? && q[0].ok ==> q[0].sequence == from) && Consecutive(q[1..], from, to)
  }

  predicate QuietFrame(f: Frame) {
    !f.Pushed? && !(f.Subscribed? && f.ok)
  }

  predicate Quiet(q: seq<Frame>) {
    forall i | 0 <= i < |q| :: QuietFrame(q[i])
  }

  lemma {:induction false} QuietIsConsecutive(q: seq<Frame>, at: nat)
    requires Quiet(q)
    ensures Consecutive(q, at, at)
  {
    if q != [] {
      QuietIsConsecutive(q[1..], at);
    }
  }

  lemma {:induction false} ConsecutiveAppend(q: seq<Frame>, p: seq<Frame>, from: nat, mid: nat, to: nat)
    requires Consecutive(q, from, mid) && Consecutive(p, mid, to)
    ensures Consecutive(q + p, from, to)
  {
    if q == [] {
      assert q + p == p;
    } else {
      assert (q + p)[1..] == q[1..] + p;
      ConsecutiveAppend(q[1..], p, if q[0].Pushed? then from + 1 else from, mid, to);
    }
  }

  lemma {:induction false} PushesConsecutive(log: seq<Event>, from: nat)
    requires from <= |log|
    ensures Consecutive(Pushes(log, from), from, |log|)
    decreases |log| - from
  {
    if from < |log| {
      PushesConsecutive(log, from + 1);
      assert Pushes(log, from)[1..] == Pushes(log, from + 1);
    }
  }

  /** How many events wait. */
  function Events(q: seq<Frame>): nat {
    if q == [] then 0 else Events(q[1..]) + if q[0].Pushed? then 1 else 0
  }

  /** A gapless queue has one start for its end. */
  lemma {:induction false} ConsecutiveCounts(q: seq<Frame>, from: nat, to: nat)
    requires Consecutive(q, from, to)
    ensures to == from + Events(q)
  {
    if q != [] {
      ConsecutiveCounts(q[1..], if q[0].Pushed? then from + 1 else from, to);
    }
  }

  /** Every event frame carries what the relay published under its number. */
  ghost predicate Genuine(q: seq<Frame>, log: seq<Event>) {
    forall i | 0 <= i < |q| && q[i].Pushed? :: 1 <= q[i].sequence <= |log| && q[i].event == log[q[i].sequence - 1]
  }

  predicate Granted(f: Option<Frame>) {
    f.Some? && f.value.Subscribed? && f.value.ok
  }

  /** The stream invariant of every run: from the subscription on, the queue is
      gapless, and nobody is ahead of what was read. */
  ghost predicate Stream(s: System) {
    && Genuine(s.toClient, s.relay.log)
    && (!s.subscribed ==> Quiet(s.toClient) && !Granted(s.slot) && !s.client.synced)
    && (s.subscribed ==> Consecutive(s.toClient, s.lastRead, |s.relay.log|))
    && (Granted(s.slot) ==> s.slot.value.sequence <= s.lastRead)
    && (s.client.synced ==> s.client.replica.sequence <= s.lastRead)
  }

  // ------------------------------------------------------------ the schedule

  /** Counts over a run: events read since the last granted subscription reply was
      read, and how many that were when the last replica was adopted. */
  datatype Watch = Watch(since: nat, missed: nat)

  predicate Adopts(s: System, a: Action, k: Keyring) {
    a.Resume? && s.slot.Some? && OnReply(s.client.sync, s.slot.value, k).adopt.Some?
  }

  function WatchStep(s: System, a: Action, w: Watch, k: Keyring): Watch {
    if Adopts(s, a, k) then w.(missed := w.since)
    else if !a.Read? || s.toClient == [] then w
    else if s.toClient[0].Pushed? then w.(since := w.since + 1)
    else if Granted(Some(s.toClient[0])) then w.(since := 0)
    else w
  }

  ghost function Watched(s: System, actions: seq<Action>, k: Keyring): Watch
    requires Keyed(s.relay.table.messages)
  {
    if actions == [] then Watch(0, 0)
    else
      var front := actions[..|actions| - 1];
      WatchStep(Run(s, front, k), actions[|actions| - 1], Watched(s, front, k), k)
  }

  /** What the counts say about the numbers. */
  predicate Tallied(s: System, w: Watch) {
    && (Granted(s.slot) ==> s.lastRead == s.slot.value.sequence + w.since)
    && (s.client.synced ==> (s.client.replica.sequence == s.lastRead <==> w.missed == 0))
  }

  // ------------------------------------------------------------ preservation

  lemma OperateGenuine(s: System, op: BoardOp)
    requires Keyed(s.relay.table.messages) && Genuine(s.toClient, s.relay.log)
    ensures Genuine(Operate(s, op).toClient, Operate(s, op).relay.log)
  {
  }

  lemma OperateStreams(s: System, op: BoardOp)
    requires Keyed(s.relay.table.messages) && Stream(s)
    ensures Stream(Operate(s, op))
  {
    var s' := Operate(s, op);
    OperateGenuine(s, op);
    if s.subscribed {
      PushesConsecutive(s'.relay.log, |s.relay.log|);
      ConsecutiveAppend(s.toClient, Pushes(s'.relay.log, |s.relay.log|), s.lastRead, |s.relay.log|, |s'.relay.log|);
    }
  }

  lemma EnqueueStreams(s: System, f: Frame)
    requires Stream(s) && !f.Pushed? && (Granted(Some(f)) ==> s.subscribed && f.sequence == |s.relay.log|)
    ensures Stream(s.(toClient := s.toClient + [f]))
  {
    if s.subscribed {
      var end := |s.relay.log|;
      assert [f][1..] == [];
      assert Consecutive([f], end, end);
      ConsecutiveAppend(s.toClient, [f], s.lastRead, end, end);
    }
  }

  lemma SubscribeStreams(s: System, k: Keyring)
    requires Keyed(s.relay.table.messages) && Stream(s)
    ensures Stream(Next(s, ServeSubscribe, k))
  {
    if Serving(s) && s.requests[0].Subscribe? {
      var end := |s.relay.log|;
      var ok := s.requests[0].after == end;
      var joined := s.(requests := s.requests[1..], subscribed := s.subscribed || ok,
                       lastRead := if ok && !s.subscribed then end else s.lastRead);
      if !s.subscribed {
        QuietIsConsecutive(s.toClient, end);
      }
      EnqueueStreams(joined, Subscribed(ok, end));
    }
  }

  /** What reading the head of a stream does to the numbers. */
  lemma HeadOfStream(s: System)
    requires Stream(s) && s.toClient != []
    ensures s.toClient[0].Pushed? ==> s.subscribed && s.toClient[0].sequence == s.lastRead + 1
    ensures Granted(Some(s.toClient[0])) ==> s.subscribed && s.toClient[0].sequence == s.lastRead
    ensures Genuine(s.toClient[1..], s.relay.log)
  {
    var f, rest := s.toClient[0], s.toClient[1..];
    assert !s.subscribed ==> QuietFrame(f);
    forall i | 0 <= i < |rest| && rest[i].Pushed?
      ensures 1 <= rest[i].sequence <= |s.relay.log| && rest[i].event == s.relay.log[rest[i].sequence - 1]
    {
      assert rest[i] == s.toClient[i + 1];
    }
  }

  lemma ReadStreams(s: System, k: Keyring)
    requires Keyed(s.relay.table.messages) && Stream(s)
    ensures Stream(Next(s, Read, k))
  {
    if s.toClient != [] {
      HeadOfStream(s);
      assert !s.subscribed ==> Quiet(s.toClient[1..]);
    }
  }

  lemma ServeListStreams(s: System, now: nat, next: nat, k: Keyring)
    requires Keyed(s.relay.table.messages) && Stream(s)
    ensures Stream(Next(s, ServeList(now, next), k))
  {
    hide Operate, Consecutive, Genuine, Quiet;
    if Serving(s) && s.requests[0].List? {
      var swept := if s.requests[0].offset > CAPACITY then s else Operate(s, Expire(now));
      OperateStreams(s, Expire(now));
      EnqueueStreams(swept.(requests := s.requests[1..]), ListReply(swept.relay, s.requests[0], next));
    }
  }

  lemma EndListStreams(s: System, next: nat, k: Keyring)
    requires Keyed(s.relay.table.messages) && Stream(s)
    ensures Stream(Next(s, EndList(next), k))
  {
    hide Consecutive, Genuine, Quiet;
    if s.held.Some? && s.held.value.request.List? {
      EnqueueStreams(s.(held := None), PageReply(s.held.value.rows, |s.relay.log|, s.held.value.request, next));
    }
  }

  lemma NextStreams(s: System, a: Action, k: Keyring)
    requires Keyed(s.relay.table.messages) && Stream(s)
    ensures Stream(Next(s, a, k))
  {
    match a
    case Activity(op) => OperateStreams(s, op);
    case ServeList(now, next) => ServeListStreams(s, now, next, k);
    case BeginList(now) => OperateStreams(s, Expire(now));
    case EndList(next) => EndListStreams(s, next, k);
    case ServeSubscribe => SubscribeStreams(s, k);
    case Read => ReadStreams(s, k);
    case Resume =>
    case Start(_) =>
    case Reconnect =>
    case Rotate(_) =>
  }

  lemma NextTallies(s: System, a: Action, w: Watch, k: Keyring)
    requires Keyed(s.relay.table.messages) && Stream(s) && Tallied(s, w)
    ensures Tallied(Next(s, a, k), WatchStep(s, a, w, k))
  {
    if a.Read? && s.toClient != [] {
      HeadOfStream(s);
    }
  }

  lemma {:induction false} RunStreams(s: System, actions: seq<Action>, k: Keyring)
    requires Initial(s)
    ensures Stream(Run(s, actions, k)) && Tallied(Run(s, actions, k), Watched(s, actions, k))
  {
    if actions != [] {
      var front, last := actions[..|actions| - 1], actions[|actions| - 1];
      RunStreams(s, front, k);
      NextStreams(Run(s, front, k), last, k);
      NextTallies(Run(s, front, k), last, Watched(s, front, k), k);
    }
  }

  // ---------------------------------------------------------------- theorems

  /** No lost update, in every run: from a granted subscription on, what waits for
      the client is exactly the published events after the last one it read, in
      order and without a gap. */
  lemma {:induction false} SubscriptionIsGapless(s: System, actions: seq<Action>, k: Keyring)
    requires Initial(s)
    ensures var s' := Run(s, actions, k);
            && Genuine(s'.toClient, s'.relay.log)
            && (s'.subscribed ==> Consecutive(s'.toClient, s'.lastRead, |s'.relay.log|))
            && (s'.client.synced ==> s'.subscribed && s'.client.replica.sequence <= s'.lastRead)
  {
    RunStreams(s, actions, k);
  }

  /** Freshness, exactly: a synchronised client stands where its queue starts if and
      only if it read no event between the reply that granted its last adopted
      replica and the adoption. */
  lemma {:induction false} AlignedExactly(s: System, actions: seq<Action>, k: Keyring)
    requires Initial(s) && Run(s, actions, k).client.synced
    ensures var s' := Run(s, actions, k);
            && (Watched(s, actions, k).missed == 0 <==> s'.client.replica.sequence == s'.lastRead)
            && (Watched(s, actions, k).missed == 0
                <==> Consecutive(s'.toClient, s'.client.replica.sequence, |s'.relay.log|))
  {
    RunStreams(s, actions, k);
    var s' := Run(s, actions, k);
    ConsecutiveCounts(s'.toClient, s'.lastRead, |s'.relay.log|);
    if Consecutive(s'.toClient, s'.client.replica.sequence, |s'.relay.log|) {
      ConsecutiveCounts(s'.toClient, s'.client.replica.sequence, |s'.relay.log|);
    }
  }

  /** The next event tells the two apart: a client that missed nothing applies it
      and asks for no resync; one that missed something keeps its replica and asks. */
  lemma {:induction false} LagIsNoticed(s: System, actions: seq<Action>, k: Keyring)
    requires Initial(s)
    requires var s' := Run(s, actions, k); s'.client.synced && s'.toClient != [] && s'.toClient[0].Pushed?
    ensures var s' := Run(s, actions, k);
            var before, after := s'.client, Next(s', Read, k).client;
            if Watched(s, actions, k).missed == 0 then
              after.resync == before.resync && after.replica.sequence == before.replica.sequence + 1
            else
              after.resync && after.replica == before.replica
  {
    hide Run, Watched, Consecutive;
    RunStreams(s, actions, k);
    HeadOfStream(Run(s, actions, k));
  }

  /** Once no event waits, a synchronised client shows the readable part of the
      relay's current board if and only if it missed nothing at its adoption; with
      something missed it is behind, and nothing will tell it until the next event. */
  lemma {:induction false} NoLostUpdate(s: System, actions: seq<Action>, k: Keyring)
    requires Initial(s) && CleanRun(s, actions, k)
    requires var s' := Run(s, actions, k); s'.client.synced && Events(s'.toClient) == 0
    ensures var s' := Run(s, actions, k);
            s'.client.replica == Replica(Readables(s'.relay.table.messages, k), |s'.relay.log|)
            <==> Watched(s, actions, k).missed == 0
  {
    RunKeeps(s, actions, k);
    RunStreams(s, actions, k);
    var s' := Run(s, actions, k);
    ConsecutiveCounts(s'.toClient, s'.lastRead, |s'.relay.log|);
    BoardAtEnd(s'.relay);
  }

  // ------------------------------------------------------------ the bad case

  const EMPTY_BOARD: System :=
    System(Relay(EMPTY, map[], []), false, [], [], None, Client(Replica(map[], 0), false, Idle, false, false), 0,
           None)

  /** Without prompt resumption freshness is lost: an event read between the
      subscription reply and its resumption is overwritten by the older board.
      The client is then idle, with nothing in flight and no resync scheduled,
      one published record behind. */
  lemma LateResumptionLeavesClientBehind(record: Record, k: Keyring)
    requires |record.ciphertext| <= MAX_CIPHERTEXT && k(record)
    ensures var actions := [Start(false), ServeList(0, 0), Read, Resume, ServeSubscribe,
                            Activity(Post(record, 0)), Read, Read, Resume];
            var s := Run(EMPTY_BOARD, actions, k);
            && CleanRun(EMPTY_BOARD, actions, k)
            && s.client.synced && s.client.sync.Idle? && !s.client.resync
            && s.requests == [] && s.toClient == [] && s.slot.None?
            && s.client.replica == Replica(map[], 0)
            && record.id in Readables(s.relay.table.messages, k)
  {
    hide Run, CleanRun;
    Subscribes(k);
    var a5 := [Start(false), ServeList(0, 0), Read, Resume, ServeSubscribe];
    var a6 := PostArrives(a5, record, k);
    Overwrites(a6, Run(EMPTY_BOARD, a6, k), Fresh(record, 0), k);
    assert a6 + [Read, Read, Resume] ==
           [Start(false), ServeList(0, 0), Read, Resume, ServeSubscribe,
            Activity(Post(record, 0)), Read, Read, Resume];
  }

  lemma PostArrives(a5: seq<Action>, record: Record, k: Keyring) returns (a6: seq<Action>)
    requires |record.ciphertext| <= MAX_CIPHERTEXT && k(record)
    requires CleanRun(EMPTY_BOARD, a5, k)
    requires Run(EMPTY_BOARD, a5, k) ==
             EMPTY_BOARD.(subscribed := true, toClient := [Subscribed(true, 0)],
                          client := EMPTY_BOARD.client.(sync := Subscribing(0, 0, map[])))
    ensures a6 == a5 + [Activity(Post(record, 0))] && CleanRun(EMPTY_BOARD, a6, k)
    ensures var s6 := Run(EMPTY_BOARD, a6, k);
            && s6.toClient == [Subscribed(true, 0), Pushed(1, Update(Fresh(record, 0)))] && s6.requests == []
            && s6.client == EMPTY_BOARD.client.(sync := Subscribing(0, 0, map[]))
            && record.id in Readables(s6.relay.table.messages, k)
  {
    a6 := a5 + [Activity(Post(record, 0))];
    BoardPublication.FirstPost(record);
    RunSnoc(a5, Activity(Post(record, 0)), k);
    FirstPostIsPushed(Run(EMPTY_BOARD, a5, k), record, k);
  }

  lemma FirstPostIsPushed(s: System, record: Record, k: Keyring)
    requires |record.ciphertext| <= MAX_CIPHERTEXT && k(record)
    requires s.relay == Relay(EMPTY, map[], []) && s.subscribed && s.toClient == [Subscribed(true, 0)]
    ensures var s' := Next(s, Activity(Post(record, 0)), k);
            && s'.toClient == [Subscribed(true, 0), Pushed(1, Update(Fresh(record, 0)))]
            && s'.requests == s.requests && s'.client == s.client && s'.slot == s.slot
            && record.id in Readables(s'.relay.table.messages, k)
  {
    hide RelayStep, CleanOp;
    BoardPublication.FirstPost(record);
  }

  /** The first five steps: an empty snapshot, then a successful subscription. */
  lemma Subscribes(k: Keyring)
    ensures var actions := [Start(false), ServeList(0, 0), Read, Resume, ServeSubscribe];
            && CleanRun(EMPTY_BOARD, actions, k)
            && Run(EMPTY_BOARD, actions, k) ==
               EMPTY_BOARD.(subscribed := true, toClient := [Subscribed(true, 0)],
                            client := EMPTY_BOARD.client.(sync := Subscribing(0, 0, map[])))
  {
    var a1, a2 := [Start(false)], [Start(false), ServeList(0, 0)];
    var s1 := EMPTY_BOARD.(requests := [List(0, None)],
                           client := EMPTY_BOARD.client.(sync := Paging(0, None, 0, map[])));
    RunSnoc([], Start(false), k);
    assert [] + [Start(false)] == a1 && Run(EMPTY_BOARD, a1, k) == s1;
    EmptyListing(s1, k);
    RunSnoc(a1, ServeList(0, 0), k);
    assert a1 + [ServeList(0, 0)] == a2;
    SnapshotTaken(a2, s1.(requests := [], toClient := [Page(0, false, 0, 0, true, [])]), k);
  }

  lemma EmptyPageEnds(s3: System, k: Keyring)
    requires s3 == EMPTY_BOARD.(slot := Some(Page(0, false, 0, 0, true, [])),
                                client := EMPTY_BOARD.client.(sync := Paging(0, None, 0, map[])))
    ensures Next(s3, Resume, k) ==
            s3.(slot := None, requests := [Subscribe(0)], client := s3.client.(sync := Subscribing(0, 0, map[])))
  {
    assert s3.requests + [Subscribe(0)] == [Subscribe(0)];
  }

  lemma SnapshotTaken(a2: seq<Action>, s2: System, k: Keyring)
    requires a2 == [Start(false), ServeList(0, 0)]
    requires CleanRun(EMPTY_BOARD, a2, k) && Run(EMPTY_BOARD, a2, k) == s2
    requires s2 == EMPTY_BOARD.(toClient := [Page(0, false, 0, 0, true, [])],
                                client := EMPTY_BOARD.client.(sync := Paging(0, None, 0, map[])))
    ensures var actions := [Start(false), ServeList(0, 0), Read, Resume, ServeSubscribe];
            && CleanRun(EMPTY_BOARD, actions, k)
            && Run(EMPTY_BOARD, actions, k) ==
               EMPTY_BOARD.(subscribed := true, toClient := [Subscribed(true, 0)],
                            client := EMPTY_BOARD.client.(sync := Subscribing(0, 0, map[])))
  {
    var a3, a4 := a2 + [Read], a2 + [Read] + [Resume];
    var s3 := s2.(toClient := [], slot := Some(Page(0, false, 0, 0, true, [])));
    var s4 := s2.(toClient := [], slot := None, requests := [Subscribe(0)],
                  client := s2.client.(sync := Subscribing(0, 0, map[])));
    RunSnoc(a2, Read, k);
    assert s2.toClient[1..] == [] && Run(EMPTY_BOARD, a3, k) == s3;
    RunSnoc(a3, Resume, k);
    EmptyPageEnds(s3, k);
    RunSnoc(a4, ServeSubscribe, k);
    assert s4.requests[1..] == [] && s4.toClient + [Subscribed(true, 0)] == [Subscribed(true, 0)];
    assert a4 + [ServeSubscribe] == [Start(false), ServeList(0, 0), Read, Resume, ServeSubscribe];
  }

  /** The last three steps: reply read, event read and applied, reply resumed. */
  lemma Overwrites(a6: seq<Action>, s6: System, row: Row, k: Keyring)
    requires CleanRun(EMPTY_BOARD, a6, k) && Run(EMPTY_BOARD, a6, k) == s6
    requires s6.toClient == [Subscribed(true, 0), Pushed(1, Update(row))] && s6.requests == []
    requires s6.client == EMPTY_BOARD.client.(sync := Subscribing(0, 0, map[]))
    ensures var actions := a6 + [Read, Read, Resume];
            var s := Run(EMPTY_BOARD, actions, k);
            && CleanRun(EMPTY_BOARD, actions, k)
            && s.client == Client(Replica(map[], 0), true, Idle, false, false)
            && s.requests == [] && s.toClient == [] && s.slot.None?
            && s.relay == s6.relay
  {
    hide Run, CleanRun;
    var a7, a8 := a6 + [Read], a6 + [Read] + [Read];
    RunSnoc(a6, Read, k);
    var s7 := s6.(toClient := [Pushed(1, Update(row))], slot := Some(Subscribed(true, 0)));
    assert s6.toClient[1..] == s7.toClient;
    assert Run(EMPTY_BOARD, a7, k) == s7;
    RunSnoc(a7, Read, k);
    var s8 := Run(EMPTY_BOARD, a8, k);
    assert s7.toClient[1..] == [];
    assert s8.client.replica.sequence == 1 && !s8.client.resync;
    RunSnoc(a8, Resume, k);
    assert a8 + [Resume] == a6 + [Read, Read, Resume];
  }

  lemma RunSnoc(actions: seq<Action>, a: Action, k: Keyring)
    requires CleanRun(EMPTY_BOARD, actions, k) && CleanAction(Run(EMPTY_BOARD, actions, k), a)
    ensures CleanRun(EMPTY_BOARD, actions + [a], k)
    ensures Run(EMPTY_BOARD, actions + [a], k) == Next(Run(EMPTY_BOARD, actions, k), a, k)
  {
    assert (actions + [a])[..|actions|] == actions;
  }

  lemma EmptyListing(s: System, k: Keyring)
    requires s.relay == Relay(EMPTY, map[], []) && !s.subscribed && s.toClient == []
    requires s.requests == [List(0, None)] && s.held.None?
    ensures Next(s, ServeList(0, 0), k) == s.(requests := [], toClient := [Page(0, false, 0, 0, true, [])])
  {
    assert Cleaned(EMPTY, 0) == EMPTY && ExpiredIds(EMPTY, 0) == {};
    assert s.requests[1..] == [];
    assert Listing(map[]) == [];
  }
}
