/** Publication over several board operations: what a reply labelled late stands
    for, and the runs in which what is published is not what happened. */
module BoardPublication {
  import opened Encoding
  import opened Board
  import opened BoardEvents

  ghost function RelaySteps(r: Relay, ops: seq<BoardOp>): (r': Relay)
    requires Keyed(r.table.messages)
    ensures Keyed(r'.table.messages) && r.log <= r'.log && r'.base == r.base
  {
    if ops == [] then r else RelayStep(RelaySteps(r, ops[..|ops| - 1]), ops[|ops| - 1])
  }

  /** What the operations published. */
  ghost function NewEvents(r: Relay, ops: seq<BoardOp>): seq<Event>
    requires Keyed(r.table.messages)
  {
    RelaySteps(r, ops).log[|r.log|..]
  }

  lemma StepsSnoc(r: Relay, ops: seq<BoardOp>, op: BoardOp)
    requires Keyed(r.table.messages)
    ensures RelaySteps(r, ops + [op]) == RelayStep(RelaySteps(r, ops), op)
  {
    assert (ops + [op])[..|ops|] == ops;
  }

  // ----------------------------------------------------- folds back to itself

  predicate Adds(e: Event, id: MessageId) {
    e.Update? && e.row.record.id == id
  }

  predicate Drops(e: Event, id: MessageId) {
    e.Remove? && id in e.ids
  }

  /** The id is added and not dropped afterwards. */
  ghost predicate LeftIn(events: seq<Event>, id: MessageId) {
    exists i :: 0 <= i < |events| && Adds(events[i], id) && forall j | i < j < |events| :: !Drops(events[j], id)
  }

  /** Nothing of the old board was removed, and all that was added was removed
      again. */
  ghost predicate Undone(m: Messages, events: seq<Event>) {
    && (forall i, id | 0 <= i < |events| && id in m :: !Drops(events[i], id))
    && (forall id :: !LeftIn(events, id))
  }

  lemma LeftInSnoc(events: seq<Event>, e: Event, id: MessageId)
    ensures LeftIn(events + [e], id) <==> Adds(e, id) || (LeftIn(events, id) && !Drops(e, id))
  {
    var all := events + [e];
    if LeftIn(all, id) && !Adds(e, id) {
      var i :| 0 <= i < |all| && Adds(all[i], id) && forall j | i < j < |all| :: !Drops(all[j], id);
      assert !Drops(all[|events|], id);
      forall j | i < j < |events|
        ensures !Drops(events[j], id)
      {
        assert all[j] == events[j];
      }
      assert Adds(events[i], id);
    }
    if Adds(e, id) {
      assert Adds(all[|events|], id);
    } else if LeftIn(events, id) && !Drops(e, id) {
      var i :| 0 <= i < |events| && Adds(events[i], id) && forall j | i < j < |events| :: !Drops(events[j], id);
      assert Adds(all[i], id);
    }
  }

  /** An id that was not listed is listed afterwards exactly when it is left in. */
  lemma {:induction false} FoldOfNewId(m: Messages, events: seq<Event>, id: MessageId)
    requires id !in m
    ensures id in Fold(m, events) <==> LeftIn(events, id)
  {
    if events != [] {
      var front, last := events[..|events| - 1], events[|events| - 1];
      FoldOfNewId(m, front, id);
      LeftInSnoc(front, last, id);
      assert events == front + [last];
    }
  }

  /** A listed id that is never added again stays exactly when it is never dropped. */
  lemma {:induction false} FoldOfOldId(m: Messages, events: seq<Event>, id: MessageId)
    requires id in m && forall i | 0 <= i < |events| :: !Adds(events[i], id)
    ensures id in Fold(m, events) <==> forall i | 0 <= i < |events| :: !Drops(events[i], id)
    ensures id in Fold(m, events) ==> Fold(m, events)[id] == m[id]
  {
    if events != [] {
      var front, last := events[..|events| - 1], events[|events| - 1];
      assert forall i | 0 <= i < |front| :: front[i] == events[i];
      FoldOfOldId(m, front, id);
      assert !Adds(last, id);
      if forall i | 0 <= i < |front| :: !Drops(front[i], id) {
        assert Drops(last, id) ==> Drops(events[|events| - 1], id);
      }
    }
  }

  /** Events that add no listed id fold a board back to itself exactly when they are
      undone. */
  lemma UndoneExactly(m: Messages, events: seq<Event>)
    requires forall i, id | 0 <= i < |events| && id in m :: !Adds(events[i], id)
    ensures Fold(m, events) == m <==> Undone(m, events)
  {
    forall id | id in m
      ensures id in Fold(m, events) <==> forall i | 0 <= i < |events| :: !Drops(events[i], id)
      ensures id in Fold(m, events) ==> Fold(m, events)[id] == m[id]
    {
      FoldOfOldId(m, events, id);
    }
    forall id | id !in m
      ensures id in Fold(m, events) <==> LeftIn(events, id)
    {
      FoldOfNewId(m, events, id);
    }
    forall id | id in m
      ensures !LeftIn(events, id)
    {
    }
  }

  // ------------------------------------------------------------- suspension

  lemma StepAddsUnspent(r: Relay, op: BoardOp, id: MessageId)
    requires Keyed(r.table.messages) && id in r.table.seen
    ensures var r' := RelayStep(r, op);
            id in r'.table.seen && forall i | |r.log| <= i < |r'.log| :: !Adds(r'.log[i], id)
  {
    if op.Post? && PostStep(r.table, op.record, op.now).1.Accepted? {
      AcceptedShape(r.table, op.record, op.now);
    }
  }

  /** A spent id is never published as an update again. */
  lemma {:induction false} StepsAddUnspent(r: Relay, ops: seq<BoardOp>, id: MessageId)
    requires Keyed(r.table.messages) && id in r.table.seen
    ensures id in RelaySteps(r, ops).table.seen
    ensures forall i | 0 <= i < |NewEvents(r, ops)| :: !Adds(NewEvents(r, ops)[i], id)
  {
    if ops != [] {
      var front, last := ops[..|ops| - 1], ops[|ops| - 1];
      StepsAddUnspent(r, front, id);
      StepAddsUnspent(RelaySteps(r, front), last, id);
      var mid := RelaySteps(r, front);
      forall i | 0 <= i < |NewEvents(r, ops)|
        ensures !Adds(NewEvents(r, ops)[i], id)
      {
        if |r.log| + i < |mid.log| {
          assert NewEvents(r, ops)[i] == NewEvents(r, front)[i];
        } else {
          assert NewEvents(r, ops)[i] == RelaySteps(r, ops).log[|r.log| + i];
        }
      }
    }
  }

  /** `board_list` reads the rows, may suspend while it publishes removals, and
      only then reads the sequence. Whatever runs in between, the rows are the
      board at that later sequence exactly when everything published was undone;
      publishing nothing is enough. */
  lemma SuspendedListReply(r: Relay, ops: seq<BoardOp>)
    requires RelayOk(r)
    ensures var r' := RelaySteps(r, ops);
            && (Listing(r.table.messages) == ListAt(r', |r'.log|) <==> Undone(r.table.messages, NewEvents(r, ops)))
            && (r'.log == r.log ==> Undone(r.table.messages, NewEvents(r, ops)))
  {
    hide Undone;
    var r', events := RelaySteps(r, ops), NewEvents(r, ops);
    var m := r.table.messages;
    assert r'.log == r.log + events;
    FoldAppend(r.base, r.log, events);
    BoardAtEnd(r');
    FoldKeyed(r'.base, r'.log);
    assert BoardAt(r', |r'.log|) == Fold(m, events);
    forall i, id | 0 <= i < |events| && id in m
      ensures !Adds(events[i], id)
    {
      StepsAddUnspent(r, ops, id);
    }
    UndoneExactly(m, events);
    if Listing(m) == ListAt(r', |r'.log|) {
      ListingInjective(m, BoardAt(r', |r'.log|));
    }
  }

  /** For a single faithful operation that means nothing was published. */
  lemma OneOperationIsNotUndone(r: Relay, op: BoardOp)
    requires RelayOk(r) && CleanOp(r, op)
    ensures Undone(r.table.messages, NewEvents(r, [op])) <==> RelayStep(r, op).log == r.log
  {
    var r' := RelayStep(r, op);
    StepsSnoc(r, [], op);
    assert [] + [op] == [op];
    SuspendedListReply(r, [op]);
    RelayStepKeeps(r, op);
    BoardAtEnd(r');
    if r'.log != r.log {
      PublishedChangesBoard(r, op);
      if Undone(r.table.messages, NewEvents(r, [op])) {
        ListingInjective(r.table.messages, r'.table.messages);
      }
    }
  }

  lemma PublishedChangesBoard(r: Relay, op: BoardOp)
    requires RelayOk(r) && CleanOp(r, op) && RelayStep(r, op).log != r.log
    ensures RelayStep(r, op).table.messages != r.table.messages
  {
    var r' := RelayStep(r, op);
    var removed := ExpiredIds(r.table, op.now);
    if removed != {} {
      var id :| id in removed;
      assert id in r.table.messages;
      if op.Post? && PostStep(r.table, op.record, op.now).1.Accepted? {
        assert op.record.id !in r.table.seen;
      }
      assert id !in r'.table.messages;
    } else {
      assert op.Post? && PostStep(r.table, op.record, op.now).1.Accepted?;
      PublicationFaithful(r.table, op.record, op.now);
      AcceptedIsListed(r.table, op.record, op.now);
      assert op.record.id !in r.table.seen;
    }
  }

  lemma AcceptedIsListed(t: Table, record: Record, now: nat)
    requires Keyed(t.messages) && t.messages.Keys <= t.seen.Keys
    requires PostStep(t, record, now).1.Accepted? && !EvictsItself(t, record, now)
    ensures record.id in PostStep(t, record, now).0.messages
  {
    AdmittedIsAccepted(t, record, now);
    AcceptedShape(t, record, now);
    SelfEvictionIsOldest(Cleaned(t, now).messages, Fresh(record, now));
    ListedUnlessEvicted(Cleaned(t, now).messages, Fresh(record, now));
  }

  lemma ListedUnlessEvicted(m: Messages, row: Row)
    requires Keyed(m) && row.record.id !in m && Evicted(m[row.record.id := row]) != {row.record.id}
    ensures row.record.id in m[row.record.id := row] - Evicted(m[row.record.id := row])
  {
  }

  // ------------------------------------------------------- a suspended post

  /** An accepted post up to the point where it may suspend: the row is stored and
      the removals are published, the row itself not yet. */
  ghost function Begun(r: Relay, record: Record, now: nat): (r': Relay)
    requires Keyed(r.table.messages) && PostStep(r.table, record, now).1.Accepted?
    ensures Keyed(r'.table.messages)
  {
    var (t, outcome) := PostStep(r.table, record, now);
    r.(table := t, log := r.log + RemovalEvents(outcome.removed))
  }

  ghost predicate CleanSteps(r: Relay, ops: seq<BoardOp>)
    requires Keyed(r.table.messages)
  {
    ops == [] || (CleanSteps(r, ops[..|ops| - 1]) && CleanOp(RelaySteps(r, ops[..|ops| - 1]), ops[|ops| - 1]))
  }

  /** What the subscribers hold while a post of `row` is suspended: everything but
      that row. */
  ghost predicate AllBut(r: Relay, row: Row) {
    var id := row.record.id;
    && Keyed(r.table.messages) && TableOk(r.table) && id in r.table.seen
    && (id in r.table.messages ==> r.table.messages[id] == row)
    && Fold(r.base, r.log) == r.table.messages - {id}
  }

  lemma {:induction false} FoldWithout(m: Messages, events: seq<Event>, ids: set<MessageId>)
    requires forall i, id | 0 <= i < |events| && id in ids :: !Adds(events[i], id)
    ensures Fold(m - ids, events) == Fold(m, events) - ids
  {
    if events != [] {
      FoldWithout(m, events[..|events| - 1], ids);
      var last := events[|events| - 1];
      assert forall id | id in ids :: !Adds(last, id);
    }
  }

  lemma CleanStepPublishes(r: Relay, op: BoardOp)
    requires Keyed(r.table.messages) && TableOk(r.table) && CleanOp(r, op)
    ensures Fold(r.table.messages, NewEvents(r, [op])) == RelayStep(r, op).table.messages
    ensures RelayStep(r, op).log == r.log + NewEvents(r, [op])
  {
    StepsSnoc(r, [], op);
    assert [] + [op] == [op];
    match op
    case Expire(now) =>
      assert NewEvents(r, [op]) == RemovalEvents(ExpiredIds(r.table, now));
      FoldRemovals(r.table.messages, ExpiredIds(r.table, now));
    case Post(record, now) =>
      assert NewEvents(r, [op]) == PostEvents(r.table, record, now);
      PublicationFaithful(r.table, record, now);
  }

  lemma SpentNotAdded(r: Relay, op: BoardOp, ids: set<MessageId>)
    requires Keyed(r.table.messages) && ids <= r.table.seen.Keys
    ensures forall i, id | |r.log| <= i < |RelayStep(r, op).log| && id in ids :: !Adds(RelayStep(r, op).log[i], id)
  {
    hide RelayStep, Adds;
    forall id | id in ids
      ensures forall i | |r.log| <= i < |RelayStep(r, op).log| :: !Adds(RelayStep(r, op).log[i], id)
    {
      StepAddsUnspent(r, op, id);
    }
  }

  lemma StepFoldsAllBut(r: Relay, op: BoardOp, ids: set<MessageId>)
    requires Keyed(r.table.messages) && TableOk(r.table) && ids <= r.table.seen.Keys && CleanOp(r, op)
    requires Fold(r.base, r.log) == r.table.messages - ids
    ensures var r' := RelayStep(r, op); Fold(r'.base, r'.log) == r'.table.messages - ids
  {
    hide RelayStep, CleanOp, Adds, Fold;
    var r', events := RelayStep(r, op), NewEvents(r, [op]);
    CleanStepPublishes(r, op);
    SpentNotAdded(r, op, ids);
    assert forall i | 0 <= i < |events| :: events[i] == r'.log[|r.log| + i];
    FoldWithout(r.table.messages, events, ids);
    FoldAppend(r.base, r.log, events);
  }

  lemma StepKeepsAllBut(r: Relay, op: BoardOp, row: Row)
    requires AllBut(r, row) && CleanOp(r, op)
    ensures AllBut(RelayStep(r, op), row)
  {
    hide Fold, RelayStep, CleanOp;
    StepFoldsAllBut(r, op, {row.record.id});
    StepAddsUnspent(r, op, row.record.id);
    StepKeepsTable(r, op, row);
  }

  lemma StepKeepsTable(r: Relay, op: BoardOp, row: Row)
    requires Keyed(r.table.messages) && TableOk(r.table) && row.record.id in r.table.seen
    requires row.record.id in r.table.messages ==> r.table.messages[row.record.id] == row
    ensures var t := RelayStep(r, op).table;
            TableOk(t) && (row.record.id in t.messages ==> t.messages[row.record.id] == row)
  {
    match op
    case Expire(now) => Shrinks(RelayStep(r, op).table.messages, r.table.messages);
    case Post(record, now) =>
      PostKeepsTable(r.table, record, now);
      if PostStep(r.table, record, now).1.Accepted? {
        AcceptedShape(r.table, record, now);
      }
  }

  lemma BegunIsAllBut(r: Relay, record: Record, now: nat)
    requires RelayOk(r) && PostStep(r.table, record, now).1.Accepted?
    ensures AllBut(Begun(r, record, now), Fresh(record, now))
  {
    hide PostStep, Fold, TableOk;
    PostKeepsTable(r.table, record, now);
    BegunTable(r.table, record, now);
    BegunFold(r, record, now);
  }

  lemma BegunTable(t: Table, record: Record, now: nat)
    requires Keyed(t.messages) && PostStep(t, record, now).1.Accepted?
    ensures var t' := PostStep(t, record, now).0;
            && record.id in t'.seen
            && (record.id in t'.messages ==> t'.messages[record.id] == Fresh(record, now))
  {
    AcceptedShape(t, record, now);
  }

  lemma BegunFold(r: Relay, record: Record, now: nat)
    requires RelayOk(r) && PostStep(r.table, record, now).1.Accepted?
    ensures var r' := Begun(r, record, now); Fold(r'.base, r'.log) == r'.table.messages - {record.id}
  {
    hide PostStep, Inserted, Evicted, Fold, FreshUpdates;
    var m, removed := r.table.messages, PostStep(r.table, record, now).1.removed;
    var expired := ExpiredIds(r.table, now);
    AcceptedShape(r.table, record, now);
    FoldAppend(r.base, r.log, RemovalEvents(removed));
    FoldRemovals(m, removed);
    assert record.id !in m;
    RemovedAllBut(m, expired, Evicted((m - expired)[record.id := Fresh(record, now)]), Fresh(record, now));
  }

  lemma RemovedAllBut(m: Messages, expired: set<MessageId>, evicted: set<MessageId>, row: Row)
    requires row.record.id !in m
    ensures m - (expired + evicted) == ((m - expired)[row.record.id := row] - evicted) - {row.record.id}
  {
  }

  lemma PutBack(m: Messages, row: Row)
    requires row.record.id in m ==> m[row.record.id] == row
    ensures (m - {row.record.id})[row.record.id := row] == m <==> row.record.id in m
  {
    if row.record.id in m {
      assert (m - {row.record.id})[row.record.id := row].Keys == m.Keys;
    }
  }

  lemma {:induction false} StepsKeepAllBut(r: Relay, ops: seq<BoardOp>, row: Row)
    requires AllBut(r, row) && CleanSteps(r, ops)
    ensures AllBut(RelaySteps(r, ops), row)
  {
    if ops != [] {
      StepsKeepAllBut(r, ops[..|ops| - 1], row);
      StepKeepsAllBut(RelaySteps(r, ops[..|ops| - 1]), ops[|ops| - 1], row);
    }
  }

  /** `board_post` publishes its removals, may suspend, and only then publishes the
      accepted row. While it is suspended its subscribers lack just that row; and
      once the row is out they hold the board exactly when the row survived the
      suspension, since its own removal, if any, was published before it. */
  lemma SuspendedPost(r: Relay, record: Record, now: nat, ops: seq<BoardOp>)
    requires RelayOk(r) && PostStep(r.table, record, now).1.Accepted?
    requires CleanSteps(Begun(r, record, now), ops)
    ensures var r' := RelaySteps(Begun(r, record, now), ops);
            && Fold(r'.base, r'.log) == r'.table.messages - {record.id}
            && (Fold(r'.base, r'.log + [Update(Fresh(record, now))]) == r'.table.messages
                <==> record.id in r'.table.messages)
  {
    hide PostStep, Begun;
    var row := Fresh(record, now);
    BegunIsAllBut(r, record, now);
    StepsKeepAllBut(Begun(r, record, now), ops, row);
    RowPublished(RelaySteps(Begun(r, record, now), ops), row);
  }

  lemma RowPublished(r: Relay, row: Row)
    requires AllBut(r, row)
    ensures Fold(r.base, r.log + [Update(row)]) == r.table.messages <==> row.record.id in r.table.messages
  {
    FoldAppend(r.base, r.log, [Update(row)]);
    assert Fold(Fold(r.base, r.log), [Update(row)][..0]) == Fold(r.base, r.log);
    PutBack(r.table.messages, row);
  }

  // ------------------------------------------------------ the unfaithful runs

  const NEW_RELAY: Relay := Relay(EMPTY, map[], [])

  /** What the relay's subscribers hold is not its board. */
  ghost predicate Diverged(r: Relay) {
    Fold(r.base, r.log) != r.table.messages
  }

  lemma EmptyIsOk()
    ensures RelayOk(NEW_RELAY)
  {
  }

  /** The first post to an empty relay. */
  lemma FirstPost(record: Record)
    requires |record.ciphertext| <= MAX_CIPHERTEXT
    ensures var r := RelayStep(NEW_RELAY, Post(record, 0));
            && CleanOp(NEW_RELAY, Post(record, 0))
            && r.log == [Update(Fresh(record, 0))]
            && r.table.messages == map[record.id := Fresh(record, 0)]
            && r.table.seen.Keys == {record.id}
            && r.table.cooldowns == map[record.token := Cooldown(0, COOLDOWN)]
  {
    assert Cleaned(EMPTY, 0) == EMPTY && ExpiredIds(EMPTY, 0) == {};
    AdmittedIsAccepted(EMPTY, record, 0);
    AcceptedShape(EMPTY, record, 0);
    var grown := EMPTY.messages[record.id := Fresh(record, 0)];
    assert |grown| == 1 && Evicted(grown) == {} && grown - {} == grown;
    assert EMPTY.cooldowns[record.token := Cooldown(0, COOLDOWN)] == map[record.token := Cooldown(0, COOLDOWN)];
  }

  /** Two clean operations can publish twice and leave the list as it was. */
  lemma PostThenExpiryCancels(record: Record)
    requires |record.ciphertext| <= MAX_CIPHERTEXT
    ensures var r := RelayStep(NEW_RELAY, Post(record, 0));
            var r' := RelaySteps(NEW_RELAY, [Post(record, 0), Expire(LIFETIME)]);
            && CleanOp(NEW_RELAY, Post(record, 0)) && CleanOp(r, Expire(LIFETIME))
            && |r'.log| == 2 && Undone(map[], NewEvents(NEW_RELAY, [Post(record, 0), Expire(LIFETIME)]))
  {
    hide RelayStep, RelaySteps;
    var log := [Update(Fresh(record, 0)), Remove({record.id})];
    FirstPost(record);
    PostThenExpiryEmpties(record);
    assert NewEvents(NEW_RELAY, [Post(record, 0), Expire(LIFETIME)]) == log;
    AddThenDrop(record, log);
  }

  lemma AddThenDrop(record: Record, log: seq<Event>)
    requires log == [Update(Fresh(record, 0)), Remove({record.id})]
    ensures Undone(map[], log)
  {
    forall id
      ensures !LeftIn(log, id)
    {
      LeftInSnoc([log[0]], log[1], id);
      LeftInSnoc([], log[0], id);
      assert [log[0]] + [log[1]] == log && [] + [log[0]] == [log[0]];
      assert Drops(log[1], record.id);
    }
  }

  /** Lost removals: a post, and the same id again when the first has expired. The
      row is gone and nobody is told. */
  lemma RepeatedIdLosesRemoval(first: Record, again: Record)
    requires first.id == again.id && |first.ciphertext| <= MAX_CIPHERTEXT && |again.ciphertext| <= MAX_CIPHERTEXT
    ensures var r := RelayStep(NEW_RELAY, Post(first, 0));
            var r' := RelaySteps(NEW_RELAY, [Post(first, 0), Post(again, LIFETIME)]);
            && RelayOk(r) && LosesRemovals(r.table, again, LIFETIME)
            && r'.table.messages == map[] && r'.log == r.log && Diverged(r')
  {
    FirstPost(first);
    EmptyIsOk();
    RelayStepKeeps(NEW_RELAY, Post(first, 0));
    StepsSnoc(NEW_RELAY, [], Post(first, 0));
    StepsSnoc(NEW_RELAY, [Post(first, 0)], Post(again, LIFETIME));
    assert [] + [Post(first, 0)] == [Post(first, 0)];
    assert [Post(first, 0)] + [Post(again, LIFETIME)] == [Post(first, 0), Post(again, LIFETIME)];
    var r := RelayStep(NEW_RELAY, Post(first, 0));
    assert ExpiredIds(r.table, LIFETIME) == {first.id};
    assert r.table.messages - {first.id} == map[];
  }

  /** A mislabelled list: the rows are read when the first post has expired, a second
      post is accepted while its removal is published, and the reply then names a
      sequence number at which the board was not empty any more. */
  lemma ListReplyMislabelled(first: Record, second: Record)
    requires first.id != second.id
    requires |first.ciphertext| <= MAX_CIPHERTEXT && |second.ciphertext| <= MAX_CIPHERTEXT
    ensures var r := RelaySteps(NEW_RELAY, [Post(first, 0), Expire(LIFETIME)]);
            var ops := [Post(second, LIFETIME)];
            var r' := RelaySteps(r, ops);
            && RelayOk(r) && r.log == [Update(Fresh(first, 0)), Remove({first.id})] && CleanOp(r, ops[0])
            && Listing(r.table.messages) == [] && |r'.log| == 3
            && !Undone(r.table.messages, NewEvents(r, ops)) && Listing(r.table.messages) != ListAt(r', 3)
  {
    hide RelaySteps, Undone, CleanOp;
    var r := RelaySteps(NEW_RELAY, [Post(first, 0), Expire(LIFETIME)]);
    var op := Post(second, LIFETIME);
    PostThenExpiryEmpties(first);
    SecondPostIsPublished(r, second);
    assert [] + [op] == [op];
    NoSteps(r);
    StepsSnoc(r, [], op);
    OneOperationIsNotUndone(r, op);
    SuspendedListReply(r, [op]);
  }

  lemma NoSteps(r: Relay)
    requires Keyed(r.table.messages)
    ensures RelaySteps(r, []) == r
  {
  }

  lemma PostThenExpiryEmpties(record: Record)
    requires |record.ciphertext| <= MAX_CIPHERTEXT
    ensures var r := RelaySteps(NEW_RELAY, [Post(record, 0), Expire(LIFETIME)]);
            && RelayOk(r) && r.log == [Update(Fresh(record, 0)), Remove({record.id})]
            && r.table.messages == map[] && r.table.cooldowns == map[] && r.table.seen.Keys == {record.id}
  {
    hide RelayStep, RelayOk, RelaySteps, CleanOp;
    var r := RelayStep(NEW_RELAY, Post(record, 0));
    FirstPost(record);
    EmptyIsOk();
    RelayStepKeeps(NEW_RELAY, Post(record, 0));
    NoSteps(NEW_RELAY);
    StepsSnoc(NEW_RELAY, [], Post(record, 0));
    StepsSnoc(NEW_RELAY, [Post(record, 0)], Expire(LIFETIME));
    assert [] + [Post(record, 0)] == [Post(record, 0)];
    assert [Post(record, 0)] + [Expire(LIFETIME)] == [Post(record, 0), Expire(LIFETIME)];
    ExpiryEmpties(r, record);
  }

  lemma ExpiryEmpties(r: Relay, record: Record)
    requires RelayOk(r) && r.log == [Update(Fresh(record, 0))]
    requires r.table.messages == map[record.id := Fresh(record, 0)] && r.table.seen.Keys == {record.id}
    requires r.table.cooldowns == map[record.token := Cooldown(0, COOLDOWN)]
    ensures var r' := RelayStep(r, Expire(LIFETIME));
            && RelayOk(r') && r'.log == [Update(Fresh(record, 0)), Remove({record.id})]
            && r'.table.messages == map[] && r'.table.cooldowns == map[] && r'.table.seen.Keys == {record.id}
  {
    hide RelayOk;
    RelayStepKeeps(r, Expire(LIFETIME));
    assert ExpiredIds(r.table, LIFETIME) == {record.id};
  }

  lemma SecondPostIsPublished(r: Relay, record: Record)
    requires RelayOk(r) && r.table.messages == map[] && r.table.cooldowns == map[] && record.id !in r.table.seen
    requires |record.ciphertext| <= MAX_CIPHERTEXT
    ensures CleanOp(r, Post(record, LIFETIME))
    ensures RelayStep(r, Post(record, LIFETIME)).log == r.log + [Update(Fresh(record, LIFETIME))]
    ensures RelayStep(r, Post(record, LIFETIME)).table.messages == map[record.id := Fresh(record, LIFETIME)]
  {
    AdmittedIsAccepted(r.table, record, LIFETIME);
    AcceptedShape(r.table, record, LIFETIME);
    RoomForOne(r.table, record, LIFETIME);
    var grown := r.table.messages[record.id := Fresh(record, LIFETIME)];
    assert |grown| == 1 && Evicted(grown) == {};
    assert ExpiredIds(r.table, LIFETIME) == {};
  }

  /** A post that outlives its own row: it removes an expired row, and its row has
      expired in turn before it is published. */
  lemma SuspendedPostLosesRow(first: Record, second: Record)
    requires first.id != second.id
    requires |first.ciphertext| <= MAX_CIPHERTEXT && |second.ciphertext| <= MAX_CIPHERTEXT
    ensures var r := RelayStep(NEW_RELAY, Post(first, 0));
            && RelayOk(r) && PostStep(r.table, second, LIFETIME).1.Accepted?
            && PostStep(r.table, second, LIFETIME).1.removed == {first.id}
            && var r' := RelaySteps(Begun(r, second, LIFETIME), [Expire(2 * LIFETIME)]);
               r'.table.messages == map[] && Fold(r'.base, r'.log + [Update(Fresh(second, LIFETIME))]) != map[]
  {
    var r := RelayStep(NEW_RELAY, Post(first, 0));
    FirstPost(first);
    EmptyIsOk();
    RelayStepKeeps(NEW_RELAY, Post(first, 0));
    SecondReplacesFirst(r, first, second);
    ThenExpires(r, second);
  }

  lemma ThenExpires(r: Relay, second: Record)
    requires RelayOk(r) && PostStep(r.table, second, LIFETIME).1.Accepted?
    requires PostStep(r.table, second, LIFETIME).0.messages == map[second.id := Fresh(second, LIFETIME)]
    ensures var r' := RelaySteps(Begun(r, second, LIFETIME), [Expire(2 * LIFETIME)]);
            r'.table.messages == map[] && Fold(r'.base, r'.log + [Update(Fresh(second, LIFETIME))]) != map[]
  {
    hide PostStep, Fold, TableOk;
    var b := Begun(r, second, LIFETIME);
    StepsSnoc(b, [], Expire(2 * LIFETIME));
    assert [] + [Expire(2 * LIFETIME)] == [Expire(2 * LIFETIME)];
    assert ExpiredIds(b.table, 2 * LIFETIME) == {second.id};
    SuspendedPost(r, second, LIFETIME, [Expire(2 * LIFETIME)]);
  }

  lemma SecondReplacesFirst(r: Relay, first: Record, second: Record)
    requires Keyed(r.table.messages) && r.table.messages == map[first.id := Fresh(first, 0)]
    requires r.table.seen.Keys == {first.id} && r.table.cooldowns == map[first.token := Cooldown(0, COOLDOWN)]
    requires first.id != second.id && |second.ciphertext| <= MAX_CIPHERTEXT
    ensures var (t, outcome) := PostStep(r.table, second, LIFETIME);
            && outcome.Accepted? && outcome.removed == {first.id}
            && t.messages == map[second.id := Fresh(second, LIFETIME)]
  {
    hide PostStep, Inserted, Evicted;
    var c := Cleaned(r.table, LIFETIME);
    assert ExpiredIds(r.table, LIFETIME) == {first.id};
    assert c.messages == map[] && c.cooldowns == map[];
    AdmittedIsAccepted(r.table, second, LIFETIME);
    AcceptedShape(r.table, second, LIFETIME);
    LoneRowStays(second, LIFETIME);
    assert {first.id} + {} == {first.id};
  }

  lemma LoneRowStays(record: Record, now: nat)
    ensures var m: Messages := map[]; var grown := m[record.id := Fresh(record, now)];
            Evicted(grown) == {} && grown - {} == map[record.id := Fresh(record, now)]
  {
    var m: Messages := map[];
    var grown := m[record.id := Fresh(record, now)];
    assert grown == map[record.id := Fresh(record, now)] && |grown| == 1;
  }

  // ------------------------------------------------------------ a full second

  function Member(i: nat, body: Bytes): Record {
    Record(i, i, body)
  }

  /** Posts 1, 2, ..., n, all in the first second. */
  function Crowd(n: nat, body: Bytes): seq<BoardOp> {
    if n == 0 then [] else Crowd(n - 1, body) + [Post(Member(n, body), 0)]
  }

  /** Rows 1, ..., n of the first second, and nothing else remembered. */
  ghost predicate Crowded(t: Table, n: nat, body: Bytes) {
    && Keyed(t.messages) && |t.messages| == n
    && (forall i :: i in t.messages <==> 1 <= i <= n)
    && (forall i | i in t.messages :: t.messages[i] == Fresh(Member(i, body), 0))
    && (forall i :: i in t.seen <==> 1 <= i <= n)
    && (forall i | i in t.cooldowns :: 1 <= i <= n)
  }

  lemma CrowdIsClean(t: Table, n: nat, body: Bytes)
    requires Crowded(t, n, body)
    ensures ExpiredIds(t, 0) == {} && Cleaned(t, 0).messages == t.messages
  {
    assert t.messages - {} == t.messages;
  }

  /** An admitted post to a board with room and nothing to expire is just added. */
  lemma RoomForOne(t: Table, record: Record, now: nat)
    requires Keyed(t.messages) && TableOk(t) && |t.messages| < CAPACITY && ExpiredIds(t, now) == {}
    requires Admitted(t, record, now)
    ensures var t' := PostStep(t, record, now).0;
            && t'.messages == t.messages[record.id := Fresh(record, now)]
            && t'.seen == t.seen[record.id := now]
            && t'.cooldowns.Keys <= t.cooldowns.Keys + {record.token}
  {
    var c := Cleaned(t, now);
    assert c.messages == t.messages - {} == t.messages;
    AdmittedIsAccepted(t, record, now);
    AcceptedShape(t, record, now);
    InsertShape(c, record, now);
  }

  lemma CrowdAdmits(t: Table, n: nat, body: Bytes)
    requires Crowded(t, n, body) && n < CAPACITY && |body| <= MAX_CIPHERTEXT
    ensures Admitted(t, Member(n + 1, body), 0) && TableOk(t) && |t.messages| == n
  {
    CrowdIsClean(t, n, body);
  }

  lemma OneMore(t: Table, n: nat, body: Bytes, t': Table)
    requires Crowded(t, n, body) && n < CAPACITY && |body| <= MAX_CIPHERTEXT
    requires t' == PostStep(t, Member(n + 1, body), 0).0
    ensures Crowded(t', n + 1, body)
  {
    CrowdIsClean(t, n, body);
    CrowdAdmits(t, n, body);
    RoomForOne(t, Member(n + 1, body), 0);
    InsertedKeyed(t, Member(n + 1, body), t');
    CrowdGrows(t, t', n, body);
  }

  lemma InsertedKeyed(t: Table, record: Record, t': Table)
    requires Keyed(t.messages) && t'.messages == t.messages[record.id := Fresh(record, 0)]
    ensures Keyed(t'.messages)
  {
  }

  lemma CrowdGrows(t: Table, t': Table, n: nat, body: Bytes)
    requires Crowded(t, n, body) && Keyed(t'.messages)
    requires t'.messages == t.messages[n + 1 := Fresh(Member(n + 1, body), 0)] && t'.seen == t.seen[n + 1 := 0]
    requires t'.cooldowns.Keys <= t.cooldowns.Keys + {n + 1}
    ensures Crowded(t', n + 1, body)
  {
    forall i | i in t'.cooldowns
      ensures 1 <= i <= n + 1
    {
      assert i in t.cooldowns.Keys + {n + 1};
    }
    assert n + 1 !in t.messages;
  }

  lemma CrowdStep(r: Relay, n: nat, body: Bytes)
    requires RelayOk(r) && Crowded(r.table, n, body) && n < CAPACITY && |body| <= MAX_CIPHERTEXT
    ensures var r' := RelayStep(r, Post(Member(n + 1, body), 0)); RelayOk(r') && Crowded(r'.table, n + 1, body)
  {
    var op := Post(Member(n + 1, body), 0);
    OneMore(r.table, n, body, PostStep(r.table, op.record, 0).0);
    CrowdIsClean(r.table, n, body);
    assert CleanOp(r, op);
    RelayStepKeeps(r, op);
  }

  lemma NobodyCrowds(body: Bytes)
    ensures RelaySteps(NEW_RELAY, []) == NEW_RELAY && RelayOk(NEW_RELAY) && Crowded(NEW_RELAY.table, 0, body)
  {
    EmptyIsOk();
  }

  lemma {:induction false} CrowdFills(n: nat, body: Bytes)
    requires n <= CAPACITY && |body| <= MAX_CIPHERTEXT
    ensures var r := RelaySteps(NEW_RELAY, Crowd(n, body)); RelayOk(r) && Crowded(r.table, n, body)
  {
    hide RelayOk, Crowded, RelayStep, RelaySteps;
    if n == 0 {
      NobodyCrowds(body);
    } else {
      CrowdFills(n - 1, body);
      StepsSnoc(NEW_RELAY, Crowd(n - 1, body), Post(Member(n, body), 0));
      CrowdStep(RelaySteps(NEW_RELAY, Crowd(n - 1, body)), n - 1, body);
    }
  }

  /** Self-eviction: 24 posts in one second and then one with a lower id. It is
      accepted, leaves the board at once and stays with every subscriber. */
  lemma LowestIdEvictsItself(body: Bytes)
    requires |body| <= MAX_CIPHERTEXT
    ensures var last := Post(Member(0, body), 0);
            var r := RelaySteps(NEW_RELAY, Crowd(CAPACITY, body));
            var r' := RelaySteps(NEW_RELAY, Crowd(CAPACITY, body) + [last]);
            && RelayOk(r) && EvictsItself(r.table, Member(0, body), 0)
            && r'.log == r.log + [Remove({0}), Update(Fresh(Member(0, body), 0))]
            && 0 !in r'.table.messages && 0 in Fold(r'.base, r'.log) && Diverged(r')
  {
    var record := Member(0, body);
    var r := RelaySteps(NEW_RELAY, Crowd(CAPACITY, body));
    CrowdFills(CAPACITY, body);
    StepsSnoc(NEW_RELAY, Crowd(CAPACITY, body), Post(record, 0));
    CrowdOutranks(r.table, record);
    CrowdIsClean(r.table, CAPACITY, body);
    SelfEvicts(r, record);
  }

  lemma CrowdOutranks(t: Table, record: Record)
    requires Crowded(t, CAPACITY, record.ciphertext) && record == Member(0, record.ciphertext)
    requires |record.ciphertext| <= MAX_CIPHERTEXT
    ensures EvictsItself(t, record, 0)
  {
    CrowdIsClean(t, CAPACITY, record.ciphertext);
    forall id | id in Cleaned(t, 0).messages
      ensures Older(Fresh(record, 0), Cleaned(t, 0).messages[id])
    {
      assert t.messages[id] == Fresh(Member(id, record.ciphertext), 0);
    }
  }

  lemma SelfEvicts(r: Relay, record: Record)
    requires RelayOk(r) && EvictsItself(r.table, record, 0) && ExpiredIds(r.table, 0) == {}
    ensures var r' := RelayStep(r, Post(record, 0));
            && r'.log == r.log + [Remove({record.id}), Update(Fresh(record, 0))]
            && record.id !in r'.table.messages && record.id in Fold(r'.base, r'.log)
  {
    var t, row, c := r.table, Fresh(record, 0), Cleaned(r.table, 0);
    assert c.messages == t.messages - {} == t.messages;
    AdmittedIsAccepted(t, record, 0);
    AcceptedShape(t, record, 0);
    SelfEvictionIsOldest(c.messages, row);
    var removed := {} + Evicted(c.messages[record.id := row]);
    assert removed == {record.id};
    FoldAppend(r.base, r.log, PostEvents(t, record, 0));
    FoldUpdate(Fold(r.base, r.log), {record.id}, row);
    assert RemovalEvents({record.id}) + [Update(row)] == [Remove({record.id}), Update(row)];
  }
}
