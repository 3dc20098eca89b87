/** Publication of board changes: the relay turns each committed transaction into
    numbered events, and a board is what folding those events gives. */
module BoardEvents {
  import opened Board

  type Messages = map<MessageId, Row>

  datatype Event = Update(row: Row) | Remove(ids: set<MessageId>)

  function Apply(m: Messages, e: Event): Messages {
    match e
    case Update(row) => m[row.record.id := row]
    case Remove(ids) => m - ids
  }

  ghost function Fold(base: Messages, log: seq<Event>): Messages {
    if log == [] then base else Apply(Fold(base, log[..|log| - 1]), log[|log| - 1])
  }

  lemma {:induction false} FoldAppend(base: Messages, log: seq<Event>, more: seq<Event>)
    ensures Fold(base, log + more) == Fold(Fold(base, log), more)
  {
    if more == [] {
      assert log + more == log;
    } else {
      var front := more[..|more| - 1];
      FoldAppend(base, log, front);
      assert (log + more)[..|log + more| - 1] == log + front;
    }
  }

  lemma {:induction false} FoldKeyed(base: Messages, log: seq<Event>)
    requires Keyed(base)
    ensures Keyed(Fold(base, log))
  {
    if log != [] {
      FoldKeyed(base, log[..|log| - 1]);
    }
  }

  // -------------------------------------------------------- what is published

  function RemovalEvents(removed: set<MessageId>): seq<Event> {
    if removed == {} then [] else [Remove(removed)]
  }

  /** `board_post`: removals first, then the accepted row. A duplicate raises out
      of the store, so whatever its expiry pass removed goes unpublished. */
  function OutcomeEvents(outcome: PostOutcome): seq<Event> {
    match outcome
    case Accepted(stored, removed, _) => RemovalEvents(removed) + [Update(stored)]
    case Cooling(removed, _) => RemovalEvents(removed)
    case Duplicate => []
    case Invalid => []
  }

  ghost function PostEvents(t: Table, record: Record, now: nat): seq<Event>
    requires Keyed(t.messages)
  {
    OutcomeEvents(PostStep(t, record, now).1)
  }

  ghost predicate LosesRemovals(t: Table, record: Record, now: nat) {
    |record.ciphertext| <= MAX_CIPHERTEXT && record.id in t.seen && ExpiredIds(t, now) != {}
  }

  /** A full board of rows that all rank above the new one. */
  ghost predicate EvictsItself(t: Table, record: Record, now: nat)
    requires Keyed(t.messages)
  {
    var c := Cleaned(t, now);
    && Admitted(t, record, now)
    && |c.messages| >= CAPACITY
    && forall id | id in c.messages :: Older(Fresh(record, now), c.messages[id])
  }

  /** Folding what one post published over the old board gives the new board,
      except in two cases, and in those two it never does. */
  lemma PublicationFaithful(t: Table, record: Record, now: nat)
    requires Keyed(t.messages) && t.messages.Keys <= t.seen.Keys
    ensures Fold(t.messages, PostEvents(t, record, now)) == PostStep(t, record, now).0.messages
            <==> !LosesRemovals(t, record, now) && !EvictsItself(t, record, now)
  {
    var outcome := PostStep(t, record, now).1;
    var expired := ExpiredIds(t, now);
    AdmittedIsAccepted(t, record, now);
    match outcome
    case Invalid =>
    case Duplicate =>
      if expired != {} {
        var id :| id in expired;
        assert id in t.messages && id !in Cleaned(t, now).messages;
      } else {
        assert t.messages - expired == t.messages;
      }
    case Cooling(removed, _) =>
      FoldRemovals(t.messages, removed);
    case Accepted(stored, removed, _) =>
      AcceptedFold(t, record, now);
  }

  lemma FoldRemovals(m: Messages, removed: set<MessageId>)
    ensures Fold(m, RemovalEvents(removed)) == m - removed
  {
    if removed == {} {
      assert m - removed == m;
    } else {
      assert Fold(m, [Remove(removed)][..0]) == m;
    }
  }

  lemma AcceptedFold(t: Table, record: Record, now: nat)
    requires Keyed(t.messages) && t.messages.Keys <= t.seen.Keys
    requires PostStep(t, record, now).1.Accepted?
    ensures Fold(t.messages, PostEvents(t, record, now)) == PostStep(t, record, now).0.messages
            <==> !EvictsItself(t, record, now)
  {
    AdmittedIsAccepted(t, record, now);
    AcceptedShape(t, record, now);
    AcceptedMessages(t.messages, ExpiredIds(t, now), Fresh(record, now));
  }

  lemma AcceptedMessages(m: Messages, expired: set<MessageId>, row: Row)
    requires Keyed(m) && row.record.id !in m - expired
    ensures var grown := (m - expired)[row.record.id := row];
            Fold(m, RemovalEvents(expired + Evicted(grown)) + [Update(row)]) == grown - Evicted(grown)
            <==> !(|m - expired| >= CAPACITY && forall id | id in m - expired :: Older(row, (m - expired)[id]))
  {
    var evicted := Evicted((m - expired)[row.record.id := row]);
    FoldUpdate(m, expired + evicted, row);
    SelfEvictionIsOldest(m - expired, row);
    UpdateOrEvict(m, expired, evicted, row);
  }

  lemma FoldUpdate(m: Messages, removed: set<MessageId>, row: Row)
    ensures Fold(m, RemovalEvents(removed) + [Update(row)]) == (m - removed)[row.record.id := row]
  {
    FoldAppend(m, RemovalEvents(removed), [Update(row)]);
    FoldRemovals(m, removed);
    assert Fold(m - removed, [Update(row)][..0]) == m - removed;
  }

  /** Remove-then-update and insert-then-evict agree unless the new row goes. */
  lemma UpdateOrEvict(m: Messages, expired: set<MessageId>, evicted: set<MessageId>, row: Row)
    requires |evicted| <= 1
    ensures (m - (expired + evicted))[row.record.id := row] == (m - expired)[row.record.id := row] - evicted
            <==> evicted != {row.record.id}
  {
    var id := row.record.id;
    if id in evicted {
      assert evicted == {id} by {
        assert |evicted - {id}| == 0;
      }
      assert id !in (m - expired)[id := row] - evicted;
    }
  }

  lemma SelfEvictionIsOldest(m: Messages, row: Row)
    requires Keyed(m) && row.record.id !in m
    ensures Evicted(m[row.record.id := row]) == {row.record.id} <==>
            |m| >= CAPACITY && forall id | id in m :: Older(row, m[id])
  {
    var grown := m[row.record.id := row];
    assert grown.Keys == m.Keys + {row.record.id};
    if |grown| > CAPACITY {
      var oldest := Oldest(grown);
      assert forall id | id in m :: grown[id] == m[id];
    }
  }

  // ----------------------------------------------------------- the relay side

  /** The board half of a relay: the store, the board at process start and every
      event published since. The publication sequence is the log's length. */
  datatype Relay = Relay(table: Table, base: Messages, log: seq<Event>)

  datatype BoardOp = Post(record: Record, now: nat) | Expire(now: nat)

  ghost function RelayStep(r: Relay, op: BoardOp): (r': Relay)
    requires Keyed(r.table.messages)
    ensures Keyed(r'.table.messages)
    ensures r.log <= r'.log && r'.base == r.base
  {
    match op
    case Expire(now) =>
      r.(table := Cleaned(r.table, now), log := r.log + RemovalEvents(ExpiredIds(r.table, now)))
    case Post(record, now) =>
      r.(table := PostStep(r.table, record, now).0, log := r.log + PostEvents(r.table, record, now))
  }

  /** The guard a caller could check before the operation. */
  ghost predicate CleanOp(r: Relay, op: BoardOp)
    requires Keyed(r.table.messages)
  {
    op.Post? ==> !LosesRemovals(r.table, op.record, op.now) && !EvictsItself(r.table, op.record, op.now)
  }

  ghost function BoardAt(r: Relay, sequence: nat): Messages
    requires sequence <= |r.log|
  {
    Fold(r.base, r.log[..sequence])
  }

  ghost predicate FreshUpdates(r: Relay) {
    forall i | 0 <= i < |r.log| && r.log[i].Update? :: r.log[i].row.record.id !in BoardAt(r, i)
  }

  /** Every listed id has been seen, and the board is within capacity. */
  predicate TableOk(t: Table) {
    t.messages.Keys <= t.seen.Keys && |t.messages| <= CAPACITY
  }

  /** The board is the fold of the published events, and updates are new ids. */
  ghost predicate RelayOk(r: Relay) {
    && Keyed(r.base)
    && Keyed(r.table.messages)
    && TableOk(r.table)
    && r.table.messages == Fold(r.base, r.log)
    && FreshUpdates(r)
  }

  lemma BoardAtExtends(r: Relay, r': Relay, sequence: nat)
    requires r.log <= r'.log && r'.base == r.base && sequence <= |r.log|
    ensures BoardAt(r', sequence) == BoardAt(r, sequence)
  {
    assert r'.log[..sequence] == r.log[..sequence];
  }

  lemma BoardAtEnd(r: Relay)
    ensures BoardAt(r, |r.log|) == Fold(r.base, r.log)
  {
    assert r.log[..|r.log|] == r.log;
  }

  lemma BoardAtNext(r: Relay, i: nat)
    requires i < |r.log|
    ensures BoardAt(r, i + 1) == Apply(BoardAt(r, i), r.log[i])
  {
    assert r.log[..i + 1][..i] == r.log[..i];
  }

  lemma RelayStepKeeps(r: Relay, op: BoardOp)
    requires RelayOk(r) && CleanOp(r, op)
    ensures RelayOk(RelayStep(r, op))
  {
    var r' := RelayStep(r, op);
    match op
    case Expire(now) =>
      var removed := ExpiredIds(r.table, now);
      FoldAppend(r.base, r.log, RemovalEvents(removed));
      FoldRemovals(r.table.messages, removed);
      Shrinks(r'.table.messages, r.table.messages);
      NoNewUpdates(r, r');
    case Post(record, now) =>
      FoldAppend(r.base, r.log, PostEvents(r.table, record, now));
      PublicationFaithful(r.table, record, now);
      PostKeepsTable(r.table, record, now);
      PostUpdatesFresh(r, record, now);
  }

  lemma {:induction false} Shrinks(a: Messages, b: Messages)
    requires a.Keys <= b.Keys
    ensures |a| <= |b|
    decreases |a|
  {
    if a != map[] {
      var id :| id in a;
      assert (a - {id}).Keys == a.Keys - {id} && (b - {id}).Keys == b.Keys - {id};
      Shrinks(a - {id}, b - {id});
    }
  }

  lemma PostKeepsTable(t: Table, record: Record, now: nat)
    requires Keyed(t.messages) && TableOk(t)
    ensures TableOk(PostStep(t, record, now).0)
  {
    Shrinks(Cleaned(t, now).messages, t.messages);
    if PostStep(t, record, now).1.Accepted? {
      AcceptedShape(t, record, now);
      InsertKeepsTable(Cleaned(t, now), record, now);
    }
  }

  lemma InsertKeepsTable(c: Table, record: Record, now: nat)
    requires Keyed(c.messages) && TableOk(c) && record.id !in c.messages
    ensures TableOk(Inserted(c, record, now))
  {
    InsertShape(c, record, now);
  }

  lemma NoNewUpdates(r: Relay, r': Relay)
    requires FreshUpdates(r) && r.log <= r'.log && r'.base == r.base
    requires forall i | |r.log| <= i < |r'.log| :: r'.log[i].Remove?
    ensures FreshUpdates(r')
  {
    forall i | 0 <= i < |r'.log| && r'.log[i].Update?
      ensures r'.log[i].row.record.id !in BoardAt(r', i)
    {
      assert r'.log[i] == r.log[i];
      BoardAtExtends(r, r', i);
    }
  }

  lemma PostUpdatesFresh(r: Relay, record: Record, now: nat)
    requires RelayOk(r)
    ensures FreshUpdates(RelayStep(r, Post(record, now)))
  {
    var outcome := PostStep(r.table, record, now).1;
    if outcome.Accepted? {
      assert record.id !in Fold(r.base, r.log);
      AcceptedUpdatesFresh(r, RelayStep(r, Post(record, now)), outcome.removed, outcome.stored);
    } else {
      NoNewUpdates(r, RelayStep(r, Post(record, now)));
    }
  }

  lemma AcceptedUpdatesFresh(r: Relay, r': Relay, removed: set<MessageId>, row: Row)
    requires FreshUpdates(r) && row.record.id !in Fold(r.base, r.log)
    requires r'.base == r.base && r'.log == r.log + (RemovalEvents(removed) + [Update(row)])
    ensures FreshUpdates(r')
  {
    var mid := r.(log := r.log + RemovalEvents(removed));
    NoNewUpdates(r, mid);
    FoldAppend(r.base, r.log, RemovalEvents(removed));
    FoldRemovals(Fold(r.base, r.log), removed);
    assert r'.log == mid.log + [Update(row)];
    OneMoreUpdate(mid, r', row);
  }

  lemma OneMoreUpdate(r: Relay, r': Relay, row: Row)
    requires FreshUpdates(r) && r'.base == r.base && r'.log == r.log + [Update(row)]
    requires row.record.id !in Fold(r.base, r.log)
    ensures FreshUpdates(r')
  {
    BoardAtEnd(r);
    forall i | 0 <= i < |r'.log| && r'.log[i].Update?
      ensures r'.log[i].row.record.id !in BoardAt(r', i)
    {
      BoardAtExtends(r, r', i);
    }
  }

  // ------------------------------------------------------------------ lists

  /** The canonical list of the board at a sequence number. */
  ghost function ListAt(r: Relay, sequence: nat): seq<Row>
    requires Keyed(r.base) && sequence <= |r.log|
  {
    FoldKeyed(r.base, r.log[..sequence]);
    Listing(BoardAt(r, sequence))
  }

  lemma ListingInjective(a: Messages, b: Messages)
    requires Keyed(a) && Keyed(b) && Listing(a) == Listing(b)
    ensures a == b
  {
    ListingIsSorted(a);
    ListingIsSorted(b);
    forall id
      ensures id in a <==> id in b
      ensures id in a ==> a[id] == b[id]
    {
      if id in a {
        assert Holds(a, a[id]);
      }
      if id in b {
        assert Holds(b, b[id]);
      }
    }
  }
}
