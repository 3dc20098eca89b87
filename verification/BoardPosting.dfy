/** Replication while posts are suspended: a post that removes rows publishes the
    removals, may suspend, and publishes its own row only later. A client that lists
    the board in between sees the row before its event. Any number of posts may be
    suspended at once; rotations are not part of these runs. */
module BoardPosting {
  import opened Board
  import opened BoardEvents
  import opened BoardPublication
  import opened BoardReplica
  import opened Options

  /** `pending` are the stored rows whose own event is still to come, and `boards` is
      what was stored at each sequence number at which a list could be read. */
  datatype Posting = Posting(s: System, pending: Messages, boards: map<nat, Messages>)

  datatype Move = Plain(a: Action) | BeginPost(record: Record, now: nat) | EndPost(id: MessageId)

  // ------------------------------------------------------------------- steps

  /** A new relay state, with its new events queued if the client is subscribed. */
  function Publish(s: System, relay: Relay): System
    requires |s.relay.log| <= |relay.log|
  {
    s.(relay := relay, toClient := s.toClient + if s.subscribed then Pushes(relay.log, |s.relay.log|) else [])
  }

  ghost predicate Suspends(r: Relay, record: Record, now: nat)
    requires Keyed(r.table.messages)
  {
    var outcome := PostStep(r.table, record, now).1;
    outcome.Accepted? && outcome.removed != {}
  }

  function Published(r: Relay, row: Row): Relay {
    r.(log := r.log + [Update(row)])
  }

  function Settle(x: Posting, s: System, pending: Messages): Posting {
    Posting(s, pending, x.boards[|s.relay.log| := s.relay.table.messages])
  }

  ghost function Step(x: Posting, m: Move, k: Keyring): (x': Posting)
    requires Keyed(x.s.relay.table.messages)
    ensures Keyed(x'.s.relay.table.messages)
  {
    match m
    case Plain(a) => if a.Rotate? then x else Settle(x, Next(x.s, a, k), x.pending)
    case BeginPost(record, now) =>
      if !Suspends(x.s.relay, record, now) then x
      else
        Settle(x, Publish(x.s, Begun(x.s.relay, record, now)), x.pending[record.id := Fresh(record, now)])
    case EndPost(id) =>
      if id !in x.pending then x
      else Settle(x, Publish(x.s, Published(x.s.relay, x.pending[id])), x.pending - {id})
  }

  ghost function Run(x: Posting, moves: seq<Move>, k: Keyring): (x': Posting)
    requires Keyed(x.s.relay.table.messages)
    ensures Keyed(x'.s.relay.table.messages)
  {
    if moves == [] then x else Step(Run(x, moves[..|moves| - 1], k), moves[|moves| - 1], k)
  }

  /** A list is labelled while the store holds what was read. */
  predicate StillStored(x: Posting, h: Held) {
    h.mark in x.boards && x.boards[h.mark] == x.s.relay.table.messages
  }

  /** No unfaithful publication, no mislabelled list, and no event of a row that is
      gone when it is published. */
  ghost predicate CleanMove(x: Posting, m: Move)
    requires Keyed(x.s.relay.table.messages)
  {
    match m
    case Plain(a) =>
      && (a.Activity? ==> CleanOp(x.s.relay, a.op))
      && (a.EndList? && x.s.held.Some? ==> StillStored(x, x.s.held.value))
    case BeginPost(_, _) => true
    case EndPost(id) => id in x.pending ==> id in x.s.relay.table.messages
  }

  ghost predicate CleanMoves(x: Posting, moves: seq<Move>, k: Keyring)
    requires Keyed(x.s.relay.table.messages)
  {
    moves == [] || (CleanMoves(x, moves[..|moves| - 1], k)
                    && CleanMove(Run(x, moves[..|moves| - 1], k), moves[|moves| - 1]))
  }

  ghost predicate Starts(x: Posting) {
    Initial(x.s) && x.pending == map[] && x.boards == map[|x.s.relay.log| := x.s.relay.table.messages]
  }

  // -------------------------------------------------------- the relay's side

  /** The events published so far give what is stored less the pending rows. */
  ghost predicate RelayFits(r: Relay, pending: Messages) {
    && Keyed(r.base) && Keyed(r.table.messages) && TableOk(r.table) && Keyed(pending)
    && pending.Keys <= r.table.seen.Keys
    && (forall id | id in pending && id in r.table.messages :: r.table.messages[id] == pending[id])
    && Fold(r.base, r.log) == r.table.messages - pending.Keys
    && FreshUpdates(r)
  }

  ghost predicate Mentioned(log: seq<Event>, from: nat, id: MessageId) {
    exists i :: from <= i < |log| && (Adds(log[i], id) || Drops(log[i], id))
  }

  /** Rows that are ahead of the events at `n`: each is still pending, or an event
      about it, which adds just this row or drops it, comes at `n` or later. */
  ghost predicate Early(r: Relay, pending: Messages, n: nat, early: Messages)
    requires n <= |r.log|
  {
    && early.Keys <= r.table.seen.Keys && Keyed(early)
    && (forall id | id in early :: id !in BoardAt(r, n))
    && (forall i, id | n <= i < |r.log| && id in early && Adds(r.log[i], id) :: r.log[i] == Update(early[id]))
    && (forall id | id in early && id in pending :: pending[id] == early[id])
    && (forall id | id in early :: id in pending || Mentioned(r.log, n, id))
  }

  /** A board that is the events up to `n` and some early rows. */
  ghost predicate Explained(r: Relay, pending: Messages, n: nat, m: Messages) {
    n <= |r.log| && exists early :: Early(r, pending, n, early) && m == BoardAt(r, n) + early
  }

  /** What may happen to the relay between two moments. */
  ghost predicate Extends(r: Relay, pending: Messages, r': Relay, pending': Messages) {
    && r.log <= r'.log && r'.base == r.base && r.table.seen.Keys <= r'.table.seen.Keys
    && (forall i, id | |r.log| <= i < |r'.log| && id in r.table.seen && Adds(r'.log[i], id) ::
          id in pending && r'.log[i] == Update(pending[id]))
    && (forall id | id in pending' && id in r.table.seen :: id in pending && pending'[id] == pending[id])
    && (forall id | id in pending && id !in pending' :: Mentioned(r'.log, |r.log|, id))
  }

  lemma EarlyExtends(r: Relay, p: Messages, r': Relay, p': Messages, n: nat, early: Messages)
    requires n <= |r.log| && Early(r, p, n, early) && Extends(r, p, r', p')
    ensures Early(r', p', n, early)
  {
    BoardAtExtends(r, r', n);
    forall i, id | n <= i < |r'.log| && id in early && Adds(r'.log[i], id)
      ensures r'.log[i] == Update(early[id])
    {
      assert i < |r.log| ==> r'.log[i] == r.log[i];
    }
    forall id | id in early
      ensures id in p' || Mentioned(r'.log, n, id)
    {
      if Mentioned(r.log, n, id) {
        MentionedExtends(r.log, r'.log, n, id);
      }
    }
  }

  lemma MentionedExtends(log: seq<Event>, longer: seq<Event>, n: nat, id: MessageId)
    requires log <= longer && Mentioned(log, n, id)
    ensures Mentioned(longer, n, id)
  {
    var i :| n <= i < |log| && (Adds(log[i], id) || Drops(log[i], id));
    assert longer[i] == log[i];
  }

  lemma ExplainedExtends(r: Relay, p: Messages, r': Relay, p': Messages, n: nat, m: Messages)
    requires Explained(r, p, n, m) && Extends(r, p, r', p')
    ensures Explained(r', p', n, m)
  {
    hide Early, Extends;
    var early :| Early(r, p, n, early) && m == BoardAt(r, n) + early;
    EarlyExtends(r, p, r', p', n, early);
    assert r.log <= r'.log && r'.base == r.base by { LogsExtend(r, p, r', p'); }
    BoardAtExtends(r, r', n);
  }

  lemma LogsExtend(r: Relay, p: Messages, r': Relay, p': Messages)
    requires Extends(r, p, r', p')
    ensures r.log <= r'.log && r'.base == r.base
  {
  }

  /** What is stored is explained by the events and the pending rows. */
  lemma TableExplained(r: Relay, p: Messages)
    requires RelayFits(r, p)
    ensures Explained(r, p, |r.log|, r.table.messages)
  {
    hide Early, Fold, TableOk;
    var early := map id | id in p && id in r.table.messages :: p[id];
    BoardAtEnd(r);
    Rejoined(r.table.messages, p);
    PendingIsEarly(r, p);
  }

  lemma Rejoined(m: Messages, p: Messages)
    requires forall id | id in p && id in m :: m[id] == p[id]
    ensures m == (m - p.Keys) + map id | id in p && id in m :: p[id]
  {
  }

  lemma PendingIsEarly(r: Relay, p: Messages)
    requires RelayFits(r, p)
    ensures Early(r, p, |r.log|, map id | id in p && id in r.table.messages :: p[id])
  {
    hide Fold;
    BoardAtEnd(r);
  }

  /** Without pending rows and with all events applied nothing is early. */
  lemma NothingEarly(r: Relay, m: Messages)
    requires Explained(r, map[], |r.log|, m)
    ensures m == BoardAt(r, |r.log|)
  {
    var early :| Early(r, map[], |r.log|, early) && m == BoardAt(r, |r.log|) + early;
    assert early == map[];
  }

  /** Applying the next event moves an explained board on. */
  lemma ApplyExplained(r: Relay, p: Messages, n: nat, m: Messages)
    requires Explained(r, p, n, m) && n < |r.log|
    ensures Explained(r, p, n + 1, Apply(m, r.log[n]))
  {
    var early :| Early(r, p, n, early) && m == BoardAt(r, n) + early;
    var gone := match r.log[n] case Update(row) => {row.record.id} case Remove(ids) => ids;
    BoardAtNext(r, n);
    LessEarly(r, p, n, early, gone);
    AppliesToBoth(BoardAt(r, n), early, r.log[n], gone);
  }

  lemma AppliesToBoth(b: Messages, early: Messages, e: Event, gone: set<MessageId>)
    requires gone == match e case Update(row) => {row.record.id} case Remove(ids) => ids
    requires forall id | id in early && Adds(e, id) :: e == Update(early[id])
    ensures Apply(b + early, e) == Apply(b, e) + (early - gone)
  {
    if e.Update? && e.row.record.id in early {
      assert Adds(e, e.row.record.id);
    }
  }

  lemma LessEarly(r: Relay, p: Messages, n: nat, early: Messages, gone: set<MessageId>)
    requires n < |r.log| && Early(r, p, n, early)
    requires gone == match r.log[n] case Update(row) => {row.record.id} case Remove(ids) => ids
    ensures Early(r, p, n + 1, early - gone)
  {
    var rest := early - gone;
    BoardAtNext(r, n);
    forall id | id in rest
      ensures id in p || Mentioned(r.log, n + 1, id)
    {
      if id !in p {
        var i :| n <= i < |r.log| && (Adds(r.log[i], id) || Drops(r.log[i], id));
        assert i != n;
      }
    }
  }

  // ------------------------------------------------------ the relay's steps

  lemma OpExtends(r: Relay, p: Messages, op: BoardOp)
    requires RelayFits(r, p)
    ensures Extends(r, p, RelayStep(r, op), p)
  {
    hide Adds, Drops, Mentioned;
    SpentNotAdded(r, op, r.table.seen.Keys);
    forall id | id in r.table.seen
      ensures id in RelayStep(r, op).table.seen
    {
      StepAddsUnspent(r, op, id);
    }
  }

  lemma OpFits(r: Relay, p: Messages, op: BoardOp)
    requires RelayFits(r, p) && CleanOp(r, op)
    ensures RelayFits(RelayStep(r, op), p)
  {
    hide RelayStep, CleanOp, Fold, FreshUpdates;
    var r' := RelayStep(r, op);
    OpUpdatesFresh(r, p, op);
    StepFoldsAllBut(r, op, p.Keys);
    OpExtends(r, p, op);
    forall id | id in p
      ensures TableOk(r'.table) && (id in r'.table.messages ==> r'.table.messages[id] == p[id])
    {
      StepKeepsTable(r, op, p[id]);
    }
    OpKeepsTable(r, op);
  }

  lemma OpUpdatesFresh(r: Relay, p: Messages, op: BoardOp)
    requires RelayFits(r, p)
    ensures FreshUpdates(RelayStep(r, op))
  {
    hide Fold, FreshUpdates;
    var r' := RelayStep(r, op);
    match op
    case Expire(now) => NoNewUpdates(r, r');
    case Post(record, now) =>
      var outcome := PostStep(r.table, record, now).1;
      if outcome.Accepted? {
        AcceptedShape(r.table, record, now);
        SpentIfListed(r.table);
        AcceptedUpdatesFresh(r, r', outcome.removed, outcome.stored);
      } else {
        NoNewUpdates(r, r');
      }
  }

  lemma OpKeepsTable(r: Relay, op: BoardOp)
    requires Keyed(r.table.messages) && TableOk(r.table)
    ensures TableOk(RelayStep(r, op).table)
  {
    match op
    case Expire(now) => Shrinks(RelayStep(r, op).table.messages, r.table.messages);
    case Post(record, now) => PostKeepsTable(r.table, record, now);
  }

  /** A faithful operation that publishes nothing stores nothing and removes nothing. */
  lemma SilentOp(r: Relay, op: BoardOp)
    requires Keyed(r.table.messages) && TableOk(r.table) && CleanOp(r, op)
    requires |RelayStep(r, op).log| == |r.log|
    ensures RelayStep(r, op).table.messages == r.table.messages
  {
    CleanStepPublishes(r, op);
    assert NewEvents(r, [op]) == [];
  }

  lemma BeginExtends(r: Relay, p: Messages, record: Record, now: nat)
    requires RelayFits(r, p) && Suspends(r, record, now)
    ensures Extends(r, p, Begun(r, record, now), p[record.id := Fresh(record, now)])
  {
    hide PostStep, Inserted, Evicted, Fold, FreshUpdates, TableOk;
    AcceptedShape(r.table, record, now);
    BegunSpends(r.table, record, now);
  }

  lemma BegunSpends(t: Table, record: Record, now: nat)
    requires Keyed(t.messages) && PostStep(t, record, now).1.Accepted?
    ensures t.seen.Keys <= PostStep(t, record, now).0.seen.Keys
  {
  }

  lemma BeginFits(r: Relay, p: Messages, record: Record, now: nat)
    requires RelayFits(r, p) && Suspends(r, record, now)
    ensures RelayFits(Begun(r, record, now), p[record.id := Fresh(record, now)])
    ensures |Begun(r, record, now).log| == |r.log| + 1
  {
    hide Fold, TableOk, PostStep, FreshUpdates;
    PostKeepsTable(r.table, record, now);
    NoNewUpdates(r, Begun(r, record, now));
    BegunFolds(r, p, record, now);
    BegunRows(r, p, record, now);
  }

  lemma BegunFolds(r: Relay, p: Messages, record: Record, now: nat)
    requires RelayFits(r, p) && Suspends(r, record, now)
    ensures var r' := Begun(r, record, now);
            Fold(r'.base, r'.log) == r'.table.messages - p[record.id := Fresh(record, now)].Keys
  {
    hide Fold, TableOk, PostStep, Inserted, Evicted;
    var m, row, removed := r.table.messages, Fresh(record, now), PostStep(r.table, record, now).1.removed;
    var expired := ExpiredIds(r.table, now);
    AcceptedShape(r.table, record, now);
    SpentIfListed(r.table);
    FoldAppend(r.base, r.log, RemovalEvents(removed));
    FoldRemovals(m - p.Keys, removed);
    WithoutPending(m, p.Keys, expired, Evicted((m - expired)[record.id := row]), row);
    assert p[record.id := row].Keys == p.Keys + {record.id};
  }

  lemma WithoutPending(m: Messages, ids: set<MessageId>, expired: set<MessageId>, evicted: set<MessageId>, row: Row)
    requires row.record.id !in m
    ensures (m - ids) - (expired + evicted)
            == ((m - expired)[row.record.id := row] - evicted) - (ids + {row.record.id})
  {
  }

  lemma SpentIfListed(t: Table)
    requires TableOk(t)
    ensures t.messages.Keys <= t.seen.Keys
  {
  }

  lemma BegunRows(r: Relay, p: Messages, record: Record, now: nat)
    requires RelayFits(r, p) && Suspends(r, record, now)
    ensures var r', p' := Begun(r, record, now), p[record.id := Fresh(record, now)];
            && p'.Keys <= r'.table.seen.Keys
            && forall id | id in p' && id in r'.table.messages :: r'.table.messages[id] == p'[id]
  {
    AcceptedShape(r.table, record, now);
  }

  lemma EndExtends(r: Relay, p: Messages, id: MessageId)
    requires Keyed(p) && id in p
    ensures Extends(r, p, Published(r, p[id]), p - {id})
  {
    hide BoardAt;
    var r' := Published(r, p[id]);
    OwnEvent(r, p[id]);
    forall i, other | |r.log| <= i < |r'.log| && other in r.table.seen && Adds(r'.log[i], other)
      ensures other in p && r'.log[i] == Update(p[other])
    {
      assert r'.log[i] == Update(p[id]);
    }
  }

  lemma OwnEvent(r: Relay, row: Row)
    ensures Mentioned(Published(r, row).log, |r.log|, row.record.id)
  {
    assert Adds(Published(r, row).log[|r.log|], row.record.id);
  }

  lemma EndFits(r: Relay, p: Messages, id: MessageId)
    requires RelayFits(r, p) && id in p && id in r.table.messages
    ensures RelayFits(Published(r, p[id]), p - {id})
  {
    hide FreshUpdates;
    var m := r.table.messages;
    OneMoreUpdate(r, Published(r, p[id]), p[id]);
    FoldAppend(r.base, r.log, [Update(p[id])]);
    assert Fold(m - p.Keys, [Update(p[id])][..0]) == m - p.Keys;
    assert (m - p.Keys)[id := p[id]] == m - (p - {id}).Keys;
  }

  // ----------------------------------------------------------- the invariant

  ghost predicate SliceOf(m: Messages, offset: nat, next: nat, done: bool, rows: seq<Row>) {
    Keyed(m) && var list := Listing(m);
                offset <= next <= |list| && rows == list[offset..next] && (done <==> next == |list|)
  }

  /** A page is a slice of what was stored at its number; an event is what was
      published under its number. */
  ghost predicate Fits(boards: map<nat, Messages>, log: seq<Event>, f: Frame) {
    match f
    case Page(sequence, restart, offset, next, done, rows) =>
      restart || (sequence in boards && SliceOf(boards[sequence], offset, next, done, rows))
    case Refused => true
    case Subscribed(_, _) => true
    case Pushed(sequence, event) => 1 <= sequence <= |log| && event == log[sequence - 1]
  }

  ghost predicate SyncFits(boards: map<nat, Messages>, sync: Sync, k: Keyring) {
    match sync
    case Idle => true
    case Paging(_, pinned, offset, partial) =>
      if pinned.None? then offset == 0 && partial == map[]
      else
        pinned.value in boards && Keyed(boards[pinned.value])
        && offset <= |Listing(boards[pinned.value])|
        && partial == AddRows(map[], Listing(boards[pinned.value])[..offset], k)
    case Subscribing(_, pinned, partial) => pinned in boards && partial == Readables(boards[pinned], k)
  }

  /** The replica is the readable part of the events up to its number and some rows
      that are ahead of their events. */
  ghost predicate ReplicaFits(r: Relay, pending: Messages, v: Replica, k: Keyring) {
    exists m :: Explained(r, pending, v.sequence, m) && v.records == Readables(m, k)
  }

  ghost predicate HeldFits(boards: map<nat, Messages>, h: Held) {
    h.mark in boards && Keyed(boards[h.mark]) && h.rows == Listing(boards[h.mark]) && h.request.List?
  }

  ghost predicate BoardsFit(x: Posting) {
    && |x.s.relay.log| in x.boards && x.boards[|x.s.relay.log|] == x.s.relay.table.messages
    && forall n | n in x.boards ::
         n <= |x.s.relay.log| && Keyed(x.boards[n]) && Explained(x.s.relay, x.pending, n, x.boards[n])
  }

  ghost predicate ClientFits(x: Posting, k: Keyring) {
    && (forall i | 0 <= i < |x.s.toClient| :: Fits(x.boards, x.s.relay.log, x.s.toClient[i]))
    && (x.s.slot.Some? ==> Fits(x.boards, x.s.relay.log, x.s.slot.value))
    && SyncFits(x.boards, x.s.client.sync, k)
    && (x.s.client.synced ==> ReplicaFits(x.s.relay, x.pending, x.s.client.replica, k))
    && (x.s.held.Some? ==> HeldFits(x.boards, x.s.held.value))
  }

  ghost predicate Inv(x: Posting, k: Keyring) {
    RelayFits(x.s.relay, x.pending) && BoardsFit(x) && ClientFits(x, k)
  }

  // ------------------------------------------------------------ preservation

  /** What was stored at the numbers so far is not forgotten. */
  predicate Remembers(boards: map<nat, Messages>, boards': map<nat, Messages>) {
    forall n | n in boards :: n in boards' && boards'[n] == boards[n]
  }

  lemma FitsLater(boards: map<nat, Messages>, log: seq<Event>, boards': map<nat, Messages>, log': seq<Event>, f: Frame)
    requires Remembers(boards, boards') && log <= log' && Fits(boards, log, f)
    ensures Fits(boards', log', f)
  {
  }

  lemma SyncFitsLater(boards: map<nat, Messages>, boards': map<nat, Messages>, sync: Sync, k: Keyring)
    requires Remembers(boards, boards') && SyncFits(boards, sync, k)
    ensures SyncFits(boards', sync, k)
  {
  }

  lemma PushesFit(boards: map<nat, Messages>, log: seq<Event>, from: nat)
    requires from <= |log|
    ensures forall i | 0 <= i < |Pushes(log, from)| :: Fits(boards, log, Pushes(log, from)[i])
  {
  }

  /** The relay moves on while the client does nothing. */
  lemma GrowKeeps(x: Posting, relay: Relay, pending: Messages, k: Keyring)
    requires Inv(x, k) && RelayFits(relay, pending) && Extends(x.s.relay, x.pending, relay, pending)
    requires |relay.log| == |x.s.relay.log| ==> relay.table.messages == x.s.relay.table.messages
    ensures |x.s.relay.log| <= |relay.log| && Inv(Settle(x, Publish(x.s, relay), pending), k)
  {
    hide RelayFits, Extends, Explained, Fits, SyncFits, HeldFits;
    LogsExtend(x.s.relay, x.pending, relay, pending);
    var x' := Settle(x, Publish(x.s, relay), pending);
    assert Remembers(x.boards, x'.boards);
    GrowBoards(x, relay, pending);
    PushesFit(x'.boards, relay.log, |x.s.relay.log|);
    forall i | 0 <= i < |x'.s.toClient|
      ensures Fits(x'.boards, relay.log, x'.s.toClient[i])
    {
      if i < |x.s.toClient| {
        FitsLater(x.boards, x.s.relay.log, x'.boards, relay.log, x.s.toClient[i]);
      }
    }
    if x.s.slot.Some? {
      FitsLater(x.boards, x.s.relay.log, x'.boards, relay.log, x.s.slot.value);
    }
    SyncFitsLater(x.boards, x'.boards, x.s.client.sync, k);
    if x.s.client.synced {
      ReplicaLater(x.s.relay, x.pending, relay, pending, x.s.client.replica, k);
    }
    if x.s.held.Some? {
      HeldLater(x.boards, x'.boards, x.s.held.value);
    }
  }

  lemma HeldLater(boards: map<nat, Messages>, boards': map<nat, Messages>, h: Held)
    requires Remembers(boards, boards') && HeldFits(boards, h)
    ensures HeldFits(boards', h)
  {
  }

  lemma ReplicaLater(r: Relay, p: Messages, r': Relay, p': Messages, v: Replica, k: Keyring)
    requires ReplicaFits(r, p, v, k) && Extends(r, p, r', p')
    ensures ReplicaFits(r', p', v, k)
  {
    hide Explained, Extends, Readables;
    var m :| Explained(r, p, v.sequence, m) && v.records == Readables(m, k);
    ExplainedExtends(r, p, r', p', v.sequence, m);
  }

  lemma GrowBoards(x: Posting, relay: Relay, pending: Messages)
    requires BoardsFit(x) && RelayFits(relay, pending) && Extends(x.s.relay, x.pending, relay, pending)
    requires |x.s.relay.log| <= |relay.log|
    ensures BoardsFit(Settle(x, Publish(x.s, relay), pending))
  {
    hide Extends, Explained;
    TableExplained(relay, pending);
    forall n | n in x.boards
      ensures Explained(relay, pending, n, x.boards[n])
    {
      ExplainedExtends(x.s.relay, x.pending, relay, pending, n, x.boards[n]);
    }
  }

  lemma OperateGrows(x: Posting, op: BoardOp, k: Keyring)
    requires Inv(x, k) && CleanOp(x.s.relay, op)
    ensures Inv(Settle(x, Operate(x.s, op), x.pending), k)
    ensures Operate(x.s, op) == Publish(x.s, RelayStep(x.s.relay, op))
  {
    hide RelayStep, CleanOp, BoardsFit, ClientFits;
    OpFits(x.s.relay, x.pending, op);
    OpExtends(x.s.relay, x.pending, op);
    if |RelayStep(x.s.relay, op).log| == |x.s.relay.log| {
      SilentOp(x.s.relay, op);
    }
    GrowKeeps(x, RelayStep(x.s.relay, op), x.pending, k);
  }

  /** The client's side moves while the relay stands still. */
  lemma SameRelay(x: Posting, s: System, k: Keyring)
    requires Inv(x, k) && s.relay == x.s.relay && ClientFits(x.(s := s), k)
    ensures Inv(Settle(x, s, x.pending), k)
  {
    hide ClientFits, RelayFits, Explained;
    assert Settle(x, s, x.pending) == x.(s := s);
  }

  lemma PageFits(m: Messages, n: nat, boards: map<nat, Messages>, log: seq<Event>, request: Request, next: nat)
    requires n in boards && boards[n] == m && Keyed(m) && request.List?
    ensures Fits(boards, log, PageReply(Listing(m), n, request, next))
  {
  }

  lemma StandsStill(x: Posting)
    requires BoardsFit(x)
    ensures Settle(x, x.s, x.pending) == x
  {
    hide Explained;
  }

  lemma ServeListKeeps(x: Posting, now: nat, next: nat, k: Keyring)
    requires Inv(x, k)
    ensures Inv(Step(x, Plain(ServeList(now, next)), k), k)
  {
    hide Operate, Inv, Swept, ListReply;
    var s := x.s;
    assert BoardsFit(x) by { InvParts(x, k); }
    StandsStill(x);
    if Serving(s) && s.requests[0].List? {
      var swept := if s.requests[0].offset > CAPACITY then s else Operate(s, Expire(now));
      InvParts(x, k);
      OperateGrows(x, Expire(now), k);
      AnswerKeeps(x, swept, next, k);
    }
  }

  lemma InvParts(x: Posting, k: Keyring)
    requires Inv(x, k)
    ensures RelayFits(x.s.relay, x.pending) && BoardsFit(x) && ClientFits(x, k)
  {
  }

  /** The reply to the request at the head, read off what is stored now. */
  lemma AnswerKeeps(x: Posting, s: System, next: nat, k: Keyring)
    requires Inv(Settle(x, s, x.pending), k) && s.requests != [] && s.requests[0].List?
    ensures Inv(Settle(x, s.(requests := s.requests[1..],
                             toClient := s.toClient + [ListReply(s.relay, s.requests[0], next)]), x.pending), k)
  {
    hide ClientFits, BoardsFit, ListReply;
    var y := Settle(x, s, x.pending);
    var s' := s.(requests := s.requests[1..], toClient := s.toClient + [ListReply(s.relay, s.requests[0], next)]);
    ReplyFits(y, s.requests[0], next);
    Enqueued(y, s', ListReply(s.relay, s.requests[0], next), k);
    SameRelay(y, s', k);
    assert Settle(y, s', x.pending) == Settle(x, s', x.pending);
  }

  lemma Enqueued(x: Posting, s: System, f: Frame, k: Keyring)
    requires ClientFits(x, k) && Fits(x.boards, x.s.relay.log, f)
    requires s == x.s.(requests := s.requests, subscribed := s.subscribed, lastRead := s.lastRead,
                       toClient := x.s.toClient + [f])
    ensures ClientFits(x.(s := s), k)
  {
    hide Fits, SyncFits, ReplicaFits, HeldFits;
  }

  lemma ReplyFits(y: Posting, request: Request, next: nat)
    requires Keyed(y.s.relay.table.messages) && BoardsFit(y) && request.List?
    ensures Fits(y.boards, y.s.relay.log, ListReply(y.s.relay, request, next))
  {
    hide PageReply, Explained;
    PageFits(y.s.relay.table.messages, |y.s.relay.log|, y.boards, y.s.relay.log, request, next);
  }

  lemma BeginListKeeps(x: Posting, now: nat, k: Keyring)
    requires Inv(x, k)
    ensures Inv(Step(x, Plain(BeginList(now)), k), k)
  {
    hide Operate, Fits, SyncFits, ReplicaFits, RelayFits, Explained;
    var s := x.s;
    SameRelay(x, s, k);
    OperateGrows(x, Expire(now), k);
    if Next(s, BeginList(now), k) != s {
      var swept := Operate(s, Expire(now));
      var y := Settle(x, swept, x.pending);
      var s' := Next(s, BeginList(now), k);
      SameRelay(y, s', k);
      assert Settle(y, s', x.pending) == Settle(x, s', x.pending);
    }
  }

  lemma EndListKeeps(x: Posting, next: nat, k: Keyring)
    requires Inv(x, k) && CleanMove(x, Plain(EndList(next)))
    ensures Inv(Step(x, Plain(EndList(next)), k), k)
  {
    hide Fits, SyncFits, ReplicaFits, RelayFits, Explained, PageReply;
    var s := x.s;
    if s.held.Some? && s.held.value.request.List? {
      PageFits(s.relay.table.messages, |s.relay.log|, x.boards, s.relay.log, s.held.value.request, next);
    }
    SameRelay(x, Next(s, EndList(next), k), k);
  }

  lemma ReadKeeps(x: Posting, k: Keyring)
    requires Inv(x, k)
    ensures Inv(Step(x, Plain(Read), k), k)
  {
    hide Fits, SyncFits, ReplicaFits, RelayFits, Explained, OnEvent, HeldFits;
    var s := x.s;
    if s.toClient != [] {
      var f, rest := s.toClient[0], s.toClient[1..];
      assert Fits(x.boards, s.relay.log, f);
      forall i | 0 <= i < |rest|
        ensures Fits(x.boards, s.relay.log, rest[i])
      {
        assert rest[i] == s.toClient[i + 1];
      }
      if f.Pushed? && s.client.synced {
        UpdatesAreFresh(s.relay, x.pending);
        EventFits(s.relay, x.pending, x.boards, s.client.replica, f, k);
      }
    }
    SameRelay(x, Next(s, Read, k), k);
  }

  lemma UpdatesAreFresh(r: Relay, p: Messages)
    requires RelayFits(r, p)
    ensures FreshUpdates(r)
  {
  }

  /** Applying the next event keeps the replica explained. */
  lemma EventFits(r: Relay, p: Messages, boards: map<nat, Messages>, v: Replica, f: Frame, k: Keyring)
    requires ReplicaFits(r, p, v, k) && f.Pushed? && Fits(boards, r.log, f) && FreshUpdates(r)
    ensures ReplicaFits(r, p, OnEvent(v, f.sequence, f.event, k).0, k)
  {
    hide Explained, Readables, FreshUpdates;
    if f.sequence == v.sequence + 1 {
      ExplainedInTime(r, p, v, k);
      var m :| Explained(r, p, v.sequence, m) && v.records == Readables(m, k);
      ApplyExplained(r, p, v.sequence, m);
      SameRowAgain(r, p, v.sequence, m);
      ReadsOn(m, v.sequence, f.event, k);
    }
  }

  lemma ExplainedInTime(r: Relay, p: Messages, v: Replica, k: Keyring)
    requires ReplicaFits(r, p, v, k)
    ensures v.sequence <= |r.log|
  {
  }

  /** An update of a row that is there already brings the same row. */
  lemma SameRowAgain(r: Relay, p: Messages, n: nat, m: Messages)
    requires Explained(r, p, n, m) && n < |r.log| && FreshUpdates(r)
    ensures var e := r.log[n]; e.Update? && e.row.record.id in m ==> m[e.row.record.id] == e.row
  {
    var early :| Early(r, p, n, early) && m == BoardAt(r, n) + early;
    var e := r.log[n];
    if e.Update? && e.row.record.id in early {
      assert Adds(r.log[n], e.row.record.id);
    }
  }

  lemma ReadsOn(m: Messages, at: nat, e: Event, k: Keyring)
    requires e.Update? && e.row.record.id in m ==> k(m[e.row.record.id].record) ==> k(e.row.record)
    ensures OnEvent(Replica(Readables(m, k), at), at + 1, e, k).0 == Replica(Readables(Apply(m, e), k), at + 1)
  {
  }

  /** A resumption keeps the local variables honest and adopts only what was stored at
      the number it pinned. */
  lemma TurnFits(boards: map<nat, Messages>, log: seq<Event>, sync: Sync, f: Frame, k: Keyring)
    requires SyncFits(boards, sync, k) && Fits(boards, log, f)
    ensures var turn := OnReply(sync, f, k);
            && SyncFits(boards, turn.sync, k)
            && (turn.adopt.Some? ==>
                  turn.adopt.value.sequence in boards
                  && turn.adopt.value.records == Readables(boards[turn.adopt.value.sequence], k))
  {
    if sync.Paging? && f.Page? && !f.restart && (sync.snapshot.None? || f.sequence == sync.snapshot.value)
       && f.offset == sync.offset {
      NextPageFits(boards, log, sync.snapshot, sync.offset, sync.partial, f, k);
    }
  }

  lemma NextPageFits(boards: map<nat, Messages>, log: seq<Event>, pinned: Option<nat>, offset: nat, partial: Messages,
                     f: Frame, k: Keyring)
    requires f.Page? && !f.restart && Fits(boards, log, f) && f.offset == offset
    requires SyncFits(boards, Paging(0, pinned, offset, partial), k)
    requires pinned.None? || f.sequence == pinned.value
    ensures AddRows(partial, f.rows, k) == AddRows(map[], Listing(boards[f.sequence])[..f.next], k)
    ensures f.done ==> AddRows(partial, f.rows, k) == Readables(boards[f.sequence], k)
  {
    var list := Listing(boards[f.sequence]);
    assert partial == AddRows(map[], list[..offset], k);
    AddRowsAppend(map[], list[..offset], f.rows, k);
    assert list[..offset] + list[offset..f.next] == list[..f.next];
    if f.done {
      assert list[..f.next] == list;
      AddRowsListing(boards[f.sequence], k);
    }
  }

  lemma ResumeKeeps(x: Posting, k: Keyring)
    requires Inv(x, k)
    ensures Inv(Step(x, Plain(Resume), k), k)
  {
    hide Fits, SyncFits, RelayFits, Explained, OnReply, HeldFits;
    var s := x.s;
    if s.slot.Some? && !s.client.sync.Idle? {
      var turn := OnReply(s.client.sync, s.slot.value, k);
      TurnFits(x.boards, s.relay.log, s.client.sync, s.slot.value, k);
      if turn.adopt.Some? {
        assert ReplicaFits(s.relay, x.pending, turn.adopt.value, k);
      }
    }
    SameRelay(x, Next(s, Resume, k), k);
  }

  lemma SubscribeKeeps(x: Posting, k: Keyring)
    requires Inv(x, k)
    ensures Inv(Step(x, Plain(ServeSubscribe), k), k)
  {
    hide Fits, SyncFits, RelayFits, Explained, HeldFits, ReplicaFits;
    var s := x.s;
    if Serving(s) && s.requests[0].Subscribe? {
      var f := Subscribed(s.requests[0].after == |s.relay.log|, |s.relay.log|);
      assert Fits(x.boards, s.relay.log, f) by { ReplyIsNoClaim(x.boards, s.relay.log, f); }
      Enqueued(x, Next(s, ServeSubscribe, k), f, k);
    }
    SameRelay(x, Next(s, ServeSubscribe, k), k);
  }

  lemma ReplyIsNoClaim(boards: map<nat, Messages>, log: seq<Event>, f: Frame)
    requires f.Subscribed?
    ensures Fits(boards, log, f)
  {
  }

  lemma StartKeeps(x: Posting, a: Action, k: Keyring)
    requires Inv(x, k) && (a.Start? || a.Reconnect?)
    ensures Inv(Step(x, Plain(a), k), k)
  {
    hide Fits, RelayFits, Explained, HeldFits, ReplicaFits;
    SameRelay(x, Next(x.s, a, k), k);
  }

  lemma PlainKeeps(x: Posting, a: Action, k: Keyring)
    requires Inv(x, k) && CleanMove(x, Plain(a))
    ensures Inv(Step(x, Plain(a), k), k)
  {
    hide Inv;
    match a
    case Activity(op) => OperateGrows(x, op, k);
    case ServeList(now, next) => ServeListKeeps(x, now, next, k);
    case BeginList(now) => BeginListKeeps(x, now, k);
    case EndList(next) => EndListKeeps(x, next, k);
    case ServeSubscribe => SubscribeKeeps(x, k);
    case Read => ReadKeeps(x, k);
    case Resume => ResumeKeeps(x, k);
    case Start(_) => StartKeeps(x, a, k);
    case Reconnect => StartKeeps(x, a, k);
    case Rotate(_) =>
  }

  lemma StepKeeps(x: Posting, m: Move, k: Keyring)
    requires Inv(x, k) && CleanMove(x, m)
    ensures Inv(Step(x, m, k), k)
  {
    hide BoardsFit, ClientFits, Extends, Begun, Publish, Fold, FreshUpdates;
    match m
    case Plain(a) => PlainKeeps(x, a, k);
    case BeginPost(record, now) =>
      if Suspends(x.s.relay, record, now) {
        BeginExtends(x.s.relay, x.pending, record, now);
        BeginFits(x.s.relay, x.pending, record, now);
        GrowKeeps(x, Begun(x.s.relay, record, now), x.pending[record.id := Fresh(record, now)], k);
      }
    case EndPost(id) =>
      if id in x.pending {
        assert Keyed(x.pending) by { PendingKeyed(x, k); }
        EndExtends(x.s.relay, x.pending, id);
        EndFits(x.s.relay, x.pending, id);
        GrowKeeps(x, Published(x.s.relay, x.pending[id]), x.pending - {id}, k);
      }
  }

  lemma PendingKeyed(x: Posting, k: Keyring)
    requires Inv(x, k)
    ensures Keyed(x.pending)
  {
  }

  lemma StartsOk(x: Posting, k: Keyring)
    requires Starts(x)
    ensures Inv(x, k)
  {
    hide Explained, Fold;
    var m := x.s.relay.table.messages;
    assert m - {} == m;
    TableExplained(x.s.relay, x.pending);
  }

  lemma {:induction false} RunKeeps(x: Posting, moves: seq<Move>, k: Keyring)
    requires Starts(x) && CleanMoves(x, moves, k)
    ensures Inv(Run(x, moves, k), k)
  {
    hide Inv, Step, CleanMove;
    if moves == [] {
      StartsOk(x, k);
    } else {
      RunKeeps(x, moves[..|moves| - 1], k);
      StepKeeps(Run(x, moves[..|moves| - 1], k), moves[|moves| - 1], k);
    }
  }

  // ---------------------------------------------------------------- theorems

  /** A record ahead of its event: its post is still suspended, or an event that adds
      just this row or drops it comes after the replica's number. */
  ghost predicate Ahead(x: Posting, v: Replica, id: MessageId)
    requires id in v.records
  {
    || (id in x.pending && x.pending[id] == v.records[id])
    || exists i :: v.sequence <= i < |x.s.relay.log|
                   && (x.s.relay.log[i] == Update(v.records[id]) || Drops(x.s.relay.log[i], id))
  }

  /** Replica consistency with suspended posts: in every clean run a synchronised
      client holds every readable row of the events up to its own number, and each
      further record it holds is ahead of its own event. */
  lemma PostingConsistency(x: Posting, moves: seq<Move>, k: Keyring)
    requires Starts(x) && CleanMoves(x, moves, k)
    ensures var x' := Run(x, moves, k);
            var v := x'.s.client.replica;
            x'.s.client.synced ==>
              && v.sequence <= |x'.s.relay.log|
              && (var b := Readables(BoardAt(x'.s.relay, v.sequence), k);
                  forall id | id in b :: id in v.records && v.records[id] == b[id])
              && (forall id | id in v.records && id !in BoardAt(x'.s.relay, v.sequence) :: Ahead(x', v, id))
  {
    hide Run, CleanMoves, Inv;
    RunKeeps(x, moves, k);
    var x' := Run(x, moves, k);
    if x'.s.client.synced {
      InvParts(x', k);
      ReplicaMeans(x', k);
    }
  }

  lemma ReplicaMeans(x: Posting, k: Keyring)
    requires ReplicaFits(x.s.relay, x.pending, x.s.client.replica, k)
    ensures var v := x.s.client.replica;
            && v.sequence <= |x.s.relay.log|
            && (var b := Readables(BoardAt(x.s.relay, v.sequence), k);
                forall id | id in b :: id in v.records && v.records[id] == b[id])
            && (forall id | id in v.records && id !in BoardAt(x.s.relay, v.sequence) :: Ahead(x, v, id))
  {
    hide Early, BoardAt, Ahead;
    var r, v := x.s.relay, x.s.client.replica;
    var m :| Explained(r, x.pending, v.sequence, m) && v.records == Readables(m, k);
    var early :| Early(r, x.pending, v.sequence, early) && m == BoardAt(r, v.sequence) + early;
    NotYetThere(r, x.pending, v.sequence, early);
    forall id | id in v.records && id !in BoardAt(r, v.sequence)
      ensures Ahead(x, v, id)
    {
      EarlyIsAhead(x, v, early, id);
    }
  }

  lemma NotYetThere(r: Relay, p: Messages, n: nat, early: Messages)
    requires n <= |r.log| && Early(r, p, n, early)
    ensures forall id | id in early :: id !in BoardAt(r, n)
  {
  }

  lemma EarlyIsAhead(x: Posting, v: Replica, early: Messages, id: MessageId)
    requires v.sequence <= |x.s.relay.log| && Early(x.s.relay, x.pending, v.sequence, early)
    requires id in early && id in v.records && v.records[id] == early[id]
    ensures Ahead(x, v, id)
  {
    var log := x.s.relay.log;
    if id !in x.pending {
      var i :| v.sequence <= i < |log| && (Adds(log[i], id) || Drops(log[i], id));
      assert log[i] == Update(v.records[id]) || Drops(log[i], id);
    }
  }

  /** While a post is suspended a list shows its row, unless it evicted itself, and no
      event up to then does. */
  lemma ListedBeforeItsEvent(x: Posting, record: Record, now: nat, k: Keyring)
    requires Inv(x, k) && Suspends(x.s.relay, record, now)
    ensures var x' := Step(x, BeginPost(record, now), k);
            && (record.id in x'.s.relay.table.messages <==> !EvictsItself(x.s.relay.table, record, now))
            && record.id !in BoardAt(x'.s.relay, |x'.s.relay.log|)
  {
    hide BoardsFit, ClientFits, Fold, FreshUpdates, PostStep;
    var r := x.s.relay;
    BeginFits(r, x.pending, record, now);
    BoardAtEnd(Begun(r, record, now));
    AdmittedIsAccepted(r.table, record, now);
    AcceptedShape(r.table, record, now);
    SelfEvictionIsOldest(Cleaned(r.table, now).messages, Fresh(record, now));
    EvictedOrListed(Cleaned(r.table, now).messages, Fresh(record, now));
  }

  lemma EvictedOrListed(m: Messages, row: Row)
    requires Keyed(m) && row.record.id !in m
    ensures var grown := m[row.record.id := row];
            row.record.id in grown - Evicted(grown) <==> Evicted(grown) != {row.record.id}
  {
  }

  /** Once no post is suspended and the client has applied every event, the replica is
      the readable part of the board again. */
  lemma PostingSettles(x: Posting, moves: seq<Move>, k: Keyring)
    requires Starts(x) && CleanMoves(x, moves, k)
    requires var x' := Run(x, moves, k);
             x'.s.client.synced && x'.pending == map[] && x'.s.client.replica.sequence == |x'.s.relay.log|
    ensures var x' := Run(x, moves, k);
            && Consistent(x'.s.relay, x'.s.client.replica, k)
            && x'.s.client.replica.records == Readables(x'.s.relay.table.messages, k)
  {
    hide Run, CleanMoves, Inv;
    RunKeeps(x, moves, k);
    var x' := Run(x, moves, k);
    InvParts(x', k);
    SettledReplica(x', k);
  }

  lemma SettledReplica(x: Posting, k: Keyring)
    requires RelayFits(x.s.relay, map[]) && ReplicaFits(x.s.relay, map[], x.s.client.replica, k)
    requires x.s.client.replica.sequence == |x.s.relay.log|
    ensures Consistent(x.s.relay, x.s.client.replica, k)
    ensures x.s.client.replica.records == Readables(x.s.relay.table.messages, k)
  {
    hide Explained, Fold;
    var r := x.s.relay;
    var m :| Explained(r, map[], |r.log|, m) && x.s.client.replica.records == Readables(m, k);
    NothingEarly(r, m);
    BoardAtEnd(r);
    assert r.table.messages - {} == r.table.messages;
  }

  lemma OnePush(log: seq<Event>, e: Event)
    ensures Pushes(log + [e], |log|) == [Pushed(|log| + 1, e)]
  {
  }

  lemma AcceptedStores(t: Table, record: Record, now: nat)
    requires Keyed(t.messages)
    ensures var outcome := PostStep(t, record, now).1;
            outcome.Accepted? ==> outcome.stored == Fresh(record, now)
  {
  }

  /** A post is suspended exactly when it is accepted and removes rows: the removals are
      published at once, and its own event, alone, when it resumes. A subscribed client
      is sent exactly what is published. */
  lemma SuspensionExactly(x: Posting, record: Record, now: nat, k: Keyring)
    requires Keyed(x.s.relay.table.messages)
    ensures var (t, outcome) := PostStep(x.s.relay.table, record, now);
            var x' := Step(x, BeginPost(record, now), k);
            if !outcome.Accepted? || outcome.removed == {} then x' == x
            else
              && x'.s.relay == Relay(t, x.s.relay.base, x.s.relay.log + [Remove(outcome.removed)])
              && x'.pending == x.pending[record.id := outcome.stored]
              && x'.s.toClient == x.s.toClient + (if x.s.subscribed
                                                  then [Pushed(|x.s.relay.log| + 1, Remove(outcome.removed))] else [])
    ensures var x' := Step(x, EndPost(record.id), k);
            if record.id !in x.pending then x' == x
            else
              var e := Update(x.pending[record.id]);
              && x'.s.relay == x.s.relay.(log := x.s.relay.log + [e])
              && x'.pending == x.pending - {record.id}
              && x'.s.toClient == x.s.toClient + (if x.s.subscribed then [Pushed(|x.s.relay.log| + 1, e)] else [])
  {
    hide PostStep, Keyed, Next;
    AcceptedStores(x.s.relay.table, record, now);
    var outcome := PostStep(x.s.relay.table, record, now).1;
    if outcome.Accepted? {
      OnePush(x.s.relay.log, Remove(outcome.removed));
    }
    if record.id in x.pending {
      OnePush(x.s.relay.log, Update(x.pending[record.id]));
    }
  }
}
