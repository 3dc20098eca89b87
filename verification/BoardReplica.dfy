/** A client's replica of the board, over every interleaving of relay activity,
    requests, replies, published events and the client's own resumptions. Relay
    handlers are atomic steps, except that a list request may be suspended between
    reading the rows and labelling the reply; both directions are queues. A run may
    span several connections of the client, and access rotations between them. */
module BoardReplica {
  import opened Board
  import opened BoardEvents
  import opened BoardPublication
  import opened Options

  const MAX_ATTEMPTS: nat := 5

  datatype Request = List(offset: nat, snapshot: Option<nat>) | Subscribe(after: nat)

  datatype Frame =
    | Page(sequence: nat, restart: bool, offset: nat, next: nat, done: bool, rows: seq<Row>)
    | Refused
    | Subscribed(ok: bool, sequence: nat)
    | Pushed(sequence: nat, event: Event)

  /** Which records this client's key opens. */
  type Keyring = Record -> bool

  datatype Replica = Replica(records: Messages, sequence: nat)

  /** Where `synchronise_board` is suspended, with its local variables. */
  datatype Sync =
    | Idle
    | Paging(attempt: nat, snapshot: Option<nat>, offset: nat, partial: Messages)
    | Subscribing(attempt: nat, pinned: nat, partial: Messages)

  /** `resync` is an unfinished resync task; `byResync` says the running
      synchronisation is that task. */
  datatype Client = Client(replica: Replica, synced: bool, sync: Sync, byResync: bool, resync: bool)

  /** A suspended list request: the rows it read, and the sequence number then. */
  datatype Held = Held(request: Request, rows: seq<Row>, mark: nat)

  datatype System = System(
    relay: Relay,
    subscribed: bool,
    requests: seq<Request>,
    toClient: seq<Frame>,
    slot: Option<Frame>,     // a reply the reader has matched, not yet resumed on
    client: Client,
    lastRead: nat,           // the last event number read off the connection
    held: Option<Held>)      // the list request the relay is suspended in

  datatype Action =
    | Activity(op: BoardOp)                // any other post, listing or expiry pass
    | ServeList(now: nat, next: nat)       // `next`: how far the page packing got
    | BeginList(now: nat)                  // rows read, suspended while publishing what expired
    | EndList(next: nat)
    | ServeSubscribe
    | Read
    | Resume
    | Start(byResync: bool)
    | Reconnect                            // the connection ends, a new client connects
    | Rotate(generation: Generation)       // access rotation, which ends every connection

  // ---------------------------------------------------------------- the rows

  function Readables(m: Messages, k: Keyring): Messages {
    map id | id in m && k(m[id].record) :: m[id]
  }

  /** The decoding loop over one page. */
  function AddRows(m: Messages, rows: seq<Row>, k: Keyring): Messages {
    if rows == [] then m
    else
      var front := AddRows(m, rows[..|rows| - 1], k);
      var row := rows[|rows| - 1];
      if k(row.record) then front[row.record.id := row] else front
  }

  lemma {:induction false} AddRowsAppend(m: Messages, a: seq<Row>, b: seq<Row>, k: Keyring)
    ensures AddRows(AddRows(m, a, k), b, k) == AddRows(m, a + b, k)
  {
    if b == [] {
      assert a + b == a;
    } else {
      AddRowsAppend(m, a, b[..|b| - 1], k);
      assert (a + b)[..|a + b| - 1] == a + b[..|b| - 1];
    }
  }

  lemma {:induction false} AddRowsGet(rows: seq<Row>, k: Keyring, id: MessageId)
    requires StrictlySorted(rows)
    requires forall i, j | 0 <= i < j < |rows| :: rows[i].record.id != rows[j].record.id
    ensures id in AddRows(map[], rows, k)
            <==> exists i :: 0 <= i < |rows| && rows[i].record.id == id && k(rows[i].record)
    ensures forall i | 0 <= i < |rows| && rows[i].record.id == id && k(rows[i].record) ::
              AddRows(map[], rows, k)[id] == rows[i]
  {
    if rows != [] {
      var n := |rows| - 1;
      AddRowsGet(rows[..n], k, id);
      assert forall i | 0 <= i < n :: rows[..n][i] == rows[i];
      if k(rows[n].record) && rows[n].record.id == id {
        assert 0 <= n < |rows|;
      } else if id in AddRows(map[], rows, k) {
        assert id in AddRows(map[], rows[..n], k);
        var i :| 0 <= i < n && rows[..n][i].record.id == id && k(rows[..n][i].record);
        assert rows[i].record.id == id;
      }
    }
  }

  /** Decoding the whole canonical list gives the readable board. */
  lemma AddRowsListing(m: Messages, k: Keyring)
    requires Keyed(m)
    ensures AddRows(map[], Listing(m), k) == Readables(m, k)
  {
    var rows := Listing(m);
    ListingIsSorted(m);
    forall i, j | 0 <= i < j < |rows|
      ensures rows[i].record.id != rows[j].record.id
    {
      ListedAtMostOnce(m, i, j);
    }
    forall id
      ensures id in AddRows(map[], rows, k) <==> id in m && k(m[id].record)
      ensures id in m && k(m[id].record) ==> AddRows(map[], rows, k)[id] == m[id]
    {
      AddRowsGet(rows, k, id);
      if id in m {
        assert Holds(m, m[id]);
        var i :| 0 <= i < |rows| && rows[i] == m[id];
      }
      if i :| 0 <= i < |rows| && rows[i].record.id == id {
        assert rows[i] in rows;
      }
    }
  }

  lemma ListedAtMostOnce(m: Messages, i: nat, j: nat)
    requires Keyed(m) && i < j < |Listing(m)|
    ensures Listing(m)[i].record.id != Listing(m)[j].record.id
  {
    ListingIsSorted(m);
    var rows := Listing(m);
    assert Older(rows[i], rows[j]) && rows[i] in rows && rows[j] in rows;
  }

  // ------------------------------------------------------------- relay steps

  function Pushes(log: seq<Event>, from: nat): (frames: seq<Frame>)
    requires from <= |log|
  {
    seq(|log| - from, i requires 0 <= i < |log| - from => Pushed(from + i + 1, log[from + i]))
  }

  /** A board operation, with its events queued if this client is subscribed. */
  ghost function Operate(s: System, op: BoardOp): (s': System)
    requires Keyed(s.relay.table.messages)
    ensures Keyed(s'.relay.table.messages)
  {
    var relay := RelayStep(s.relay, op);
    s.(relay := relay,
       toClient := s.toClient + if s.subscribed then Pushes(relay.log, |s.relay.log|) else [])
  }

  /** The reply to a list request that read `list` and names `sequence`; `next` ends
      the page and lies beyond `offset` unless nothing is left. */
  function PageReply(list: seq<Row>, sequence: nat, request: Request, next: nat): Frame
    requires request.List?
  {
    if request.snapshot.Some? && request.snapshot.value != sequence then Page(sequence, true, 0, 0, false, [])
    else if request.offset > |list| || next > |list| || next < request.offset
            || (next == request.offset && next < |list|) then Refused
    else Page(sequence, false, request.offset, next, next >= |list|, list[request.offset..next])
  }

  /** The relay when it answers a list request: an offset no board can have is
      refused before anything else, otherwise the board is cleaned up first. */
  ghost function Swept(r: Relay, request: Request, now: nat): (r': Relay)
    requires Keyed(r.table.messages) && request.List?
    ensures Keyed(r'.table.messages)
  {
    if request.offset > CAPACITY then r else RelayStep(r, Expire(now))
  }

  ghost function ListReply(r: Relay, request: Request, next: nat): Frame
    requires Keyed(r.table.messages) && request.List?
  {
    if request.offset > CAPACITY then Refused else PageReply(Listing(r.table.messages), |r.log|, request, next)
  }

  /** What a list request is answered, by the request and the state it meets: a restart
      exactly when it pins another sequence number, a refusal exactly when it lies past
      the end or no record fits, and otherwise the page. */
  lemma PageReplyExactly(list: seq<Row>, sequence: nat, offset: nat, snapshot: Option<nat>, next: nat)
    requires next <= |list| && (offset <= |list| ==> offset <= next)
    ensures var f := PageReply(list, sequence, List(offset, snapshot), next);
            && (f == Page(sequence, true, 0, 0, false, []) <==> snapshot.Some? && snapshot.value != sequence)
            && (f.Refused? <==> snapshot in {None, Some(sequence)} && (offset > |list| || (next == offset < |list|)))
            && (f.Page? && !f.restart ==>
                  && f.sequence == sequence && f.offset == offset && f.next == next
                  && f.rows == list[offset..next] && (f.done <==> next == |list|))
  {
  }

  // ------------------------------------------------------------ client steps

  /** `_handle_board_update` and `_handle_board_remove`: the new replica, and
      whether a gap asks for a resync instead. */
  function OnEvent(v: Replica, sequence: nat, e: Event, k: Keyring): (Replica, bool) {
    if sequence != v.sequence + 1 then (v, true)
    else
      match e
      case Update(row) =>
        (Replica(if k(row.record) then v.records[row.record.id := row] else v.records, sequence), false)
      case Remove(ids) => (Replica(v.records - ids, sequence), false)
  }

  datatype Turn = Turn(sync: Sync, send: Option<Request>, adopt: Option<Replica>)

  function Restart(attempt: nat): Turn {
    if attempt + 1 < MAX_ATTEMPTS
    then Turn(Paging(attempt + 1, None, 0, map[]), Some(List(0, None)), None)
    else Turn(Idle, None, None)
  }

  const ABORT: Turn := Turn(Idle, None, None)

  /** One resumption of `synchronise_board` on a reply. */
  function OnReply(sync: Sync, f: Frame, k: Keyring): Turn {
    match sync
    case Idle => ABORT
    case Paging(attempt, pinned, offset, partial) =>
      if !f.Page? then ABORT
      else if pinned.Some? && f.sequence != pinned.value then Restart(attempt)
      else if f.restart then Restart(attempt)
      else if f.offset != offset || f.next < offset || f.next > CAPACITY || f.next - offset != |f.rows| then ABORT
      else
        var rows := AddRows(partial, f.rows, k);
        if f.done then Turn(Subscribing(attempt, f.sequence, rows), Some(Subscribe(f.sequence)), None)
        else if f.rows == [] then ABORT
        else Turn(Paging(attempt, Some(f.sequence), f.next, rows), Some(List(f.next, Some(f.sequence))), None)
    case Subscribing(attempt, pinned, partial) =>
      if !f.Subscribed? then ABORT
      else if f.ok && f.sequence == pinned then Turn(Idle, None, Some(Replica(partial, pinned)))
      else Restart(attempt)
  }

  function Queue(requests: seq<Request>, more: Option<Request>): seq<Request> {
    if more.Some? then requests + [more.value] else requests
  }

  function Resumed(c: Client, turn: Turn): Client {
    Client(if turn.adopt.Some? then turn.adopt.value else c.replica,
           c.synced || turn.adopt.Some?,
           turn.sync,
           c.byResync && !turn.sync.Idle?,
           c.resync && !(c.byResync && turn.sync.Idle?))
  }

  const NEW_CLIENT := Client(Replica(map[], 0), false, Idle, false, false)

  /** A new connection of a new client object; what was under way is gone. */
  function Connected(relay: Relay): System {
    System(relay, false, [], [], None, NEW_CLIENT, 0, None)
  }

  /** `rotate_access`: the store is bound to the new generation and the sequence moves
      on by one. Nobody is connected to be sent the event that stands for it. */
  ghost function Rotated(r: Relay, generation: Generation): (r': Relay)
    requires Keyed(r.table.messages)
    ensures Keyed(r'.table.messages)
  {
    var t := Bound(r.table, generation);
    r.(table := t, log := r.log + [Remove(r.table.messages.Keys - t.messages.Keys)])
  }

  /** Requests of one connection are served one at a time. */
  predicate Serving(s: System) {
    s.requests != [] && s.held.None?
  }

  /** One step of the system; a step that is not enabled changes nothing. */
  ghost function Next(s: System, a: Action, k: Keyring): (s': System)
    requires Keyed(s.relay.table.messages)
    ensures Keyed(s'.relay.table.messages)
  {
    match a
    case Activity(op) => Operate(s, op)
    case ServeList(now, next) =>
      if !Serving(s) || !s.requests[0].List? then s
      else
        var swept := if s.requests[0].offset > CAPACITY then s else Operate(s, Expire(now));
        swept.(requests := s.requests[1..],
               toClient := swept.toClient + [ListReply(swept.relay, s.requests[0], next)])
    case BeginList(now) =>
      if !Serving(s) || !s.requests[0].List? || s.requests[0].offset > CAPACITY
         || ExpiredIds(s.relay.table, now) == {} then s
      else
        var swept := Operate(s, Expire(now));
        swept.(requests := s.requests[1..],
               held := Some(Held(s.requests[0], Listing(swept.relay.table.messages), |swept.relay.log|)))
    case EndList(next) =>
      if s.held.None? || !s.held.value.request.List? then s
      else
        s.(held := None,
           toClient := s.toClient + [PageReply(s.held.value.rows, |s.relay.log|, s.held.value.request, next)])
    case ServeSubscribe =>
      if !Serving(s) || !s.requests[0].Subscribe? then s
      else
        var ok := s.requests[0].after == |s.relay.log|;
        s.(requests := s.requests[1..],
           toClient := s.toClient + [Subscribed(ok, |s.relay.log|)],
           subscribed := s.subscribed || ok,
           lastRead := if ok && !s.subscribed then |s.relay.log| else s.lastRead)
    case Read =>
      if s.toClient == [] then s
      else
        var f, rest := s.toClient[0], s.toClient[1..];
        if !f.Pushed? then s.(toClient := rest, slot := Some(f))
        else
          var (replica, gap) := OnEvent(s.client.replica, f.sequence, f.event, k);
          s.(toClient := rest, lastRead := f.sequence,
             client := s.client.(replica := replica, resync := s.client.resync || gap))
    case Resume =>
      if s.slot.None? || s.client.sync.Idle? then s
      else
        var turn := OnReply(s.client.sync, s.slot.value, k);
        s.(slot := None, requests := Queue(s.requests, turn.send), client := Resumed(s.client, turn))
    case Start(byResync) =>
      if !s.client.sync.Idle? || (byResync && !s.client.resync) then s
      else s.(requests := s.requests + [List(0, None)],
              client := s.client.(sync := Paging(0, None, 0, map[]), byResync := byResync))
    case Reconnect => Connected(s.relay)
    case Rotate(generation) => Connected(Rotated(s.relay, generation))
  }

  ghost function Run(s: System, actions: seq<Action>, k: Keyring): (s': System)
    requires Keyed(s.relay.table.messages)
    ensures Keyed(s'.relay.table.messages)
  {
    if actions == [] then s else Next(Run(s, actions[..|actions| - 1], k), actions[|actions| - 1], k)
  }

  lemma RunOne(s: System, a: Action, k: Keyring)
    requires Keyed(s.relay.table.messages)
    ensures Run(s, [a], k) == Next(s, a, k)
  {
    hide Next;
    assert [a][..0] == [];
  }

  lemma {:induction false} RunAppend(s: System, a: seq<Action>, b: seq<Action>, k: Keyring)
    requires Keyed(s.relay.table.messages)
    ensures Run(s, a + b, k) == Run(Run(s, a, k), b, k)
  {
    if b == [] {
      assert a + b == a;
    } else {
      var n := |b| - 1;
      assert (a + b)[..|a + b| - 1] == a + b[..n];
      RunAppend(s, a, b[..n], k);
    }
  }

  /** What was published since the rows were read has been undone. */
  ghost predicate TrueLabel(r: Relay, h: Held) {
    h.mark <= |r.log| && Undone(BoardAt(r, h.mark), r.log[h.mark..])
  }

  /** No step of the run is one of the two unfaithful publications, or labels a list
      after something was published and not undone. */
  ghost predicate CleanAction(s: System, a: Action)
    requires Keyed(s.relay.table.messages)
  {
    && (a.Activity? ==> CleanOp(s.relay, a.op))
    && (a.EndList? && s.held.Some? ==> TrueLabel(s.relay, s.held.value))
  }

  ghost predicate CleanRun(s: System, actions: seq<Action>, k: Keyring)
    requires Keyed(s.relay.table.messages)
  {
    actions == [] || (CleanRun(s, actions[..|actions| - 1], k)
                      && CleanAction(Run(s, actions[..|actions| - 1], k), actions[|actions| - 1]))
  }

  /** A new connection to a relay whose board was `table` when it started. */
  ghost predicate Initial(s: System) {
    && RelayOk(s.relay)
    && !s.subscribed && s.requests == [] && s.toClient == [] && s.slot.None? && s.held.None?
    && s.client == NEW_CLIENT
  }

  // ------------------------------------------------- consistency: the invariant

  /** What a frame says is what the relay published or listed at that sequence. */
  ghost predicate Truthful(r: Relay, f: Frame)
    requires Keyed(r.base)
  {
    match f
    case Page(sequence, restart, offset, next, done, rows) =>
      restart || (sequence <= |r.log| && ListSlice(r, sequence, offset, next, done, rows))
    case Refused => true
    case Subscribed(ok, sequence) => true
    case Pushed(sequence, event) => 1 <= sequence <= |r.log| && event == r.log[sequence - 1]
  }

  ghost predicate ListSlice(r: Relay, sequence: nat, offset: nat, next: nat, done: bool, rows: seq<Row>)
    requires Keyed(r.base) && sequence <= |r.log|
  {
    var list := ListAt(r, sequence);
    offset <= next <= |list| && rows == list[offset..next] && (done <==> next == |list|)
  }

  ghost predicate SyncOk(r: Relay, sync: Sync, k: Keyring)
    requires Keyed(r.base)
  {
    match sync
    case Idle => true
    case Paging(_, pinned, offset, partial) =>
      if pinned.None? then offset == 0 && partial == map[]
      else
        && pinned.value <= |r.log|
        && offset <= |ListAt(r, pinned.value)|
        && partial == AddRows(map[], ListAt(r, pinned.value)[..offset], k)
    case Subscribing(_, pinned, partial) =>
      pinned <= |r.log| && partial == Readables(BoardAt(r, pinned), k)
  }

  /** The replica is the fold of the published events up to its own sequence
      number, restricted to the records this client can read. */
  ghost predicate Consistent(r: Relay, v: Replica, k: Keyring) {
    v.sequence <= |r.log| && v.records == Readables(BoardAt(r, v.sequence), k)
  }

  /** The held rows are the board at the mark, and none of them can be added again. */
  ghost predicate HeldOk(r: Relay, h: Held)
    requires Keyed(r.base)
  {
    && h.mark <= |r.log| && h.request.List?
    && h.rows == ListAt(r, h.mark)
    && BoardAt(r, h.mark).Keys <= r.table.seen.Keys
    && forall i, id | h.mark <= i < |r.log| && id in BoardAt(r, h.mark) :: !Adds(r.log[i], id)
  }

  ghost predicate Inv(s: System, k: Keyring) {
    && RelayOk(s.relay)
    && (s.held.Some? ==> HeldOk(s.relay, s.held.value))
    && (forall i | 0 <= i < |s.toClient| :: Truthful(s.relay, s.toClient[i]))
    && (s.slot.Some? ==> Truthful(s.relay, s.slot.value))
    && SyncOk(s.relay, s.client.sync, k)
    && (s.client.synced ==> Consistent(s.relay, s.client.replica, k))
  }

  lemma TruthfulExtends(r: Relay, r': Relay, f: Frame)
    requires Keyed(r.base) && r'.base == r.base && r.log <= r'.log && Truthful(r, f)
    ensures Truthful(r', f)
  {
    if f.Page? && !f.restart {
      BoardAtExtends(r, r', f.sequence);
    }
  }

  lemma SyncExtends(r: Relay, r': Relay, sync: Sync, k: Keyring)
    requires Keyed(r.base) && r'.base == r.base && r.log <= r'.log && SyncOk(r, sync, k)
    ensures SyncOk(r', sync, k)
  {
    match sync
    case Idle =>
    case Paging(_, pinned, _, _) =>
      if pinned.Some? {
        BoardAtExtends(r, r', pinned.value);
      }
    case Subscribing(_, pinned, _) =>
      BoardAtExtends(r, r', pinned);
  }

  lemma PushesTruthful(r: Relay, from: nat)
    requires Keyed(r.base) && from <= |r.log|
    ensures forall i | 0 <= i < |Pushes(r.log, from)| :: Truthful(r, Pushes(r.log, from)[i])
  {
  }

  lemma HeldExtends(r: Relay, op: BoardOp, h: Held)
    requires RelayOk(r) && HeldOk(r, h)
    ensures HeldOk(RelayStep(r, op), h)
  {
    var r' := RelayStep(r, op);
    BoardAtExtends(r, r', h.mark);
    forall id | id in BoardAt(r, h.mark)
      ensures id in r'.table.seen && forall i | |r.log| <= i < |r'.log| :: !Adds(r'.log[i], id)
    {
      StepAddsUnspent(r, op, id);
    }
    forall i, id | h.mark <= i < |r'.log| && id in BoardAt(r', h.mark)
      ensures !Adds(r'.log[i], id)
    {
      assert i < |r.log| ==> r'.log[i] == r.log[i];
    }
  }

  lemma NoneAddedAgain(r: Relay, h: Held)
    requires Keyed(r.base) && HeldOk(r, h)
    ensures forall i, id | 0 <= i < |r.log[h.mark..]| && id in BoardAt(r, h.mark) :: !Adds(r.log[h.mark..][i], id)
  {
    forall i, id | 0 <= i < |r.log[h.mark..]| && id in BoardAt(r, h.mark)
      ensures !Adds(r.log[h.mark..][i], id)
    {
      assert r.log[h.mark..][i] == r.log[h.mark + i];
    }
  }

  /** A reply is labelled truly exactly when what was published since it read its
      rows has been undone. */
  lemma LabelExactly(r: Relay, h: Held)
    requires Keyed(r.base) && HeldOk(r, h)
    ensures h.rows == ListAt(r, |r.log|) <==> TrueLabel(r, h)
  {
    hide Undone, Fold;
    var m, events := BoardAt(r, h.mark), r.log[h.mark..];
    FoldAppend(r.base, r.log[..h.mark], events);
    assert r.log[..h.mark] + events == r.log;
    BoardAtEnd(r);
    NoneAddedAgain(r, h);
    UndoneExactly(m, events);
    FoldKeyed(r.base, r.log);
    FoldKeyed(r.base, r.log[..h.mark]);
    if h.rows == ListAt(r, |r.log|) {
      ListingInjective(m, BoardAt(r, |r.log|));
    }
  }

  lemma OperateKeeps(s: System, op: BoardOp, k: Keyring)
    requires Inv(s, k) && CleanOp(s.relay, op)
    ensures Inv(Operate(s, op), k)
  {
    var s' := Operate(s, op);
    RelayStepKeeps(s.relay, op);
    PushesTruthful(s'.relay, |s.relay.log|);
    forall i | 0 <= i < |s'.toClient|
      ensures Truthful(s'.relay, s'.toClient[i])
    {
      if i < |s.toClient| {
        TruthfulExtends(s.relay, s'.relay, s.toClient[i]);
      }
    }
    if s.slot.Some? {
      TruthfulExtends(s.relay, s'.relay, s.slot.value);
    }
    if s.held.Some? {
      HeldExtends(s.relay, op, s.held.value);
    }
    SyncExtends(s.relay, s'.relay, s.client.sync, k);
    if s.client.synced {
      BoardAtExtends(s.relay, s'.relay, s.client.replica.sequence);
    }
  }

  lemma ListReplyTruthful(r: Relay, request: Request, next: nat)
    requires RelayOk(r) && request.List?
    ensures Truthful(r, ListReply(r, request, next))
  {
    BoardAtEnd(r);
  }

  /** Applying the next event to a consistent replica keeps it consistent. */
  lemma EventKeepsConsistent(r: Relay, v: Replica, sequence: nat, e: Event, k: Keyring)
    requires FreshUpdates(r) && Consistent(r, v, k)
    requires 1 <= sequence <= |r.log| && e == r.log[sequence - 1]
    ensures Consistent(r, OnEvent(v, sequence, e, k).0, k)
  {
    if sequence == v.sequence + 1 {
      BoardAtNext(r, v.sequence);
      assert e.Update? ==> e.row.record.id !in BoardAt(r, v.sequence);
      ReadableApply(BoardAt(r, v.sequence), v.sequence, e, k);
    }
  }

  lemma ReadableApply(m: Messages, at: nat, e: Event, k: Keyring)
    requires e.Update? ==> e.row.record.id !in m
    ensures OnEvent(Replica(Readables(m, k), at), at + 1, e, k).0 == Replica(Readables(Apply(m, e), k), at + 1)
  {
    var records := OnEvent(Replica(Readables(m, k), at), at + 1, e, k).0.records;
    assert records.Keys == Readables(Apply(m, e), k).Keys;
  }

  /** A resumption keeps the local variables honest and adopts only the board at
      the sequence number it pinned. */
  lemma TurnKeeps(r: Relay, sync: Sync, f: Frame, k: Keyring)
    requires Keyed(r.base) && SyncOk(r, sync, k) && Truthful(r, f)
    ensures var turn := OnReply(sync, f, k);
            SyncOk(r, turn.sync, k) && (turn.adopt.Some? ==> Consistent(r, turn.adopt.value, k))
  {
    match sync
    case Idle =>
    case Paging(_, snapshot, offset, partial) =>
      if f.Page? && !f.restart && (snapshot.None? || f.sequence == snapshot.value) && f.offset == offset {
        PageKeeps(r, snapshot, offset, partial, f, k);
      }
    case Subscribing(_, pinned, partial) =>
  }

  lemma PageKeeps(r: Relay, pinned: Option<nat>, offset: nat, partial: Messages, f: Frame, k: Keyring)
    requires Keyed(r.base) && f.Page? && !f.restart && Truthful(r, f) && f.offset == offset
    requires SyncOk(r, Paging(0, pinned, offset, partial), k)
    requires pinned.None? || f.sequence == pinned.value
    ensures AddRows(partial, f.rows, k) == AddRows(map[], ListAt(r, f.sequence)[..f.next], k)
    ensures f.done ==> AddRows(partial, f.rows, k) == Readables(BoardAt(r, f.sequence), k)
  {
    var list := ListAt(r, f.sequence);
    assert partial == AddRows(map[], list[..offset], k);
    AddRowsAppend(map[], list[..offset], f.rows, k);
    assert list[..offset] + list[offset..f.next] == list[..f.next];
    if f.done {
      assert list[..f.next] == list;
      FoldKeyed(r.base, r.log[..f.sequence]);
      AddRowsListing(BoardAt(r, f.sequence), k);
    }
  }

  lemma Enqueued(s: System, s': System, f: Frame, k: Keyring)
    requires Inv(s, k) && Truthful(s.relay, f)
    requires s' == s.(requests := s'.requests, toClient := s.toClient + [f])
    ensures Inv(s', k)
  {
    hide Truthful, SyncOk, Consistent, HeldOk;
  }

  lemma ServeListKeeps(s: System, now: nat, next: nat, k: Keyring)
    requires Inv(s, k) && CleanAction(s, ServeList(now, next))
    ensures Inv(Next(s, ServeList(now, next), k), k)
  {
    hide Truthful, SyncOk, Consistent, HeldOk, ListReply;
    OperateKeeps(s, Expire(now), k);
    if Serving(s) && s.requests[0].List? {
      var swept := if s.requests[0].offset > CAPACITY then s else Operate(s, Expire(now));
      ListReplyTruthful(swept.relay, s.requests[0], next);
      Enqueued(swept, Next(s, ServeList(now, next), k), ListReply(swept.relay, s.requests[0], next), k);
    }
  }

  /** In any state, a pinned request that is served at another sequence number is
      answered by a restart at that number, and nothing else is queued after it. */
  lemma OutdatedIsRestarted(s: System, now: nat, next: nat, k: Keyring)
    requires Keyed(s.relay.table.messages) && Serving(s) && s.requests[0].List? && s.requests[0].offset <= CAPACITY
    requires var at := |Next(s, ServeList(now, next), k).relay.log|;
             s.requests[0].snapshot.Some? && s.requests[0].snapshot.value != at
    ensures var s' := Next(s, ServeList(now, next), k);
            s'.toClient != [] && s'.toClient[|s'.toClient| - 1] == Page(|s'.relay.log|, true, 0, 0, false, [])
  {
  }

  /** The same for a request that was suspended: its label counts. */
  lemma OutdatedWhileHeld(s: System, next: nat, k: Keyring)
    requires Keyed(s.relay.table.messages) && s.held.Some? && s.held.value.request.List?
    requires s.held.value.request.snapshot.Some? && s.held.value.request.snapshot.value != |s.relay.log|
    ensures Next(s, EndList(next), k).toClient == s.toClient + [Page(|s.relay.log|, true, 0, 0, false, [])]
  {
  }

  lemma BeginListKeeps(s: System, now: nat, k: Keyring)
    requires Inv(s, k)
    ensures Inv(Next(s, BeginList(now), k), k)
  {
    OperateKeeps(s, Expire(now), k);
    BoardAtEnd(Operate(s, Expire(now)).relay);
  }

  lemma PageReplyTruthful(r: Relay, list: seq<Row>, request: Request, next: nat)
    requires Keyed(r.base) && list == ListAt(r, |r.log|) && request.List?
    ensures Truthful(r, PageReply(list, |r.log|, request, next))
  {
  }

  lemma EndListKeeps(s: System, next: nat, k: Keyring)
    requires Inv(s, k) && CleanAction(s, EndList(next))
    ensures Inv(Next(s, EndList(next), k), k)
  {
    hide PageReply, Truthful, SyncOk, Consistent, HeldOk;
    if s.held.Some? && s.held.value.request.List? {
      LabelExactly(s.relay, s.held.value);
      PageReplyTruthful(s.relay, s.held.value.rows, s.held.value.request, next);
    }
  }

  lemma EventReadKeeps(r: Relay, v: Replica, f: Frame, k: Keyring)
    requires RelayOk(r) && Consistent(r, v, k) && f.Pushed? && Truthful(r, f)
    ensures Consistent(r, OnEvent(v, f.sequence, f.event, k).0, k)
  {
    hide Consistent, Fold;
    EventKeepsConsistent(r, v, f.sequence, f.event, k);
  }

  lemma ReadKeeps(s: System, k: Keyring)
    requires Inv(s, k)
    ensures Inv(Next(s, Read, k), k)
  {
    hide Truthful, SyncOk, Consistent, OnEvent;
    if s.toClient != [] {
      var f, rest := s.toClient[0], s.toClient[1..];
      assert Truthful(s.relay, f);
      forall i | 0 <= i < |rest|
        ensures Truthful(s.relay, rest[i])
      {
        assert rest[i] == s.toClient[i + 1];
      }
      if f.Pushed? && s.client.synced {
        EventReadKeeps(s.relay, s.client.replica, f, k);
      }
    }
  }

  /** A rotation leaves a board that is the fold of the events and the one entry that
      stands for it. */
  lemma RotatedKeeps(r: Relay, generation: Generation)
    requires RelayOk(r)
    ensures RelayOk(Rotated(r, generation))
    ensures BindClears(r.table, generation) ==> Rotated(r, generation).table.messages == map[]
  {
    var r', m := Rotated(r, generation), r.table.messages;
    var e := Remove(m.Keys - r'.table.messages.Keys);
    FoldAppend(r.base, r.log, [e]);
    assert Fold(m, [e][..0]) == m;
    assert m - (m.Keys - r'.table.messages.Keys) == r'.table.messages;
    NoNewUpdates(r, r');
  }

  lemma ResumeKeeps(s: System, k: Keyring)
    requires Inv(s, k)
    ensures Inv(Next(s, Resume, k), k)
  {
    if s.slot.Some? && !s.client.sync.Idle? {
      TurnKeeps(s.relay, s.client.sync, s.slot.value, k);
    }
  }

  lemma NextKeeps(s: System, a: Action, k: Keyring)
    requires Inv(s, k) && CleanAction(s, a)
    ensures Inv(Next(s, a, k), k)
  {
    match a
    case Activity(op) => OperateKeeps(s, op, k);
    case ServeList(now, next) => ServeListKeeps(s, now, next, k);
    case BeginList(now) => BeginListKeeps(s, now, k);
    case EndList(next) => EndListKeeps(s, next, k);
    case ServeSubscribe =>
    case Read => ReadKeeps(s, k);
    case Resume => ResumeKeeps(s, k);
    case Start(_) =>
    case Reconnect =>
    case Rotate(generation) => RotatedKeeps(s.relay, generation);
  }

  lemma {:induction false} RunKeeps(s: System, actions: seq<Action>, k: Keyring)
    requires Inv(s, k) && CleanRun(s, actions, k)
    ensures Inv(Run(s, actions, k), k)
  {
    if actions != [] {
      RunKeeps(s, actions[..|actions| - 1], k);
      NextKeeps(Run(s, actions[..|actions| - 1], k), actions[|actions| - 1], k);
    }
  }

  /** Replica consistency. In every run without an unfaithful publication, once a
      synchronisation has succeeded the client's records and sequence number are
      at every moment the fold of the published events up to that number,
      whatever resyncs, events, restarts and delays were interleaved. */
  lemma ReplicaConsistency(s: System, actions: seq<Action>, k: Keyring)
    requires Initial(s) && CleanRun(s, actions, k)
    ensures var s' := Run(s, actions, k);
            s'.client.synced ==> Consistent(s'.relay, s'.client.replica, k)
  {
    RunKeeps(s, actions, k);
  }

  lemma ConnectedIsInitial(r: Relay)
    requires RelayOk(r)
    ensures Initial(Connected(r))
  {
    hide RelayOk;
  }

  lemma NewConnections(s: System, generation: Generation, k: Keyring)
    requires Keyed(s.relay.table.messages)
    ensures Next(s, Reconnect, k) == Connected(s.relay)
    ensures Next(s, Rotate(generation), k) == Connected(Rotated(s.relay, generation))
  {
    hide Keyed, Connected, Rotated, Operate, ListReply, PageReply, OnReply, OnEvent, Resumed;
  }

  lemma RunRelayOk(s: System, actions: seq<Action>, k: Keyring)
    requires Initial(s) && CleanRun(s, actions, k)
    ensures RelayOk(Run(s, actions, k).relay)
  {
    RunKeeps(s, actions, k);
  }

  /** A reconnection, or a rotation, is a fresh start for the client: whatever happened
      before, what follows is a run of its own over the relay as it is then. */
  lemma ConnectionsStartAfresh(s: System, actions: seq<Action>, generation: Generation, k: Keyring)
    requires Initial(s) && CleanRun(s, actions, k)
    ensures Initial(Next(Run(s, actions, k), Reconnect, k))
    ensures Initial(Next(Run(s, actions, k), Rotate(generation), k))
  {
    RunRelayOk(s, actions, k);
    var now := Run(s, actions, k);
    hide Next, Run, RelayOk, Rotated, Connected, Initial;
    RotatedKeeps(now.relay, generation);
    ConnectedIsInitial(now.relay);
    ConnectedIsInitial(Rotated(now.relay, generation));
    NewConnections(now, generation, k);
  }
}
