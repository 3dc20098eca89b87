/** The board halves of the relay and client objects, in the form they run:
    the relay's handlers over its store, and the client's nested loop over
    attempts and pages, with arbitrary relay activity between any two requests. */
module BoardSync {
  import opened Board
  import opened BoardPaging
  import opened BoardEvents
  import opened BoardPublication
  import opened BoardReplica
  import opened Options

  /** Blob sizes, ciphertext bound and 63-bit times of everything stored. */
  ghost predicate WireBoard(m: Messages) {
    forall id | id in m :: WireRow(m[id])
  }

  ghost predicate WireOp(op: BoardOp) {
    op.Post? ==> WireRow(Fresh(op.record, op.now))
  }

  lemma WireListing(m: Messages)
    requires Keyed(m) && WireBoard(m)
    ensures WireRows(Listing(m))
  {
    ListingIsSorted(m);
    forall i | 0 <= i < |Listing(m)|
      ensures WireRow(Listing(m)[i])
    {
      assert Listing(m)[i] in Listing(m);
    }
  }

  lemma PostWire(t: Table, record: Record, now: nat)
    requires Keyed(t.messages) && WireBoard(t.messages) && WireRow(Fresh(record, now))
    ensures WireBoard(PostStep(t, record, now).0.messages)
  {
    var t' := PostStep(t, record, now).0;
    forall id | id in t'.messages
      ensures WireRow(t'.messages[id])
    {
      assert t'.messages[id] == Fresh(record, now) || (id in t.messages && t'.messages[id] == t.messages[id]);
    }
  }

  class RelayBoard {
    const store: BoardStore
    var sequence: nat
    var subscribed: bool             // the flag of the connection followed here
    ghost const base: Messages
    ghost var log: seq<Event>
    /** No unfaithful publication has happened so far. */
    ghost var faithful: bool
    /** Every reply the connection followed here was given, in order. */
    ghost var replies: seq<Frame>

    ghost function View(): Relay
      reads this, store
    {
      Relay(store.View(), base, log)
    }

    ghost predicate Valid()
      reads this, store
    {
      && sequence == |log|
      && Keyed(base) && Keyed(store.messages) && TableOk(store.View())
      && WireBoard(store.messages)
      && (faithful ==> RelayOk(View()))
    }

    constructor (store: BoardStore)
      requires Keyed(store.messages) && WireBoard(store.messages)
      requires TableOk(store.View())
      ensures Valid() && faithful && !subscribed && this.store == store && replies == []
      ensures View() == Relay(store.View(), store.messages, [])
    {
      this.store := store;
      sequence, subscribed := 0, false;
      base := store.messages;
      log, replies := [], [];
      faithful := true;
    }

    method Broadcast(e: Event)
      requires sequence == |log|
      modifies this`sequence, this`log
      ensures log == old(log) + [e] && sequence == |log|
    {
      sequence := sequence + 1;
      log := log + [e];
    }

    method BroadcastRemove(ids: set<MessageId>)
      requires sequence == |log|
      modifies this`sequence, this`log
      ensures log == old(log) + RemovalEvents(ids) && sequence == |log|
    {
      if ids != {} {
        Broadcast(Remove(ids));
      }
    }

    method BoardList(now: nat) returns (rows: seq<Row>, at: nat)
      requires Valid()
      modifies this, store
      ensures Valid() && faithful == old(faithful) && subscribed == old(subscribed)
      ensures View() == RelayStep(old(View()), Expire(now))
      ensures rows == Listing(store.messages) && at == sequence && replies == old(replies)
    {
      var removed;
      rows, removed := store.ListCurrent(now);
      BroadcastRemove(removed);
      at := sequence;
      Shrinks(store.messages, old(store.messages));
      if faithful {
        RelayStepKeeps(old(View()), Expire(now));
      }
    }

    /** `board_post` for a connection that holds `token`; a record of another token
        is refused and changes nothing. */
    method BoardPost(token: Option<Token>, record: Record, now: nat) returns (outcome: Option<PostOutcome>)
      requires Valid() && WireOp(Post(record, now))
      modifies this, store
      ensures Valid() && subscribed == old(subscribed) && replies == old(replies)
      ensures token != Some(record.token) ==> outcome == None && View() == old(View()) && faithful == old(faithful)
      ensures token == Some(record.token) ==>
                && View() == RelayStep(old(View()), Post(record, now))
                && outcome == Some(PostStep(old(store.View()), record, now).1)
                && faithful == (old(faithful) && CleanOp(old(View()), Post(record, now)))
    {
      if token.None? || token.value != record.token {
        return None;
      }
      ghost var before := View();
      faithful := faithful && CleanOp(before, Post(record, now));
      var result := store.Post(record, now);
      outcome := Some(result);
      Publish(result);
      PostKeepsTable(before.table, record, now);
      PostWire(before.table, record, now);
      if faithful {
        RelayStepKeeps(before, Post(record, now));
      }
    }

    /** The removals first, then the accepted row. */
    method Publish(outcome: PostOutcome)
      requires sequence == |log|
      modifies this`sequence, this`log
      ensures log == old(log) + OutcomeEvents(outcome) && sequence == |log|
    {
      match outcome {
        case Accepted(stored, removed, _) =>
          BroadcastRemove(removed);
          Broadcast(Update(stored));
        case Cooling(removed, _) =>
          BroadcastRemove(removed);
        case Duplicate =>
        case Invalid =>
      }
    }

    method SubscribeBoard(after: nat) returns (ok: bool)
      requires Valid()
      modifies this`subscribed, this`replies
      ensures Valid() && (ok <==> after == |log|)
      ensures subscribed == (old(subscribed) || ok)
      ensures replies == old(replies) + [Subscribed(ok, |log|)]
    {
      replies := replies + [Subscribed(after == sequence, sequence)];
      if after != sequence {
        return false;
      }
      subscribed := true;
      ok := true;
    }

    /** `_handle_board_list`, page packing included. An offset beyond the capacity is
        refused before the board is touched. */
    method HandleBoardList(requestId: string, offset: nat, snapshot: Option<nat>, limit: nat, now: nat)
      returns (f: Frame, ghost next: nat)
      requires Valid()
      modifies this, store
      ensures Valid() && faithful == old(faithful) && subscribed == old(subscribed)
      ensures replies == old(replies) + [f]
      ensures View() == Swept(old(View()), List(offset, snapshot), now)
      ensures f == ListReply(View(), List(offset, snapshot), next)
      ensures offset > CAPACITY ==> f == Refused && View() == old(View())
      ensures offset <= CAPACITY ==> View() == RelayStep(old(View()), Expire(now))
      ensures offset <= CAPACITY ==>
                (f == Page(|log|, true, 0, 0, false, []) <==> snapshot.Some? && snapshot.value != |log|)
      ensures offset <= CAPACITY && f.Refused? ==> snapshot in {None, Some(|log|)}
      ensures f.Page? && !f.restart ==>
                && WireRows(Listing(store.messages)) && offset <= |store.messages|
                && EndsPage(Query(requestId, sequence, offset, limit, Listing(store.messages)), f.next)
                && f.sequence == |log| && f.offset == offset && offset <= f.next <= |store.messages|
                && f.rows == Listing(store.messages)[offset..f.next] && (f.done <==> f.next == |store.messages|)
                && (f.next > offset || f.done)
      ensures f.Refused? ==>
                offset > |store.messages| || limit < MIN_FRAME_LIMIT || |requestId| > MAX_REQUEST_ID
                || sequence > MAX_INTEGER
      ensures f.Refused? ==>
                offset > |store.messages|
                || (WireRows(Listing(store.messages)) && offset < |store.messages|
                    && EndsPage(Query(requestId, sequence, offset, limit, Listing(store.messages)), offset))
    {
      hide RelayStep, RelayOk;
      next := offset;
      if offset > CAPACITY {
        replies := replies + [Refused];
        return Refused, next;
      }
      var rows, at := BoardList(now);
      if snapshot.Some? && snapshot.value != at {
        f := Page(at, true, 0, 0, false, []);
        replies := replies + [f];
        return;
      }
      if offset > |rows| {
        f := Refused;
        replies := replies + [f];
        return;
      }
      WireListing(store.messages);
      var q := Query(requestId, at, offset, limit, rows);
      var end := PackPage(q);
      next := end;
      if end < |rows| && end == offset {
        f := Refused;
        replies := replies + [f];
        if limit >= MIN_FRAME_LIMIT && |requestId| <= MAX_REQUEST_ID && at <= MAX_INTEGER {
          PageAdvances(q, end);
        }
        return;
      }
      f := Page(at, false, offset, end, end >= |rows|, rows[offset..end]);
      replies := replies + [f];
    }

    /** Whatever other connections and maintenance do between two requests. */
    method Activity(ops: seq<BoardOp>)
      requires Valid() && forall i | 0 <= i < |ops| :: WireOp(ops[i])
      modifies this, store
      ensures Valid() && old(log) <= log && (faithful ==> old(faithful))
      ensures View() == RelaySteps(old(View()), ops) && subscribed == old(subscribed) && replies == old(replies)
      ensures ops == [] ==> faithful == old(faithful)
    {
      for i := 0 to |ops|
        invariant Valid() && old(log) <= log && (faithful ==> old(faithful))
        invariant View() == RelaySteps(old(View()), ops[..i]) && subscribed == old(subscribed)
        invariant replies == old(replies)
        invariant i == 0 ==> faithful == old(faithful)
      {
        assert ops[..i + 1][..i] == ops[..i];
        match ops[i] {
          case Post(record, now) => var _ := BoardPost(Some(record.token), record, now);
          case Expire(now) => var _, _ := BoardList(now);
        }
      }
      assert ops[..|ops|] == ops;
    }
  }

  /** What happens at the relay before it serves one more request. */
  datatype Interlude = Interlude(ops: seq<BoardOp>, requestId: string, now: nat)

  ghost predicate WireInterlude(i: Interlude) {
    forall k | 0 <= k < |i.ops| :: WireOp(i.ops[k])
  }

  ghost predicate WireSchedule(schedule: nat -> Interlude) {
    forall t: nat {:trigger schedule(t)} :: WireInterlude(schedule(t))
  }

  lemma WireAt(schedule: nat -> Interlude, turn: nat)
    requires WireSchedule(schedule)
    ensures WireInterlude(schedule(turn))
  {
  }

  /** Nothing happens before the request, nothing expires at it, and the reply is
      within the limits of the protocol. */
  ghost predicate Calm(r: Relay, limit: nat, i: Interlude) {
    && i.ops == [] && limit >= MIN_FRAME_LIMIT && |i.requestId| <= MAX_REQUEST_ID
    && |r.log| <= MAX_INTEGER
    && forall id | id in r.table.messages :: r.table.messages[id].expiresAt > i.now
  }

  ghost predicate CalmSchedule(r: Relay, limit: nat, schedule: nat -> Interlude) {
    forall t: nat {:trigger schedule(t)} :: Calm(r, limit, schedule(t))
  }

  /** The board and the sequence stand still. */
  ghost predicate Still(r: Relay, r': Relay) {
    r'.table.messages == r.table.messages && r'.log == r.log
  }

  lemma CalmStands(r: Relay, limit: nat, i: Interlude)
    requires Keyed(r.table.messages) && Calm(r, limit, i)
    ensures Still(r, RelayStep(r, Expire(i.now)))
  {
    assert ExpiredIds(r.table, i.now) == {};
  }

  /** A page the loop of a calm synchronisation can go on with. */
  ghost predicate GoodPage(r: Relay, f: Frame, offset: nat) {
    && f.Page? && !f.restart && f.sequence == |r.log| && f.offset == offset
    && offset <= f.next <= |r.table.messages| && |f.rows| == f.next - offset
    && (f.next > offset || f.done) && (f.done <==> f.next == |r.table.messages|)
  }

  lemma CalmReply(r: Relay, offset: nat, pinned: Option<nat>, next: nat)
    requires Keyed(r.table.messages) && (pinned.None? || pinned == Some(|r.log|))
    requires !ListReply(r, List(offset, pinned), next).Refused?
    ensures GoodPage(r, ListReply(r, List(offset, pinned), next), offset)
  {
  }

  /** What any list reply says about the request and the relay, whatever was published. */
  ghost predicate HonestReply(r: Relay, f: Frame, offset: nat, pinned: Option<nat>)
    requires Keyed(r.table.messages)
  {
    && (f.Page? || f.Refused?)
    && (f.Page? ==> f.sequence == |r.log| && (f.restart <==> pinned.Some? && pinned.value != |r.log|))
    && (f.Refused? ==> pinned in {None, Some(|r.log|)})
    && (f.Page? && !f.restart ==>
          && f.offset == offset <= f.next <= |r.table.messages| && |f.rows| == f.next - offset
          && (f.next > offset || f.done))
  }

  lemma RefusedUnderPin(r: Relay, f: Frame, offset: nat, pinned: Option<nat>)
    requires Keyed(r.table.messages) && HonestReply(r, f, offset, pinned) && f.Refused?
    ensures pinned in {None, Some(|r.log|)}
  {
  }

  lemma ListReplyHonest(r: Relay, offset: nat, pinned: Option<nat>, next: nat)
    requires Keyed(r.table.messages) && offset <= CAPACITY
    ensures HonestReply(r, ListReply(r, List(offset, pinned), next), offset, pinned)
  {
  }

  /** A faithful relay is not asked past the end under the number that is pinned. */
  lemma NotPastEnd(r: Relay, offset: nat, pinned: Option<nat>, partial: Messages, k: Keyring)
    requires RelayOk(r) && SyncOk(r, Paging(0, pinned, offset, partial), k) && pinned in {None, Some(|r.log|)}
    ensures offset <= |r.table.messages|
  {
    BoardAtEnd(r);
  }

  datatype Snapshot = Taken(sequence: nat, records: Messages) | Outdated | Failed

  /** A page the loop goes on with. */
  predicate Continues(f: Frame, offset: nat, pinned: Option<nat>) {
    && f.Page?
    && (pinned.Some? ==> f.sequence == pinned.value)
    && !f.restart
    && f.offset == offset
  }

  /** The replies to one attempt that was overtaken: from its first page on none is a
      refusal, and the last one names another sequence number than the first. */
  predicate Overtaken(replies: seq<Frame>) {
    && replies != [] && replies[0].Page? && Refused !in replies
    && match replies[|replies| - 1]
       case Page(sequence, _, _, _, _, _) => sequence != replies[0].sequence
       case Subscribed(ok, sequence) => !ok && sequence != replies[0].sequence
       case _ => false
  }

  /** The replies are those of `n` attempts, each of them overtaken. */
  ghost predicate AllOvertaken(replies: seq<Frame>, n: nat) {
    if n == 0 then replies == []
    else exists cut :: 0 <= cut < |replies| && Overtaken(replies[cut..]) && AllOvertaken(replies[..cut], n - 1)
  }

  lemma OneMoreOvertaken(replies: seq<Frame>, more: seq<Frame>, n: nat)
    requires AllOvertaken(replies, n) && Overtaken(more)
    ensures AllOvertaken(replies + more, n + 1)
  {
    assert (replies + more)[|replies|..] == more && (replies + more)[..|replies|] == replies;
  }

  /** An undisturbed attempt after fewer than `n` overtaken ones. */
  ghost predicate SucceedsWithin(replies: seq<Frame>, n: nat, at: nat) {
    exists attempt, cut ::
      && 0 <= attempt < n && 0 <= cut < |replies|
      && AllOvertaken(replies[..cut], attempt) && Undisturbed(replies[cut..], at)
  }

  lemma AttemptSucceeds(replies: seq<Frame>, more: seq<Frame>, n: nat, at: nat)
    requires AllOvertaken(replies, n) && n < 5 && Undisturbed(more, at)
    ensures SucceedsWithin(replies + more, 5, at)
  {
    assert (replies + more)[|replies|..] == more && (replies + more)[..|replies|] == replies;
  }

  /** An undisturbed attempt: pages under one sequence number and the grant. */
  predicate Undisturbed(replies: seq<Frame>, at: nat) {
    && |replies| >= 2 && replies[|replies| - 1] == Subscribed(true, at)
    && forall i | 0 <= i < |replies| - 1 ::
         replies[i].Page? && !replies[i].restart && replies[i].sequence == at
  }

  /** Pages under the pinned number; none before it is pinned. */
  predicate PagesUnder(given: seq<Frame>, pinned: Option<nat>) {
    && (pinned.None? <==> given == [])
    && forall i | 0 <= i < |given| :: given[i].Page? && !given[i].restart && pinned == Some(given[i].sequence)
  }

  /** The replies behind a snapshot, or behind none. */
  predicate RepliedFor(given: seq<Frame>, snapshot: Snapshot) {
    && (snapshot.Failed? <==> Refused in given)
    && (snapshot.Outdated? ==> Overtaken(given))
    && (snapshot.Taken? ==> given != [] && PagesUnder(given, Some(snapshot.sequence)))
  }

  lemma NoPagesYet()
    ensures PagesUnder([], None)
  {
  }

  lemma EndsInRefusal(given: seq<Frame>, pinned: Option<nat>)
    requires PagesUnder(given, pinned)
    ensures RepliedFor(given + [Refused], Failed)
  {
    assert (given + [Refused])[|given|] == Refused;
  }

  lemma EndsOvertaken(given: seq<Frame>, pinned: Option<nat>, f: Frame)
    requires PagesUnder(given, pinned)
    ensures f.Page? && pinned.Some? && f.sequence != pinned.value ==> RepliedFor(given + [f], Outdated)
  {
  }

  lemma OneMorePage(given: seq<Frame>, pinned: Option<nat>, f: Frame, records: Messages)
    requires PagesUnder(given, pinned) && f.Page? && !f.restart && (pinned.None? || pinned == Some(f.sequence))
    ensures PagesUnder(given + [f], Some(f.sequence)) && RepliedFor(given + [f], Taken(f.sequence, records))
  {
  }

  /** The answer to the subscription decides the attempt. */
  lemma SubscriptionDecides(given: seq<Frame>, snapshot: Snapshot, ok: bool, at: nat)
    requires snapshot.Taken? && RepliedFor(given, snapshot) && (ok <==> at == snapshot.sequence)
    ensures Refused !in given + [Subscribed(ok, at)]
    ensures if ok then Undisturbed(given + [Subscribed(ok, at)], at) else Overtaken(given + [Subscribed(ok, at)])
  {
  }

  /** What the protocol allows one request to name. */
  predicate InLimits(limit: nat, requestId: string, sequence: nat) {
    limit >= MIN_FRAME_LIMIT && |requestId| <= MAX_REQUEST_ID && sequence <= MAX_INTEGER
  }

  ghost predicate AlwaysInLimits(limit: nat, schedule: nat -> Interlude, sequence: nat) {
    forall t: nat {:trigger schedule(t)} :: InLimits(limit, schedule(t).requestId, sequence)
  }

  /** How one attempt ends. */
  datatype Attempted = Adopted | Again | GaveUp

  predicate AttemptShows(given: seq<Frame>, outcome: Attempted, at: nat) {
    && (outcome.GaveUp? <==> Refused in given)
    && (outcome.Again? ==> Overtaken(given))
    && (outcome.Adopted? ==> Undisturbed(given, at))
  }

  lemma FailedShows(given: seq<Frame>, at: nat)
    requires RepliedFor(given, Failed)
    ensures AttemptShows(given, GaveUp, at)
  {
  }

  lemma OutdatedShows(given: seq<Frame>, at: nat)
    requires RepliedFor(given, Outdated)
    ensures AttemptShows(given, Again, at)
  {
  }

  lemma SubscriptionShows(given: seq<Frame>, snapshot: Snapshot, ok: bool, at: nat)
    requires snapshot.Taken? && RepliedFor(given, snapshot) && (ok <==> at == snapshot.sequence)
    ensures AttemptShows(given + [Subscribed(ok, at)], if ok then Adopted else Again, at)
  {
    hide RepliedFor, Undisturbed, Overtaken;
    SubscriptionDecides(given, snapshot, ok, at);
  }

  lemma CalmIsQuiet(r: Relay, limit: nat, i: Interlude)
    ensures Calm(r, limit, i) ==> i.ops == []
  {
  }

  /** The replies of a loop that goes on after `n` attempts. */
  ghost predicate Retrying(replies: seq<Frame>, n: nat) {
    AllOvertaken(replies, n) && Refused !in replies
  }

  lemma NotTriedYet()
    ensures Retrying([], 0)
  {
  }

  lemma AttemptExtends(given: seq<Frame>, more: seq<Frame>, n: nat, outcome: Attempted, at: nat)
    requires Retrying(given, n) && n < 5 && AttemptShows(more, outcome, at)
    ensures Refused in given + more <==> outcome.GaveUp?
    ensures outcome.Again? ==> Retrying(given + more, n + 1)
    ensures outcome.Adopted? ==> SucceedsWithin(given + more, 5, at)
  {
    hide Undisturbed, Overtaken, AllOvertaken;
    if outcome.Again? {
      OneMoreOvertaken(given, more, n);
    } else if outcome.Adopted? {
      AttemptSucceeds(given, more, n, at);
    }
  }

  lemma CalmAt(before: Relay, r: Relay, limit: nat, schedule: nat -> Interlude, turn: nat)
    requires CalmSchedule(before, limit, schedule) ==> Still(before, r)
    ensures CalmSchedule(before, limit, schedule) ==> Calm(r, limit, schedule(turn))
  {
    if CalmSchedule(before, limit, schedule) {
      assert Calm(before, limit, schedule(turn));
    }
  }

  /** A reply to the loop: a refusal, a restart under another number, or the page asked for. */
  ghost predicate Sensible(f: Frame, offset: nat, pinned: Option<nat>) {
    && (f.Page? || f.Refused?)
    && (f.Page? ==> (f.restart <==> pinned.Some? && pinned.value != f.sequence))
    && (f.Page? && !f.restart ==>
          f.offset == offset <= f.next <= CAPACITY && |f.rows| == f.next - offset && (f.next > offset || f.done))
  }

  lemma HonestIsSensible(r: Relay, f: Frame, offset: nat, pinned: Option<nat>)
    requires Keyed(r.table.messages) && TableOk(r.table) && HonestReply(r, f, offset, pinned)
    ensures Sensible(f, offset, pinned)
  {
  }

  lemma LimitsAt(limit: nat, schedule: nat -> Interlude, turn: nat, sequence: nat)
    ensures AlwaysInLimits(limit, schedule, sequence) ==> InLimits(limit, schedule(turn).requestId, sequence)
  {
  }

  lemma CalmGoesOn(before: Relay, r: Relay, r': Relay, f: Frame, offset: nat)
    requires Still(before, r) && Still(r, r') && GoodPage(r', f, offset)
    ensures Still(before, r') && f.Page? && !f.restart && f.sequence == |r'.log|
    ensures f.next < |r'.table.messages| || f.done
  {
  }

  /** What one turn of the loop leaves: the end of the attempt, or the next request. */
  predicate Resumes(turn: Turn, end: Option<Snapshot>, f: Frame, next: Messages) {
    match end
    case Some(Failed) => turn == ABORT
    case Some(Outdated) => turn == Restart(0)
    case Some(Taken(at, records)) => turn == Turn(Subscribing(0, at, records), Some(Subscribe(at)), None)
    case None =>
      f.Page? && turn == Turn(Paging(0, Some(f.sequence), f.next, next), Some(List(f.next, Some(f.sequence))), None)
  }

  /** What a sensible reply does to the replies of the attempt and to the loop. */
  lemma LoopDecides(pages: seq<Frame>, f: Frame, offset: nat, pinned: Option<nat>, partial: Messages, k: Keyring)
    requires PagesUnder(pages, pinned) && Sensible(f, offset, pinned)
    ensures var turn := OnReply(Paging(0, pinned, offset, partial), f, k);
            if f.Refused? then RepliedFor(pages + [f], Failed) && turn == ABORT
            else if f.restart then RepliedFor(pages + [f], Outdated) && turn == Restart(0)
            else
              var next := AddRows(partial, f.rows, k);
              && Continues(f, offset, pinned) && PagesUnder(pages + [f], Some(f.sequence))
              && RepliedFor(pages + [f], Taken(f.sequence, next))
              && offset <= f.next <= CAPACITY
              && if f.done then turn == Turn(Subscribing(0, f.sequence, next), Some(Subscribe(f.sequence)), None)
                 else
                   f.next > offset
                   && turn == Turn(Paging(0, Some(f.sequence), f.next, next),
                                   Some(List(f.next, Some(f.sequence))), None)
  {
    hide PagesUnder, RepliedFor, AddRows;
    if f.Refused? {
      EndsInRefusal(pages, pinned);
    } else if f.restart {
      EndsOvertaken(pages, pinned, f);
    } else {
      OneMorePage(pages, pinned, f, AddRows(partial, f.rows, k));
    }
  }

  lemma FaithfulReply(r: Relay, offset: nat, pinned: Option<nat>, end: nat, partial: Messages, k: Keyring)
    requires RelayOk(r) && SyncOk(r, Paging(0, pinned, offset, partial), k)
    ensures var f := ListReply(r, List(offset, pinned), end);
            Continues(f, offset, pinned) ==>
              var next := AddRows(partial, f.rows, k);
              && SyncOk(r, Paging(0, Some(f.sequence), f.next, next), k)
              && (f.done ==> SyncOk(r, Subscribing(0, f.sequence, next), k))
  {
    var f := ListReply(r, List(offset, pinned), end);
    ListReplyTruthful(r, List(offset, pinned), end);
    if Continues(f, offset, pinned) {
      PageKeeps(r, pinned, offset, partial, f, k);
    }
  }

  lemma Regroup(a: seq<Frame>, b: seq<Frame>, c: seq<Frame>)
    ensures a + (b + c) == a + b + c
  {
  }

  class BoardClient {
    const keyring: Keyring
    var records: Messages
    var sequence: nat

    function View(): Replica
      reads this
    {
      Replica(records, sequence)
    }

    constructor (keyring: Keyring)
      ensures this.keyring == keyring && View() == Replica(map[], 0)
    {
      this.keyring := keyring;
      records, sequence := map[], 0;
    }

    /** What has been collected so far belongs to the relay's log. */
    ghost predicate Synced(relay: RelayBoard, sync: Sync)
      requires relay.Valid()
      reads relay, relay.store
    {
      relay.faithful ==> SyncOk(relay.View(), sync, keyring)
    }

    lemma NothingSynced(relay: RelayBoard)
      requires relay.Valid()
      ensures Synced(relay, Paging(0, None, 0, map[]))
    {
    }

    method HandleBoardUpdate(number: nat, row: Row) returns (gap: bool)
      modifies this
      ensures (View(), gap) == OnEvent(old(View()), number, Update(row), keyring)
    {
      if number != sequence + 1 {
        return true;
      }
      sequence := number;
      if keyring(row.record) {
        records := records[row.record.id := row];
      }
      gap := false;
    }

    method HandleBoardRemove(number: nat, ids: set<MessageId>) returns (gap: bool)
      modifies this
      ensures (View(), gap) == OnEvent(old(View()), number, Remove(ids), keyring)
    {
      if number != sequence + 1 {
        return true;
      }
      sequence := number;
      records := records - ids;
      gap := false;
    }

    /** The inner loop: pages of one attempt, until the last one arrives, the
        relay's sequence number moves, or a reply makes no sense. */
    method TakeSnapshot(relay: RelayBoard, limit: nat, schedule: nat -> Interlude, start: nat)
      returns (snapshot: Snapshot, turn: nat, ghost given: seq<Frame>)
      requires relay.Valid() && WireSchedule(schedule)
      modifies relay, relay.store
      ensures relay.Valid() && old(relay.log) <= relay.log && (relay.faithful ==> old(relay.faithful))
      ensures snapshot.Taken? ==> Synced(relay, Subscribing(0, snapshot.sequence, snapshot.records))
      ensures CalmSchedule(old(relay.View()), limit, schedule) ==>
                Still(old(relay.View()), relay.View()) && snapshot.Taken? && snapshot.sequence == |relay.log|
      ensures start < turn <= start + CAPACITY + 1 && relay.subscribed == old(relay.subscribed)
      ensures relay.replies == old(relay.replies) + given && |given| == turn - start && RepliedFor(given, snapshot)
      ensures snapshot.Failed? && relay.faithful ==> !AlwaysInLimits(limit, schedule, |relay.log|)
      ensures CalmSchedule(old(relay.View()), limit, schedule) ==>
                turn - start <= if old(relay.store.messages) == map[] then 1 else |old(relay.store.messages)|
    {
      ghost var before := relay.View();
      ghost var calm := CalmSchedule(before, limit, schedule);
      var pinned: Option<nat> := None;
      var offset: nat := 0;
      var partial: Messages := map[];
      turn, given := start, [];
      hide RelayBoard.Valid, WireSchedule, WireInterlude, Synced, PagesUnder, RepliedFor, InLimits,
           AlwaysInLimits, CalmSchedule, Calm, Continues, Sensible, GoodPage, Still,
           OnReply, AddRows;
      NoPagesYet();
      NothingSynced(relay);
      while true
        invariant relay.Valid() && old(relay.log) <= relay.log && (relay.faithful ==> old(relay.faithful))
        invariant offset <= CAPACITY && start <= turn <= start + offset
        invariant relay.subscribed == old(relay.subscribed)
        invariant Synced(relay, Paging(0, pinned, offset, partial))
        invariant relay.replies == old(relay.replies) + given && |given| == turn - start
        invariant PagesUnder(given, pinned)
        invariant calm ==> Still(before, relay.View()) && (offset == 0 || offset < |relay.store.messages|)
                           && (pinned.None? || pinned == Some(|relay.log|))
        decreases CAPACITY - offset
      {
        WireAt(schedule, turn);
        CalmAt(before, relay.View(), limit, schedule, turn);
        ghost var now := relay.View();
        var f := RequestPage(relay, limit, schedule(turn), offset, pinned, partial);
        LimitsAt(limit, schedule, turn, |relay.log|);
        turn := turn + 1;
        ghost var pages := given;
        given := given + [f];
        Regroup(old(relay.replies), pages, [f]);
        LoopDecides(pages, f, offset, pinned, partial, keyring);
        if calm {
          CalmGoesOn(before, now, relay.View(), f, offset);
        }
        var end, next := TakeReply(f, offset, pinned, partial);
        if end.Some? {
          return end.value, turn, given;
        }
        pinned, offset, partial := Some(f.sequence), f.next, next;
      }
    }

    /** What the loop does with one reply, whatever the reply is: the step of the
        replication runs. */
    method TakeReply(f: Frame, offset: nat, pinned: Option<nat>, partial: Messages)
      returns (end: Option<Snapshot>, next: Messages)
      ensures Resumes(OnReply(Paging(0, pinned, offset, partial), f, keyring), end, f, next)
    {
      next := partial;
      if !f.Page? {
        return Some(Failed), next;
      }
      if (pinned.Some? && f.sequence != pinned.value) || f.restart {
        return Some(Outdated), next;
      }
      if f.offset != offset || f.next < offset || f.next > CAPACITY || f.next - offset != |f.rows| {
        return Some(Failed), next;
      }
      next := AddRows(partial, f.rows, keyring);
      if f.done {
        return Some(Taken(f.sequence, next)), next;
      }
      if f.rows == [] {
        return Some(Failed), next;
      }
      end := None;
    }

    /** One `board_list` round trip, with whatever the relay does before it. */
    method FetchPage(relay: RelayBoard, limit: nat, before: Interlude, offset: nat, pinned: Option<nat>)
      returns (f: Frame, ghost end: nat)
      requires relay.Valid() && WireInterlude(before)
      modifies relay, relay.store
      ensures relay.Valid() && old(relay.log) <= relay.log && (relay.faithful ==> old(relay.faithful))
      ensures relay.subscribed == old(relay.subscribed) && relay.replies == old(relay.replies) + [f]
      ensures f == ListReply(relay.View(), List(offset, pinned), end)
      ensures f.Refused? ==> offset > |relay.store.messages| || !InLimits(limit, before.requestId, |relay.log|)
      ensures offset <= CAPACITY ==> HonestReply(relay.View(), f, offset, pinned)
      ensures Calm(old(relay.View()), limit, before) && offset <= |old(relay.store.messages)|
              && (pinned.None? || pinned == Some(|old(relay.log)|)) ==>
                Still(old(relay.View()), relay.View()) && GoodPage(relay.View(), f, offset)
    {
      ghost var r := relay.View();
      if Calm(r, limit, before) {
        CalmStands(r, limit, before);
      }
      relay.Activity(before.ops);
      f, end := relay.HandleBoardList(before.requestId, offset, pinned, limit, before.now);
      if offset <= CAPACITY {
        ListReplyHonest(relay.View(), offset, pinned, end);
      }
      hide HonestReply, ListReply;
      if !f.Refused? && (pinned.None? || pinned == Some(|relay.log|)) {
        CalmReply(relay.View(), offset, pinned, end);
      }
    }

    /** A page and the rows decoded from it. */
    method RequestPage(relay: RelayBoard, limit: nat, before: Interlude, offset: nat, pinned: Option<nat>,
                       ghost partial: Messages)
      returns (f: Frame)
      requires relay.Valid() && WireInterlude(before)
      requires Synced(relay, Paging(0, pinned, offset, partial))
      modifies relay, relay.store
      ensures relay.Valid() && old(relay.log) <= relay.log && (relay.faithful ==> old(relay.faithful))
      ensures relay.subscribed == old(relay.subscribed) && relay.replies == old(relay.replies) + [f]
      ensures offset <= CAPACITY ==> Sensible(f, offset, pinned)
      ensures relay.faithful && offset <= CAPACITY && f.Refused? ==> !InLimits(limit, before.requestId, |relay.log|)
      ensures Continues(f, offset, pinned) ==>
                var next := AddRows(partial, f.rows, keyring);
                && Synced(relay, Paging(0, Some(f.sequence), f.next, next))
                && (f.done ==> Synced(relay, Subscribing(0, f.sequence, next)))
      ensures Calm(old(relay.View()), limit, before) && offset <= |old(relay.store.messages)|
              && (pinned.None? || pinned == Some(|old(relay.log)|)) ==>
                Still(old(relay.View()), relay.View()) && GoodPage(relay.View(), f, offset)
    {
      ghost var r := relay.View();
      ghost var end;
      f, end := FetchPage(relay, limit, before, offset, pinned);
      hide HonestReply, ListReply, SyncOk, RelayOk, GoodPage, AddRows;
      if offset <= CAPACITY {
        HonestIsSensible(relay.View(), f, offset, pinned);
      }
      if relay.faithful {
        SyncExtends(r, relay.View(), Paging(0, pinned, offset, partial), keyring);
        if f.Refused? && offset <= CAPACITY {
          RefusedUnderPin(relay.View(), f, offset, pinned);
          NotPastEnd(relay.View(), offset, pinned, partial, keyring);
        }
        FaithfulReply(relay.View(), offset, pinned, end, partial, keyring);
      }
    }

    /** The conditional subscription of one attempt, and the adoption it allows. */
    method Adopt(relay: RelayBoard, before: Interlude, pinned: nat, partial: Messages) returns (ok: bool)
      requires relay.Valid() && WireInterlude(before)
      requires Synced(relay, Subscribing(0, pinned, partial))
      modifies this, relay, relay.store
      ensures relay.Valid() && old(relay.log) <= relay.log && (relay.faithful ==> old(relay.faithful))
      ensures relay.subscribed == (old(relay.subscribed) || ok)
      ensures relay.replies == old(relay.replies) + [Subscribed(ok, |relay.log|)] && (ok <==> |relay.log| == pinned)
      ensures ok && relay.faithful ==>
                View() == Replica(Readables(relay.store.messages, keyring), relay.sequence)
      ensures View() == if ok then Replica(partial, pinned) else old(View())
      ensures before.ops == [] && pinned == |old(relay.log)| ==> ok
    {
      ghost var r := relay.View();
      relay.Activity(before.ops);
      ok := relay.SubscribeBoard(pinned);
      if ok {
        if relay.faithful {
          SyncExtends(r, relay.View(), Subscribing(0, pinned, partial), keyring);
          BoardAtEnd(relay.View());
        }
        records := partial;
        sequence := pinned;
      }
    }

    /** One attempt: the snapshot, the subscription at its number, the adoption. */
    method AttemptOnce(relay: RelayBoard, limit: nat, schedule: nat -> Interlude, start: nat)
      returns (outcome: Attempted, turn: nat, ghost given: seq<Frame>)
      requires relay.Valid() && WireSchedule(schedule)
      modifies this, relay, relay.store
      ensures relay.Valid() && old(relay.log) <= relay.log && (relay.faithful ==> old(relay.faithful))
      ensures relay.subscribed == (old(relay.subscribed) || outcome.Adopted?)
      ensures if outcome.Adopted? && relay.faithful
              then View() == Replica(Readables(relay.store.messages, keyring), relay.sequence)
              else outcome.Adopted? || View() == old(View())
      ensures relay.replies == old(relay.replies) + given && AttemptShows(given, outcome, |relay.log|)
      ensures outcome.GaveUp? && relay.faithful ==> !AlwaysInLimits(limit, schedule, |relay.log|)
      ensures CalmSchedule(old(relay.View()), limit, schedule) ==> outcome.Adopted?
    {
      ghost var before := relay.View();
      hide WireSchedule, RepliedFor, SyncOk, RelayOk, Readables, Calm, CalmSchedule, Undisturbed, Overtaken;
      var snapshot;
      snapshot, turn, given := TakeSnapshot(relay, limit, schedule, start);
      CalmAt(before, before, limit, schedule, turn);
      if snapshot.Failed? {
        FailedShows(given, |relay.log|);
        return GaveUp, turn, given;
      }
      if snapshot.Outdated? {
        OutdatedShows(given, |relay.log|);
        return Again, turn, given;
      }
      WireAt(schedule, turn);
      CalmIsQuiet(before, limit, schedule(turn));
      var adopted := Adopt(relay, schedule(turn), snapshot.sequence, snapshot.records);
      SubscriptionShows(given, snapshot, adopted, |relay.log|);
      given := given + [Subscribed(adopted, |relay.log|)];
      turn := turn + 1;
      outcome := if adopted then Adopted else Again;
    }

    /** `synchronise_board`: on success the replica is the readable part of the
        relay's board at that moment; on failure it is untouched. It starts over when
        the sequence number moves, and gives up on a refusal or after five attempts. */
    method SynchroniseBoard(relay: RelayBoard, limit: nat, schedule: nat -> Interlude)
      returns (ok: bool, ghost given: seq<Frame>)
      requires relay.Valid() && WireSchedule(schedule)
      modifies this, relay, relay.store
      ensures relay.Valid() && old(relay.log) <= relay.log
      ensures ok && relay.faithful ==>
                View() == Replica(Readables(relay.store.messages, keyring), relay.sequence)
      ensures !ok ==> View() == old(View())
      ensures relay.subscribed == (old(relay.subscribed) || ok)
      ensures CalmSchedule(old(relay.View()), limit, schedule) ==> ok
      ensures relay.replies == old(relay.replies) + given
      ensures ok ==> SucceedsWithin(given, 5, |relay.log|)
      ensures !ok ==> Refused in given || Retrying(given, 5)
      ensures Refused in given ==> !ok && (relay.faithful ==> !AlwaysInLimits(limit, schedule, |relay.log|))
    {
      var turn := 0;
      given := [];
      ghost var before := relay.View();
      ghost var calm := CalmSchedule(before, limit, schedule);
      hide RelayBoard.Valid, WireSchedule, Readables, CalmSchedule, AlwaysInLimits, AttemptShows,
           Retrying, SucceedsWithin;
      NotTriedYet();
      var attempt: nat := 0;
      while attempt < 5
        invariant attempt <= 5
        invariant relay.Valid() && old(relay.log) <= relay.log && View() == old(View())
        invariant relay.subscribed == old(relay.subscribed)
        invariant calm ==> attempt == 0 && relay.View() == before
        invariant relay.replies == old(relay.replies) + given
        invariant Retrying(given, attempt)
      {
        var outcome;
        ghost var more;
        outcome, turn, more := AttemptOnce(relay, limit, schedule, turn);
        Regroup(old(relay.replies), given, more);
        AttemptExtends(given, more, attempt, outcome, |relay.log|);
        given := given + more;
        if outcome.GaveUp? {
          return false, given;
        }
        if outcome.Adopted? {
          return true, given;
        }
        attempt := attempt + 1;
      }
      ok := false;
    }
  }
}
