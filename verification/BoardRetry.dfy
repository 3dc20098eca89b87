/** A synchronisation starts over when the sequence number moves, at most five
    times, and adopts the board as soon as an attempt finds the relay at rest. */
module BoardRetry {
  import opened Board
  import opened BoardEvents
  import opened BoardPublication
  import opened BoardReplica
  import opened Options

  /** The reply names another sequence number than the one this attempt started from. */
  predicate Moved(sync: Sync, f: Frame) {
    || (sync.Paging? && f.Page? && (f.restart || (sync.snapshot.Some? && f.sequence != sync.snapshot.value)))
    || (sync.Subscribing? && f.Subscribed? && !(f.ok && f.sequence == sync.pinned))
  }

  /** Starting over happens exactly on such a reply, from nothing, and not after the
      fifth attempt; adopting exactly on a grant at the pinned number. */
  lemma RetriesExactly(sync: Sync, f: Frame, k: Keyring)
    requires !sync.Idle?
    ensures var turn := OnReply(sync, f, k);
            && (Moved(sync, f) && sync.attempt < 4 ==>
                  turn == Turn(Paging(sync.attempt + 1, None, 0, map[]), Some(List(0, None)), None))
            && (Moved(sync, f) && sync.attempt >= 4 ==> turn == Turn(Idle, None, None))
            && (!Moved(sync, f) && !turn.sync.Idle? ==> turn.sync.attempt == sync.attempt)
            && (!Moved(sync, f) && !turn.sync.Idle? <==>
                  && sync.Paging? && f.Page? && !f.restart && sync.snapshot in {None, Some(f.sequence)}
                  && f.offset == sync.offset && f.next == f.offset + |f.rows| <= CAPACITY && (f.done || f.rows != []))
            && (turn.adopt.Some? <==> sync.Subscribing? && f == Subscribed(true, sync.pinned))
            && (turn.adopt.Some? ==> turn.adopt.value == Replica(sync.partial, sync.pinned) && turn.sync.Idle?)
  {
  }

  /** One served page: the clock at the relay and where the page ends. */
  datatype Round = Round(now: nat, next: nat)

  function PageRound(r: Round): seq<Action> {
    [ServeList(r.now, r.next), Read, Resume]
  }

  const SUBSCRIBE_ROUND: seq<Action> := [ServeSubscribe, Read, Resume]

  function Rounds(rounds: seq<Round>): seq<Action> {
    if rounds == [] then SUBSCRIBE_ROUND else PageRound(rounds[0]) + Rounds(rounds[1..])
  }

  /** Nothing expires while the pages are served, and they lead to the end. */
  ghost predicate AtRest(m: Messages, offset: nat, rounds: seq<Round>)
    decreases |rounds|
  {
    && rounds != []
    && (forall id | id in m :: m[id].expiresAt > rounds[0].now)
    && offset <= rounds[0].next <= |m|
    && if rounds[0].next == |m| then |rounds| == 1
       else offset < rounds[0].next && AtRest(m, rounds[0].next, rounds[1..])
  }

  /** The connection waits for one answer. */
  ghost predicate Asking(s: System, request: Request, k: Keyring) {
    && Inv(s, k) && s.held.None? && s.slot.None? && s.toClient == [] && s.requests == [request]
  }

  ghost predicate AskingFrom(s: System, pinned: Option<nat>, offset: nat, k: Keyring) {
    && Asking(s, List(offset, pinned), k)
    && s.client.sync.Paging? && s.client.sync.snapshot == pinned && s.client.sync.offset == offset
    && pinned in {None, Some(|s.relay.log|)} && offset <= |s.relay.table.messages|
  }

  ghost predicate AskingGrant(s: System, k: Keyring) {
    && Asking(s, Subscribe(|s.relay.log|), k)
    && s.client.sync.Subscribing? && s.client.sync.pinned == |s.relay.log|
  }

  /** Of the relay, only what is swept from the table besides the board may differ. */
  ghost predicate Resting(s: System, s': System) {
    && s'.relay.table.messages == s.relay.table.messages && s'.relay.log == s.relay.log
  }

  /** The synchronisation goes on, for the same reason. */
  predicate GoesOn(s: System, s': System) {
    s'.client.byResync == s.client.byResync && s'.client.resync == s.client.resync
  }

  /** The end of a resync task makes room for the next one. */
  predicate Ended(s: System, s': System) {
    !s'.client.byResync && s'.client.resync == (s.client.resync && !s.client.byResync)
  }

  ghost predicate Adopted(s: System, s': System, k: Keyring) {
    && Resting(s, s') && s'.subscribed && s'.client.synced && s'.client.sync.Idle?
    && s'.client.replica == Replica(Readables(s.relay.table.messages, k), |s.relay.log|)
    && Ended(s, s')
  }

  lemma NothingSwept(s: System, now: nat)
    requires Keyed(s.relay.table.messages)
    requires forall id | id in s.relay.table.messages :: s.relay.table.messages[id].expiresAt > now
    ensures Resting(s, Operate(s, Expire(now))) && Operate(s, Expire(now)).toClient == s.toClient
    ensures Operate(s, Expire(now)).(relay := s.relay) == s
  {
    assert ExpiredIds(s.relay.table, now) == {};
  }

  lemma InvKeyed(s: System, k: Keyring)
    requires Inv(s, k)
    ensures Keyed(s.relay.table.messages) && TableOk(s.relay.table)
  {
  }

  /** Steps that publish nothing and label nothing keep the invariant. */
  lemma PlainKeeps(s: System, a: Action, k: Keyring)
    requires Inv(s, k) && (a.Read? || a.Resume? || a.ServeList? || a.ServeSubscribe?)
    ensures Inv(Next(s, a, k), k)
  {
    hide Next, SyncOk, Consistent, Truthful, HeldOk;
    NextKeeps(s, a, k);
  }

  lemma ResumedOn(s: System, k: Keyring)
    requires Keyed(s.relay.table.messages) && s.slot.Some? && !s.client.sync.Idle?
    ensures var turn := OnReply(s.client.sync, s.slot.value, k);
            Next(s, Resume, k)
            == s.(slot := None, requests := Queue(s.requests, turn.send), client := Resumed(s.client, turn))
  {
    hide OnReply, Resumed, Queue, OnEvent, Operate, ListReply, PageReply, Rotated;
  }

  /** Reading one waiting reply and resuming on it. */
  lemma ReadAndResume(s: System, f: Frame, k: Keyring)
    requires Keyed(s.relay.table.messages) && s.toClient == [f] && !f.Pushed? && !s.client.sync.Idle?
    requires s.slot.None?
    ensures var turn := OnReply(s.client.sync, f, k);
            Next(Next(s, Read, k), Resume, k)
            == s.(toClient := [], requests := Queue(s.requests, turn.send), client := Resumed(s.client, turn))
  {
    hide OnReply, Resumed, Queue, OnEvent, Operate, ListReply, PageReply, Rotated;
    assert Next(s, Read, k) == s.(toClient := [], slot := Some(f));
  }

  ghost function PageOf(r: Relay, offset: nat, next: nat): Frame
    requires Keyed(r.table.messages) && offset <= next <= |r.table.messages|
  {
    ListingIsSorted(r.table.messages);
    Page(|r.log|, false, offset, next, next == |r.table.messages|, Listing(r.table.messages)[offset..next])
  }

  lemma PageServed(s: System, pinned: Option<nat>, offset: nat, r: Round, k: Keyring)
    requires AskingFrom(s, pinned, offset, k)
    requires forall id | id in s.relay.table.messages :: s.relay.table.messages[id].expiresAt > r.now
    requires offset <= r.next <= |s.relay.table.messages| && (r.next > offset || r.next == |s.relay.table.messages|)
    ensures var s' := Next(s, ServeList(r.now, r.next), k);
            && Resting(s, s') && Inv(s', k) && s'.requests == []
            && s'.toClient == [PageOf(s.relay, offset, r.next)]
            && s' == s.(relay := s'.relay, requests := [], toClient := s'.toClient)
  {
    hide RelayStep, ListReply, Inv, Operate, PageReply, OnReply, OnEvent, Resumed;
    InvKeyed(s, k);
    PlainKeeps(s, ServeList(r.now, r.next), k);
    NothingSwept(s, r.now);
    PageFits(s, pinned, offset, r.next);
  }

  lemma PageFits(s: System, pinned: Option<nat>, offset: nat, next: nat)
    requires Keyed(s.relay.table.messages) && TableOk(s.relay.table) && pinned in {None, Some(|s.relay.log|)}
    requires offset <= next <= |s.relay.table.messages| && (next > offset || next == |s.relay.table.messages|)
    ensures offset <= CAPACITY
    ensures forall r: Relay | r.table.messages == s.relay.table.messages && r.log == s.relay.log ::
              ListReply(r, List(offset, pinned), next) == PageOf(s.relay, offset, next)
  {
    ListingIsSorted(s.relay.table.messages);
  }

  lemma PageResumed(s: System, offset: nat, next: nat, k: Keyring)
    requires Inv(s, k) && s.held.None? && s.slot.None? && s.requests == []
    requires offset <= next <= |s.relay.table.messages| && (next > offset || next == |s.relay.table.messages|)
    requires s.toClient == [PageOf(s.relay, offset, next)]
    requires s.client.sync.Paging? && s.client.sync.offset == offset
    requires s.client.sync.snapshot in {None, Some(|s.relay.log|)}
    ensures var s' := Next(Next(s, Read, k), Resume, k);
            && Resting(s, s') && GoesOn(s, s')
            && if next == |s.relay.table.messages| then AskingGrant(s', k)
               else AskingFrom(s', Some(|s.relay.log|), next, k)
  {
    hide Inv, Next, AddRows, Keyed, CleanAction;
    InvKeyed(s, k);
    PlainKeeps(s, Read, k);
    PlainKeeps(Next(s, Read, k), Resume, k);
    ListingIsSorted(s.relay.table.messages);
    ReadAndResume(s, PageOf(s.relay, offset, next), k);
  }

  lemma PageAtRest(s: System, pinned: Option<nat>, offset: nat, r: Round, k: Keyring)
    requires AskingFrom(s, pinned, offset, k)
    requires forall id | id in s.relay.table.messages :: s.relay.table.messages[id].expiresAt > r.now
    requires offset <= r.next <= |s.relay.table.messages| && (r.next > offset || r.next == |s.relay.table.messages|)
    ensures var s' := Next(Next(Next(s, ServeList(r.now, r.next), k), Read, k), Resume, k);
            && Resting(s, s') && GoesOn(s, s')
            && if r.next == |s.relay.table.messages| then AskingGrant(s', k)
               else AskingFrom(s', Some(|s.relay.log|), r.next, k)
  {
    hide Next, Inv, AskingGrant;
    PageServed(s, pinned, offset, r, k);
    PageResumed(Next(s, ServeList(r.now, r.next), k), offset, r.next, k);
  }

  lemma GrantServed(s: System, k: Keyring)
    requires Keyed(s.relay.table.messages) && AskingGrant(s, k)
    ensures var s' := Next(s, ServeSubscribe, k);
            && s'.relay == s.relay && s'.toClient == [Subscribed(true, |s.relay.log|)] && s'.subscribed
            && s'.requests == [] && s'.slot.None? && s'.client == s.client
  {
    hide Inv, Keyed, OnReply, OnEvent, Operate, ListReply, PageReply, Resumed, Rotated, Queue;
  }

  lemma GrantAtRest(s: System, k: Keyring)
    requires AskingGrant(s, k)
    ensures Adopted(s, Next(Next(Next(s, ServeSubscribe, k), Read, k), Resume, k), k)
  {
    GrantedIsBoard(s, k);
    GrantServed(s, k);
    hide Inv, Next, Keyed, Readables, OnReply, Resumed;
    var f := Subscribed(true, |s.relay.log|);
    ReadAndResume(Next(s, ServeSubscribe, k), f, k);
    RetriesExactly(s.client.sync, f, k);
    Adopts(s.client, OnReply(s.client.sync, f, k));
  }

  lemma Adopts(c: Client, turn: Turn)
    requires turn.adopt.Some? && turn.sync.Idle?
    ensures var c' := Resumed(c, turn);
            && c'.synced && c'.sync.Idle? && c'.replica == turn.adopt.value
            && !c'.byResync && c'.resync == (c.resync && !c.byResync)
  {
  }

  lemma GrantedIsBoard(s: System, k: Keyring)
    requires Inv(s, k) && s.client.sync.Subscribing? && s.client.sync.pinned == |s.relay.log|
    ensures Keyed(s.relay.table.messages) && s.client.sync.partial == Readables(s.relay.table.messages, k)
  {
    BoardAtEnd(s.relay);
  }

  lemma RunThree(s: System, a: Action, b: Action, c: Action, k: Keyring)
    requires Keyed(s.relay.table.messages)
    ensures Run(s, [a, b, c], k) == Next(Next(Next(s, a, k), b, k), c, k)
  {
    hide Next, Run;
    RunOne(s, a, k);
    RunOne(Next(s, a, k), b, k);
    RunOne(Next(Next(s, a, k), b, k), c, k);
    RunAppend(s, [a], [b], k);
    RunAppend(s, [a] + [b], [c], k);
    assert [a, b, c] == [a] + [b] + [c];
  }

  lemma {:induction false} RestAdopts(s: System, pinned: Option<nat>, offset: nat, rounds: seq<Round>, k: Keyring)
    requires AskingFrom(s, pinned, offset, k) && AtRest(s.relay.table.messages, offset, rounds)
    ensures Adopted(s, Run(s, Rounds(rounds), k), k)
    decreases |rounds|
  {
    hide Next, AskingFrom, AskingGrant, Inv;
    PageAtRest(s, pinned, offset, rounds[0], k);
    RunThree(s, ServeList(rounds[0].now, rounds[0].next), Read, Resume, k);
    var s' := Run(s, PageRound(rounds[0]), k);
    RunAppend(s, PageRound(rounds[0]), Rounds(rounds[1..]), k);
    if rounds[0].next == |s.relay.table.messages| {
      assert rounds[1..] == [];
      RunThree(s', ServeSubscribe, Read, Resume, k);
      GrantAtRest(s', k);
    } else {
      RestAdopts(s', Some(|s.relay.log|), rounds[0].next, rounds[1..], k);
    }
  }

  /** A client whose attempt was overtaken, with the reply that says so at hand. */
  ghost predicate JustOvertaken(s: System, k: Keyring) {
    && Inv(s, k) && s.held.None? && s.toClient == [] && s.requests == []
    && !s.client.sync.Idle? && s.slot.Some? && Moved(s.client.sync, s.slot.value)
  }

  lemma StartsOver(s: System, k: Keyring)
    requires JustOvertaken(s, k) && s.client.sync.attempt < 4
    ensures AskingFrom(Next(s, Resume, k), None, 0, k) && Next(s, Resume, k).relay == s.relay
    ensures GoesOn(s, Next(s, Resume, k))
  {
    hide Next, Inv, OnReply;
    NextKeeps(s, Resume, k);
    InvKeyed(s, k);
    ResumedOn(s, k);
    RetriesExactly(s.client.sync, s.slot.value, k);
  }

  /** However many attempts were overtaken, up to four: if the relay rests from then
      on, the next attempt adopts its board. */
  lemma OvertakenThenAdopts(s: System, rounds: seq<Round>, k: Keyring)
    requires JustOvertaken(s, k) && s.client.sync.attempt < 4 && AtRest(s.relay.table.messages, 0, rounds)
    ensures Adopted(s, Run(s, [Resume] + Rounds(rounds), k), k)
  {
    StartsOver(s, k);
    hide Next, Inv, AskingFrom, Readables;
    InvKeyed(s, k);
    RunOne(s, Resume, k);
    RunAppend(s, [Resume], Rounds(rounds), k);
    RestAdopts(Next(s, Resume, k), None, 0, rounds, k);
  }

  /** The fifth attempt to be overtaken is the last, and leaves the replica as it was. */
  lemma FifthOvertakenGivesUp(s: System, k: Keyring)
    requires JustOvertaken(s, k) && s.client.sync.attempt >= 4
    ensures var s' := Next(s, Resume, k);
            && s'.client.sync.Idle? && s'.requests == [] && s'.client.replica == s.client.replica
            && s'.client.synced == s.client.synced && Ended(s, s')
  {
  }

  /** An idle client with nothing on the way. */
  ghost predicate AtEase(s: System, k: Keyring) {
    && Inv(s, k) && s.held.None? && s.slot.None? && s.toClient == [] && s.requests == []
    && s.client.sync.Idle?
  }

  lemma StartAsks(s: System, byResync: bool, k: Keyring)
    requires AtEase(s, k) && (byResync ==> s.client.resync)
    ensures var s' := Next(s, Start(byResync), k);
            && AskingFrom(s', None, 0, k) && s'.relay == s.relay
            && s'.client.byResync == byResync && s'.client.resync == s.client.resync
  {
    hide SyncOk, Consistent, Truthful, HeldOk, RelayOk, Fold, Readables, Keyed;
    NextKeeps(s, Start(byResync), k);
    assert s.requests + [List(0, None)] == [List(0, None)];
  }

  /** A synchronisation started while the relay rests adopts its board; a resync that a
      gap asked for may be started, and is over then. */
  lemma StartAdopts(s: System, byResync: bool, rounds: seq<Round>, k: Keyring)
    requires AtEase(s, k) && (byResync ==> s.client.resync) && AtRest(s.relay.table.messages, 0, rounds)
    ensures var s' := Run(s, [Start(byResync)] + Rounds(rounds), k);
            Adopted(Next(s, Start(byResync), k), s', k) && Resting(s, s')
            && s'.client.resync == (s.client.resync && !byResync)
  {
    StartAsks(s, byResync, k);
    hide Next, Inv, AskingFrom;
    InvKeyed(s, k);
    RunOne(s, Start(byResync), k);
    RunAppend(s, [Start(byResync)], Rounds(rounds), k);
    RestAdopts(Next(s, Start(byResync), k), None, 0, rounds, k);
  }
}
