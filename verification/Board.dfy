/** The encrypted board: one transactional store of messages, spent message ids
    and posting cooldowns. A message id or display token is the big-endian value
    of its 16-byte blob, so the database's byte order is the order of numbers. */
module Board {
  import opened Encoding
  import opened Options

  type MessageId = nat
  type Token = nat
  type Generation = nat

  const CAPACITY: nat := 24
  const LIFETIME: nat := 86_400
  const COOLDOWN: nat := 86_400
  const MAX_CIPHERTEXT: nat := 8192

  datatype Record = Record(id: MessageId, token: Token, ciphertext: Bytes)
  datatype Row = Row(record: Record, createdAt: nat, expiresAt: nat)
  datatype Cooldown = Cooldown(lastPostAt: nat, nextPostAt: nat)

  datatype Table = Table(
    messages: map<MessageId, Row>,
    seen: map<MessageId, nat>,
    cooldowns: map<Token, Cooldown>,
    generation: Option<Generation>)

  const EMPTY: Table := Table(map[], map[], map[], None)

  datatype PostOutcome =
    | Accepted(stored: Row, removed: set<MessageId>, nextPostAt: nat)
    | Cooling(removed: set<MessageId>, nextPostAt: nat)
    | Duplicate
    | Invalid

  /** The canonical order of the board: creation time, then message id. */
  predicate Older(a: Row, b: Row) {
    a.createdAt < b.createdAt || (a.createdAt == b.createdAt && a.record.id < b.record.id)
  }

  /** Every row is stored under its own message id. */
  predicate Keyed(messages: map<MessageId, Row>) {
    forall id | id in messages :: messages[id].record.id == id
  }

  predicate IsOldest(messages: map<MessageId, Row>, id: MessageId) {
    id in messages && forall other | other in messages && other != id :: Older(messages[id], messages[other])
  }

  lemma {:induction false} OldestExists(messages: map<MessageId, Row>)
    requires Keyed(messages) && messages != map[]
    ensures exists id :: IsOldest(messages, id)
    decreases |messages|
  {
    var some :| some in messages;
    var rest := messages - {some};
    if rest == map[] {
      assert forall other | other in messages :: other == some by {
        assert forall other | other in messages && other != some :: other in rest;
      }
      assert IsOldest(messages, some);
    } else {
      OldestExists(rest);
      var id :| IsOldest(rest, id);
      assert forall other | other in messages :: other == some || other in rest;
      assert IsOldest(messages, if Older(messages[some], messages[id]) then some else id);
    }
  }

  ghost function Oldest(messages: map<MessageId, Row>): (id: MessageId)
    requires Keyed(messages) && messages != map[]
    ensures IsOldest(messages, id)
  {
    OldestExists(messages);
    var id :| IsOldest(messages, id);
    id
  }

  /** The canonical oldest-first list. */
  ghost function Listing(messages: map<MessageId, Row>): (rows: seq<Row>)
    requires Keyed(messages)
    ensures |rows| == |messages|
    decreases |messages|
  {
    if messages == map[] then []
    else
      var id := Oldest(messages);
      assert |messages - {id}| == |messages| - 1 by {
        assert (messages - {id}).Keys == messages.Keys - {id};
      }
      [messages[id]] + Listing(messages - {id})
  }

  lemma ListingUnfolds(messages: map<MessageId, Row>)
    requires Keyed(messages) && messages != map[]
    ensures var id := Oldest(messages); var rest := messages - {id};
            && Keyed(rest) && |rest| < |messages|
            && Listing(messages) == [messages[id]] + Listing(rest)
  {
    var id := Oldest(messages);
    assert (messages - {id}).Keys == messages.Keys - {id};
  }

  predicate Holds(messages: map<MessageId, Row>, r: Row) {
    r.record.id in messages && messages[r.record.id] == r
  }

  lemma {:induction false} ListingHolds(messages: map<MessageId, Row>, r: Row)
    requires Keyed(messages)
    ensures r in Listing(messages) <==> Holds(messages, r)
    decreases |messages|
  {
    if messages != map[] {
      ListingUnfolds(messages);
      ListingHolds(messages - {Oldest(messages)}, r);
    }
  }

  predicate StrictlySorted(rows: seq<Row>) {
    forall i, j | 0 <= i < j < |rows| :: Older(rows[i], rows[j])
  }

  lemma {:induction false} ListingSorted(messages: map<MessageId, Row>)
    requires Keyed(messages)
    ensures StrictlySorted(Listing(messages))
    decreases |messages|
  {
    if messages != map[] {
      ListingUnfolds(messages);
      var id := Oldest(messages);
      var rest := Listing(messages - {id});
      ListingSorted(messages - {id});
      forall j | 0 <= j < |rest|
        ensures Older(messages[id], rest[j])
      {
        ListingHolds(messages - {id}, rest[j]);
      }
    }
  }

  /** The list holds exactly the rows, each once, in strictly increasing order. */
  lemma ListingIsSorted(messages: map<MessageId, Row>)
    requires Keyed(messages)
    ensures forall r :: r in Listing(messages) <==> Holds(messages, r)
    ensures StrictlySorted(Listing(messages))
  {
    forall r {
      ListingHolds(messages, r);
    }
    ListingSorted(messages);
  }

  // -------------------------------------------------------- the transactions

  function ExpiredIds(t: Table, now: nat): set<MessageId> {
    set id | id in t.messages && t.messages[id].expiresAt <= now
  }

  /** The expiry pass every transaction starts with. */
  function Cleaned(t: Table, now: nat): Table {
    t.(messages := t.messages - ExpiredIds(t, now),
       cooldowns := map token | token in t.cooldowns && t.cooldowns[token].nextPostAt > now :: t.cooldowns[token])
  }

  /** Capacity rule: the oldest row leaves when there are more than 24. */
  ghost function Evicted(messages: map<MessageId, Row>): set<MessageId>
    requires Keyed(messages)
  {
    if |messages| > CAPACITY then {Oldest(messages)} else {}
  }

  function Fresh(record: Record, now: nat): Row {
    Row(record, now, now + LIFETIME)
  }

  /** The insertion half of a post, on a table already cleaned. */
  ghost function Inserted(c: Table, record: Record, now: nat): (t: Table)
    requires Keyed(c.messages)
    ensures Keyed(t.messages)
  {
    var grown := c.messages[record.id := Fresh(record, now)];
    Table(grown - Evicted(grown), c.seen[record.id := now],
          c.cooldowns[record.token := Cooldown(now, now + COOLDOWN)], c.generation)
  }

  /** One `post` transaction: the table it commits and the caller's outcome. */
  ghost function PostStep(t: Table, record: Record, now: nat): (Table, PostOutcome)
    requires Keyed(t.messages)
  {
    if |record.ciphertext| > MAX_CIPHERTEXT then (t, Invalid)
    else
      var c := Cleaned(t, now);
      if record.id in c.seen then (c, Duplicate)
      else if record.token in c.cooldowns && c.cooldowns[record.token].nextPostAt > now then
        (c, Cooling(ExpiredIds(t, now), c.cooldowns[record.token].nextPostAt))
      else if record.id in c.messages then (t, Duplicate)
      else
        var row := Fresh(record, now);
        (Inserted(c, record, now),
         Accepted(row, ExpiredIds(t, now) + Evicted(c.messages[record.id := row]), now + COOLDOWN))
  }

  /** The guards of a post: bounded, its id unspent, its token not cooling down. */
  predicate Admitted(t: Table, record: Record, now: nat) {
    && |record.ciphertext| <= MAX_CIPHERTEXT
    && record.id !in t.seen
    && !(record.token in t.cooldowns && t.cooldowns[record.token].nextPostAt > now)
  }

  lemma AdmittedIsAccepted(t: Table, record: Record, now: nat)
    requires Keyed(t.messages) && t.messages.Keys <= t.seen.Keys
    ensures PostStep(t, record, now).1.Accepted? <==> Admitted(t, record, now)
  {
  }

  /** What an accepted post commits and reports. */
  lemma AcceptedShape(t: Table, record: Record, now: nat)
    requires Keyed(t.messages) && PostStep(t, record, now).1.Accepted?
    ensures var c := Cleaned(t, now);
            var grown := c.messages[record.id := Fresh(record, now)];
            && record.id !in c.messages && record.id !in t.seen
            && PostStep(t, record, now).0 == Inserted(c, record, now)
            && PostStep(t, record, now).0.messages == grown - Evicted(grown)
            && PostStep(t, record, now).1
               == Accepted(Fresh(record, now), ExpiredIds(t, now) + Evicted(grown), now + COOLDOWN)
  {
  }

  /** How an insertion changes the size of the board. */
  lemma InsertShape(t: Table, record: Record, now: nat)
    requires Keyed(t.messages) && |t.messages| <= CAPACITY && record.id !in t.messages
    ensures var grown := t.messages[record.id := Fresh(record, now)];
            var after := Inserted(t, record, now).messages;
            && |grown| == |t.messages| + 1
            && (|grown| <= CAPACITY ==> after == grown)
            && (|grown| > CAPACITY ==> after == grown - {Oldest(grown)} && |after| == CAPACITY)
  {
    hide Older;
    var grown := t.messages[record.id := Fresh(record, now)];
    OneMore(t.messages, Fresh(record, now));
    if |grown| > CAPACITY {
      OneLess(grown, Oldest(grown));
    } else {
      assert grown - {} == grown;
    }
  }

  lemma OneMore(messages: map<MessageId, Row>, row: Row)
    requires row.record.id !in messages
    ensures |messages[row.record.id := row]| == |messages| + 1
  {
    assert messages[row.record.id := row].Keys == messages.Keys + {row.record.id};
  }

  lemma OneLess(messages: map<MessageId, Row>, id: MessageId)
    requires id in messages
    ensures |messages - {id}| == |messages| - 1
  {
    assert (messages - {id}).Keys == messages.Keys - {id};
  }

  function Remaining(t: Table, token: Token, now: nat): nat {
    if token !in t.cooldowns || t.cooldowns[token].nextPostAt <= now then 0
    else t.cooldowns[token].nextPostAt - now
  }

  /** Whether binding a generation clears the store. */
  predicate BindClears(t: Table, generation: Generation) {
    if t.generation.None? then t.messages != map[] || t.cooldowns != map[] || t.seen != map[]
    else t.generation.value != generation
  }

  function Bound(t: Table, generation: Generation): Table {
    if BindClears(t, generation) then Table(map[], map[], map[], Some(generation))
    else t.(generation := Some(generation))
  }

  class BoardStore {
    var messages: map<MessageId, Row>
    var seen: map<MessageId, nat>
    var cooldowns: map<Token, Cooldown>
    var generation: Option<Generation>

    function View(): Table
      reads this
    {
      Table(messages, seen, cooldowns, generation)
    }

    /** A new database file. */
    constructor ()
      ensures View() == EMPTY
    {
      messages, seen, cooldowns, generation := map[], map[], map[], None;
    }

    method BindAccessGeneration(g: Generation) returns (changed: bool)
      modifies this
      ensures View() == Bound(old(View()), g)
      ensures changed == BindClears(old(View()), g)
    {
      if generation.None? {
        changed := messages != map[] || cooldowns != map[] || seen != map[];
      } else {
        changed := generation.value != g;
      }
      if changed {
        messages := map[];
        cooldowns := map[];
        seen := map[];
      }
      generation := Some(g);
    }

    method Cleanup(now: nat) returns (removed: set<MessageId>)
      modifies this
      ensures View() == Cleaned(old(View()), now)
      ensures removed == ExpiredIds(old(View()), now)
    {
      removed := set id | id in messages && messages[id].expiresAt <= now;
      messages := messages - removed;
      cooldowns := map token | token in cooldowns && cooldowns[token].nextPostAt > now :: cooldowns[token];
    }

    /** `SELECT message_id ... ORDER BY created_at, message_id LIMIT 1` */
    static method SelectOldest(messages: map<MessageId, Row>) returns (id: MessageId)
      requires Keyed(messages) && messages != map[]
      ensures id == Oldest(messages)
    {
      id :| id in messages;
      var todo := messages.Keys - {id};
      while todo != {}
        invariant todo <= messages.Keys && id in messages && id !in todo
        invariant forall other | other in messages && other != id && other !in todo ::
                    Older(messages[id], messages[other])
        decreases |todo|
      {
        var next :| next in todo;
        if Older(messages[next], messages[id]) {
          id := next;
        }
        todo := todo - {next};
      }
      assert IsOldest(messages, id);
    }

    method ListCurrent(now: nat) returns (rows: seq<Row>, removed: set<MessageId>)
      requires Keyed(messages)
      modifies this
      ensures View() == Cleaned(old(View()), now) && Keyed(messages)
      ensures rows == Listing(messages)
      ensures removed == ExpiredIds(old(View()), now)
    {
      removed := Cleanup(now);
      rows := SelectAll(messages);
    }

    /** `SELECT ... ORDER BY created_at ASC, message_id ASC` */
    static method SelectAll(messages: map<MessageId, Row>) returns (rows: seq<Row>)
      requires Keyed(messages)
      ensures rows == Listing(messages)
    {
      rows := [];
      var left := messages;
      while left != map[]
        invariant Keyed(left)
        invariant rows + Listing(left) == Listing(messages)
        decreases |left|
      {
        var id := SelectOldest(left);
        ListingUnfolds(left);
        assert rows + ([left[id]] + Listing(left - {id})) == rows + [left[id]] + Listing(left - {id});
        rows := rows + [left[id]];
        left := left - {id};
      }
    }

    method CooldownRemaining(token: Token, now: nat) returns (seconds: nat)
      ensures seconds == Remaining(View(), token, now)
    {
      if token !in cooldowns {
        return 0;
      }
      var left := cooldowns[token].nextPostAt - now;
      seconds := if left > 0 then left else 0;
    }

    method Post(record: Record, now: nat) returns (outcome: PostOutcome)
      requires Keyed(messages)
      modifies this
      ensures Keyed(messages)
      ensures (View(), outcome) == PostStep(old(View()), record, now)
    {
      if |record.ciphertext| > MAX_CIPHERTEXT {
        return Invalid;
      }
      var saved := View();
      var removed := Cleanup(now);
      if record.id in seen {
        return Duplicate;
      }
      if record.token in cooldowns && cooldowns[record.token].nextPostAt > now {
        return Cooling(removed, cooldowns[record.token].nextPostAt);
      }
      if record.id in messages {
        // Primary-key conflict: the whole transaction rolls back.
        messages, seen, cooldowns := saved.messages, saved.seen, saved.cooldowns;
        return Duplicate;
      }
      var evicted := Insert(record, now);
      outcome := Accepted(Fresh(record, now), removed + evicted, now + COOLDOWN);
    }

    /** The three inserts and the capacity rule. */
    method Insert(record: Record, now: nat) returns (evicted: set<MessageId>)
      requires Keyed(messages)
      modifies this
      ensures Keyed(messages)
      ensures View() == Inserted(old(View()), record, now)
      ensures evicted == Evicted(old(messages)[record.id := Fresh(record, now)])
    {
      seen := seen[record.id := now];
      messages := messages[record.id := Fresh(record, now)];
      cooldowns := cooldowns[record.token := Cooldown(now, now + COOLDOWN)];
      evicted := {};
      if |messages| > CAPACITY {
        var oldest := SelectOldest(messages);
        evicted := {oldest};
      }
      messages := messages - evicted;
    }
  }

  /** The time a post reports, accepted or cooling, is when the token's cooldown ends
      in the table it leaves. */
  lemma ReportedCooldown(t: Table, record: Record, now: nat)
    requires Keyed(t.messages)
    ensures var (t', outcome) := PostStep(t, record, now);
            && (outcome.Accepted? || outcome.Cooling? ==>
                  outcome.nextPostAt == now + Remaining(t', record.token, now) > now)
            && (outcome.Accepted? ==> outcome.nextPostAt == now + 86_400)
  {
  }

  /** In every table whose stored ids are spent ids, the remaining cooldown is
      zero exactly when a post with an unspent id would be accepted then. */
  lemma RemainingZeroIffAccepted(t: Table, record: Record, now: nat)
    requires Keyed(t.messages) && t.messages.Keys <= t.seen.Keys
    requires record.id !in t.seen && |record.ciphertext| <= MAX_CIPHERTEXT
    ensures Remaining(t, record.token, now) == 0 <==> PostStep(t, record, now).1.Accepted?
    ensures !PostStep(t, record, now).1.Accepted? ==>
              PostStep(t, record, now).1 == Cooling(ExpiredIds(t, now), now + Remaining(t, record.token, now))
  {
    assert record.id !in t.messages;
  }
}
