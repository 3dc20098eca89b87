/** What the store promises over whole runs, stated on the history of accepted
    posts alone: which rows are listed, and which posts are accepted. */
module BoardHistory {
  import opened Board
  import opened Options

  datatype Op =
    | Post(record: Record, now: nat)
    | Sweep(now: nat)                // list_current, cleanup
    | Bind(generation: Generation)

  /** A store, the rows it accepted in the bound generation, those of them that no
      expiry pass at or after their expiry has met since, and the time of the last
      pass. */
  datatype World = World(table: Table, accepted: set<Row>, unswept: set<Row>, clock: nat)

  const START: World := World(EMPTY, {}, {}, 0)

  function Unexpired(rows: set<Row>, now: nat): set<Row> {
    set r | r in rows && r.expiresAt > now
  }

  function AfterPass(w: World, now: nat): World {
    World(Cleaned(w.table, now), w.accepted, Unexpired(w.unswept, now), now)
  }

  ghost function Step(w: World, op: Op): (w': World)
    requires Keyed(w.table.messages)
    ensures Keyed(w'.table.messages)
  {
    match op
    case Sweep(now) => AfterPass(w, now)
    case Bind(generation) =>
      if BindClears(w.table, generation) then World(Bound(w.table, generation), {}, {}, w.clock)
      else w.(table := Bound(w.table, generation))
    case Post(record, now) =>
      var (table, outcome) := PostStep(w.table, record, now);
      if outcome.Invalid? then w.(table := table)
      else
        var posted := if outcome.Accepted? then {outcome.stored} else {};
        World(table, w.accepted + posted, Unexpired(w.unswept, now) + posted, now)
  }

  ghost function Run(w: World, ops: seq<Op>): (w': World)
    requires Keyed(w.table.messages)
    ensures Keyed(w'.table.messages)
  {
    if ops == [] then w else Step(Run(w, ops[..|ops| - 1]), ops[|ops| - 1])
  }

  /** The clock the operations read never goes back. */
  predicate InOrder(clock: nat, op: Op) {
    op.Bind? || op.now >= clock
  }

  ghost predicate Ordered(ops: seq<Op>) {
    ops == [] || (Ordered(ops[..|ops| - 1]) && InOrder(Run(START, ops[..|ops| - 1]).clock, ops[|ops| - 1]))
  }

  // ------------------------------------------------------- the specification

  ghost function NewerThan(r: Row, accepted: set<Row>): set<Row> {
    set q | q in accepted && Older(r, q)
  }

  /** The rows a reader must see at `clock`: among the 24 newest accepted posts,
      those that have not expired. */
  ghost predicate Visible(r: Row, accepted: set<Row>, clock: nat) {
    r in accepted && |NewerThan(r, accepted)| < CAPACITY && r.expiresAt > clock
  }

  ghost predicate SpentIn(id: MessageId, accepted: set<Row>) {
    exists r :: r in accepted && r.record.id == id
  }

  /** The token has an accepted post less than one cooldown old. */
  ghost predicate CoolingIn(token: Token, accepted: set<Row>, now: nat) {
    exists r :: r in accepted && r.record.token == token && r.createdAt + COOLDOWN > now
  }

  // ----------------------------------------------------------- the invariant

  ghost predicate Listed(w: World, r: Row) {
    Holds(w.table.messages, r)
  }

  predicate SameId(r: Row, q: Row) {
    r.record.id == q.record.id
  }

  /** Accepted rows: one lifetime each, spent and distinct ids. */
  ghost predicate History(w: World) {
    && (forall r | r in w.accepted :: r.expiresAt == r.createdAt + LIFETIME)
    && (forall r, q {:trigger SameId(r, q)} | r in w.accepted && q in w.accepted && SameId(r, q) :: r == q)
    && (forall id :: id in w.table.seen <==> SpentIn(id, w.accepted))
  }

  /** Listed rows are unswept, and an unswept row is missing only because 24 newer
      rows are listed. */
  ghost predicate Listings(w: World) {
    && Keyed(w.table.messages)
    && |w.table.messages| <= CAPACITY
    && w.unswept <= w.accepted
    && (forall id | id in w.table.messages :: w.table.messages[id] in w.unswept)
    && (forall q | q in w.unswept && q.record.id !in w.table.messages :: Outranked(w, q))
  }

  ghost predicate Outranked(w: World, q: Row) {
    && |w.table.messages| == CAPACITY
    && forall id | id in w.table.messages :: Older(q, w.table.messages[id])
  }

  /** Under a clock that never goes back the unswept rows are the unexpired ones. */
  ghost predicate Clocked(w: World) {
    && (forall r | r in w.accepted :: r.createdAt <= w.clock)
    && w.unswept == Unexpired(w.accepted, w.clock)
  }

  /** Cooldown rows mirror the last accepted post of their token. */
  ghost predicate Cooldowns(w: World) {
    && (forall token | token in w.table.cooldowns ::
          w.table.cooldowns[token].nextPostAt > w.clock
          && Mirrored(token, w.table.cooldowns[token].nextPostAt, w.accepted))
    && (forall r | r in w.accepted && r.createdAt + COOLDOWN > w.clock ::
          r.record.token in w.table.cooldowns
          && w.table.cooldowns[r.record.token].nextPostAt == r.createdAt + COOLDOWN)
  }

  ghost predicate Spaced(r: Row, q: Row) {
    r.createdAt + COOLDOWN <= q.createdAt || q.createdAt + COOLDOWN <= r.createdAt
  }

  ghost predicate Spacing(w: World) {
    forall r, q {:trigger Spaced(r, q)} |
      r in w.accepted && q in w.accepted && r != q && r.record.token == q.record.token :: Spaced(r, q)
  }

  /** What holds whatever the clock does. */
  ghost predicate Core(w: World) {
    History(w) && Listings(w)
  }

  ghost predicate Inv(w: World) {
    Core(w) && Clocked(w) && Cooldowns(w) && Spacing(w)
  }

  // ------------------------------------------------------------ preservation

  lemma PassKeepsCore(w: World, now: nat)
    requires Core(w)
    ensures Core(AfterPass(w, now))
  {
    var w' := AfterPass(w, now);
    var before, after := w.table.messages, w'.table.messages;
    assert after.Keys <= before.Keys;
    CardinalityMonotone(after.Keys, before.Keys);
    forall q | q in w'.unswept && q.record.id !in after
      ensures Outranked(w', q)
    {
      assert q.record.id !in before by {
        if q.record.id in before {
          assert SameId(before[q.record.id], q);
        }
      }
      assert Outranked(w, q);
      // Everything listed is newer than an unexpired row, so nothing was swept.
      assert forall id | id in before :: before[id].expiresAt >= q.expiresAt;
      assert after == before;
    }
  }

  lemma PassKeeps(w: World, now: nat)
    requires Inv(w) && now >= w.clock
    ensures Inv(AfterPass(w, now))
  {
    hide History, Listings, Clocked, Cooldowns, Spacing;
    PassKeepsCore(w, now);
    PassClock(w, now);
    PassCooldowns(w, now);
    PassSpacing(w, now);
  }

  lemma PassClock(w: World, now: nat)
    requires Clocked(w) && now >= w.clock
    ensures Clocked(AfterPass(w, now))
  {
  }

  lemma PassCooldowns(w: World, now: nat)
    requires Cooldowns(w) && now >= w.clock
    ensures Cooldowns(AfterPass(w, now))
  {
  }

  lemma PassSpacing(w: World, now: nat)
    requires Spacing(w)
    ensures Spacing(AfterPass(w, now))
  {
  }

  lemma {:induction false} CardinalityMonotone<T>(a: set<T>, b: set<T>)
    requires a <= b
    ensures |a| <= |b|
    ensures |a| == |b| ==> a == b
    decreases a
  {
    if a != {} {
      var x :| x in a;
      CardinalityMonotone(a - {x}, b - {x});
      assert a == (a - {x}) + {x} && b == (b - {x}) + {x};
    }
  }

  /** An accepted post, on a store swept at the same time. */
  ghost function AfterInsert(w: World, record: Record): World
    requires Keyed(w.table.messages)
  {
    var row := Fresh(record, w.clock);
    World(Inserted(w.table, record, w.clock), w.accepted + {row}, w.unswept + {row}, w.clock)
  }

  lemma InsertKeepsCore(w: World, record: Record)
    requires Core(w) && record.id !in w.table.seen
    ensures record.id !in w.table.messages && Core(AfterInsert(w, record))
  {
    ListedAreSpent(w, record.id);
    InsertHistory(w, record, AfterInsert(w, record));
    InsertListings(w, record, AfterInsert(w, record));
  }

  lemma InsertKeeps(w: World, record: Record)
    requires Inv(w)
    requires record.id !in w.table.seen && record.token !in w.table.cooldowns
    ensures Inv(AfterInsert(w, record))
  {
    hide History;
    var w' := AfterInsert(w, record);
    InsertKeepsCore(w, record);
    InsertClock(w, record, w');
    InsertCooldowns(w, record, w');
    InsertSpacing(w, record, w');
  }

  lemma InsertClock(w: World, record: Record, w': World)
    requires Clocked(w) && w'.clock == w.clock
    requires w'.accepted == w.accepted + {Fresh(record, w.clock)}
    requires w'.unswept == w.unswept + {Fresh(record, w.clock)}
    ensures Clocked(w')
  {
  }

  lemma ListedAreSpent(w: World, id: MessageId)
    requires History(w) && Listings(w)
    ensures id in w.table.messages ==> id in w.table.seen
  {
    if id in w.table.messages {
      assert w.table.messages[id] in w.accepted;
      assert SpentIn(id, w.accepted);
    }
  }

  lemma InsertSpacing(w: World, record: Record, w': World)
    requires Cooldowns(w) && Spacing(w) && record.token !in w.table.cooldowns
    requires w'.accepted == w.accepted + {Fresh(record, w.clock)}
    ensures Spacing(w')
  {
    var row := Fresh(record, w.clock);
    forall r, q | r in w'.accepted && q in w'.accepted && r != q && r.record.token == q.record.token
      ensures Spaced(r, q)
    {
      if r != row && q != row {
        assert Spaced(r, q);
      } else if r == row {
        assert q in w.accepted;
      } else {
        assert r in w.accepted;
      }
    }
  }

  lemma InsertHistory(w: World, record: Record, w': World)
    requires History(w) && record.id !in w.table.seen && Keyed(w.table.messages)
    requires w' == AfterInsert(w, record)
    ensures History(w')
  {
    var row := Fresh(record, w.clock);
    forall id
      ensures id in w'.table.seen <==> SpentIn(id, w'.accepted)
    {
      if id == record.id {
        assert row in w'.accepted && row.record.id == id;
      } else if SpentIn(id, w.accepted) {
        var r :| r in w.accepted && r.record.id == id;
        assert r in w'.accepted;
      }
    }
    forall r, q | r in w'.accepted && q in w'.accepted && SameId(r, q)
      ensures r == q
    {
      assert r in w.accepted ==> SpentIn(r.record.id, w.accepted);
      assert q in w.accepted ==> SpentIn(q.record.id, w.accepted);
    }
  }

  lemma InsertListings(w: World, record: Record, w': World)
    requires Listings(w) && History(w') && record.id !in w.table.messages
    requires w' == AfterInsert(w, record)
    ensures Listings(w')
  {
    var before := w.table.messages;
    var grown := before[record.id := Fresh(record, w.clock)];
    InsertShape(w.table, record, w.clock);
    assert forall id | id in grown :: grown[id] in w'.unswept;
    if |grown| > CAPACITY {
      forall q | q in w'.unswept && q.record.id !in w'.table.messages
        ensures Outranked(w', q)
      {
        EvictionOutranks(w, Fresh(record, w.clock), w', q);
      }
    }
  }

  lemma EvictionOutranks(w: World, row: Row, w': World, q: Row)
    requires Listings(w) && History(w') && row.record.id !in w.table.messages
    requires w'.unswept == w.unswept + {row} && w'.unswept <= w'.accepted && |w.table.messages| == CAPACITY
    requires var grown := w.table.messages[row.record.id := row];
             grown != map[] && w'.table.messages == grown - {Oldest(grown)} && |w'.table.messages| == CAPACITY
    requires q in w'.unswept && q.record.id !in w'.table.messages
    ensures Outranked(w', q)
  {
    var grown := w.table.messages[row.record.id := row];
    if q.record.id in grown {
      assert SameId(q, grown[Oldest(grown)]);
    } else {
      assert Outranked(w, q);
      OutrankedStays(w.table.messages, row, q);
    }
  }

  /** A row older than everything listed stays older than what eviction leaves. */
  lemma OutrankedStays(before: map<MessageId, Row>, row: Row, q: Row)
    requires Keyed(before) && row.record.id !in before && before != map[]
    requires forall id | id in before :: Older(q, before[id])
    ensures var grown := before[row.record.id := row];
            forall id | id in grown && id != Oldest(grown) :: Older(q, grown[id])
  {
    var grown := before[row.record.id := row];
    if !Older(q, row) {
      assert IsOldest(grown, row.record.id);
    }
  }

  ghost predicate Mirrored(token: Token, nextPostAt: nat, accepted: set<Row>) {
    exists r :: r in accepted && r.record.token == token && r.createdAt + COOLDOWN == nextPostAt
  }

  lemma MirroredGrows(token: Token, nextPostAt: nat, accepted: set<Row>, row: Row)
    requires Mirrored(token, nextPostAt, accepted)
    ensures Mirrored(token, nextPostAt, accepted + {row})
  {
    var r :| r in accepted && r.record.token == token && r.createdAt + COOLDOWN == nextPostAt;
    assert r in accepted + {row};
  }

  lemma InsertCooldowns(w: World, record: Record, w': World)
    requires Cooldowns(w) && record.token !in w.table.cooldowns
    requires w'.clock == w.clock && w'.accepted == w.accepted + {Fresh(record, w.clock)}
    requires w'.table.cooldowns == w.table.cooldowns[record.token := Cooldown(w.clock, w.clock + COOLDOWN)]
    ensures Cooldowns(w')
  {
    var row := Fresh(record, w.clock);
    var before, after := w.table.cooldowns, w'.table.cooldowns;
    forall token | token in after
      ensures after[token].nextPostAt > w'.clock && Mirrored(token, after[token].nextPostAt, w'.accepted)
    {
      if token == record.token {
        assert row in w'.accepted && row.record.token == token;
      } else {
        assert token in before;
        MirroredGrows(token, before[token].nextPostAt, w.accepted, row);
      }
    }
    forall r | r in w'.accepted && r.createdAt + COOLDOWN > w'.clock
      ensures r.record.token in after && after[r.record.token].nextPostAt == r.createdAt + COOLDOWN
    {
      if r != row {
        assert r in w.accepted && r.record.token in before;
      }
    }
  }

  /** The branches of a post on a store whose listed ids are spent. */
  lemma PostBranches(w: World, record: Record, now: nat)
    requires Keyed(w.table.messages) && |record.ciphertext| <= MAX_CIPHERTEXT
    requires record.id in w.table.messages ==> record.id in w.table.seen
    ensures var c := AfterPass(w, now);
            Step(w, Post(record, now)) ==
            if record.id in w.table.seen || record.token in c.table.cooldowns then c else AfterInsert(c, record)
  {
    assert w.accepted + {} == w.accepted && Unexpired(w.unswept, now) + {} == Unexpired(w.unswept, now);
  }

  lemma PostKeepsCore(w: World, record: Record, now: nat)
    requires Core(w)
    ensures Core(Step(w, Post(record, now)))
  {
    if |record.ciphertext| <= MAX_CIPHERTEXT {
      var c := AfterPass(w, now);
      PassKeepsCore(w, now);
      ListedAreSpent(w, record.id);
      PostBranches(w, record, now);
      if record.id !in c.table.seen && record.token !in c.table.cooldowns {
        InsertKeepsCore(c, record);
      }
    }
  }

  lemma PostKeeps(w: World, record: Record, now: nat)
    requires Inv(w) && now >= w.clock
    ensures Inv(Step(w, Post(record, now)))
  {
    if |record.ciphertext| <= MAX_CIPHERTEXT {
      var c := AfterPass(w, now);
      PassKeeps(w, now);
      ListedAreSpent(w, record.id);
      PostBranches(w, record, now);
      if record.id !in c.table.seen && record.token !in c.table.cooldowns {
        InsertKeeps(c, record);
      }
    }
  }

  lemma BindKeepsCore(w: World, generation: Generation)
    requires Core(w)
    ensures Core(Step(w, Bind(generation)))
  {
    if !BindClears(w.table, generation) {
      var w' := w.(table := Bound(w.table, generation));
      forall q | q in w.unswept && q.record.id !in w.table.messages
        ensures Outranked(w', q)
      {
        assert Outranked(w, q);
      }
    }
  }

  lemma BindKeeps(w: World, generation: Generation)
    requires Inv(w)
    ensures Inv(Step(w, Bind(generation)))
  {
    hide Core;
    BindKeepsCore(w, generation);
  }

  lemma StepKeepsCore(w: World, op: Op)
    requires Core(w)
    ensures Core(Step(w, op))
  {
    match op
    case Sweep(now) => PassKeepsCore(w, now);
    case Bind(generation) => BindKeepsCore(w, generation);
    case Post(record, now) => PostKeepsCore(w, record, now);
  }

  lemma StepKeeps(w: World, op: Op)
    requires Inv(w) && InOrder(w.clock, op)
    ensures Inv(Step(w, op))
  {
    match op
    case Sweep(now) => PassKeeps(w, now);
    case Bind(generation) => BindKeeps(w, generation);
    case Post(record, now) => PostKeeps(w, record, now);
  }

  lemma {:induction false} RunKeepsCore(ops: seq<Op>)
    ensures Core(Run(START, ops))
  {
    if ops != [] {
      RunKeepsCore(ops[..|ops| - 1]);
      StepKeepsCore(Run(START, ops[..|ops| - 1]), ops[|ops| - 1]);
    }
  }

  lemma {:induction false} RunKeeps(ops: seq<Op>)
    requires Ordered(ops)
    ensures Inv(Run(START, ops))
  {
    if ops != [] {
      RunKeeps(ops[..|ops| - 1]);
      StepKeeps(Run(START, ops[..|ops| - 1]), ops[|ops| - 1]);
    } else {
      assert Keyed(START.table.messages);
    }
  }

  // ---------------------------------------------------------------- theorems

  /** Whatever the clock does, the listed rows are exactly the 24 newest of the
      unswept ones: eviction needs no clock, and a row is lost to expiry only by a
      pass at or after its expiry. */
  lemma {:induction false} AnyClockRefinement(ops: seq<Op>)
    ensures var w := Run(START, ops);
            && (forall r :: r in Listing(w.table.messages)
                            <==> r in w.unswept && |NewerThan(r, w.unswept)| < CAPACITY)
            && StrictlySorted(Listing(w.table.messages))
  {
    RunKeepsCore(ops);
    var w := Run(START, ops);
    ListingIsSorted(w.table.messages);
    forall r
      ensures Listed(w, r) <==> r in w.unswept && |NewerThan(r, w.unswept)| < CAPACITY
    {
      ListedIffNewest(w, r);
    }
  }

  /** Operation `k` of the run accepts `r`. */
  ghost predicate AcceptsAt(ops: seq<Op>, k: nat, r: Row) {
    && k < |ops| && ops[k].Post?
    && PostStep(Run(START, ops[..k]).table, ops[k].record, ops[k].now).1.Accepted?
    && r == Fresh(ops[k].record, ops[k].now)
  }

  /** Operation `j` runs an expiry pass at or after the expiry of `r`. */
  predicate PassesAt(ops: seq<Op>, j: nat, r: Row) {
    && j < |ops| && !ops[j].Bind? && r.expiresAt <= ops[j].now
    && (ops[j].Post? ==> |ops[j].record.ciphertext| <= MAX_CIPHERTEXT)
  }

  /** Operation `j` binds another generation and clears the store. */
  ghost predicate ClearsAt(ops: seq<Op>, j: nat) {
    j < |ops| && ops[j].Bind? && BindClears(Run(START, ops[..j]).table, ops[j].generation)
  }

  ghost predicate KeptFrom(ops: seq<Op>, k: nat, r: Row) {
    AcceptsAt(ops, k, r) && forall j | k < j < |ops| :: !PassesAt(ops, j, r) && !ClearsAt(ops, j)
  }

  /** A row is unswept exactly when it was accepted and since then the store was not
      cleared and no expiry pass at or after its expiry ran. */
  lemma {:induction false} UnsweptExactly(ops: seq<Op>, r: Row)
    ensures r in Run(START, ops).unswept <==> exists k: nat :: KeptFrom(ops, k, r)
  {
    hide AcceptsAt, PassesAt, ClearsAt, Step;
    if ops == [] {
      assert forall k: nat :: !KeptFrom(ops, k, r) by { NothingYet(r); }
    } else {
      var n := |ops| - 1;
      UnsweptExactly(ops[..n], r);
      LastOp(ops, r);
      if k: nat :| KeptFrom(ops, k, r) {
        KeptInTime(ops, k, r);
        KeptSnoc(ops, k, r);
      }
      KeptSnoc(ops, n, r);
      if k: nat :| KeptFrom(ops[..n], k, r) {
        KeptInTime(ops[..n], k, r);
        KeptSnoc(ops, k, r);
      }
    }
  }

  lemma NothingYet(r: Row)
    ensures forall k: nat :: !KeptFrom([], k, r)
  {
  }

  lemma KeptInTime(ops: seq<Op>, k: nat, r: Row)
    requires KeptFrom(ops, k, r)
    ensures k < |ops|
  {
  }

  lemma KeptSnoc(ops: seq<Op>, k: nat, r: Row)
    requires k < |ops|
    ensures KeptFrom(ops, k, r)
            <==> if k == |ops| - 1 then AcceptsAt(ops, k, r)
                 else KeptFrom(ops[..|ops| - 1], k, r) && !PassesAt(ops, |ops| - 1, r) && !ClearsAt(ops, |ops| - 1)
  {
    hide AcceptsAt, PassesAt, ClearsAt;
    var front := ops[..|ops| - 1];
    forall j: nat | j < |front|
      ensures AcceptsAt(front, j, r) <==> AcceptsAt(ops, j, r)
      ensures PassesAt(front, j, r) <==> PassesAt(ops, j, r)
      ensures ClearsAt(front, j) <==> ClearsAt(ops, j)
    {
      FrontAgrees(ops, j, r);
    }
  }

  lemma FrontAgrees(ops: seq<Op>, j: nat, r: Row)
    requires j < |ops| - 1
    ensures var front := ops[..|ops| - 1];
            && (AcceptsAt(front, j, r) <==> AcceptsAt(ops, j, r))
            && (PassesAt(front, j, r) <==> PassesAt(ops, j, r))
            && (ClearsAt(front, j) <==> ClearsAt(ops, j))
  {
    var front := ops[..|ops| - 1];
    assert front[..j] == ops[..j] && front[j] == ops[j];
  }

  lemma StepUnsweeps(w: World, op: Op, r: Row)
    requires Keyed(w.table.messages)
    ensures r in Step(w, op).unswept
            <==> (op.Post? && PostStep(w.table, op.record, op.now).1.Accepted? && r == Fresh(op.record, op.now))
                 || (r in w.unswept && !PassesAt([op], 0, r) && !(op.Bind? && BindClears(w.table, op.generation)))
  {
    hide PostStep, BindClears, Cleaned, Bound;
    if op.Post? {
      PostTells(w.table, op.record, op.now);
    }
  }

  lemma PostTells(t: Table, record: Record, now: nat)
    requires Keyed(t.messages)
    ensures var outcome := PostStep(t, record, now).1;
            && (outcome.Invalid? <==> |record.ciphertext| > MAX_CIPHERTEXT)
            && (outcome.Accepted? ==> outcome.stored == Fresh(record, now))
  {
  }

  /** What the last operation does to the unswept rows. */
  lemma LastOp(ops: seq<Op>, r: Row)
    requires ops != []
    ensures var n := |ops| - 1;
            r in Run(START, ops).unswept
            <==> AcceptsAt(ops, n, r)
                 || (r in Run(START, ops[..n]).unswept && !PassesAt(ops, n, r) && !ClearsAt(ops, n))
  {
    hide Step, PostStep, BindClears;
    StepUnsweeps(Run(START, ops[..|ops| - 1]), ops[|ops| - 1], r);
  }

  /** Store refinement: after any run under a non-decreasing clock the listed
      rows are exactly the unexpired ones among the 24 newest accepted posts of
      the bound generation, and the canonical list is those rows in order. */
  lemma {:induction false} StoreRefinement(ops: seq<Op>)
    requires Ordered(ops)
    ensures var w := Run(START, ops);
            && (forall r :: r in Listing(w.table.messages) <==> Visible(r, w.accepted, w.clock))
            && StrictlySorted(Listing(w.table.messages))
  {
    RunKeeps(ops);
    AnyClockRefinement(ops);
    var w := Run(START, ops);
    forall r | r in w.unswept
      ensures NewerThan(r, w.accepted) == NewerThan(r, w.unswept)
    {
      NewerAreUnexpired(w, r);
    }
  }

  /** What is newer than an unexpired row is unexpired. */
  lemma NewerAreUnexpired(w: World, r: Row)
    requires History(w) && Listings(w) && Clocked(w) && r in w.unswept
    ensures NewerThan(r, w.accepted) == NewerThan(r, w.unswept)
  {
    forall q | q in w.accepted && Older(r, q)
      ensures q in w.unswept
    {
      assert q.expiresAt >= r.expiresAt;
    }
  }

  lemma ListedIffNewest(w: World, r: Row)
    requires Core(w)
    ensures Listed(w, r) <==> r in w.unswept && |NewerThan(r, w.unswept)| < CAPACITY
  {
    var messages := w.table.messages;
    var rows := RowsOf(messages);
    RowCount(messages);
    if Listed(w, r) {
      var newer := NewerThan(r, w.unswept);
      assert newer <= rows - {r} by {
        forall q | q in newer
          ensures q in rows - {r}
        {
          // An unlisted row is outranked by everything listed, `r` included.
          assert q.record.id !in messages ==> Outranked(w, q);
          assert SameId(messages[q.record.id], q);
        }
      }
      CardinalityMonotone(newer, rows - {r});
    } else if r in w.unswept {
      assert r.record.id !in messages by {
        if r.record.id in messages {
          assert SameId(messages[r.record.id], r);
        }
      }
      assert Outranked(w, r);
      assert rows <= NewerThan(r, w.unswept);
      CardinalityMonotone(rows, NewerThan(r, w.unswept));
    }
  }

  ghost function RowsOf(messages: map<MessageId, Row>): set<Row> {
    set id | id in messages :: messages[id]
  }

  lemma {:induction false} RowCount(messages: map<MessageId, Row>)
    requires Keyed(messages)
    ensures |RowsOf(messages)| == |messages|
    decreases |messages|
  {
    if messages != map[] {
      var id :| id in messages;
      var rest := messages - {id};
      assert rest.Keys == messages.Keys - {id};
      RowCount(rest);
      AddRow(messages, id);
    }
  }

  lemma AddRow(messages: map<MessageId, Row>, id: MessageId)
    requires Keyed(messages) && id in messages
    ensures var rest := messages - {id};
            |RowsOf(messages)| == |RowsOf(rest)| + 1
  {
    var rest := messages - {id};
    var rows := RowsOf(rest);
    assert messages[id] !in rows;
    assert RowsOf(messages) == rows + {messages[id]} by {
      assert forall k | k in messages :: k == id || (k in rest && rest[k] == messages[k]);
    }
  }

  /** The verdict on the next post is a function of the accepted history: spent
      ids are refused for good, expired and evicted ones included, and a token
      waits out one cooldown after each accepted post, and nothing else is
      refused. */
  lemma PostVerdict(ops: seq<Op>, record: Record, now: nat)
    requires Ordered(ops) && Run(START, ops).clock <= now
    ensures var w := Run(START, ops);
            var outcome := PostStep(w.table, record, now).1;
            && (outcome.Invalid? <==> |record.ciphertext| > MAX_CIPHERTEXT)
            && (outcome.Duplicate? <==> !outcome.Invalid? && SpentIn(record.id, w.accepted))
            && (outcome.Cooling? <==>
                  !outcome.Invalid? && !outcome.Duplicate? && CoolingIn(record.token, w.accepted, now))
  {
    RunKeeps(ops);
    VerdictIn(Run(START, ops), record, now);
  }

  lemma VerdictIn(w: World, record: Record, now: nat)
    requires Inv(w) && w.clock <= now
    ensures var outcome := PostStep(w.table, record, now).1;
            && (outcome.Invalid? <==> |record.ciphertext| > MAX_CIPHERTEXT)
            && (outcome.Duplicate? <==> !outcome.Invalid? && SpentIn(record.id, w.accepted))
            && (outcome.Cooling? <==>
                  !outcome.Invalid? && !outcome.Duplicate? && CoolingIn(record.token, w.accepted, now))
  {
    var c := AfterPass(w, now);
    PassKeeps(w, now);
    ListedAreSpent(c, record.id);
    CoolingMirrors(c, record.token);
  }

  lemma CoolingMirrors(w: World, token: Token)
    requires Cooldowns(w)
    ensures token in w.table.cooldowns <==> CoolingIn(token, w.accepted, w.clock)
    ensures token in w.table.cooldowns ==> w.table.cooldowns[token].nextPostAt > w.clock
  {
    if token in w.table.cooldowns {
      assert Mirrored(token, w.table.cooldowns[token].nextPostAt, w.accepted);
      var r :| r in w.accepted && r.record.token == token
               && r.createdAt + COOLDOWN == w.table.cooldowns[token].nextPostAt;
    }
  }

  /** Two accepted posts have different ids, and lie a full cooldown apart when
      they came from one token. */
  ghost predicate AcceptsApart(w: World) {
    forall r, q | r in w.accepted && q in w.accepted && r != q ::
      r.record.id != q.record.id && (r.record.token == q.record.token ==> Spaced(r, q))
  }

  /** A token has at most one listed row. */
  ghost predicate OneRowPerToken(w: World) {
    forall r, q | Listed(w, r) && Listed(w, q) && r.record.token == q.record.token :: r == q
  }

  /** A listed row's cooldown ends at the second the row expires. */
  ghost predicate CooldownEndsAtExpiry(w: World) {
    forall r | Listed(w, r) ::
      r.record.token in w.table.cooldowns && w.table.cooldowns[r.record.token].nextPostAt == r.expiresAt
  }

  /** Posting rules over all runs under a non-decreasing clock. */
  lemma {:induction false} PostingRules(ops: seq<Op>)
    requires Ordered(ops)
    ensures AcceptsApart(Run(START, ops))
    ensures OneRowPerToken(Run(START, ops))
    ensures CooldownEndsAtExpiry(Run(START, ops))
  {
    RunKeeps(ops);
    PostingRulesIn(Run(START, ops));
  }

  lemma PostingRulesIn(w: World)
    requires Inv(w)
    ensures AcceptsApart(w) && OneRowPerToken(w) && CooldownEndsAtExpiry(w)
  {
    AllApart(w);
    forall r | Listed(w, r) {
      ListedIsCooling(w, r);
    }
    AllOnePerToken(w);
  }

  lemma AllApart(w: World)
    requires History(w) && Spacing(w)
    ensures AcceptsApart(w)
  {
    forall r, q | r in w.accepted && q in w.accepted && r != q {
      AcceptsAreApart(w, r, q);
    }
  }

  lemma AllOnePerToken(w: World)
    requires Inv(w)
    ensures OneRowPerToken(w)
  {
    forall r, q | Listed(w, r) && Listed(w, q) && r.record.token == q.record.token {
      OneListedPerToken(w, r, q);
    }
  }

  lemma OneListedPerToken(w: World, r: Row, q: Row)
    requires Inv(w) && Listed(w, r) && Listed(w, q) && r.record.token == q.record.token
    ensures r == q
  {
    ListedIsCooling(w, r);
    ListedIsCooling(w, q);
    if r != q {
      AcceptsAreApart(w, r, q);
    }
  }

  lemma AcceptsAreApart(w: World, r: Row, q: Row)
    requires History(w) && Spacing(w) && r in w.accepted && q in w.accepted && r != q
    ensures r.record.id != q.record.id && (r.record.token == q.record.token ==> Spaced(r, q))
  {
    assert !SameId(r, q);
    assert r.record.token == q.record.token ==> Spaced(r, q);
  }

  lemma ListedIsCooling(w: World, r: Row)
    requires Inv(w) && Listed(w, r)
    ensures r in w.accepted && r.createdAt + COOLDOWN > w.clock
    ensures r.record.token in w.table.cooldowns
    ensures w.table.cooldowns[r.record.token].nextPostAt == r.expiresAt
  {
    assert w.table.messages[r.record.id] in w.unswept;
  }

  /** The cooldown upsert of an accepted post never meets an existing row. */
  lemma CooldownInsertIsFresh(ops: seq<Op>, record: Record, now: nat)
    requires Ordered(ops) && Run(START, ops).clock <= now
    requires PostStep(Run(START, ops).table, record, now).1.Accepted?
    ensures record.token !in Cleaned(Run(START, ops).table, now).cooldowns
    ensures record.id !in Cleaned(Run(START, ops).table, now).messages
  {
    var w := Run(START, ops);
    RunKeeps(ops);
    PassKeeps(w, now);
    CoolingMirrors(AfterPass(w, now), record.token);
  }

  /** Binding keeps the board only for the generation it is already bound to;
      a store with rows but no generation is not trusted. */
  lemma BindingKeepsOneGeneration(t: Table, generation: Generation)
    ensures var t' := Bound(t, generation);
            && t'.generation == Some(generation)
            && (t' == t || (t'.messages == map[] && t'.seen == map[] && t'.cooldowns == map[]))
            && (t' == t <==> t.generation == Some(generation))
  {
  }

  /** Without the clock hypothesis the refinement is false: a sweep at a later
      time deletes a row that is unexpired again once the clock has gone back. */
  lemma ClockMustNotGoBack(record: Record, late: nat)
    requires |record.ciphertext| <= MAX_CIPHERTEXT && late >= LIFETIME
    ensures var w := Run(START, [Post(record, 0), Sweep(late), Sweep(1)]);
            exists r :: Visible(r, w.accepted, w.clock) && !Listed(w, r)
  {
    var row := Fresh(record, 0);
    var w1 := Step(START, Post(record, 0));
    FirstPost(record);
    var w2, w3 := Step(w1, Sweep(late)), Step(Step(w1, Sweep(late)), Sweep(1));
    RunSnoc([], Post(record, 0));
    RunSnoc([Post(record, 0)], Sweep(late));
    RunSnoc([Post(record, 0), Sweep(late)], Sweep(1));
    assert [] + [Post(record, 0)] == [Post(record, 0)];
    assert [Post(record, 0)] + [Sweep(late)] == [Post(record, 0), Sweep(late)];
    assert [Post(record, 0), Sweep(late)] + [Sweep(1)] == [Post(record, 0), Sweep(late), Sweep(1)];
    assert NewerThan(row, {row}) == {};
    assert row.expiresAt <= late && record.id !in w2.table.messages;
    assert Visible(row, w3.accepted, w3.clock) && !Listed(w3, row);
  }

  lemma RunSnoc(ops: seq<Op>, op: Op)
    ensures Run(START, ops + [op]) == Step(Run(START, ops), op)
  {
    assert (ops + [op])[..|ops|] == ops;
  }

  lemma FirstPost(record: Record)
    requires |record.ciphertext| <= MAX_CIPHERTEXT
    ensures var w := Step(START, Post(record, 0));
            w.accepted == {Fresh(record, 0)} && w.table.messages == map[record.id := Fresh(record, 0)]
  {
    PostBranches(START, record, 0);
    assert Cleaned(EMPTY, 0) == EMPTY;
    var grown := EMPTY.messages[record.id := Fresh(record, 0)];
    assert |grown| == 1;
    assert grown - {} == grown;
  }
}
