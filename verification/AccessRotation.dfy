/** Access rotation with crashes: one state file, one database, at most one server
    process and any number of offline tools, each step of which may be its last. */
module AccessRotation {
  import opened Options
  import opened Board

  /** The server process: it takes the PID lock and reads the state file, then binds
      the database and serves. `pending` are live rotations saved but not yet bound. */
  datatype Server = Down | Starting(read: Generation) | Up(serving: Generation, pending: set<Generation>)

  /** An offline tool between its steps. `Read`, `Probed`, `Opened` and `Saved` belong
      to a rotation, `Asked` and `Checking` to a status query. */
  datatype Tool =
    | Read(before: Generation, chosen: Generation)
    | Probed(before: Generation, chosen: Generation)
    | Opened(chosen: Generation)
    | Saved(chosen: Generation)
    | Asked
    | Checking(before: Generation)

  /** `origin` records, for every accepted message, the generation it was accepted
      under. */
  datatype World = World(
    file: Generation,
    table: Table,
    server: Server,
    tools: map<nat, Tool>,
    origin: map<MessageId, Generation>)

  datatype Action =
    | StartRead
    | StartBind
    | Post(record: Record, now: nat)
    | List(now: nat)
    | Persist(chosen: Generation)
    | Rebind(chosen: Generation)
    | Halt
    | ToolReads(id: nat, chosen: Generation)
    | ToolProbes(id: nat)
    | ToolOpens(id: nat)
    | ToolSaves(id: nat)
    | ToolRebinds(id: nat)
    | ToolAsks(id: nat)
    | ToolChecks(id: nat)
    | ToolCounts(id: nat)
    | ToolQuits(id: nat)

  predicate ToolIs(w: World, id: nat, wanted: Tool -> bool) {
    id in w.tools && wanted(w.tools[id])
  }

  predicate Enabled(w: World, a: Action) {
    match a
    case StartRead => w.server.Down?
    case StartBind => w.server.Starting?
    case Post(_, _) => w.server.Up?
    case List(_) => w.server.Up?
    case Persist(g) => w.server.Up? && g != w.server.serving
    case Rebind(g) => w.server.Up? && g in w.server.pending
    case Halt => !w.server.Down?
    case ToolReads(id, g) => id !in w.tools && g != w.file
    case ToolProbes(id) => ToolIs(w, id, (t: Tool) => t.Read?) && w.server.Down?
    case ToolOpens(id) => ToolIs(w, id, (t: Tool) => t.Probed?)
    case ToolSaves(id) => ToolIs(w, id, (t: Tool) => t.Opened?)
    case ToolRebinds(id) => ToolIs(w, id, (t: Tool) => t.Saved?)
    case ToolAsks(id) => id !in w.tools && w.server.Down?
    case ToolChecks(id) => ToolIs(w, id, (t: Tool) => t.Asked?)
    case ToolCounts(id) => ToolIs(w, id, (t: Tool) => t.Checking?)
    case ToolQuits(id) => id in w.tools
  }

  predicate Stored(w: World) {
    Keyed(w.table.messages)
  }

  ghost function Next(w: World, a: Action): (w': World)
    requires Stored(w) && Enabled(w, a)
    ensures Stored(w')
  {
    match a
    case StartRead => w.(server := Starting(w.file))
    case StartBind => w.(server := Up(w.server.read, {}), table := Bound(w.table, w.server.read))
    case Post(record, now) =>
      var (t, outcome) := PostStep(w.table, record, now);
      w.(table := t, origin := if outcome.Accepted? then w.origin[record.id := w.server.serving] else w.origin)
    case List(now) => w.(table := Cleaned(w.table, now))
    case Persist(g) => w.(file := g, server := w.server.(pending := w.server.pending + {g}))
    case Rebind(g) => w.(server := Up(g, w.server.pending - {g}), table := Bound(w.table, g))
    case Halt => w.(server := Down)
    case ToolReads(id, g) => w.(tools := w.tools[id := Read(w.file, g)])
    case ToolProbes(id) => w.(tools := w.tools[id := Probed(w.tools[id].before, w.tools[id].chosen)])
    case ToolOpens(id) =>
      w.(table := Bound(w.table, w.tools[id].before), tools := w.tools[id := Opened(w.tools[id].chosen)])
    case ToolSaves(id) => w.(file := w.tools[id].chosen, tools := w.tools[id := Saved(w.tools[id].chosen)])
    case ToolRebinds(id) => w.(table := Bound(w.table, w.tools[id].chosen), tools := w.tools - {id})
    case ToolAsks(id) => w.(tools := w.tools[id := Asked])
    case ToolChecks(id) => w.(tools := w.tools[id := Checking(w.file)])
    case ToolCounts(id) => w.(table := Bound(w.table, w.tools[id].before), tools := w.tools - {id})
    case ToolQuits(id) => w.(tools := w.tools - {id})
  }

  /** Actions that cannot happen are skipped. */
  ghost function Step(w: World, a: Action): (w': World)
    requires Stored(w)
    ensures Stored(w')
  {
    if Enabled(w, a) then Next(w, a) else w
  }

  ghost function Run(w: World, actions: seq<Action>): (w': World)
    requires Stored(w)
    ensures Stored(w')
  {
    if actions == [] then w else Step(Run(w, actions[..|actions| - 1]), actions[|actions| - 1])
  }

  // -------------------------------------------------------------- properties

  /** The generation an offline tool is about to bind. */
  function ToolBinds(w: World, a: Action): Option<Generation> {
    if !Enabled(w, a) then None
    else
      match a
      case ToolOpens(id) => Some(w.tools[id].before)
      case ToolRebinds(id) => Some(w.tools[id].chosen)
      case ToolCounts(id) => Some(w.tools[id].before)
      case _ => None
  }

  /** A tool about to take the database to another generation under a live server. */
  predicate ForeignBind(w: World, a: Action) {
    w.server.Up? && ToolBinds(w, a).Some? && ToolBinds(w, a).value != w.server.serving
  }

  /** What the server advertises is what the database is bound to. */
  predicate InStep(w: World) {
    w.server.Up? ==> w.table.generation == Some(w.server.serving)
  }

  /** Every stored row was accepted under the generation the database is bound to. */
  predicate RowsBelong(w: World) {
    w.table.generation.Some? ==>
      forall id | id in w.table.messages :: id in w.origin && w.origin[id] == w.table.generation.value
  }

  lemma StepKeepsInStep(w: World, a: Action)
    requires Stored(w) && InStep(w)
    ensures InStep(Step(w, a)) <==> !ForeignBind(w, a)
  {
  }

  lemma StepKeepsRows(w: World, a: Action)
    requires Stored(w) && InStep(w) && RowsBelong(w)
    ensures RowsBelong(Step(w, a))
  {
    if Enabled(w, a) && a.Post? {
      PostKeepsRows(w, a.record, a.now);
    }
  }

  lemma PostKeepsRows(w: World, record: Record, now: nat)
    requires Stored(w) && RowsBelong(w) && w.server.Up? && w.table.generation == Some(w.server.serving)
    ensures RowsBelong(Next(w, Post(record, now)))
  {
    PostAddsOne(w.table, record, now);
  }

  /** A post adds at most its own row, and only when it is accepted. */
  lemma PostAddsOne(t: Table, record: Record, now: nat)
    requires Keyed(t.messages)
    ensures var (t', outcome) := PostStep(t, record, now);
            && t'.generation == t.generation
            && forall id | id in t'.messages :: id in t.messages || (outcome.Accepted? && id == record.id)
  {
  }

  ghost predicate AlwaysInStep(w: World, actions: seq<Action>)
    requires Stored(w)
  {
    forall k | 0 <= k <= |actions| :: InStep(Run(w, actions[..k]))
  }

  ghost predicate NoForeignBind(w: World, actions: seq<Action>)
    requires Stored(w)
  {
    forall k | 0 <= k < |actions| :: !ForeignBind(Run(w, actions[..k]), actions[k])
  }

  lemma RunOne(w: World, actions: seq<Action>, k: nat)
    requires Stored(w) && k < |actions|
    ensures Run(w, actions[..k + 1]) == Step(Run(w, actions[..k]), actions[k])
  {
    assert actions[..k + 1][..k] == actions[..k];
  }

  /** Crash safety, exactly: over any run, with crashes and restarts anywhere, the
      advertised generation is the bound one throughout if and only if no offline
      tool ever binds another generation under a live server. */
  lemma InStepExactly(w: World, actions: seq<Action>)
    requires Stored(w) && InStep(w)
    ensures AlwaysInStep(w, actions) <==> NoForeignBind(w, actions)
  {
    if AlwaysInStep(w, actions) {
      forall k | 0 <= k < |actions|
        ensures !ForeignBind(Run(w, actions[..k]), actions[k])
      {
        RunOne(w, actions, k);
        StepKeepsInStep(Run(w, actions[..k]), actions[k]);
        assert InStep(Run(w, actions[..k])) && InStep(Run(w, actions[..k + 1]));
      }
    }
    if NoForeignBind(w, actions) {
      forall k | 0 <= k <= |actions|
        ensures InStep(Run(w, actions[..k]))
      {
        StaysInStep(w, actions, k);
      }
    }
  }

  lemma {:induction false} StaysInStep(w: World, actions: seq<Action>, k: nat)
    requires Stored(w) && InStep(w) && NoForeignBind(w, actions) && k <= |actions|
    ensures InStep(Run(w, actions[..k]))
  {
    if k > 0 {
      StaysInStep(w, actions, k - 1);
      RunOne(w, actions, k - 1);
      StepKeepsInStep(Run(w, actions[..k - 1]), actions[k - 1]);
    }
  }

  lemma {:induction false} RowsStay(w: World, actions: seq<Action>, k: nat)
    requires Stored(w) && InStep(w) && RowsBelong(w) && NoForeignBind(w, actions) && k <= |actions|
    ensures RowsBelong(Run(w, actions[..k]))
  {
    if k > 0 {
      RowsStay(w, actions, k - 1);
      StaysInStep(w, actions, k - 1);
      RunOne(w, actions, k - 1);
      StepKeepsRows(Run(w, actions[..k - 1]), actions[k - 1]);
    }
  }

  /** What a server shows at a moment of the run. */
  ghost function Shown(w: World, now: nat): seq<Row>
    requires Stored(w)
  {
    Listing(Cleaned(w.table, now).messages)
  }

  // ------------------------------------------------- what a server may show

  /** A live server holds only rows that were accepted under the generation it
      serves. */
  predicate OwnRows(w: World) {
    w.server.Up? ==> forall id | id in w.table.messages :: id in w.origin && w.origin[id] == w.server.serving
  }

  /** The generation the server is about to bind. */
  function ServerBinds(w: World, a: Action): Option<Generation> {
    if !Enabled(w, a) then None
    else
      match a
      case StartBind => Some(w.server.read)
      case Rebind(g) => Some(g)
      case _ => None
  }

  predicate HoldsForeign(w: World, g: Generation) {
    exists id :: id in w.table.messages && !(id in w.origin && w.origin[id] == g)
  }

  /** The server is about to bind a database that is bound to the same generation
      already, and so will not be cleared, but holds a row of another one. */
  predicate MeetsForeign(w: World, a: Action) {
    var g := ServerBinds(w, a);
    g.Some? && w.table.generation == g && HoldsForeign(w, g.value)
  }

  lemma StepKeepsOwnRows(w: World, a: Action)
    requires Stored(w) && OwnRows(w)
    ensures OwnRows(Step(w, a)) <==> !MeetsForeign(w, a)
  {
    if Enabled(w, a) && a.Post? {
      PostAddsOne(w.table, a.record, a.now);
    }
  }

  ghost predicate AlwaysOwnRows(w: World, actions: seq<Action>)
    requires Stored(w)
  {
    forall k | 0 <= k <= |actions| :: OwnRows(Run(w, actions[..k]))
  }

  ghost predicate NeverMeetsForeign(w: World, actions: seq<Action>)
    requires Stored(w)
  {
    forall k | 0 <= k < |actions| :: !MeetsForeign(Run(w, actions[..k]), actions[k])
  }

  /** Separation of generations, exactly: over any run no live server ever holds a
      row of another generation if and only if no server binds a database that is
      bound to its generation already and holds such a row. */
  lemma NothingCrossesExactly(w: World, actions: seq<Action>)
    requires Stored(w) && OwnRows(w)
    ensures AlwaysOwnRows(w, actions) <==> NeverMeetsForeign(w, actions)
  {
    if AlwaysOwnRows(w, actions) {
      forall k | 0 <= k < |actions|
        ensures !MeetsForeign(Run(w, actions[..k]), actions[k])
      {
        RunOne(w, actions, k);
        assert OwnRows(Run(w, actions[..k])) && OwnRows(Run(w, actions[..k + 1]));
        StepKeepsOwnRows(Run(w, actions[..k]), actions[k]);
      }
    }
    if NeverMeetsForeign(w, actions) {
      forall k | 0 <= k <= |actions|
        ensures OwnRows(Run(w, actions[..k]))
      {
        StaysOwn(w, actions, k);
      }
    }
  }

  lemma {:induction false} StaysOwn(w: World, actions: seq<Action>, k: nat)
    requires Stored(w) && OwnRows(w) && NeverMeetsForeign(w, actions) && k <= |actions|
    ensures OwnRows(Run(w, actions[..k]))
  {
    if k > 0 {
      StaysOwn(w, actions, k - 1);
      RunOne(w, actions, k - 1);
      StepKeepsOwnRows(Run(w, actions[..k - 1]), actions[k - 1]);
    }
  }

  // ------------------------------------------------- where a row goes astray

  /** Every listed id is spent. */
  predicate Spent(w: World) {
    w.table.messages.Keys <= w.table.seen.Keys
  }

  /** A live server accepts and keeps a post while the database is bound to another
      generation than the one it serves. */
  ghost predicate MisplacedPost(w: World, a: Action)
    requires Stored(w)
  {
    && Enabled(w, a) && a.Post? && w.table.generation.Some? && w.table.generation.value != w.server.serving
    && var (t, outcome) := PostStep(w.table, a.record, a.now);
       outcome.Accepted? && a.record.id in t.messages
  }

  lemma StepKeepsSpent(w: World, a: Action)
    requires Stored(w) && Spent(w)
    ensures Spent(Step(w, a))
  {
    hide PostStep;
    if Enabled(w, a) && a.Post? {
      PostSpends(w.table, a.record, a.now);
    }
  }

  lemma PostSpends(t: Table, record: Record, now: nat)
    requires Keyed(t.messages) && t.messages.Keys <= t.seen.Keys
    ensures PostStep(t, record, now).0.messages.Keys <= PostStep(t, record, now).0.seen.Keys
  {
    if PostStep(t, record, now).1.Accepted? {
      AcceptedShape(t, record, now);
    }
  }

  /** A row strays at an accepted post under a foreign binding, and nowhere else. */
  lemma StepMisplaces(w: World, a: Action)
    requires Stored(w) && Spent(w) && RowsBelong(w)
    ensures RowsBelong(Step(w, a)) <==> !MisplacedPost(w, a)
  {
    if Enabled(w, a) && a.Post? {
      PostAddsOne(w.table, a.record, a.now);
      if PostStep(w.table, a.record, a.now).1.Accepted? {
        AcceptedIsNew(w.table, a.record, a.now);
      }
    }
  }

  lemma AcceptedIsNew(t: Table, record: Record, now: nat)
    requires Keyed(t.messages) && t.messages.Keys <= t.seen.Keys && PostStep(t, record, now).1.Accepted?
    ensures record.id !in t.messages
  {
    AcceptedShape(t, record, now);
  }

  ghost predicate AlwaysBelong(w: World, actions: seq<Action>)
    requires Stored(w)
  {
    forall k | 0 <= k <= |actions| :: RowsBelong(Run(w, actions[..k]))
  }

  ghost predicate NoMisplacedPost(w: World, actions: seq<Action>)
    requires Stored(w)
  {
    forall k | 0 <= k < |actions| :: !MisplacedPost(Run(w, actions[..k]), actions[k])
  }

  /** Over any run every stored row belongs to the generation the database is bound
      to if and only if no post is kept while a live server serves another one. */
  lemma RowsBelongExactly(w: World, actions: seq<Action>)
    requires Stored(w) && Spent(w) && RowsBelong(w)
    ensures AlwaysBelong(w, actions) <==> NoMisplacedPost(w, actions)
  {
    if AlwaysBelong(w, actions) {
      forall k | 0 <= k < |actions|
        ensures !MisplacedPost(Run(w, actions[..k]), actions[k])
      {
        StaysSpent(w, actions, k);
        RunOne(w, actions, k);
        assert RowsBelong(Run(w, actions[..k])) && RowsBelong(Run(w, actions[..k + 1]));
        StepMisplaces(Run(w, actions[..k]), actions[k]);
      }
    }
    if NoMisplacedPost(w, actions) {
      forall k | 0 <= k <= |actions|
        ensures RowsBelong(Run(w, actions[..k]))
      {
        StaysPlaced(w, actions, k);
      }
    }
  }

  lemma {:induction false} StaysSpent(w: World, actions: seq<Action>, k: nat)
    requires Stored(w) && Spent(w) && k <= |actions|
    ensures Spent(Run(w, actions[..k]))
  {
    if k > 0 {
      StaysSpent(w, actions, k - 1);
      RunOne(w, actions, k - 1);
      StepKeepsSpent(Run(w, actions[..k - 1]), actions[k - 1]);
    }
  }

  lemma {:induction false} StaysPlaced(w: World, actions: seq<Action>, k: nat)
    requires Stored(w) && Spent(w) && RowsBelong(w) && NoMisplacedPost(w, actions) && k <= |actions|
    ensures RowsBelong(Run(w, actions[..k]))
  {
    if k > 0 {
      StaysPlaced(w, actions, k - 1);
      StaysSpent(w, actions, k - 1);
      RunOne(w, actions, k - 1);
      StepMisplaces(Run(w, actions[..k - 1]), actions[k - 1]);
    }
  }

  // --------------------------------------- from where a row strays to where it shows

  /** A stored row that was not accepted under the bound generation. */
  predicate Strayed(w: World, id: MessageId) {
    && id in w.table.messages && w.table.generation.Some?
    && !(id in w.origin && w.origin[id] == w.table.generation.value)
  }

  /** A row that outlasts a step keeps its origin, and the database its binding. */
  lemma OutlastsStep(w: World, a: Action, id: MessageId)
    requires Stored(w) && Spent(w) && id in w.table.messages && id in Step(w, a).table.messages
    ensures var w' := Step(w, a);
            && w'.table.generation == w.table.generation
            && (id in w'.origin <==> id in w.origin) && (id in w.origin ==> w'.origin[id] == w.origin[id])
  {
    if Enabled(w, a) && a.Post? && PostStep(w.table, a.record, a.now).1.Accepted? {
      AcceptedIsNew(w.table, a.record, a.now);
    }
  }

  /** The row of the post at step `i` is stored from then on until step `j`. */
  ghost predicate Lingers(w: World, actions: seq<Action>, i: nat, j: nat)
    requires Stored(w)
  {
    && i < j <= |actions| && actions[i].Post?
    && forall k | i < k <= j :: actions[i].record.id in Run(w, actions[..k]).table.messages
  }

  /** A post is misplaced at step `i`, and its row still stored when the server next
      binds, at step `j`, the generation the database was bound to, which clears
      nothing. */
  ghost predicate CrossesBetween(w: World, actions: seq<Action>, i: nat, j: nat)
    requires Stored(w)
  {
    && i < j < |actions| && Lingers(w, actions, i, j)
    && MisplacedPost(Run(w, actions[..i]), actions[i])
    && ServerBinds(Run(w, actions[..j]), actions[j]) == Run(w, actions[..i]).table.generation
  }

  lemma StraysAt(w: World, a: Action)
    requires Stored(w) && Spent(w) && MisplacedPost(w, a)
    ensures Strayed(Step(w, a), a.record.id) && Step(w, a).table.generation == w.table.generation
  {
    PostAddsOne(w.table, a.record, a.now);
  }

  lemma StrayStep(w: World, a: Action, id: MessageId)
    requires Stored(w) && Spent(w) && Strayed(w, id) && id in Step(w, a).table.messages
    ensures Strayed(Step(w, a), id) && Step(w, a).table.generation == w.table.generation
  {
    OutlastsStep(w, a, id);
  }

  lemma {:induction false} StaysStrayed(w: World, actions: seq<Action>, i: nat, j: nat)
    requires Stored(w) && Spent(w) && Lingers(w, actions, i, j) && MisplacedPost(Run(w, actions[..i]), actions[i])
    ensures Strayed(Run(w, actions[..j]), actions[i].record.id)
    ensures Run(w, actions[..j]).table.generation == Run(w, actions[..i]).table.generation
  {
    hide Run, Step, MisplacedPost, Strayed;
    StaysSpent(w, actions, j - 1);
    RunOne(w, actions, j - 1);
    if j == i + 1 {
      StraysAt(Run(w, actions[..i]), actions[i]);
    } else {
      StaysStrayed(w, actions, i, j - 1);
      assert actions[i].record.id in Run(w, actions[..j]).table.messages;
      StrayStep(Run(w, actions[..j - 1]), actions[j - 1], actions[i].record.id);
    }
  }

  /** A stray row of one step was stray before it, or is the row of a misplaced post. */
  lemma StrayedBefore(w: World, a: Action, id: MessageId)
    requires Stored(w) && Spent(w) && Strayed(Step(w, a), id)
    ensures id in Step(w, a).table.messages
    ensures Strayed(w, id) || (a.Post? && MisplacedPost(w, a) && a.record.id == id)
  {
    if id in w.table.messages {
      OutlastsStep(w, a, id);
    } else {
      assert Enabled(w, a) && a.Post?;
      PostAddsOne(w.table, a.record, a.now);
    }
  }

  lemma NoneStrayed(w: World, actions: seq<Action>, id: MessageId)
    requires Stored(w) && RowsBelong(w)
    ensures !Strayed(Run(w, actions[..0]), id)
  {
    assert actions[..0] == [];
  }

  /** Every stray row came from a misplaced post and has been stored since. */
  lemma {:induction false} StrayedSince(w: World, actions: seq<Action>, j: nat, id: MessageId) returns (i: nat)
    requires Stored(w) && Spent(w) && RowsBelong(w) && j <= |actions| && Strayed(Run(w, actions[..j]), id)
    ensures Lingers(w, actions, i, j) && actions[i].record.id == id
    ensures MisplacedPost(Run(w, actions[..i]), actions[i])
  {
    hide Run, Step, MisplacedPost, Strayed;
    if j == 0 {
      i := 0;
      NoneStrayed(w, actions, id);
    } else {
      StaysSpent(w, actions, j - 1);
      RunOne(w, actions, j - 1);
      StrayedBefore(Run(w, actions[..j - 1]), actions[j - 1], id);
      if Strayed(Run(w, actions[..j - 1]), id) {
        i := StrayedSince(w, actions, j - 1, id);
      } else {
        i := j - 1;
      }
    }
  }

  /** From cause to effect: some live server comes to hold a row of another generation
      if and only if a post is misplaced and its row still stored when a server binds
      the generation of that binding. */
  lemma CrossingExactly(w: World, actions: seq<Action>)
    requires Stored(w) && Spent(w) && RowsBelong(w) && OwnRows(w)
    ensures !AlwaysOwnRows(w, actions) <==> exists i, j :: CrossesBetween(w, actions, i, j)
  {
    NothingCrossesExactly(w, actions);
    if i: nat, j: nat :| CrossesBetween(w, actions, i, j) {
      StaysStrayed(w, actions, i, j);
      assert MeetsForeign(Run(w, actions[..j]), actions[j]);
    }
    if !NeverMeetsForeign(w, actions) {
      var j: nat :| j < |actions| && MeetsForeign(Run(w, actions[..j]), actions[j]);
      var w' := Run(w, actions[..j]);
      var id :| id in w'.table.messages && !(id in w'.origin && w'.origin[id] == w'.table.generation.value);
      var i := StrayedSince(w, actions, j, id);
      StaysStrayed(w, actions, i, j);
      assert CrossesBetween(w, actions, i, j);
    }
  }

  /** A server never meets a foreign row in a database whose rows belong to it. */
  lemma BelongingIsNotForeign(w: World, a: Action)
    requires Stored(w) && RowsBelong(w)
    ensures !MeetsForeign(w, a)
  {
  }

  /** What is enough to know of the offline tools: without a foreign bind no row
      accepted under one generation is ever listed under another. */
  lemma NothingCrossesRotation(w: World, actions: seq<Action>, now: nat, row: Row)
    requires Stored(w) && InStep(w) && RowsBelong(w) && NoForeignBind(w, actions)
    requires Run(w, actions).server.Up? && row in Shown(Run(w, actions), now)
    ensures var w' := Run(w, actions);
            row.record.id in w'.origin && w'.origin[row.record.id] == w'.server.serving
  {
    forall k | 0 <= k < |actions|
      ensures !MeetsForeign(Run(w, actions[..k]), actions[k])
    {
      RowsStay(w, actions, k);
      BelongingIsNotForeign(Run(w, actions[..k]), actions[k]);
    }
    NothingCrossesExactly(w, actions);
    assert actions[..|actions|] == actions;
    ListingHolds(Cleaned(Run(w, actions).table, now).messages, row);
  }

  // ------------------------------------------------------- holding the lock

  predicate PastProbe(t: Tool) {
    !t.Read?
  }

  /** Had the tools kept the lock they only probe, no start could come between. */
  predicate LockKept(w: World, a: Action) {
    a.StartRead? && w.server.Down? ==> forall id | id in w.tools :: !PastProbe(w.tools[id])
  }

  ghost predicate LockAlwaysKept(w: World, actions: seq<Action>)
    requires Stored(w)
  {
    forall k | 0 <= k < |actions| :: LockKept(Run(w, actions[..k]), actions[k])
  }

  /** The server and a tool past its probe exclude each other. */
  predicate Exclusive(w: World) {
    !w.server.Down? ==> forall id | id in w.tools :: !PastProbe(w.tools[id])
  }

  lemma LockStep(w: World, a: Action)
    requires Stored(w) && Exclusive(w) && LockKept(w, a)
    ensures Exclusive(Step(w, a))
  {
    var w' := Step(w, a);
    if !w'.server.Down? {
      forall id | id in w'.tools
        ensures !PastProbe(w'.tools[id])
      {
        assert id in w.tools ==> !PastProbe(w.tools[id]) || w.server.Down?;
      }
    }
  }

  lemma {:induction false} LockExcludes(w: World, actions: seq<Action>, k: nat)
    requires Stored(w) && Exclusive(w) && LockAlwaysKept(w, actions) && k <= |actions|
    ensures Exclusive(Run(w, actions[..k]))
  {
    if k > 0 {
      LockExcludes(w, actions, k - 1);
      RunOne(w, actions, k - 1);
      LockStep(Run(w, actions[..k - 1]), actions[k - 1]);
    }
  }

  /** With no start between a tool's probe and its end, rotation is crash safe. */
  lemma LockSuffices(w: World, actions: seq<Action>)
    requires Stored(w) && InStep(w) && Exclusive(w) && LockAlwaysKept(w, actions)
    ensures AlwaysInStep(w, actions) && NoForeignBind(w, actions)
  {
    forall k | 0 <= k < |actions|
      ensures !ForeignBind(Run(w, actions[..k]), actions[k])
    {
      LockExcludes(w, actions, k);
    }
    InStepExactly(w, actions);
  }

  /** Recovery from any state at all: whether the server died while starting, serving
      or rotating, or was down, and whatever offline tools died or still wait, the
      next start serves the saved generation from a database bound to it. The
      database is left as it was exactly when it was bound to that generation before;
      its rows are lost exactly when the binding has to clear it. */
  lemma RestartRecovers(w: World)
    requires Stored(w)
    ensures var w' := Run(w, [Halt, StartRead, StartBind]);
            && w'.server == Up(w.file, {}) && w'.file == w.file && w'.tools == w.tools
            && InStep(w') && w'.table.generation == Some(w.file)
            && (RowsBelong(w) ==> RowsBelong(w'))
            && (if BindClears(w.table, w.file) then w'.table == EMPTY.(generation := Some(w.file))
                else w'.table == w.table.(generation := Some(w.file)))
            && (w'.table == w.table <==> w.table.generation == Some(w.file))
  {
    RestartReaches(w);
  }

  lemma RestartReaches(w: World)
    requires Stored(w)
    ensures Run(w, [Halt, StartRead, StartBind]) == w.(server := Up(w.file, {}), table := Bound(w.table, w.file))
  {
    var actions := [Halt, StartRead, StartBind];
    assert actions[..2][..1] == actions[..1] && actions[..1][..0] == actions[..0] && actions[..3] == actions;
    RunOne(w, actions, 0);
    assert Run(w, actions[..1]) == w.(server := Down);
    RunOne(w, actions, 1);
    assert Run(w, actions[..2]) == w.(server := Starting(w.file));
    RunOne(w, actions, 2);
  }

  // ------------------------------------------------------------- the race

  const SAMPLE := Record(7, 9, [1, 2, 3])

  /** A rotation probes the lock while no server runs; one starts before the tool
      opens the database, and later crashes and restarts. */
  function Race(): seq<Action> {
    [ToolReads(0, 1), ToolProbes(0), StartRead, StartBind, ToolOpens(0), ToolSaves(0), ToolRebinds(0),
     Post(SAMPLE, 0), Halt, StartRead, StartBind]
  }

  /** The probe is not the lock: a message accepted under generation 0 ends up listed
      under generation 1. */
  lemma ProbeRaceCrossesRotation()
    ensures var w := World(0, EMPTY.(generation := Some(0)), Down, map[], map[]);
            var w' := Run(w, Race());
            && Stored(w) && InStep(w) && RowsBelong(w) && Exclusive(w)
            && w'.server == Up(1, {}) && SAMPLE.id in w'.table.messages
            && SAMPLE.id in w'.origin && w'.origin[SAMPLE.id] == 0
            && w'.table.messages[SAMPLE.id] in Shown(w', 1)
  {
    var w := World(0, EMPTY.(generation := Some(0)), Down, map[], map[]);
    var w4 := RaceStarts(w);
    var w7 := RaceRebinds(w, w4);
    var w8 := RacePosts(w, w7);
    var w' := RaceRestarts(w, w8);
    var row := Fresh(SAMPLE, 0);
    assert Holds(Cleaned(w'.table, 1).messages, row);
    ListingHolds(Cleaned(w'.table, 1).messages, row);
  }

  lemma RaceStarts(w: World) returns (w4: World)
    requires w == World(0, EMPTY.(generation := Some(0)), Down, map[], map[])
    ensures w4 == Run(w, Race()[..4])
    ensures w4 == World(0, EMPTY.(generation := Some(0)), Up(0, {}), map[0 := Probed(0, 1)], map[])
  {
    var a := Race();
    RunOne(w, a, 0);
    RunOne(w, a, 1);
    RunOne(w, a, 2);
    RunOne(w, a, 3);
    w4 := Run(w, a[..4]);
    assert w4.tools == map[0 := Probed(0, 1)];
  }

  lemma {:induction false} RunAppend(w: World, a: seq<Action>, b: seq<Action>)
    requires Stored(w)
    ensures Run(w, a + b) == Run(Run(w, a), b)
  {
    hide Step;
    if b == [] {
      assert a + b == a;
    } else {
      var n := |b| - 1;
      assert (a + b)[..|a + b| - 1] == a + b[..n];
      RunAppend(w, a, b[..n]);
    }
  }

  /** The last three steps of a rotation in a row: the tool binds what it read, saves
      what it chose and binds that, whether or not a server runs. */
  lemma ToolRotates(w: World, id: nat)
    requires Stored(w) && id in w.tools && w.tools[id].Probed?
    ensures var tool := w.tools[id]; var w' := Run(w, [ToolOpens(id), ToolSaves(id), ToolRebinds(id)]);
            && w'.file == tool.chosen && w'.table == Bound(Bound(w.table, tool.before), tool.chosen)
            && w'.server == w.server && w'.origin == w.origin && w'.tools == w.tools - {id}
  {
    var a := [ToolOpens(id), ToolSaves(id), ToolRebinds(id)];
    assert a[..0] == [] && a[..3] == a;
    RunOne(w, a, 0);
    assert Run(w, a[..1]).tools[id] == Opened(w.tools[id].chosen);
    RunOne(w, a, 1);
    assert Run(w, a[..2]).tools[id] == Saved(w.tools[id].chosen);
    RunOne(w, a, 2);
  }

  lemma RaceRebinds(w: World, w4: World) returns (w7: World)
    requires Stored(w) && w4 == Run(w, Race()[..4])
    requires w4 == World(0, EMPTY.(generation := Some(0)), Up(0, {}), map[0 := Probed(0, 1)], map[])
    ensures w7 == Run(w, Race()[..7])
    ensures w7 == World(1, EMPTY.(generation := Some(1)), Up(0, {}), map[], map[])
  {
    assert Race()[..7] == Race()[..4] + [ToolOpens(0), ToolSaves(0), ToolRebinds(0)];
    RunAppend(w, Race()[..4], [ToolOpens(0), ToolSaves(0), ToolRebinds(0)]);
    ToolRotates(w4, 0);
    w7 := Run(w, Race()[..7]);
    assert w7.tools == map[];
  }

  lemma {:induction false} StaysEmpty(w: World, actions: seq<Action>, k: nat)
    requires Stored(w) && w.table.messages == map[] && k <= |actions|
    requires forall i | 0 <= i < k :: !actions[i].Post?
    ensures Run(w, actions[..k]).table.messages == map[]
  {
    if k > 0 {
      StaysEmpty(w, actions, k - 1);
      RunOne(w, actions, k - 1);
      StepStaysEmpty(Run(w, actions[..k - 1]), actions[k - 1]);
    }
  }

  lemma StepStaysEmpty(w: World, a: Action)
    requires Stored(w) && w.table.messages == map[] && !a.Post?
    ensures Step(w, a).table.messages == map[]
  {
    if a.List? {
      assert Cleaned(w.table, a.now).messages == map[];
    }
  }

  /** A foreign bind alone crosses nothing: the race without its post. */
  lemma ForeignBindMayBeHarmless()
    ensures var w := World(0, EMPTY.(generation := Some(0)), Down, map[], map[]);
            var quiet := Race()[..7];
            && Stored(w) && InStep(w) && OwnRows(w) && RowsBelong(w)
            && !NoForeignBind(w, quiet) && AlwaysOwnRows(w, quiet) && AlwaysBelong(w, quiet)
  {
    var w := World(0, EMPTY.(generation := Some(0)), Down, map[], map[]);
    var quiet := Race()[..7];
    forall k | 0 <= k <= 7
      ensures OwnRows(Run(w, quiet[..k])) && RowsBelong(Run(w, quiet[..k]))
    {
      StaysEmpty(w, quiet, k);
    }
    var w4 := RaceStarts(w);
    var w7 := RaceRebinds(w, w4);
    InStepExactly(w, quiet);
    assert quiet[..7] == quiet;
    assert !InStep(Run(w, quiet[..7]));
  }

  lemma SamplePosts()
    ensures var (t, outcome) := PostStep(EMPTY.(generation := Some(1)), SAMPLE, 0);
            outcome.Accepted? && t.generation == Some(1) && t.messages == map[SAMPLE.id := Fresh(SAMPLE, 0)]
  {
    var t := EMPTY.(generation := Some(1));
    assert Cleaned(t, 0).messages == map[];
    InsertShape(Cleaned(t, 0), SAMPLE, 0);
  }

  /** A row of generation 0, in a database bound to generation 1. */
  predicate RowOfTheOld(w: World) {
    && w.file == 1 && w.table.generation == Some(1) && w.origin == map[SAMPLE.id := 0]
    && w.table.messages == map[SAMPLE.id := Fresh(SAMPLE, 0)]
  }

  lemma RacePosts(w: World, w7: World) returns (w8: World)
    requires Stored(w) && w7 == Run(w, Race()[..7])
    requires w7 == World(1, EMPTY.(generation := Some(1)), Up(0, {}), map[], map[])
    ensures w8 == Run(w, Race()[..8]) && RowOfTheOld(w8) && w8.server == Up(0, {})
  {
    RunOne(w, Race(), 7);
    SampleStep(w7);
    w8 := Run(w, Race()[..8]);
  }

  lemma RaceRestarts(w: World, w8: World) returns (w': World)
    requires Stored(w) && w8 == Run(w, Race()[..8]) && RowOfTheOld(w8) && w8.server == Up(0, {})
    ensures w' == Run(w, Race()) && RowOfTheOld(w') && w'.server == Up(1, {})
  {
    assert Race() == Race()[..8] + [Halt, StartRead, StartBind];
    RunAppend(w, Race()[..8], [Halt, StartRead, StartBind]);
    RestartReaches(w8);
    w' := Run(w, Race());
  }

  lemma SampleStep(w7: World)
    requires w7 == World(1, EMPTY.(generation := Some(1)), Up(0, {}), map[], map[])
    ensures Stored(w7)
    ensures var w8 := Step(w7, Post(SAMPLE, 0)); RowOfTheOld(w8) && w8.server == Up(0, {})
  {
    SamplePosts();
    assert map[][SAMPLE.id := 0] == map[SAMPLE.id := 0];
  }

  // ------------------------------------------------------------ the programs

  /** The state file, replaced in one atomic rename. */
  class StateFile {
    var generation: Generation

    constructor (g: Generation)
      ensures generation == g
    {
      generation := g;
    }
  }

  class ServerRuntime {
    const file: StateFile
    const board: BoardStore
    var serving: Option<Generation>
    var stopping: bool

    constructor (file: StateFile, board: BoardStore)
      ensures this.file == file && this.board == board && serving == None && !stopping
    {
      this.file, this.board := file, board;
      serving, stopping := None, false;
    }

    /** `start`: whatever happened before, the saved generation is bound and served. */
    method Start()
      requires serving.None?
      modifies this`serving, board
      ensures serving == Some(file.generation)
      ensures board.View() == Bound(old(board.View()), file.generation)
    {
      var state := file.generation;
      var changed := board.BindAccessGeneration(state);
      serving := Some(state);
    }

    /** `apply_access_rotation`; `fails` says the relay could not apply it. The new
        state is saved before anything else changes. */
    method ApplyAccessRotation(chosen: Generation, fails: bool) returns (ok: bool)
      modifies this`serving, this`stopping, file, board
      ensures ok <==> old(serving).Some? && chosen != old(serving).value && !fails
      ensures old(serving).None? || chosen == old(serving).value ==>
                file.generation == old(file.generation) && board.View() == old(board.View())
                && serving == old(serving) && stopping == old(stopping)
      ensures old(serving).Some? && chosen != old(serving).value ==>
                && file.generation == chosen
                && serving == (if fails then old(serving) else Some(chosen))
                && stopping == (old(stopping) || fails)
                && board.View() == if fails then old(board.View()) else Bound(old(board.View()), chosen)
    {
      if serving.None? {
        return false;
      }
      if chosen == serving.value {
        return false;
      }
      file.generation := chosen;
      if fails {
        stopping := true;
        return false;
      }
      var changed := board.BindAccessGeneration(chosen);
      serving := Some(chosen);
      ok := true;
    }
  }

  /** The offline branch of `rotate_server_access`: open under the old generation,
      save, rebind. Nothing stored survives it. */
  method RotateOffline(file: StateFile, board: BoardStore, chosen: Generation) returns (ok: bool)
    modifies file, board
    ensures ok <==> chosen != old(file.generation)
    ensures !ok ==> file.generation == old(file.generation) && board.View() == old(board.View())
    ensures ok ==> file.generation == chosen && board.View() == EMPTY.(generation := Some(chosen))
  {
    var before := file.generation;
    if chosen == before {
      return false;
    }
    var changed := board.BindAccessGeneration(before);
    file.generation := chosen;
    changed := board.BindAccessGeneration(chosen);
    ok := true;
  }
}
