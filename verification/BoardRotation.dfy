/** An access rotation between two connections of a client: the numbering goes on, and
    nothing from before it is seen after it. */
module BoardRotation {
  import opened Board
  import opened BoardEvents
  import opened BoardReplica
  import opened Options

  /** The sequence number a frame names. */
  function NumberOf(f: Frame): Option<nat> {
    match f
    case Page(sequence, _, _, _, _, _) => Some(sequence)
    case Refused => None
    case Subscribed(_, sequence) => Some(sequence)
    case Pushed(sequence, _) => Some(sequence)
  }

  predicate FrameFrom(f: Frame, n: nat) {
    NumberOf(f).Some? ==> n <= NumberOf(f).value
  }

  predicate SyncFrom(sync: Sync, n: nat) {
    match sync
    case Idle => true
    case Paging(_, pinned, _, _) => pinned.Some? ==> n <= pinned.value
    case Subscribing(_, pinned, _) => n <= pinned
  }

  /** Everything the connection carries or the client holds is numbered `n` or later. */
  ghost predicate From(s: System, n: nat) {
    && n <= |s.relay.log|
    && (forall i | 0 <= i < |s.toClient| :: FrameFrom(s.toClient[i], n))
    && (s.slot.Some? ==> FrameFrom(s.slot.value, n))
    && SyncFrom(s.client.sync, n)
    && (s.client.synced ==> n <= s.client.replica.sequence)
  }

  lemma OperateFrom(s: System, op: BoardOp, n: nat)
    requires Keyed(s.relay.table.messages) && From(s, n)
    ensures From(Operate(s, op), n)
  {
  }

  lemma ServeListFrom(s: System, now: nat, next: nat, k: Keyring, n: nat)
    requires Keyed(s.relay.table.messages) && From(s, n)
    ensures From(Next(s, ServeList(now, next), k), n)
  {
    hide Operate;
    OperateFrom(s, Expire(now), n);
  }

  lemma NextFrom(s: System, a: Action, k: Keyring, n: nat)
    requires Keyed(s.relay.table.messages) && From(s, n)
    ensures From(Next(s, a, k), n)
  {
    hide Operate;
    match a
    case Activity(op) => OperateFrom(s, op, n);
    case ServeList(now, next) => ServeListFrom(s, now, next, k, n);
    case BeginList(now) => OperateFrom(s, Expire(now), n);
    case EndList(_) =>
    case ServeSubscribe =>
    case Read =>
    case Resume =>
    case Start(_) =>
    case Reconnect =>
    case Rotate(_) =>
  }

  lemma {:induction false} RunFrom(s: System, actions: seq<Action>, k: Keyring, n: nat)
    requires Keyed(s.relay.table.messages) && From(s, n)
    ensures From(Run(s, actions, k), n)
  {
    if actions != [] {
      var front := actions[..|actions| - 1];
      RunFrom(s, front, k, n);
      NextFrom(Run(s, front, k), actions[|actions| - 1], k, n);
    }
  }

  lemma {:induction false} LogGrows(s: System, actions: seq<Action>, k: Keyring)
    requires Keyed(s.relay.table.messages)
    ensures s.relay.log <= Run(s, actions, k).relay.log && Run(s, actions, k).relay.base == s.relay.base
  {
    hide Next;
    if actions != [] {
      var front := actions[..|actions| - 1];
      LogGrows(s, front, k);
      NextGrows(Run(s, front, k), actions[|actions| - 1], k);
    }
  }

  lemma NextGrows(s: System, a: Action, k: Keyring)
    requires Keyed(s.relay.table.messages)
    ensures s.relay.log <= Next(s, a, k).relay.log && Next(s, a, k).relay.base == s.relay.base
  {
    hide RelayStep, ListReply, OnReply, OnEvent;
  }

  lemma {:induction false} CleanAppend(s: System, a: seq<Action>, b: seq<Action>, k: Keyring)
    requires Keyed(s.relay.table.messages)
    ensures CleanRun(s, a + b, k) <==> CleanRun(s, a, k) && CleanRun(Run(s, a, k), b, k)
  {
    if b == [] {
      assert a + b == a;
    } else {
      var n := |b| - 1;
      assert (a + b)[..|a + b| - 1] == a + b[..n];
      CleanAppend(s, a, b[..n], k);
      RunAppend(s, a, b[..n], k);
    }
  }

  /** `row` was published after the first `from` events. */
  ghost predicate PublishedFrom(log: seq<Event>, from: nat, row: Row) {
    exists i :: from <= i < |log| && log[i] == Update(row)
  }

  lemma {:induction false} FoldPublished(more: seq<Event>, id: MessageId)
    requires id in Fold(map[], more)
    ensures PublishedFrom(more, 0, Fold(map[], more)[id])
  {
    var n := |more| - 1;
    var front := more[..n];
    if more[n].Update? && more[n].row.record.id == id {
      assert more[n] == Update(Fold(map[], more)[id]);
    } else {
      FoldPublished(front, id);
      var i :| 0 <= i < |front| && front[i] == Update(Fold(map[], front)[id]);
      assert more[i] == Update(Fold(map[], more)[id]);
    }
  }

  lemma AddedLater(base: Messages, log: seq<Event>, more: seq<Event>, id: MessageId)
    requires Fold(base, log) == map[] && id in Fold(base, log + more)
    ensures PublishedFrom(log + more, |log|, Fold(base, log + more)[id])
  {
    hide Fold;
    FoldAppend(base, log, more);
    FoldPublished(more, id);
    var i :| 0 <= i < |more| && more[i] == Update(Fold(map[], more)[id]);
    assert (log + more)[|log| + i] == more[i];
  }

  /** What the client holds after a rotation that cleared the store. */
  ghost predicate OnlyNew(s: System, n: nat) {
    && s.client.replica.sequence <= |s.relay.log|
    && forall id | id in s.client.replica.records ::
      PublishedFrom(s.relay.log[..s.client.replica.sequence], n, s.client.replica.records[id])
  }

  /** A rotation is a barrier: in every clean run through it, any number of connections
      before and after it, a synchronised client holds the fold of the events up to its
      own number, at the numbering continued from the rotation; and when the rotation
      cleared the store, every record it holds was published after it. */
  lemma RotationIsABarrier(s: System, before: seq<Action>, generation: Generation, after: seq<Action>, k: Keyring)
    requires Initial(s) && CleanRun(s, before + [Rotate(generation)] + after, k)
    ensures var w := Run(s, before, k);
            var s' := Run(s, before + [Rotate(generation)] + after, k);
            && RelayOk(w.relay)
            && (s'.client.synced ==>
                  && |w.relay.log| < s'.client.replica.sequence <= |s'.relay.log|
                  && Consistent(s'.relay, s'.client.replica, k)
                  && (BindClears(w.relay.table, generation) ==> OnlyNew(s', |w.relay.log| + 1)))
  {
    hide Run, CleanRun, Next;
    var w := Run(s, before, k);
    var rotated := Connected(Rotated(w.relay, generation));
    CleanAppend(s, before + [Rotate(generation)], after, k);
    CleanAppend(s, before, [Rotate(generation)], k);
    RunAppend(s, before + [Rotate(generation)], after, k);
    RunAppend(s, before, [Rotate(generation)], k);
    Rotates(w, generation, k);
    RunKeeps(s, before, k);
    RotatedKeeps(w.relay, generation);
    RunFrom(rotated, after, k, |w.relay.log| + 1);
    RunKeeps(rotated, after, k);
    LogGrows(rotated, after, k);
    var s' := Run(rotated, after, k);
    if s'.client.synced && BindClears(w.relay.table, generation) {
      RecordsAreNew(rotated.relay, s', k);
    }
  }

  lemma Rotates(w: System, generation: Generation, k: Keyring)
    requires Keyed(w.relay.table.messages)
    ensures Run(w, [Rotate(generation)], k) == Connected(Rotated(w.relay, generation))
  {
    hide Run, RelayStep, ListReply, OnReply, OnEvent, Rotated;
    RunOne(w, Rotate(generation), k);
  }

  lemma RecordsAreNew(r: Relay, s: System, k: Keyring)
    requires RelayOk(r) && r.table.messages == map[] && r.log <= s.relay.log && s.relay.base == r.base
    requires Consistent(s.relay, s.client.replica, k) && |r.log| <= s.client.replica.sequence
    ensures OnlyNew(s, |r.log|)
  {
    hide Fold, PublishedFrom;
    var known := s.relay.log[..s.client.replica.sequence];
    assert known == r.log + known[|r.log|..];
    forall id | id in s.client.replica.records
      ensures PublishedFrom(known, |r.log|, s.client.replica.records[id])
    {
      AddedLater(r.base, r.log, known[|r.log|..], id);
    }
  }
}
