/** When exactly the limiter refuses, stated on the recorded events alone: both kinds
    of policy, over every run under a clock that never goes back. */
module RateLimiterExact {
  import opened Options
  import opened RateLimiter

  /** `k` is the oldest event in the window that ends with the last one. */
  predicate IsOldest(p: Policy, r: seq<real>, k: nat) {
    && k < |r|
    && (forall i | 0 <= i < k :: r[i] <= r[|r| - 1] - p.window)
    && (forall i | k <= i < |r| :: r[i] > r[|r| - 1] - p.window)
  }

  /** When the next event is due: at once while the window holds fewer than `limit`;
      with a growing delay 1, 2, 4, ... up to 60 seconds after the last event; without
      one when the oldest event leaves the window, and a second after the last. */
  function DueAfter(p: Policy, n: nat, oldest: real, last: real): real {
    if n < p.limit then 0.0
    else if p.increasing then
      var doubled := Pow2(n - p.limit) as real;
      last + if doubled < 60.0 then doubled else 60.0
    else if oldest + p.window >= last + 1.0 then oldest + p.window
    else last + 1.0
  }

  /** The same for recorded events whose window starts at `k`. */
  function DueFrom(p: Policy, r: seq<real>, k: nat): real
    requires k < |r|
  {
    DueAfter(p, |r| - k, r[k], r[|r| - 1])
  }

  /** The block ends when the next event is due, or was dropped after that. */
  ghost predicate BlockedUntilDue(p: Policy, t: Trace, k: nat) {
    IsOldest(p, t.recorded, k)
    && (Until(t.bucket) == DueFrom(p, t.recorded, k)
        || (t.bucket.blocked.None? && DueFrom(p, t.recorded, k) <= t.clock))
  }

  ghost predicate Exact(p: Policy, t: Trace) {
    if t.recorded == [] then t.bucket.blocked == None
    else exists k :: BlockedUntilDue(p, t, k)
  }

  lemma OldestIsUnique(p: Policy, r: seq<real>, a: nat, b: nat)
    requires IsOldest(p, r, a) && IsOldest(p, r, b)
    ensures a == b
  {
    assert r[a] > r[|r| - 1] - p.window && r[b] > r[|r| - 1] - p.window;
  }

  lemma BlockAfter(p: Policy, b: Bucket, now: real)
    requires Sane(p) && b.blocked == None && now >= 0.0
    ensures var events := Trim(b.events, now - p.window) + [now];
            && Record(p, b, now).0.events == events
            && Until(Record(p, b, now).0) == DueAfter(p, |events|, events[0], now)
  {
    hide Trim, Pow2;
  }

  lemma AttemptRecords(p: Policy, t: Trace, now: real)
    requires Sane(p) && Until(t.bucket) <= now
    ensures var t' := Attempt(p, t, now);
            && t'.bucket == Record(p, t.bucket.(blocked := None), now).0
            && t'.recorded == t.recorded + [now] && t'.clock == now
  {
    hide Record;
  }

  lemma WindowStarts(recorded: seq<real>, now: real, left: seq<real>, k: nat)
    requires k <= |recorded| && left == recorded[k..]
    ensures (recorded + [now])[k] == (left + [now])[0] && |recorded + [now]| - k == |left + [now]|
  {
    assert k < |recorded| ==> left[0] == recorded[k];
  }

  lemma RecordExact(p: Policy, t: Trace, now: real)
    requires Sane(p) && Inv(p, t) && now >= t.clock && Until(t.bucket) <= now
    ensures Exact(p, Attempt(p, t, now))
  {
    assert Timely(t) && Kept(p, t);
    hide Inv, Timely, Kept, Trim, Record, DueAfter, IsOldest, Attempt;
    ClockIsPositive(t);
    var left := Trim(t.bucket.events, now - p.window);
    LeftOver(p, t, now);
    var k := |t.recorded| - |left|;
    RecordedWindow(p, t, now, k);
    AttemptRecords(p, t, now);
    BlockAfter(p, t.bucket.(blocked := None), now);
    WindowStarts(t.recorded, now, left, k);
    assert BlockedUntilDue(p, Attempt(p, t, now), k);
  }

  lemma ClockIsPositive(t: Trace)
    requires Timely(t)
    ensures t.clock >= 0.0
  {
  }

  lemma LeftOver(p: Policy, t: Trace, now: real)
    requires Kept(p, t)
    ensures |Trim(t.bucket.events, now - p.window)| <= |t.recorded|
  {
    TrimDrops(t.bucket.events, now - p.window);
  }

  /** What is left of the bucket is the window of the recorded events. */
  lemma RecordedWindow(p: Policy, t: Trace, now: real, k: nat)
    requires Sane(p) && Timely(t) && Kept(p, t) && now >= t.clock
    requires k + |Trim(t.bucket.events, now - p.window)| == |t.recorded|
    ensures IsOldest(p, t.recorded + [now], k)
    ensures Trim(t.bucket.events, now - p.window) == t.recorded[k..]
  {
    hide Trim;
    TrimDrops(t.bucket.events, now - p.window);
    var gone := |t.recorded| - |t.bucket.events|;
    assert t.recorded[gone..][k - gone..] == t.recorded[k..];
    LeftBehind(t.recorded, gone, k, t.clock - p.window, now - p.window);
    InWindow(t.recorded, k, now, now - p.window);
  }

  lemma LeftBehind(r: seq<real>, gone: nat, k: nat, early: real, late: real)
    requires gone <= k <= |r| && early <= late
    requires forall i | 0 <= i < gone :: r[i] <= early
    requires forall i | 0 <= i < k - gone :: r[gone..][i] <= late
    ensures forall i | 0 <= i < k :: r[i] <= late
  {
    forall i | 0 <= i < k
      ensures r[i] <= late
    {
      if i >= gone {
        assert r[gone..][i - gone] == r[i];
      }
    }
  }

  lemma InWindow(r: seq<real>, k: nat, now: real, cutoff: real)
    requires k <= |r| && Sorted(r) && cutoff < now && (k < |r| ==> r[k] > cutoff)
    ensures forall i | k <= i < |r| + 1 :: (r + [now])[i] > cutoff
  {
    forall i | k <= i < |r|
      ensures r[i] > cutoff
    {
      assert r[k] <= r[i];
    }
  }

  lemma NextExact(p: Policy, t: Trace, op: Op)
    requires Sane(p) && Inv(p, t) && Exact(p, t) && op.now >= t.clock
    ensures Exact(p, Next(p, t, op))
  {
    match op
    case Try(now) =>
      if Until(t.bucket) <= now {
        RecordExact(p, t, now);
      } else {
        ClockMoves(p, t, Next(p, t, op));
      }
    case Clear(_) =>
    case Maintain(now) => ClockMoves(p, t, Next(p, t, op));
  }

  /** Time passing, or an elapsed block being dropped. */
  lemma ClockMoves(p: Policy, t: Trace, t': Trace)
    requires Exact(p, t) && t'.recorded == t.recorded && t'.clock >= t.clock
    requires t'.bucket.blocked == t.bucket.blocked || (t'.bucket.blocked == None && Until(t.bucket) <= t'.clock)
    ensures Exact(p, t')
  {
    if t.recorded != [] {
      var k :| BlockedUntilDue(p, t, k);
      assert BlockedUntilDue(p, t', k);
    }
  }

  lemma {:induction false} RunExact(p: Policy, ops: seq<Op>)
    requires Sane(p) && Ordered(ops)
    ensures Exact(p, Run(p, ops))
  {
    if ops != [] {
      var front := ops[..|ops| - 1];
      RunExact(p, front);
      RunKeeps(p, front);
      NextExact(p, Run(p, front), ops[|ops| - 1]);
    }
  }

  /** The limiter refuses exactly before the next event is due: for joins, while 20 of
      them lie in the window of the last one and the oldest of these has not left it;
      for failures, for the growing delay after the last one. */
  lemma RefusedExactly(p: Policy, ops: seq<Op>, now: real, k: nat)
    requires Sane(p) && Ordered(ops + [Try(now)]) && IsOldest(p, Run(p, ops).recorded, k)
    ensures RetryAfter(Run(p, ops).bucket, now).1 != 0 <==> now < DueFrom(p, Run(p, ops).recorded, k)
  {
    var t := Run(p, ops);
    OrderedFront(ops, now);
    RunExact(p, ops);
    RunKeeps(p, ops);
    var j :| BlockedUntilDue(p, t, j);
    OldestIsUnique(p, t.recorded, j, k);
  }

  lemma OrderedFront(ops: seq<Op>, now: real)
    requires Ordered(ops + [Try(now)])
    ensures Ordered(ops) && now >= 0.0 && (ops != [] ==> ops[|ops| - 1].now <= now)
  {
    var all := ops + [Try(now)];
    assert forall i | 0 <= i < |ops| :: all[i] == ops[i];
    assert all[|ops|] == Try(now);
  }

  /** Nothing recorded, nothing refused. */
  lemma AllowedAtFirst(p: Policy, ops: seq<Op>, now: real)
    requires Sane(p) && Ordered(ops + [Try(now)]) && Run(p, ops).recorded == []
    ensures RetryAfter(Run(p, ops).bucket, now).1 == 0
  {
    OrderedFront(ops, now);
    RunExact(p, ops);
  }

  /** Every allowed attempt is recorded, no refused one is, and only a success forgets. */
  lemma RecordedExactly(p: Policy, ops: seq<Op>, op: Op)
    requires Sane(p)
    ensures var t, t' := Run(p, ops), Run(p, ops + [op]);
            t'.recorded == if op.Clear? then []
                           else if op.Try? && RetryAfter(t.bucket, op.now).1 == 0 then t.recorded + [op.now]
                           else t.recorded
  {
    RunSnoc(p, ops, op);
  }

  /** Recording answers with the wait that a check right after it would advertise. */
  lemma RecordTellsWait(p: Policy, b: Bucket, now: real)
    requires Sane(p) && b.blocked == None && now >= 0.0
    ensures var (b', retry) := Record(p, b, now); retry == RetryAfter(b', now).1
  {
  }

  /** A pruned bucket holds exactly the events still in the window, and no block that
      has passed. */
  lemma PrunedExactly(p: Policy, b: Bucket, now: real)
    requires Sorted(b.events)
    ensures var b' := Prune(p, b, now);
            && |b'.events| <= |b.events| && b'.events == b.events[|b.events| - |b'.events|..]
            && (forall i | 0 <= i < |b.events| ::
                  b.events[i] > now - p.window <==> i >= |b.events| - |b'.events|)
            && b'.blocked == (if b.blocked.Some? && b.blocked.value > now then b.blocked else None)
  {
    TrimDrops(b.events, now - p.window);
    var left := Trim(b.events, now - p.window);
    forall i | |b.events| - |left| <= i < |b.events|
      ensures b.events[i] > now - p.window
    {
      assert left[0] == b.events[|b.events| - |left|];
    }
  }
}
