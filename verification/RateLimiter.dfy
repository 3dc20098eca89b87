/** The window rate limiter behind joins and access proofs, over real time. */
module RateLimiter {
  import opened Options

  /** `limit` events a `window` block the key: until the window has moved on, or
      with `increasing` for 1, 2, 4, ... up to 60 seconds after each further one. */
  datatype Policy = Policy(limit: nat, window: real, increasing: bool)

  predicate Sane(p: Policy) {
    p.limit > 0 && p.window > 0.0
  }

  const JOINS := Policy(20, 600.0, false)
  const ACCESS_FAILURES := Policy(5, 600.0, true)

  /** What is remembered for one key. */
  datatype Bucket = Bucket(events: seq<real>, blocked: Option<real>)

  const FRESH := Bucket([], None)

  // -------------------------------------------------------------- operations

  function Trim(events: seq<real>, cutoff: real): seq<real> {
    if events != [] && events[0] <= cutoff then Trim(events[1..], cutoff) else events
  }

  function Until(b: Bucket): real {
    if b.blocked.Some? then b.blocked.value else 0.0
  }

  function Max(a: real, b: real): real {
    if a >= b then a else b
  }

  /** Python's `int` of a positive float. */
  function Seconds(wait: real): int {
    var whole := (wait + 0.999).Floor;
    if whole > 1 then whole else 1
  }

  function RetryAfter(b: Bucket, now: real): (Bucket, int) {
    if Until(b) <= now then (b.(blocked := None), 0) else (b, Seconds(Until(b) - now))
  }

  function Pow2(n: nat): (p: nat)
    ensures p >= 1
  {
    if n == 0 then 1 else 2 * Pow2(n - 1)
  }

  /** Seconds to wait after the `count`-th event in the window. */
  function Delay(p: Policy, count: nat): (d: real)
    requires count >= p.limit
    ensures d >= 1.0
  {
    var doubled := Pow2(count - p.limit) as real;
    if doubled <= 60.0 then doubled else 60.0
  }

  function Record(p: Policy, b: Bucket, now: real): (Bucket, int)
    requires Sane(p)
  {
    var events := Trim(b.events, now - p.window) + [now];
    if |events| < p.limit then (b.(events := events), 0)
    else
      var delay := if p.increasing then Delay(p, |events|) else Max(1.0, p.window - (now - events[0]));
      RetryAfter(Bucket(events, Some(Max(Until(b), now + delay))), now)
  }

  function Prune(p: Policy, b: Bucket, now: real): Bucket {
    Bucket(Trim(b.events, now - p.window), if b.blocked.Some? && b.blocked.value <= now then None else b.blocked)
  }

  /** The limiter object: one bucket a key in two dictionaries. */
  class WindowRateLimiter {
    const policy: Policy
    var events: map<string, seq<real>>
    var blockedUntil: map<string, real>

    function Of(key: string): Bucket
      reads this
    {
      Bucket(if key in events then events[key] else [], if key in blockedUntil then Some(blockedUntil[key]) else None)
    }

    /** Nothing changed for the other keys. */
    twostate predicate Only(key: string)
      reads this
    {
      events - {key} == old(events) - {key} && blockedUntil - {key} == old(blockedUntil) - {key}
    }

    constructor (policy: Policy)
      ensures this.policy == policy && forall k: string :: Of(k) == FRESH
    {
      this.policy := policy;
      events, blockedUntil := map[], map[];
    }

    method RetryAfterKey(key: string, now: real) returns (retry: int)
      modifies this`blockedUntil
      ensures (Of(key), retry) == RetryAfter(old(Of(key)), now) && Only(key)
    {
      var blocked := if key in blockedUntil then blockedUntil[key] else 0.0;
      if blocked <= now {
        blockedUntil := blockedUntil - {key};
        return 0;
      }
      retry := (blocked - now + 0.999).Floor;
      if retry < 1 {
        retry := 1;
      }
    }

    /** The loop that forgets what has left the window. */
    method DropOld(key: string, cutoff: real)
      requires key in events
      modifies this`events
      ensures Of(key) == old(Of(key)).(events := Trim(old(Of(key)).events, cutoff)) && Only(key)
      ensures events.Keys == old(events).Keys
    {
      while events[key] != [] && events[key][0] <= cutoff
        invariant events.Keys == old(events).Keys && Only(key)
        invariant Trim(events[key], cutoff) == Trim(old(events)[key], cutoff)
        decreases |events[key]|
      {
        events := events[key := events[key][1..]];
      }
    }

    method AppendEvent(key: string, now: real)
      modifies this`events
      ensures Of(key) == old(Of(key)).(events := Trim(old(Of(key)).events, now - policy.window) + [now])
      ensures Only(key) && key in events
    {
      if key !in events {
        events := events[key := []];
      }
      assert Only(key);
      DropOld(key, now - policy.window);
      assert Only(key);
      events := events[key := events[key] + [now]];
    }

    method RecordKey(key: string, now: real) returns (retry: int)
      requires Sane(policy)
      modifies this
      ensures (Of(key), retry) == Record(policy, old(Of(key)), now) && Only(key)
    {
      AppendEvent(key, now);
      var bucket := events[key];
      if |bucket| < policy.limit {
        return 0;
      }
      var delay;
      if policy.increasing {
        delay := Delay(policy, |bucket|);
      } else {
        delay := Max(1.0, policy.window - (now - bucket[0]));
      }
      blockedUntil := blockedUntil[key := Max(if key in blockedUntil then blockedUntil[key] else 0.0, now + delay)];
      assert Only(key);
      retry := RetryAfterKey(key, now);
    }

    method ClearKey(key: string)
      modifies this
      ensures Of(key) == FRESH && Only(key)
    {
      events := events - {key};
      blockedUntil := blockedUntil - {key};
    }

    method PruneKey(key: string, cutoff: real)
      requires key in events
      modifies this`events
      ensures Of(key) == old(Of(key)).(events := Trim(old(Of(key)).events, cutoff))
      ensures forall k: string | k != key :: Of(k) == old(Of(k)) && (k in events <==> k in old(events))
    {
      DropOld(key, cutoff);
      if events[key] == [] {
        events := events - {key};
      }
      forall k: string | k != key
        ensures Of(k) == old(Of(k)) && (k in events <==> k in old(events))
      {
        assert k in events <==> k in events - {key};
        assert k in old(events) <==> k in old(events) - {key};
        assert k in events ==> events[k] == (events - {key})[k];
        assert k in old(events) ==> old(events)[k] == (old(events) - {key})[k];
      }
    }

    method PruneEvents(cutoff: real)
      modifies this`events
      ensures forall k: string :: Of(k) == old(Of(k)).(events := Trim(old(Of(k)).events, cutoff))
    {
      var todo := events.Keys;
      while todo != {}
        invariant todo <= events.Keys
        invariant forall k: string {:trigger Of(k)} ::
                    Of(k) == if k in todo then old(Of(k)) else old(Of(k)).(events := Trim(old(Of(k)).events, cutoff))
      {
        var key :| key in todo;
        todo := todo - {key};
        PruneKey(key, cutoff);
      }
    }

    method PruneBlocks(now: real)
      modifies this`blockedUntil
      ensures forall k: string ::
                Of(k) == old(Of(k)).(blocked := if old(Of(k)).blocked.Some? && old(Of(k)).blocked.value <= now then None
                                                else old(Of(k)).blocked)
    {
      blockedUntil := map k | k in blockedUntil && blockedUntil[k] > now :: blockedUntil[k];
    }

    method PruneKeys(now: real)
      modifies this
      ensures forall k: string :: Of(k) == Prune(policy, old(Of(k)), now)
    {
      PruneEvents(now - policy.window);
      PruneBlocks(now);
    }
  }

  // ------------------------------------------------------------------ traces

  /** One key's history: `Try` is the callers' check-before-record, a proof that
      failed or a join; `Clear` a proof that succeeded. */
  datatype Op = Try(now: real) | Clear(now: real) | Maintain(now: real)

  /** `recorded` has every event since the last clear, pruned or not. */
  datatype Trace = Trace(bucket: Bucket, recorded: seq<real>, clock: real, due: real)

  /** An allowed attempt is recorded; `due` is when the next one may be. */
  function Attempt(p: Policy, t: Trace, now: real): Trace
    requires Sane(p)
  {
    var (checked, retry) := RetryAfter(t.bucket, now);
    if retry != 0 then t.(bucket := checked, clock := now)
    else
      var b := Record(p, checked, now).0;
      Trace(b, t.recorded + [now], now, if |b.events| < p.limit then t.due else Until(b))
  }

  function Next(p: Policy, t: Trace, op: Op): Trace
    requires Sane(p)
  {
    match op
    case Try(now) => Attempt(p, t, now)
    case Clear(now) => Trace(FRESH, [], now, 0.0)
    case Maintain(now) => t.(bucket := Prune(p, t.bucket, now), clock := now)
  }

  function Run(p: Policy, ops: seq<Op>): Trace
    requires Sane(p)
  {
    if ops == [] then Trace(FRESH, [], 0.0, 0.0) else Next(p, Run(p, ops[..|ops| - 1]), ops[|ops| - 1])
  }

  /** The clock starts at zero or later and never goes back. */
  predicate Ordered(ops: seq<Op>) {
    && (forall i | 0 <= i < |ops| :: ops[i].now >= 0.0)
    && (forall i, j | 0 <= i < j < |ops| :: ops[i].now <= ops[j].now)
  }

  // --------------------------------------------------------------- invariant

  predicate Sorted(s: seq<real>) {
    forall i, j | 0 <= i < j < |s| :: s[i] <= s[j]
  }

  /** The bucket is the recorded events less some that have left the window. */
  predicate Kept(p: Policy, t: Trace) {
    && |t.bucket.events| <= |t.recorded|
    && t.bucket.events == t.recorded[|t.recorded| - |t.bucket.events|..]
    && forall i | 0 <= i < |t.recorded| - |t.bucket.events| :: t.recorded[i] <= t.clock - p.window
  }

  /** Nothing is allowed before it is due. */
  predicate Guarded(t: Trace) {
    t.due <= t.clock || (t.bucket.blocked.Some? && t.bucket.blocked.value >= t.due)
  }

  /** With the `n` events up to the `m`-th inside one window, the next is not before
      `next`: the growing delay after the last, or the window after the first. */
  predicate GapOk(p: Policy, recorded: seq<real>, m: nat, n: nat, next: real) {
    0 < n && p.limit <= n <= m + 1 <= |recorded| && recorded[m] - p.window < recorded[m + 1 - n] ==>
      if p.increasing then next >= recorded[m] + Delay(p, n)
      else n == p.limit ==> next >= recorded[m + 1 - n] + p.window
  }

  predicate GapAt(p: Policy, recorded: seq<real>, m: nat, n: nat) {
    m + 1 < |recorded| ==> GapOk(p, recorded, m, n, recorded[m + 1])
  }

  predicate DueAt(p: Policy, t: Trace, n: nat) {
    t.recorded != [] ==> GapOk(p, t.recorded, |t.recorded| - 1, n, t.due)
  }

  ghost predicate Gaps(p: Policy, recorded: seq<real>) {
    forall m: nat, n: nat {:trigger GapAt(p, recorded, m, n)} :: GapAt(p, recorded, m, n)
  }

  ghost predicate Dues(p: Policy, t: Trace) {
    forall n: nat {:trigger DueAt(p, t, n)} :: DueAt(p, t, n)
  }

  predicate Timely(t: Trace) {
    t.clock >= 0.0 && Sorted(t.recorded) && (t.recorded != [] ==> t.recorded[|t.recorded| - 1] <= t.clock)
  }

  /** A fixed limiter never holds more than its limit, and a full one waits for its
      oldest event to leave. */
  predicate FixedOk(p: Policy, t: Trace) {
    p.increasing || |t.bucket.events| < p.limit
    || (|t.bucket.events| == p.limit > 0 && t.due >= t.bucket.events[0] + p.window)
  }

  ghost predicate Inv(p: Policy, t: Trace) {
    Timely(t) && Kept(p, t) && Guarded(t) && FixedOk(p, t) && Gaps(p, t.recorded) && Dues(p, t)
  }

  lemma {:induction false} TrimDrops(events: seq<real>, cutoff: real)
    ensures var k := |events| - |Trim(events, cutoff)|;
            && 0 <= k <= |events| && Trim(events, cutoff) == events[k..]
            && (forall i | 0 <= i < k :: events[i] <= cutoff)
            && (Trim(events, cutoff) != [] ==> Trim(events, cutoff)[0] > cutoff)
  {
    if events != [] && events[0] <= cutoff {
      TrimDrops(events[1..], cutoff);
      var k := |events| - |Trim(events, cutoff)|;
      forall i | 0 <= i < k
        ensures events[i] <= cutoff
      {
        assert i > 0 ==> events[1..][i - 1] == events[i];
      }
    }
  }

  lemma TrimKeeps(p: Policy, t: Trace, now: real)
    requires Kept(p, t) && now >= t.clock
    ensures Kept(p, t.(bucket := t.bucket.(events := Trim(t.bucket.events, now - p.window)), clock := now))
  {
    TrimDrops(t.bucket.events, now - p.window);
    var gone := |t.recorded| - |t.bucket.events|;
    var k := |t.bucket.events| - |Trim(t.bucket.events, now - p.window)|;
    forall i | 0 <= i < gone + k
      ensures t.recorded[i] <= now - p.window
    {
      assert i >= gone ==> t.bucket.events[i - gone] == t.recorded[i];
    }
  }

  lemma {:induction false} Pow2Grows(a: nat, b: nat)
    requires a <= b
    ensures Pow2(a) <= Pow2(b)
  {
    if a < b {
      Pow2Grows(a, b - 1);
    }
  }

  lemma DelayGrows(p: Policy, a: nat, b: nat)
    requires p.limit <= a <= b
    ensures Delay(p, a) <= Delay(p, b)
  {
    Pow2Grows(a - p.limit, b - p.limit);
  }

  lemma GapCarries(p: Policy, recorded: seq<real>, longer: seq<real>, m: nat, n: nat, next: real, later: real)
    requires GapOk(p, recorded, m, n, next) && recorded <= longer && m < |recorded| && next <= later
    ensures GapOk(p, longer, m, n, later)
  {
    assert longer[m] == recorded[m];
    assert 0 < n <= m + 1 ==> longer[m + 1 - n] == recorded[m + 1 - n];
  }

  /** A new event leaves the older gaps, and its own gap is what was due. */
  lemma GapsStay(p: Policy, t: Trace, now: real)
    requires Gaps(p, t.recorded) && Dues(p, t) && t.due <= now
    ensures Gaps(p, t.recorded + [now])
  {
    var longer := t.recorded + [now];
    forall m: nat, n: nat
      ensures GapAt(p, longer, m, n)
    {
      if m + 1 < |t.recorded| {
        assert GapAt(p, t.recorded, m, n);
        GapCarries(p, t.recorded, longer, m, n, t.recorded[m + 1], longer[m + 1]);
      } else if m + 1 == |t.recorded| {
        assert DueAt(p, t, n);
        GapCarries(p, t.recorded, longer, m, n, t.due, now);
      }
    }
  }

  /** The block after a new event respects the events still in the window. */
  lemma NextDue(p: Policy, t: Trace, n: nat)
    requires Sane(p) && t.recorded != [] && Kept(p, t) && t.clock == t.recorded[|t.recorded| - 1]
    requires !p.increasing ==> |t.bucket.events| <= p.limit
    requires |t.bucket.events| >= p.limit ==> BlocksFor(p, t)
    ensures DueAt(p, t, n)
  {
    var last := |t.recorded| - 1;
    if p.limit <= n <= |t.recorded| && t.recorded[last] - p.window < t.recorded[last + 1 - n] {
      assert n <= |t.bucket.events|;
      if p.increasing {
        DelayGrows(p, n, |t.bucket.events|);
      }
    }
  }

  lemma AttemptKeeps(p: Policy, t: Trace, now: real)
    requires Sane(p) && Inv(p, t) && now >= t.clock
    ensures Inv(p, Attempt(p, t, now))
  {
    if RetryAfter(t.bucket, now).1 == 0 {
      assert t.due <= now;
      RecordKeeps(p, t, now);
    } else {
      StillKept(p, t, now);
    }
  }

  /** Time passing or a block being dropped late changes nothing recorded. */
  lemma StillKept(p: Policy, t: Trace, now: real)
    requires Inv(p, t) && now >= t.clock && RetryAfter(t.bucket, now).1 != 0
    ensures Inv(p, t.(bucket := RetryAfter(t.bucket, now).0, clock := now))
  {
    var t' := t.(bucket := RetryAfter(t.bucket, now).0, clock := now);
    assert t'.bucket == t.bucket;
    SameDue(p, t, t');
  }

  lemma SameDue(p: Policy, t: Trace, t': Trace)
    requires Dues(p, t) && t'.recorded == t.recorded && t'.due == t.due
    ensures Dues(p, t')
  {
    forall n: nat
      ensures DueAt(p, t', n)
    {
      assert DueAt(p, t, n);
    }
  }

  /** What an allowed attempt leaves behind. */
  predicate Recorded(p: Policy, t: Trace, now: real, t': Trace)
    requires Sane(p)
  {
    && t'.bucket.events == Trim(t.bucket.events, now - p.window) + [now]
    && t'.recorded == t.recorded + [now] && t'.clock == now
    && if |t'.bucket.events| < p.limit then t'.due == t.due
       else t'.bucket.blocked == Some(t'.due) && BlocksFor(p, t')
  }

  predicate BlocksFor(p: Policy, t: Trace)
    requires |t.bucket.events| >= p.limit > 0
  {
    if p.increasing then t.due >= t.clock + Delay(p, |t.bucket.events|)
    else t.due >= t.bucket.events[0] + p.window
  }

  lemma RecordShape(p: Policy, t: Trace, now: real)
    requires Sane(p) && Until(t.bucket) <= now
    ensures Recorded(p, t, now, Attempt(p, t, now))
  {
  }

  lemma RecordKept(p: Policy, t: Trace, now: real, t': Trace)
    requires Sane(p) && Kept(p, t) && now >= t.clock && Recorded(p, t, now, t')
    ensures Kept(p, t')
  {
    TrimKeeps(p, t, now);
    var events := Trim(t.bucket.events, now - p.window);
    var gone := |t.recorded| - |events|;
    assert events + [now] == (t.recorded + [now])[gone..];
  }

  lemma RecordKeeps(p: Policy, t: Trace, now: real)
    requires Sane(p) && Inv(p, t) && now >= t.clock && t.due <= now && Until(t.bucket) <= now
    ensures Inv(p, Attempt(p, t, now))
  {
    RecordShape(p, t, now);
    RecordedKeeps(p, t, now, Attempt(p, t, now));
  }

  lemma RecordedKeeps(p: Policy, t: Trace, now: real, t': Trace)
    requires Sane(p) && Inv(p, t) && now >= t.clock && t.due <= now && Recorded(p, t, now, t')
    ensures Inv(p, t')
  {
    RecordKept(p, t, now, t');
    GapsStay(p, t, now);
    if !p.increasing {
      FixedNeverOverfills(p, t, now);
    }
    RecordDues(p, t');
    RecordTimely(t, now, t');
  }

  lemma RecordTimely(t: Trace, now: real, t': Trace)
    requires Timely(t) && now >= t.clock && t'.recorded == t.recorded + [now] && t'.clock == now
    ensures Timely(t')
  {
  }

  lemma RecordDues(p: Policy, t: Trace)
    requires Sane(p) && t.recorded != [] && Kept(p, t) && t.clock == t.recorded[|t.recorded| - 1]
    requires !p.increasing ==> |t.bucket.events| <= p.limit
    requires |t.bucket.events| >= p.limit ==> BlocksFor(p, t)
    ensures Dues(p, t)
  {
    forall n: nat
      ensures DueAt(p, t, n)
    {
      NextDue(p, t, n);
    }
  }

  /** A full fixed window is only recorded into once its oldest event has left. */
  lemma FixedNeverOverfills(p: Policy, t: Trace, now: real)
    requires FixedOk(p, t) && t.due <= now && !p.increasing && p.limit > 0
    ensures |Trim(t.bucket.events, now - p.window)| < p.limit
  {
    TrimDrops(t.bucket.events, now - p.window);
  }

  lemma MaintainKeeps(p: Policy, t: Trace, now: real)
    requires Sane(p) && Inv(p, t) && now >= t.clock
    ensures Inv(p, Next(p, t, Maintain(now)))
  {
    TrimKeeps(p, t, now);
    TrimDrops(t.bucket.events, now - p.window);
    SameDue(p, t, Next(p, t, Maintain(now)));
  }

  lemma NextKeeps(p: Policy, t: Trace, op: Op)
    requires Sane(p) && Inv(p, t) && op.now >= t.clock
    ensures Inv(p, Next(p, t, op)) && Next(p, t, op).clock == op.now
  {
    match op
    case Try(now) => AttemptKeeps(p, t, now);
    case Clear(now) => Blank(p, now);
    case Maintain(now) => MaintainKeeps(p, t, now);
  }

  lemma Blank(p: Policy, now: real)
    requires Sane(p) && now >= 0.0
    ensures Inv(p, Trace(FRESH, [], now, 0.0))
  {
    var t := Trace(FRESH, [], now, 0.0);
    assert forall m: nat, n: nat :: GapAt(p, t.recorded, m, n);
    assert forall n: nat :: DueAt(p, t, n);
  }

  lemma {:induction false} RunKeeps(p: Policy, ops: seq<Op>)
    requires Sane(p) && Ordered(ops)
    ensures Inv(p, Run(p, ops)) && (ops != [] ==> Run(p, ops).clock == ops[|ops| - 1].now)
    ensures ops == [] ==> Run(p, ops).clock == 0.0
  {
    if ops == [] {
      Blank(p, 0.0);
    } else {
      RunKeeps(p, ops[..|ops| - 1]);
      NextKeeps(p, Run(p, ops[..|ops| - 1]), ops[|ops| - 1]);
    }
  }

  // -------------------------------------------------------------- the bounds

  lemma FixedGap(p: Policy, r: seq<real>, i: nat, j: nat)
    requires Sane(p) && !p.increasing && Gaps(p, r) && Sorted(r) && i + p.limit <= j < |r|
    ensures r[j] >= r[i] + p.window
  {
    assert GapAt(p, r, i + p.limit - 1, p.limit);
    assert r[i + p.limit - 1] <= r[i + p.limit];
    assert i + p.limit < j ==> r[i + p.limit] <= r[j];
  }

  /** A fixed limiter records at most `limit` events in any window. */
  lemma FixedWindow(p: Policy, ops: seq<Op>, i: nat, j: nat)
    requires Sane(p) && !p.increasing && Ordered(ops)
    requires i <= j < |Run(p, ops).recorded|
    requires Run(p, ops).recorded[j] < Run(p, ops).recorded[i] + p.window
    ensures j - i + 1 <= p.limit
  {
    RunKeeps(p, ops);
    if i + p.limit <= j {
      FixedGap(p, Run(p, ops).recorded, i, j);
    }
  }

  /** Any 600 seconds hold at most 20 joins of one peer. */
  lemma JoinsPerWindow(ops: seq<Op>, i: nat, j: nat)
    requires Ordered(ops) && i <= j < |Run(JOINS, ops).recorded|
    requires Run(JOINS, ops).recorded[j] < Run(JOINS, ops).recorded[i] + 600.0
    ensures j - i + 1 <= 20
  {
    FixedWindow(JOINS, ops, i, j);
  }

  /** Once `n` failures, five or more, lie in one window, the next comes at least
      min(60, 2^(n-5)) seconds after the last. */
  lemma FailureGap(ops: seq<Op>, m: nat, n: nat)
    requires Ordered(ops) && 5 <= n <= m + 1 && m + 1 < |Run(ACCESS_FAILURES, ops).recorded|
    requires var r := Run(ACCESS_FAILURES, ops).recorded; r[m] - 600.0 < r[m + 1 - n]
    ensures var r := Run(ACCESS_FAILURES, ops).recorded;
            r[m + 1] >= r[m] + 60.0 || r[m + 1] >= r[m] + Pow2(n - 5) as real
  {
    RunKeeps(ACCESS_FAILURES, ops);
    assert GapAt(ACCESS_FAILURES, Run(ACCESS_FAILURES, ops).recorded, m, n);
  }

  /** The least time from the first of `k + 1` failures in a window to the last. */
  function Paced(k: nat): real {
    if k < 5 then 0.0 else Paced(k - 1) + Delay(ACCESS_FAILURES, k)
  }

  lemma PacedValues()
    ensures Paced(19) == 603.0
  {
    assert Pow2(0) == 1 && Pow2(1) == 2 && Pow2(2) == 4 && Pow2(3) == 8 && Pow2(4) == 16 && Pow2(5) == 32;
    assert Pow2(6) == 64;
    assert Paced(5) == 1.0 && Paced(6) == 3.0 && Paced(7) == 7.0 && Paced(8) == 15.0;
    assert Paced(9) == 31.0 && Paced(10) == 63.0;
    forall k: nat | 11 <= k
      ensures Delay(ACCESS_FAILURES, k) == 60.0
    {
      Pow2Grows(6, k - 5);
    }
    assert Paced(11) == 123.0 && Paced(12) == 183.0 && Paced(13) == 243.0 && Paced(14) == 303.0;
    assert Paced(15) == 363.0 && Paced(16) == 423.0 && Paced(17) == 483.0 && Paced(18) == 543.0;
  }

  lemma {:induction false} FailuresArePaced(r: seq<real>, i: nat, k: nat)
    requires Sorted(r) && Gaps(ACCESS_FAILURES, r)
    requires i + k < |r| && r[i + k] < r[i] + 600.0
    ensures r[i + k] >= r[i] + Paced(k)
  {
    if k >= 5 {
      assert r[i + k - 1] <= r[i + k];
      FailuresArePaced(r, i, k - 1);
      assert GapAt(ACCESS_FAILURES, r, i + k - 1, k);
    }
  }

  /** Any 600 seconds hold at most 19 failed access proofs of one peer, unless a
      success in between clears the count. */
  lemma FailuresPerWindow(ops: seq<Op>, i: nat, j: nat)
    requires Ordered(ops) && i <= j < |Run(ACCESS_FAILURES, ops).recorded|
    requires Run(ACCESS_FAILURES, ops).recorded[j] < Run(ACCESS_FAILURES, ops).recorded[i] + 600.0
    ensures j - i + 1 <= 19
  {
    RunKeeps(ACCESS_FAILURES, ops);
    var r := Run(ACCESS_FAILURES, ops).recorded;
    if j - i >= 19 {
      hide Paced, Delay, Pow2;
      assert r[i + 19] <= r[j];
      FailuresArePaced(r, i, 19);
      PacedValues();
      assert false;
    }
  }

  /** The limit is reached: a peer may join 20 times at once, and the 21st attempt is
      refused until the window has passed. */
  lemma {:induction false} BurstFills(p: Policy, now: real, n: nat)
    requires Sane(p) && now >= 0.0 && n <= p.limit && !p.increasing && p.window >= 1.0
    ensures var ops := seq(n, i => Try(now));
            var t := Run(p, ops);
            |t.recorded| == n && t.bucket.events == t.recorded && Ordered(ops)
            && (forall i | 0 <= i < n :: t.recorded[i] == now)
            && (if n < p.limit then t.bucket.blocked == None else t.bucket.blocked == Some(now + p.window))
  {
    if n > 0 {
      BurstFills(p, now, n - 1);
      var ops := seq(n, i => Try(now));
      assert ops[..n - 1] == seq(n - 1, i => Try(now));
      var t := Run(p, ops[..n - 1]);
      assert Trim(t.bucket.events, now - p.window) == t.bucket.events;
    }
  }

  // ------------------------------------------------------------ maintenance

  /** Two buckets nobody can tell apart from `now` on. */
  predicate Alike(p: Policy, a: Bucket, b: Bucket, now: real) {
    && Trim(a.events, now - p.window) == Trim(b.events, now - p.window)
    && (Until(a) > now || Until(b) > now ==> Until(a) == Until(b))
  }

  lemma {:induction false} TrimTwice(events: seq<real>, early: real, late: real)
    requires early <= late
    ensures Trim(Trim(events, early), late) == Trim(events, late)
  {
    if events != [] && events[0] <= early {
      TrimTwice(events[1..], early, late);
    }
  }

  lemma AlikeLater(p: Policy, a: Bucket, b: Bucket, now: real, later: real)
    requires Alike(p, a, b, now) && now <= later
    ensures Alike(p, a, b, later)
  {
    TrimTwice(a.events, now - p.window, later - p.window);
    TrimTwice(b.events, now - p.window, later - p.window);
  }

  /** What the caller of one operation sees. */
  function Answer(p: Policy, b: Bucket, op: Op): seq<int>
    requires Sane(p)
  {
    match op
    case Try(now) =>
      var (checked, retry) := RetryAfter(b, now);
      if retry != 0 then [retry] else [0, Record(p, checked, now).1]
    case _ => []
  }

  function Answers(p: Policy, ops: seq<Op>): seq<int>
    requires Sane(p)
  {
    if ops == [] then []
    else Answers(p, ops[..|ops| - 1]) + Answer(p, Run(p, ops[..|ops| - 1]).bucket, ops[|ops| - 1])
  }

  function Unmaintained(ops: seq<Op>): seq<Op> {
    if ops == [] then []
    else
      var last := ops[|ops| - 1];
      Unmaintained(ops[..|ops| - 1]) + if last.Maintain? then [] else [last]
  }

  lemma AlikeRecords(p: Policy, a: Bucket, b: Bucket, now: real)
    requires Sane(p) && now >= 0.0 && Alike(p, a, b, now) && Until(a) <= now && Until(b) <= now
    ensures Record(p, a.(blocked := None), now) == Record(p, b.(blocked := None), now)
  {
  }

  lemma AlikeAnswers(p: Policy, a: Bucket, b: Bucket, op: Op)
    requires Sane(p) && op.now >= 0.0 && Alike(p, a, b, op.now) && !op.Maintain?
    ensures Answer(p, a, op) == Answer(p, b, op)
    ensures op.Try? ==> (RetryAfter(a, op.now).1 == 0 <==> RetryAfter(b, op.now).1 == 0)
    ensures forall t: Trace, t': Trace | t.bucket == a && t'.bucket == b ::
              Alike(p, Next(p, t, op).bucket, Next(p, t', op).bucket, op.now)
  {
    if op.Try? && Until(a) <= op.now {
      AlikeRecords(p, a, b, op.now);
    }
  }

  lemma PruneAlike(p: Policy, b: Bucket, now: real)
    requires now >= 0.0
    ensures Alike(p, Prune(p, b, now), b, now)
  {
    TrimTwice(b.events, now - p.window, now - p.window);
  }

  /** Maintenance is neutral: wherever it runs, callers get the same answers and the
      same events are recorded as if it never ran. */
  lemma {:induction false} PruneIsNeutral(p: Policy, ops: seq<Op>)
    requires Sane(p) && Ordered(ops)
    ensures Answers(p, ops) == Answers(p, Unmaintained(ops))
    ensures Run(p, ops).recorded == Run(p, Unmaintained(ops)).recorded
    ensures ops != [] ==> Alike(p, Run(p, ops).bucket, Run(p, Unmaintained(ops)).bucket, ops[|ops| - 1].now)
    ensures ops == [] ==> Unmaintained(ops) == []
  {
    if ops != [] {
      var front, last := ops[..|ops| - 1], ops[|ops| - 1];
      PruneIsNeutral(p, front);
      var a, b := Run(p, front), Run(p, Unmaintained(front));
      if front != [] {
        AlikeLater(p, a.bucket, b.bucket, front[|front| - 1].now, last.now);
      }
      if last.Maintain? {
        PruneAlike(p, a.bucket, last.now);
        assert Unmaintained(ops) == Unmaintained(front);
      } else {
        var rest := Unmaintained(front) + [last];
        assert rest[..|rest| - 1] == Unmaintained(front);
        AlikeAnswers(p, a.bucket, b.bucket, last);
      }
    }
  }

  // ------------------------------------------------------- advertised delays

  lemma SecondsCover(wait: real)
    requires wait > 0.0
    ensures Seconds(wait) as real >= wait
            <==> wait <= 1.0 || wait == wait.Floor as real || wait - wait.Floor as real >= 0.001
  {
    var whole := wait.Floor;
    if wait - whole as real < 0.001 {
      assert (wait + 0.999).Floor == whole;
    } else {
      assert (wait + 0.999).Floor == whole + 1;
    }
  }

  /** Waiting as long as the limiter says is enough exactly when the true wait is at
      most a second, whole, or at least a millisecond past whole: `int(x + 0.999)`
      rounds the other waits down. */
  lemma AdvertisedWaitSuffices(b: Bucket, now: real)
    requires Until(b) > now
    ensures var wait := Until(b) - now;
            RetryAfter(b, now + RetryAfter(b, now).1 as real).1 == 0
            <==> wait <= 1.0 || wait == wait.Floor as real || wait - wait.Floor as real >= 0.001
  {
    SecondsCover(Until(b) - now);
  }

  lemma RunSnoc(p: Policy, ops: seq<Op>, op: Op)
    requires Sane(p)
    ensures Run(p, ops + [op]) == Next(p, Run(p, ops), op)
  {
    assert (ops + [op])[..|ops|] == ops;
  }

  /** Up to five failures at one moment: nothing blocks before the fifth. */
  lemma {:induction false} FailuresAtOnce(n: nat)
    requires n <= 5
    ensures var t := Run(ACCESS_FAILURES, seq(n, i => Try(0.0)));
            && t.bucket.events == seq(n, i => 0.0)
            && t.bucket.blocked == if n < 5 then None else Some(1.0)
  {
    if n > 0 {
      FailuresAtOnce(n - 1);
      var front := seq(n - 1, i => Try(0.0));
      assert seq(n, i => Try(0.0)) == front + [Try(0.0)];
      RunSnoc(ACCESS_FAILURES, front, Try(0.0));
      assert seq(n, i => 0.0) == seq(n - 1, i => 0.0) + [0.0];
      assert Delay(ACCESS_FAILURES, 5) == 1.0;
    }
  }

  /** Reached in practice: five failed proofs at once and one a second later block a
      peer until 3.0. At 1.9995 it is told one second, and after that second it is
      refused again. */
  lemma AdvertisedWaitTooShort()
    ensures var ops := seq(5, i => Try(0.0)) + [Try(1.0)];
            var b := Run(ACCESS_FAILURES, ops).bucket;
            var b' := Run(ACCESS_FAILURES, ops + [Try(1.9995)]).bucket;
            && Ordered(ops + [Try(1.9995), Try(2.9995)]) && b.blocked == Some(3.0)
            && Answer(ACCESS_FAILURES, b, Try(1.9995)) == [1]
            && Answer(ACCESS_FAILURES, b', Try(1.9995 + 1.0)) == [1]
  {
    var five := seq(5, i => Try(0.0));
    FailuresAtOnce(5);
    RunSnoc(ACCESS_FAILURES, five, Try(1.0));
    RunSnoc(ACCESS_FAILURES, five + [Try(1.0)], Try(1.9995));
    assert Pow2(1) == 2;
  }
}
