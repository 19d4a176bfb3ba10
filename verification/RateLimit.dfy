/**
 The rate limiter's one statement (`packages/db/rate-limit.ts`). Times are milliseconds.
 Concurrent attempts serialise on the row the upsert locks, so attempts are taken one at a
 time, at times that do not go back.
 */
module RateLimit {
  import opened Common

  datatype Policy = Policy(limit: nat, window: int, block: int)

  /** A limit that admits something, over a window of some length. */
  predicate PolicyOk(p: Policy) { p.limit >= 1 && p.window >= 1 }

  /** A block no shorter than the window, less a millisecond. */
  predicate LongBlock(p: Policy) { p.block >= 1 && p.block >= p.window - 1 }

  /** One at a time, with a block of at least half the window. */
  predicate HalfBlock(p: Policy) { p.limit == 1 && p.block >= 1 && 2 * p.block >= p.window }

  /** The policies that bound what any stretch of one window admits. */
  predicate Bounding(p: Policy) { LongBlock(p) || HalfBlock(p) }

  datatype Bucket = Bucket(count: int, start: int, blockedUntil: Option<int>)

  predicate Blocked(b: Bucket, now: int) { b.blockedUntil.Some? && b.blockedUntil.value > now }

  /** A fresh window: the old one has rolled, or its block has lapsed. */
  predicate Rolls(p: Policy, b: Bucket, now: int) { b.blockedUntil.Some? || b.start <= now - p.window }

  function Upsert(p: Policy, bucket: Option<Bucket>, now: int): Bucket {
    if bucket.None? then Bucket(1, now, None)
    else
      var b := bucket.value;
      if Blocked(b, now) then b
      else if Rolls(p, b, now) then Bucket(1, now, None)
      else Bucket(b.count + 1, b.start, if b.count + 1 > p.limit then Some(now + p.block) else None)
  }

  /** One attempt: turned away by a block without being counted; the first of a window when there
      is no window, its time is over or its block is; and else counted, and turned away exactly
      when the limit has been used up, which begins a block. */
  predicate CountedAs(p: Policy, before: Option<Bucket>, b: Bucket, now: int, allowed: bool) {
    if before.Some? && before.value.blockedUntil.Some? && before.value.blockedUntil.value > now then
      b == before.value && !allowed
    else if before.None? || before.value.blockedUntil.Some? || now - before.value.start >= p.window then
      b.count == 1 && b.start == now && b.blockedUntil.None? && allowed
    else
      && b.count == before.value.count + 1 && b.start == before.value.start
      && (before.value.count < p.limit ==> allowed && b.blockedUntil.None?)
      && (before.value.count >= p.limit ==> b.blockedUntil == Some(now + p.block) && (p.block > 0 ==> !allowed))
  }

  predicate Admits(b: Bucket, now: int) { b.blockedUntil.None? || b.blockedUntil.value <= now }

  // ------------------------------------------------------------------
  // How many in a window
  // ------------------------------------------------------------------

  /** How many of `times` fall in `[x, x + width)`. */
  function InSpan(times: seq<int>, x: int, width: int): nat {
    if times == [] then 0
    else InSpan(times[..|times| - 1], x, width) + if x <= times[|times| - 1] < x + width then 1 else 0
  }

  lemma SpanPush(times: seq<int>, now: int, x: int, width: int)
    ensures InSpan(times + [now], x, width) == InSpan(times, x, width) + if x <= now < x + width then 1 else 0
  {
    assert (times + [now])[..|times|] == times;
  }

  lemma {:induction false} SpanEmpty(times: seq<int>, x: int, width: int)
    requires forall i :: 0 <= i < |times| ==> times[i] < x
    ensures InSpan(times, x, width) == 0
  {
    if times != [] {
      SpanEmpty(times[..|times| - 1], x, width);
    }
  }

  /** Admitted in the bucket's own window. */
  function Current(p: Policy, b: Bucket): int { if b.blockedUntil.Some? then p.limit else b.count }

  /** What the bucket knows bounds what was admitted, wherever the span lies against its
      window: wholly before it, across its start, or after its start. */
  ghost predicate SpanOk(p: Policy, b: Bucket, admitted: seq<int>, x: int) {
    var n := InSpan(admitted, x, p.window);
    if b.start >= x + p.window then n <= 2 * p.limit
    else if b.start > x then n <= p.limit + Current(p, b)
    else n <= Current(p, b)
  }

  ghost predicate BucketOk(p: Policy, bucket: Option<Bucket>, admitted: seq<int>, clock: int) {
    && (forall i :: 0 <= i < |admitted| ==> admitted[i] <= clock)
    && (bucket.None? ==> admitted == [])
    && (bucket.Some? ==>
          var b := bucket.value;
          && b.start <= clock && 1 <= Current(p, b) <= p.limit
          && (b.blockedUntil.None? ==>
                b.count <= p.limit && forall i :: 0 <= i < |admitted| ==> admitted[i] < b.start + p.window)
          && (b.blockedUntil.Some? ==>
                && b.blockedUntil.value >= b.start + p.block
                && forall i :: 0 <= i < |admitted| ==> admitted[i] <= b.blockedUntil.value - p.block)
          && forall x :: SpanOk(p, b, admitted, x))
  }

  function Logged(admitted: seq<int>, b: Bucket, now: int): seq<int> {
    if Admits(b, now) then admitted + [now] else admitted
  }

  lemma UpsertKeeps(p: Policy, bucket: Option<Bucket>, admitted: seq<int>, clock: int, now: int)
    requires PolicyOk(p) && LongBlock(p) && BucketOk(p, bucket, admitted, clock) && clock <= now
    ensures var b := Upsert(p, bucket, now); BucketOk(p, Some(b), Logged(admitted, b, now), now)
  {
    var b := Upsert(p, bucket, now);
    var after := Logged(admitted, b, now);
    forall x ensures SpanOk(p, b, after, x) {
      UpsertSpan(p, bucket, admitted, clock, now, x);
    }
  }

  lemma UpsertSpan(p: Policy, bucket: Option<Bucket>, admitted: seq<int>, clock: int, now: int, x: int)
    requires PolicyOk(p) && LongBlock(p) && BucketOk(p, bucket, admitted, clock) && clock <= now
    ensures var b := Upsert(p, bucket, now); SpanOk(p, b, Logged(admitted, b, now), x)
  {
    SpanPush(admitted, now, x, p.window);
    if bucket.Some? {
      assert SpanOk(p, bucket.value, admitted, x);
    }
    if now <= x && (bucket.None? || (!Blocked(bucket.value, now) && Rolls(p, bucket.value, now))) {
      SpanEmpty(admitted, x, p.window);
    }
  }

  // ------------------------------------------------------------------
  // One at a time
  // ------------------------------------------------------------------

  /** With a limit of one, what is admitted is the start of each window, and two starts are
      half a window apart at least. */
  ghost predicate SparseOk(p: Policy, bucket: Option<Bucket>, admitted: seq<int>) {
    && (forall i, j :: 0 <= i && i + 1 == j < |admitted| ==> 2 * (admitted[j] - admitted[i]) >= p.window)
    && (if bucket.None? then admitted == []
        else
          var b := bucket.value;
          && admitted != [] && admitted[|admitted| - 1] == b.start
          && (b.blockedUntil.None? ==> b.count == 1)
          && (b.blockedUntil.Some? ==> b.blockedUntil.value >= b.start + p.block))
  }

  lemma SparseKeeps(p: Policy, bucket: Option<Bucket>, admitted: seq<int>, now: int)
    requires PolicyOk(p) && HalfBlock(p) && SparseOk(p, bucket, admitted)
    requires bucket.Some? ==> bucket.value.start <= now
    ensures var b := Upsert(p, bucket, now); SparseOk(p, Some(b), Logged(admitted, b, now)) && b.start <= now
  {
  }

  /** No window's length holds three that are half a window apart. */
  lemma {:induction false} SparseSpan(times: seq<int>, x: int, width: int)
    requires width >= 1 && forall i, j :: 0 <= i && i + 1 == j < |times| ==> 2 * (times[j] - times[i]) >= width
    ensures InSpan(times, x, width) <= 2
  {
    var n := |times|;
    if n > 0 {
      SparseSpan(times[..n - 1], x, width);
      if n > 2 && x <= times[n - 1] < x + width {
        assert 2 * (times[n - 1] - times[n - 2]) >= width && 2 * (times[n - 2] - times[n - 3]) >= width;
        SparseSorted(times, n - 3);
        SpanEmpty(times[..n - 2], x, width);
        assert times[..n - 1][..n - 2] == times[..n - 2];
      }
    }
  }

  lemma {:induction false} SparseSorted(times: seq<int>, last: nat)
    requires last < |times| && forall i, j :: 0 <= i && i + 1 == j < |times| ==> times[j] >= times[i]
    ensures forall i :: 0 <= i <= last ==> times[i] <= times[last]
  {
    if last > 0 {
      SparseSorted(times, last - 1);
      assert times[last] >= times[last - 1];
    }
  }

  // ------------------------------------------------------------------
  // Any sequence of attempts
  // ------------------------------------------------------------------

  function After(p: Policy, bucket: Option<Bucket>, times: seq<int>): Option<Bucket> {
    if times == [] then bucket
    else Some(Upsert(p, After(p, bucket, times[..|times| - 1]), times[|times| - 1]))
  }

  /** Which of a sequence of attempts are admitted. */
  function Admitted(p: Policy, times: seq<int>): seq<int> {
    if times == [] then []
    else
      var b := After(p, None, times);
      Logged(Admitted(p, times[..|times| - 1]), b.value, times[|times| - 1])
  }

  ghost predicate Nondecreasing(times: seq<int>) {
    forall i, j :: 0 <= i < j < |times| ==> times[i] <= times[j]
  }

  /** What each kind of policy keeps, whichever it is. */
  ghost predicate Kept(p: Policy, bucket: Option<Bucket>, admitted: seq<int>, clock: int) {
    && (LongBlock(p) ==> BucketOk(p, bucket, admitted, clock))
    && (HalfBlock(p) ==> SparseOk(p, bucket, admitted))
    && (bucket.Some? ==> bucket.value.start <= clock)
  }

  lemma KeptOn(p: Policy, bucket: Option<Bucket>, admitted: seq<int>, clock: int, now: int)
    requires PolicyOk(p) && Bounding(p) && Kept(p, bucket, admitted, clock) && clock <= now
    ensures var b := Upsert(p, bucket, now); Kept(p, Some(b), Logged(admitted, b, now), now)
  {
    if LongBlock(p) {
      UpsertKeeps(p, bucket, admitted, clock, now);
    }
    if HalfBlock(p) {
      SparseKeeps(p, bucket, admitted, now);
    }
  }

  lemma KeptLater(p: Policy, bucket: Option<Bucket>, admitted: seq<int>, clock: int, now: int)
    requires Kept(p, bucket, admitted, clock) && clock <= now
    ensures Kept(p, bucket, admitted, now)
  {
  }

  /** At most twice the limit in any window's length of time, wherever it starts. */
  lemma AtMostTwice(p: Policy, bucket: Option<Bucket>, admitted: seq<int>, clock: int, x: int)
    requires PolicyOk(p) && Bounding(p) && Kept(p, bucket, admitted, clock)
    ensures InSpan(admitted, x, p.window) <= 2 * p.limit
  {
    if LongBlock(p) {
      if bucket.Some? {
        assert SpanOk(p, bucket.value, admitted, x);
      }
    } else {
      SparseSpan(admitted, x, p.window);
    }
  }

  lemma {:induction false} AttemptsKeep(p: Policy, times: seq<int>, clock: int)
    requires PolicyOk(p) && Bounding(p) && Nondecreasing(times) && (times == [] || clock == times[|times| - 1])
    ensures Kept(p, After(p, None, times), Admitted(p, times), clock)
  {
    if times != [] {
      var before := times[..|times| - 1];
      var earlier := if before == [] then clock else before[|before| - 1];
      AttemptsKeep(p, before, earlier);
      KeptOn(p, After(p, None, before), Admitted(p, before), earlier, clock);
    }
  }

  /** Whatever the attempts, no stretch of one window admits more than twice the limit. */
  lemma RateLimitHolds(p: Policy, times: seq<int>, x: int)
    requires PolicyOk(p) && Bounding(p) && Nondecreasing(times)
    ensures InSpan(Admitted(p, times), x, p.window) <= 2 * p.limit
  {
    var clock := if times == [] then 0 else times[|times| - 1];
    AttemptsKeep(p, times, clock);
    AtMostTwice(p, After(p, None, times), Admitted(p, times), clock, x);
  }

  // ------------------------------------------------------------------
  // And for no other policy
  // ------------------------------------------------------------------

  /** These attempts leave this bucket, the last of them no later than `latest`, and put this
      many of those admitted in the window's length from `x`. */
  ghost predicate Ran(p: Policy, times: seq<int>, b: Bucket, latest: int, x: int, n: int) {
    && After(p, None, times) == Some(b) && InSpan(Admitted(p, times), x, p.window) == n
    && Sorted(times, latest)
  }

  ghost predicate Sorted(times: seq<int>, latest: int) {
    times != [] ==> times[|times| - 1] <= latest && Sorted(times[..|times| - 1], times[|times| - 1])
  }

  lemma {:induction false} SortedMeans(times: seq<int>, latest: int)
    requires Sorted(times, latest)
    ensures Nondecreasing(times) && forall i :: 0 <= i < |times| ==> times[i] <= latest
  {
    if times != [] {
      SortedMeans(times[..|times| - 1], times[|times| - 1]);
    }
  }

  lemma RanBreaks(p: Policy, times: seq<int>, b: Bucket, latest: int, x: int, n: int)
    requires Ran(p, times, b, latest, x, n) && n > 2 * p.limit
    ensures Broken(p, times, x)
  {
    SortedMeans(times, latest);
  }

  function OneIf(counts: bool): int { KIf(1, counts) }
  function KIf(k: int, counts: bool): int { if counts then k else 0 }

  lemma First(p: Policy, now: int, x: int)
    ensures Ran(p, [now], Bucket(1, now, None), now, x, OneIf(x <= now < x + p.window))
  {
    assert [now][..0] == [];
    assert After(p, None, [now]) == Some(Bucket(1, now, None));
    assert Admitted(p, [now]) == [now];
    SpanPush([], now, x, p.window);
    assert [] + [now] == [now];
  }

  lemma Another(p: Policy, times: seq<int>, b: Bucket, latest: int, x: int, n: int, now: int)
    requires Ran(p, times, b, latest, x, n) && latest <= now
    ensures var next := Upsert(p, Some(b), now);
            Ran(p, times + [now], next, now, x, n + OneIf(Admits(next, now) && x <= now < x + p.window))
  {
    assert (times + [now])[..|times|] == times;
    SpanPush(Admitted(p, times), now, x, p.window);
  }

  /** Attempts at one instant that the window still has room for are all admitted. */
  lemma {:induction false} Several(p: Policy, times: seq<int>, b: Bucket, latest: int, x: int, n: int, now: int, k: nat)
    returns (r: seq<int>)
    requires Ran(p, times, b, latest, x, n) && latest <= now
    requires b.blockedUntil.None? && b.start > now - p.window && b.count + k <= p.limit
    ensures Ran(p, r, b.(count := b.count + k), if k == 0 then latest else now, x, n + KIf(k, x <= now < x + p.window))
  {
    if k == 0 {
      r := times;
    } else {
      var before := Several(p, times, b, latest, x, n, now, k - 1);
      r := OneMore(p, before, b.(count := b.count + k - 1), if k == 1 then latest else now, x,
                   n + KIf(k - 1, x <= now < x + p.window), now);
    }
  }

  lemma OneMore(p: Policy, times: seq<int>, b: Bucket, latest: int, x: int, n: int, now: int) returns (r: seq<int>)
    requires Ran(p, times, b, latest, x, n) && latest <= now
    requires b.blockedUntil.None? && b.start > now - p.window && b.count < p.limit
    ensures Ran(p, r, b.(count := b.count + 1), now, x, n + OneIf(x <= now < x + p.window))
  {
    Another(p, times, b, latest, x, n, now);
    r := times + [now];
  }

  ghost predicate Broken(p: Policy, times: seq<int>, x: int) {
    Nondecreasing(times) && InSpan(Admitted(p, times), x, p.window) > 2 * p.limit
  }

  /** A block of nothing does not block: everything at one instant is admitted. */
  lemma {:induction false} NoBlock(p: Policy, k: nat) returns (times: seq<int>, b: Bucket)
    requires PolicyOk(p) && p.block <= 0
    ensures Ran(p, times, b, 0, 0, k + 1) && b.start == 0 && (b.blockedUntil.Some? ==> b.blockedUntil.value <= 0)
  {
    if k == 0 {
      First(p, 0, 0);
      times, b := [0], Bucket(1, 0, None);
    } else {
      times, b := NoBlock(p, k - 1);
      Another(p, times, b, 0, 0, k, 0);
      times, b := times + [0], Upsert(p, Some(b), 0);
    }
  }

  /** One at a time, three windows fit where two blocks do. */
  lemma ShortBlocksOfOne(p: Policy)
    requires PolicyOk(p) && p.limit == 1 && p.block >= 1 && 2 * p.block < p.window
    ensures Broken(p, [0] + [0] + [p.block] + [p.block] + [2 * p.block], 0)
  {
    var b := p.block;
    First(p, 0, 0);
    Another(p, [0], Bucket(1, 0, None), 0, 0, 1, 0);
    Another(p, [0] + [0], Bucket(2, 0, Some(b)), 0, 0, 1, b);
    Another(p, [0] + [0] + [b], Bucket(1, b, None), b, 0, 2, b);
    Another(p, [0] + [0] + [b] + [b], Bucket(2, b, Some(2 * b)), b, 0, 2, 2 * b);
    RanBreaks(p, [0] + [0] + [b] + [b] + [2 * b], Bucket(1, 2 * b, None), 2 * b, 0, 3);
  }

  /** The first of a window, and the rest of it a window less a millisecond later. */
  lemma LateInAWindow(p: Policy) returns (times: seq<int>)
    requires PolicyOk(p) && p.limit >= 2 && p.window >= 2
    ensures Ran(p, times, Bucket(p.limit, 0, None), p.window - 1, p.window - 1, p.limit - 1)
  {
    var x := p.window - 1;
    First(p, 0, x);
    times := Several(p, [0], Bucket(1, 0, None), 0, x, 0, x, p.limit - 1);
  }

  /** The whole of the next window at once, and one more, which is blocked. */
  lemma ThenAWindow(p: Policy, before: seq<int>) returns (times: seq<int>)
    requires PolicyOk(p) && p.limit >= 2 && p.window >= 2 && p.block >= 1
    requires Ran(p, before, Bucket(p.limit, 0, None), p.window - 1, p.window - 1, p.limit - 1)
    ensures Ran(p, times, Bucket(p.limit + 1, p.window, Some(p.window + p.block)), p.window, p.window - 1, 2 * p.limit - 1)
  {
    var (w, l, x) := (p.window, p.limit, p.window - 1);
    Another(p, before, Bucket(l, 0, None), x, x, l - 1, w);
    times := Several(p, before + [w], Bucket(1, w, None), w, x, l, w, l - 1);
    Another(p, times, Bucket(l, w, None), w, x, 2 * l - 1, w);
    times := times + [w];
  }

  /** And the whole of the window after the block. */
  lemma ThenAfterTheBlock(p: Policy, before: seq<int>) returns (times: seq<int>)
    requires PolicyOk(p) && p.limit >= 2 && 1 <= p.block < p.window - 1
    requires Ran(p, before, Bucket(p.limit + 1, p.window, Some(p.window + p.block)), p.window, p.window - 1, 2 * p.limit - 1)
    ensures Ran(p, times, Bucket(p.limit, p.window + p.block, None), p.window + p.block, p.window - 1, 3 * p.limit - 1)
  {
    var (w, l, x, free) := (p.window, p.limit, p.window - 1, p.window + p.block);
    Another(p, before, Bucket(l + 1, w, Some(free)), w, x, 2 * l - 1, free);
    times := Several(p, before + [free], Bucket(1, free, None), free, x, 2 * l, free, l - 1);
  }

  /** Late in one window, the whole of the next, and the one after its block: nearly three
      times the limit. */
  lemma ShortBlocks(p: Policy) returns (times: seq<int>)
    requires PolicyOk(p) && p.limit >= 2 && 1 <= p.block < p.window - 1
    ensures Broken(p, times, p.window - 1)
  {
    times := LateInAWindow(p);
    times := ThenAWindow(p, times);
    times := ThenAfterTheBlock(p, times);
    RanBreaks(p, times, Bucket(p.limit, p.window + p.block, None), p.window + p.block, p.window - 1, 3 * p.limit - 1);
  }

  /** Exactly these policies keep every stretch of one window to twice the limit, whatever
      the attempts: a block of at least the window less a millisecond, or, one at a time, of
      at least half the window. */
  lemma RateLimitExactly(p: Policy)
    requires PolicyOk(p)
    ensures Bounding(p) <==> !exists times, x :: Broken(p, times, x)
  {
    if Bounding(p) {
      forall times, x ensures !Broken(p, times, x) {
        if Nondecreasing(times) {
          RateLimitHolds(p, times, x);
        }
      }
    } else if p.block <= 0 {
      var times, b := NoBlock(p, 2 * p.limit);
      RanBreaks(p, times, b, 0, 0, 2 * p.limit + 1);
    } else if p.limit == 1 {
      ShortBlocksOfOne(p);
    } else {
      var _ := ShortBlocks(p);
    }
  }

  /** Of attempts that all fall in the window the first of them begins, each up to the limit is
      admitted, and the one after them is turned away. */
  lemma {:induction false} FirstInAWindow(p: Policy, times: seq<int>, k: nat)
    requires PolicyOk(p) && p.block >= 1 && k < |times| && k <= p.limit
    requires forall i :: 0 <= i < |times| ==> times[i] < times[0] + p.window
    ensures var b := After(p, None, times[..k + 1]);
            b.Some? && b.value == Bucket(k + 1, times[0], if k == p.limit then Some(times[k] + p.block) else None)
            && (Admits(b.value, times[k]) <==> k < p.limit)
  {
    assert times[..k + 1][..k] == times[..k];
    if k == 0 {
      assert After(p, None, times[..0]) == None;
    } else {
      FirstInAWindow(p, times, k - 1);
    }
  }

  /** Knocking during a block changes nothing and admits nobody, however often; the first
      attempt once it has lapsed is admitted, into a fresh window. */
  lemma {:induction false} KnockingIsFutile(p: Policy, b: Bucket, times: seq<int>, now: int)
    requires b.blockedUntil.Some? && forall i :: 0 <= i < |times| ==> times[i] < b.blockedUntil.value
    requires now >= b.blockedUntil.value
    ensures After(p, Some(b), times) == Some(b)
    ensures forall i :: 0 <= i < |times| ==> !Admits(b, times[i])
    ensures Upsert(p, After(p, Some(b), times), now) == Bucket(1, now, None)
    ensures Admits(Upsert(p, After(p, Some(b), times), now), now)
  {
    if times != [] {
      KnockingIsFutile(p, b, times[..|times| - 1], now);
    }
  }

  // ------------------------------------------------------------------
  // The table
  // ------------------------------------------------------------------

  predicate GoodPolicy(p: Policy) { PolicyOk(p) && Bounding(p) }

  lemma ConsumeKeeps(p: Policy, bucket: Option<Bucket>, admitted: seq<int>, clock: int, now: int)
    requires GoodPolicy(p) && Kept(p, bucket, admitted, clock) && clock <= now
    ensures var b := Upsert(p, bucket, now);
            && Kept(p, Some(b), Logged(admitted, b, now), now)
            && forall x :: InSpan(Logged(admitted, b, now), x, p.window) <= 2 * p.limit
  {
    var b := Upsert(p, bucket, now);
    KeptOn(p, bucket, admitted, clock, now);
    forall x ensures InSpan(Logged(admitted, b, now), x, p.window) <= 2 * p.limit {
      AtMostTwice(p, Some(b), Logged(admitted, b, now), now, x);
    }
  }

  lemma UpsertCounts(p: Policy, bucket: Option<Bucket>, now: int)
    ensures var b := Upsert(p, bucket, now); CountedAs(p, bucket, b, now, Admits(b, now))
  {
  }

  class RateLimiter {
    const policyOf: string -> Policy
    var buckets: map<string, Bucket>
    /** What was admitted under each key. */
    ghost var log: map<string, seq<int>>
    ghost var clock: int

    ghost predicate Valid()
      reads this
    {
      && (forall key :: key in buckets <==> key in log)
      && forall key :: key in buckets && GoodPolicy(policyOf(key)) ==>
           Kept(policyOf(key), Some(buckets[key]), log[key], clock)
    }

    constructor (policyOf: string -> Policy, now: int)
      ensures Valid() && buckets == map[] && log == map[] && clock == now
    {
      this.policyOf, buckets, log, clock := policyOf, map[], map[], now;
    }

    ghost function LogOf(key: string): seq<int>
      reads this
    {
      if key in log then log[key] else []
    }

    function BucketOf(key: string): Option<Bucket>
      reads this
    {
      if key in buckets then Some(buckets[key]) else None
    }

    /** One attempt. Under a good policy no stretch of the window has let more than twice the
        limit through, and other keys are untouched. */
    method Consume(key: string, now: int) returns (allowed: bool)
      requires Valid() && now >= clock
      modifies this
      ensures Valid() && clock == now
      ensures LogOf(key) == old(LogOf(key)) + if allowed then [now] else []
      ensures forall other :: other != key ==> LogOf(other) == old(LogOf(other))
      ensures forall other :: other != key ==> (other in buckets <==> other in old(buckets))
      ensures forall other :: other != key && other in buckets ==> buckets[other] == old(buckets)[other]
      ensures key in buckets && CountedAs(policyOf(key), old(BucketOf(key)), buckets[key], now, allowed)
      ensures old(key in buckets && Blocked(buckets[key], now)) ==> !allowed && buckets == old(buckets)
      ensures old(key in buckets && buckets[key].blockedUntil.Some? && buckets[key].blockedUntil.value <= now) ==> allowed
      ensures GoodPolicy(policyOf(key)) ==>
                forall x :: InSpan(LogOf(key), x, policyOf(key).window) <= 2 * policyOf(key).limit
    {
      var p := policyOf(key);
      var bucket := BucketOf(key);
      var b := Upsert(p, bucket, now);
      allowed := Admits(b, now);
      UpsertCounts(p, bucket, now);
      ghost var admitted := Logged(LogOf(key), b, now);
      if GoodPolicy(p) {
        ConsumeKeeps(p, bucket, LogOf(key), clock, now);
      }
      forall other | other in buckets && GoodPolicy(policyOf(other))
        ensures Kept(policyOf(other), Some(buckets[other]), log[other], now)
      {
        KeptLater(policyOf(other), Some(buckets[other]), log[other], clock, now);
      }
      ghost var wasBlocked := key in buckets && Blocked(buckets[key], now);
      assert wasBlocked ==> buckets[key := b] == buckets;
      buckets := buckets[key := b];
      log := log[key := admitted];
      clock := now;
    }
  }
}
