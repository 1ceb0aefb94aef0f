/**
 The in-memory rate limiters (common/limit/memorylimit.go, common/limit/api_limiter.go): a token
 bucket and a fixed window per key, with a background sweep that drops entries it takes to be
 stale. Time is in seconds, as exact reals; the clock is a parameter that never runs backwards.
 */
module MemoryLimiter {
  import opened Options
  import opened Collections

  const TOKEN_BURST_MULTIPLIER := 10
  const RPM_THRESHOLD := 60
  const API_WINDOW := 60.0

  datatype Config = Config(rate: int, window: real, burst: int, isTokenBucket: bool)

  function NewMemoryLimiter(rate: int, window: real, useTokenBucket: bool): Config {
    Config(rate, window, if useTokenBucket then rate * TOKEN_BURST_MULTIPLIER else 0, useTokenBucket)
  }

  /** Without Redis: few requests per minute get a fixed window, many a token bucket. */
  function NewAPILimiter(rpm: int): Config {
    if rpm < RPM_THRESHOLD then NewMemoryLimiter(rpm, API_WINDOW, false)
    else NewMemoryLimiter(rpm / 60, API_WINDOW, true)
  }

  datatype Bucket = Bucket(tokens: real, lastUpdate: real, lastUpdated: real)
  datatype Window = Window(count: int, windowStart: real, lastUpdated: real)

  function MinValue(a: real, b: real): real {
    if a < b then a else b
  }

  /** The sweep drops an entry that granted nothing for twice the window. */
  predicate Expired(c: Config, lastUpdated: real, now: real) {
    now - lastUpdated > 2.0 * c.window
  }

  /** A request for n units, or a sweep, at a point in time. */
  datatype Event = Request(key: string, n: int, at: real) | Sweep(at: real)

  predicate Ordered(events: seq<Event>, now: real) {
    events == [] || (now <= events[0].at && Ordered(events[1..], events[0].at))
  }

  /** The same run without the sweeps. */
  function WithoutSweeps(events: seq<Event>): seq<Event> {
    if events == [] then []
    else (if events[0].Request? then [events[0]] else []) + WithoutSweeps(events[1..])
  }

  predicate SizesWithin(events: seq<Event>, max: int) {
    forall e | e in events && e.Request? :: 1 <= e.n <= max
  }

  lemma {:induction false} WithoutSweepsOrdered(events: seq<Event>, now: real, now': real)
    requires Ordered(events, now) && now' <= now
    ensures Ordered(WithoutSweeps(events), now')
  {
    if events != [] {
      if events[0].Request? {
        WithoutSweepsOrdered(events[1..], events[0].at, events[0].at);
        assert WithoutSweeps(events)[1..] == WithoutSweeps(events[1..]);
      } else {
        WithoutSweepsOrdered(events[1..], events[0].at, now');
        assert WithoutSweeps(events) == WithoutSweeps(events[1..]);
      }
    }
  }

  // ----- Token bucket -----

  type Buckets = map<string, Bucket>

  /** The tokens an entry has at a point in time: refilled at the rate, up to the burst. */
  function Refilled(c: Config, b: Bucket, now: real): real {
    MinValue(c.burst as real, b.tokens + Gain(c, now - b.lastUpdate))
  }

  function Gain(c: Config, elapsed: real): real {
    elapsed * c.rate as real
  }

  function TokenStep(c: Config, entry: Option<Bucket>, n: int, now: real): (Bucket, bool) {
    match entry
    case None => (Bucket(c.burst as real - n as real, now, now), true)
    case Some(b) =>
      var tokens := Refilled(c, b, now);
      if tokens >= n as real then (Bucket(tokens - n as real, now, now), true)
      else (Bucket(tokens, now, b.lastUpdated), false)
  }

  function Lookup<V>(store: map<string, V>, key: string): Option<V> {
    if key in store then Some(store[key]) else None
  }

  function SweepBuckets(c: Config, store: Buckets, now: real): Buckets {
    map key | key in store && !Expired(c, store[key].lastUpdated, now) :: store[key]
  }

  function TokenNext(c: Config, store: Buckets, e: Event): Buckets {
    match e
    case Request(key, n, at) => store[key := TokenStep(c, Lookup(store, key), n, at).0]
    case Sweep(at) => SweepBuckets(c, store, at)
  }

  function TokenGrants(c: Config, store: Buckets, e: Event): bool
    requires e.Request?
  {
    TokenStep(c, Lookup(store, e.key), e.n, e.at).1
  }

  /** The answers to the requests of a run, in order. */
  function TokenAnswers(c: Config, store: Buckets, events: seq<Event>): seq<bool>
    decreases |events|
  {
    if events == [] then []
    else (if events[0].Request? then [TokenGrants(c, store, events[0])] else [])
         + TokenAnswers(c, TokenNext(c, store, events[0]), events[1..])
  }

  /** The units granted to a key between two points in time, both included. */
  function TokenGranted(c: Config, store: Buckets, events: seq<Event>, key: string, from: real, to: real): int
    decreases |events|
  {
    if events == [] then 0
    else
      var e := events[0];
      (if e.Request? && e.key == key && from <= e.at <= to && TokenGrants(c, store, e) then e.n else 0)
      + TokenGranted(c, TokenNext(c, store, e), events[1..], key, from, to)
  }

  /** What every entry satisfies as long as no request exceeds the burst. */
  predicate BucketOk(c: Config, b: Bucket, now: real) {
    && 0.0 <= b.tokens <= c.burst as real
    && b.lastUpdated <= b.lastUpdate <= now
    && b.tokens >= MinValue(c.burst as real, Gain(c, b.lastUpdate - b.lastUpdated))
  }

  ghost predicate BucketsOk(c: Config, store: Buckets, now: real) {
    forall key | key in store :: BucketOk(c, store[key], now)
  }

  lemma GainSplits(c: Config, d: real, e: real)
    ensures Gain(c, d) + Gain(c, e) == Gain(c, d + e)
  {
  }

  lemma GainGrows(c: Config, d: real, e: real)
    requires c.rate >= 0 && d <= e
    ensures Gain(c, d) <= Gain(c, e)
  {
    GainSplits(c, d, e - d);
    GainOfRest(c, e - d);
  }

  lemma GainOfRest(c: Config, d: real)
    requires c.rate >= 0 && d >= 0.0
    ensures Gain(c, d) >= 0.0
  {
  }

  lemma RefillKeepsOk(c: Config, b: Bucket, now: real)
    requires c.rate >= 0 && c.burst >= 0 && BucketOk(c, b, now)
    ensures 0.0 <= Refilled(c, b, now) <= c.burst as real
    ensures Refilled(c, b, now) >= MinValue(c.burst as real, Gain(c, now - b.lastUpdated))
  {
    GainOfRest(c, now - b.lastUpdate);
    GainSplits(c, b.lastUpdate - b.lastUpdated, now - b.lastUpdate);
    assert b.lastUpdate - b.lastUpdated + (now - b.lastUpdate) == now - b.lastUpdated;
  }

  /** Tokens stay between zero and the burst, over every event of a run. */
  lemma TokenNextKeepsOk(c: Config, store: Buckets, e: Event, now: real)
    requires c.rate >= 0 && BucketsOk(c, store, now) && now <= e.at && c.burst >= 0
    requires e.Request? ==> 1 <= e.n <= c.burst
    ensures BucketsOk(c, TokenNext(c, store, e), e.at)
  {
    if e.Request? {
      assert Gain(c, e.at - e.at) == 0.0;
      if e.key in store {
        assert BucketOk(c, store[e.key], e.at);
        RefillKeepsOk(c, store[e.key], e.at);
      }
    }
  }

  /** The burst is refilled within the time after which an entry counts as stale. */
  predicate RefillsBeforeSweep(c: Config) {
    c.burst as real <= Gain(c, 2.0 * c.window)
  }

  lemma ExpiredIsFull(c: Config, b: Bucket, now: real)
    requires c.rate >= 0 && c.burst >= 0 && RefillsBeforeSweep(c)
    requires BucketOk(c, b, now) && Expired(c, b.lastUpdated, now)
    ensures Refilled(c, b, now) == c.burst as real
  {
    RefillKeepsOk(c, b, now);
    GainGrows(c, 2.0 * c.window, now - b.lastUpdated);
  }

  lemma FullStaysFull(c: Config, b: Bucket, now: real, later: real)
    requires c.rate >= 0 && now <= later && Refilled(c, b, now) == c.burst as real
    ensures Refilled(c, b, later) == c.burst as real
  {
    GainGrows(c, now - b.lastUpdate, later - b.lastUpdate);
  }

  /** `swept` lacks some entries of `kept`, all of them full. */
  ghost predicate LacksOnlyFull(c: Config, kept: Buckets, swept: Buckets, now: real) {
    && (forall key | key in swept :: key in kept && swept[key] == kept[key])
    && (forall key | key in kept && key !in swept :: Refilled(c, kept[key], now) == c.burst as real)
  }

  /**
   Sweeps are invisible: a run answers every request as the same run without sweeps does, provided
   an unused entry is full again by the time it is dropped.
   */
  lemma {:induction false} SweepsAreInvisible(c: Config, kept: Buckets, swept: Buckets, events: seq<Event>, now: real)
    requires c.rate >= 0 && c.burst >= 0 && RefillsBeforeSweep(c)
    requires Ordered(events, now) && SizesWithin(events, c.burst)
    requires BucketsOk(c, kept, now) && LacksOnlyFull(c, kept, swept, now)
    ensures TokenAnswers(c, swept, events) == TokenAnswers(c, kept, WithoutSweeps(events))
    decreases |events|
  {
    if events != [] {
      var e, rest := events[0], events[1..];
      var swept' := TokenNext(c, swept, e);
      assert SizesWithin(rest, c.burst) && e in events;
      forall key | key in kept && key !in swept
        ensures Refilled(c, kept[key], e.at) == c.burst as real
      {
        FullStaysFull(c, kept[key], now, e.at);
      }
      if e.Request? {
        var kept' := TokenNext(c, kept, e);
        TokenNextKeepsOk(c, kept, e, now);
        SweepsAreInvisible(c, kept', swept', rest, e.at);
        assert WithoutSweeps(events)[1..] == WithoutSweeps(rest);
      } else {
        forall key | key in kept && key !in swept'
          ensures Refilled(c, kept[key], e.at) == c.burst as real
        {
          if key in swept {
            assert BucketOk(c, kept[key], e.at);
            ExpiredIsFull(c, kept[key], e.at);
          }
        }
        SweepsAreInvisible(c, kept, swept', rest, e.at);
        assert WithoutSweeps(events) == WithoutSweeps(rest);
      }
    }
  }

  /** A limiter is transparent when no admissible run from an empty store can tell its sweeps. */
  ghost predicate SweepsNeverShow(c: Config) {
    forall events, now :: Ordered(events, now) && SizesWithin(events, c.burst) ==>
      TokenAnswers(c, map[], events) == TokenAnswers(c, map[], WithoutSweeps(events))
  }

  /** The exact condition on the configuration. */
  lemma SweepsNeverShowIff(c: Config)
    requires c.rate >= 0 && c.window >= 0.0 && c.burst >= 1
    ensures SweepsNeverShow(c) <==> RefillsBeforeSweep(c)
  {
    if RefillsBeforeSweep(c) {
      forall events, now | Ordered(events, now) && SizesWithin(events, c.burst)
        ensures TokenAnswers(c, map[], events) == TokenAnswers(c, map[], WithoutSweeps(events))
      {
        SweepsAreInvisible(c, map[], map[], events, now);
      }
    } else {
      var events := SweepShows(c);
      assert Ordered(events, 0.0) && SizesWithin(events, c.burst);
    }
  }

  /** Otherwise: empty the bucket, sweep it before it is full again, and ask for the burst once more. */
  lemma SweepShows(c: Config) returns (events: seq<Event>)
    requires c.rate >= 0 && c.window >= 0.0 && c.burst >= 1 && !RefillsBeforeSweep(c)
    ensures Ordered(events, 0.0) && SizesWithin(events, c.burst)
    ensures TokenAnswers(c, map[], events) != TokenAnswers(c, map[], WithoutSweeps(events))
  {
    var t := TooEarly(c);
    var ask0, sweep, ask1 := Request("k", c.burst, 0.0), Sweep(t), Request("k", c.burst, t);
    events := [ask0, sweep, ask1];
    var drained: Buckets := map["k" := Bucket(0.0, 0.0, 0.0)];
    assert TokenNext(c, map[], ask0) == drained;
    assert TokenNext(c, drained, sweep) == map[];
    assert Refilled(c, drained["k"], t) < c.burst as real;
    calc {
      TokenAnswers(c, map[], events);
      { assert events[1..] == [sweep, ask1]; }
      [true] + TokenAnswers(c, drained, [sweep, ask1]);
      { assert [sweep, ask1][1..] == [ask1]; }
      [true] + ([] + TokenAnswers(c, map[], [ask1]));
      [true, true];
    }
    calc {
      WithoutSweeps(events);
      { assert events[1..] == [sweep, ask1]; }
      [ask0] + WithoutSweeps([sweep, ask1]);
      { assert [sweep, ask1][1..] == [ask1]; }
      [ask0] + ([] + WithoutSweeps([ask1]));
      [ask0, ask1];
    }
    assert [ask0, ask1][1..] == [ask1];
    assert TokenAnswers(c, map[], [ask0, ask1]) == [true] + TokenAnswers(c, drained, [ask1]) == [true, false];
    assert [true, true][1] != [true, false][1];
    assert Ordered([ask1], t) && Ordered([sweep, ask1], 0.0);
  }

  lemma TooEarly(c: Config) returns (t: real)
    requires c.rate >= 0 && c.window >= 0.0 && c.burst >= 1 && !RefillsBeforeSweep(c)
    ensures t > 2.0 * c.window && Gain(c, t) < c.burst as real && t >= 0.0
  {
    if c.rate == 0 {
      t := 2.0 * c.window + 1.0;
    } else {
      var full := c.burst as real / c.rate as real;
      assert full * c.rate as real == c.burst as real;
      t := (2.0 * c.window + full) / 2.0;
      assert Gain(c, t) == (Gain(c, 2.0 * c.window) + c.burst as real) / 2.0;
      if full <= 2.0 * c.window {
        GainGrows(c, full, 2.0 * c.window);
        assert false;
      }
    }
  }

  /** A limiter made by NewMemoryLimiter is transparent exactly when its window is at least five seconds. */
  lemma TransparentFromFiveSeconds(rate: int, window: real)
    requires rate >= 1 && window >= 0.0
    ensures SweepsNeverShow(NewMemoryLimiter(rate, window, true)) <==> window >= 5.0
  {
    var c := NewMemoryLimiter(rate, window, true);
    SweepsNeverShowIff(c);
    assert Gain(c, 10.0) == c.burst as real;
    if window >= 5.0 {
      GainGrows(c, 10.0, 2.0 * window);
    } else {
      var left := 10.0 - 2.0 * window;
      assert left * rate as real > 0.0;
      assert Gain(c, 10.0) - Gain(c, 2.0 * window) == left * rate as real;
    }
  }

  /** Hence every token bucket that the API limiter creates is transparent. */
  lemma APILimiterIsTransparent(rpm: int)
    requires NewAPILimiter(rpm).isTokenBucket
    ensures SweepsNeverShow(NewAPILimiter(rpm))
    ensures NewAPILimiter(rpm).rate >= 1 && NewAPILimiter(rpm).burst == 10 * NewAPILimiter(rpm).rate
  {
    TransparentFromFiveSeconds(rpm / 60, API_WINDOW);
  }

  /** The tokens available to a key. */
  function Level(c: Config, store: Buckets, key: string, now: real): real {
    if key in store then Refilled(c, store[key], now) else c.burst as real
  }

  lemma LevelGrows(c: Config, store: Buckets, key: string, now: real, later: real)
    requires c.rate >= 0 && now <= later
    ensures Level(c, store, key, later) <= Level(c, store, key, now) + Gain(c, later - now)
  {
    GainOfRest(c, later - now);
    if key in store {
      GainSplits(c, now - store[key].lastUpdate, later - now);
      assert now - store[key].lastUpdate + (later - now) == later - store[key].lastUpdate;
    }
  }

  lemma GrantLowersLevel(c: Config, store: Buckets, e: Event, key: string, now: real)
    requires c.rate >= 0 && c.burst >= 0 && (e.Sweep? ==> RefillsBeforeSweep(c))
    requires BucketsOk(c, store, now) && now <= e.at
    requires e.Request? ==> 1 <= e.n <= c.burst
    ensures var cost := if e.Request? && e.key == key && TokenGrants(c, store, e) then e.n else 0;
            Level(c, TokenNext(c, store, e), key, e.at) == Level(c, store, key, e.at) - cost as real
  {
    assert Gain(c, e.at - e.at) == 0.0;
    if key in store {
      assert BucketOk(c, store[key], e.at);
      RefillKeepsOk(c, store[key], e.at);
      if e.Sweep? && Expired(c, store[key].lastUpdated, e.at) {
        ExpiredIsFull(c, store[key], e.at);
      }
    }
  }

  /** No entry is dropped before it is full again: by the configuration, or because nothing is swept. */
  predicate DropsOnlyFull(c: Config, events: seq<Event>) {
    RefillsBeforeSweep(c) || forall e | e in events :: e.Request?
  }

  lemma {:induction false} GrantedWithinLevel(c: Config, store: Buckets, events: seq<Event>, key: string, now: real, to: real)
    requires c.rate >= 0 && c.burst >= 0 && DropsOnlyFull(c, events)
    requires Ordered(events, now) && SizesWithin(events, c.burst) && BucketsOk(c, store, now) && now <= to
    ensures TokenGranted(c, store, events, key, now, to) as real <= Level(c, store, key, now) + Gain(c, to - now)
    decreases |events|
  {
    GainOfRest(c, to - now);
    if key in store {
      RefillKeepsOk(c, store[key], now);
    }
    if events != [] && events[0].at <= to {
      var e, rest := events[0], events[1..];
      assert SizesWithin(rest, c.burst) && e in events && DropsOnlyFull(c, rest);
      TokenNextKeepsOk(c, store, e, now);
      GrantLowersLevel(c, store, e, key, now);
      LevelGrows(c, store, key, now, e.at);
      GrantedWithinLevel(c, TokenNext(c, store, e), rest, key, e.at, to);
      GrantedFromLater(c, TokenNext(c, store, e), rest, key, now, e.at, to);
      GainSplits(c, e.at - now, to - e.at);
      assert e.at - now + (to - e.at) == to - now;
    } else {
      NothingGrantedAfter(c, store, events, key, now, now, to);
    }
  }

  lemma {:induction false} GrantedFromLater(c: Config, store: Buckets, events: seq<Event>, key: string, from: real, from': real, to: real)
    requires from <= from' && Ordered(events, from')
    ensures TokenGranted(c, store, events, key, from, to) == TokenGranted(c, store, events, key, from', to)
    decreases |events|
  {
    if events != [] {
      GrantedFromLater(c, TokenNext(c, store, events[0]), events[1..], key, from, from', to);
    }
  }

  lemma {:induction false} NothingGrantedAfter(c: Config, store: Buckets, events: seq<Event>, key: string, now: real, from: real, to: real)
    requires Ordered(events, now) && (events != [] ==> events[0].at > to)
    ensures TokenGranted(c, store, events, key, from, to) == 0
    decreases |events|
  {
    if events != [] {
      NothingGrantedAfter(c, TokenNext(c, store, events[0]), events[1..], key, events[0].at, from, to);
    }
  }

  /**
   Rate bound: over any run, sweeps included, the units granted to a key between any two points in
   time are at most the burst plus the rate times the time between them, whenever no entry is dropped
   before it is full again.
   */
  lemma {:induction false} GrantedWithinRate(c: Config, store: Buckets, events: seq<Event>, key: string, now: real, from: real, to: real)
    requires c.rate >= 0 && c.burst >= 0 && DropsOnlyFull(c, events)
    requires Ordered(events, now) && SizesWithin(events, c.burst) && BucketsOk(c, store, now)
    requires now <= from <= to
    ensures TokenGranted(c, store, events, key, from, to) as real <= c.burst as real + Gain(c, to - from)
    decreases |events|
  {
    if events != [] && events[0].at < from {
      assert SizesWithin(events[1..], c.burst) && events[0] in events && DropsOnlyFull(c, events[1..]);
      TokenNextKeepsOk(c, store, events[0], now);
      GrantedWithinRate(c, TokenNext(c, store, events[0]), events[1..], key, events[0].at, from, to);
    } else {
      forall k | k in store ensures BucketOk(c, store[k], from) {
        assert BucketOk(c, store[k], now);
      }
      GrantedWithinLevel(c, store, events, key, from, to);
    }
  }

  /** Over every run from an empty store, sweeps included, the rate bound holds. */
  ghost predicate RateHolds(c: Config) {
    forall events, key, now, from, to :: Ordered(events, now) && SizesWithin(events, c.burst) && now <= from <= to ==>
      TokenGranted(c, map[], events, key, from, to) as real <= c.burst as real + Gain(c, to - from)
  }

  /** The configurations that keep the bound are exactly those whose sweeps are invisible. */
  lemma RateHoldsIff(c: Config)
    requires c.rate >= 0 && c.window >= 0.0 && c.burst >= 1
    ensures RateHolds(c) <==> RefillsBeforeSweep(c)
  {
    if RefillsBeforeSweep(c) {
      forall events, key, now, from, to | Ordered(events, now) && SizesWithin(events, c.burst) && now <= from <= to
        ensures TokenGranted(c, map[], events, key, from, to) as real <= c.burst as real + Gain(c, to - from)
      {
        GrantedWithinRate(c, map[], events, key, now, from, to);
      }
    } else {
      var events, t := DrainedTwice(c);
      assert Ordered(events, 0.0) && 0.0 <= 0.0 <= t;
      assert TokenGranted(c, map[], events, "k", 0.0, t) as real > c.burst as real + Gain(c, t - 0.0);
    }
  }

  /** Otherwise: empty the bucket, sweep it before it is full again, and empty it once more. */
  lemma DrainedTwice(c: Config) returns (events: seq<Event>, t: real)
    requires c.rate >= 0 && c.window >= 0.0 && c.burst >= 1 && !RefillsBeforeSweep(c)
    ensures Ordered(events, 0.0) && SizesWithin(events, c.burst) && t >= 0.0
    ensures TokenGranted(c, map[], events, "k", 0.0, t) as real > c.burst as real + Gain(c, t - 0.0)
  {
    t := TooEarly(c);
    var ask0, sweep, ask1 := Request("k", c.burst, 0.0), Sweep(t), Request("k", c.burst, t);
    events := [ask0, sweep, ask1];
    var drained: Buckets := map["k" := Bucket(0.0, 0.0, 0.0)];
    assert TokenNext(c, map[], ask0) == drained;
    assert TokenNext(c, drained, sweep) == map[];
    assert events[1..] == [sweep, ask1] && [sweep, ask1][1..] == [ask1] && [ask1][1..] == [];
    assert TokenGranted(c, map[], [ask1], "k", 0.0, t) == c.burst;
    assert TokenGranted(c, drained, [sweep, ask1], "k", 0.0, t) == c.burst;
    assert TokenGranted(c, map[], events, "k", 0.0, t) == 2 * c.burst;
    assert Ordered([ask1], t) && Ordered([sweep, ask1], 0.0);
  }

  // ----- Who is never refused -----

  /** The units a key asks for between two points in time, both included. */
  function Asked(events: seq<Event>, key: string, from: real, to: real): int {
    if events == [] then 0
    else
      var e := events[0];
      (if e.Request? && e.key == key && from <= e.at <= to then e.n else 0) + Asked(events[1..], key, from, to)
  }

  /** Every request of the key is granted. */
  predicate NeverRefused(c: Config, store: Buckets, events: seq<Event>, key: string)
    decreases |events|
  {
    events == [] ||
    ((events[0].Request? && events[0].key == key ==> TokenGrants(c, store, events[0])) &&
     NeverRefused(c, TokenNext(c, store, events[0]), events[1..], key))
  }

  /** Over every interval of time the key asks for no more than the burst and what the rate brings in. */
  ghost predicate AsksWithinRate(c: Config, events: seq<Event>, key: string) {
    forall from, to :: from <= to ==> Asked(events, key, from, to) as real <= c.burst as real + Gain(c, to - from)
  }

  /** Up to any later time the key asks for no more than the tokens there are and what the rate brings in. */
  ghost predicate AsksWithin(c: Config, tokens: real, events: seq<Event>, key: string, now: real) {
    forall to :: now <= to ==> Asked(events, key, now, to) as real <= tokens + Gain(c, to - now)
  }

  lemma {:induction false} AskedFromLater(events: seq<Event>, key: string, from: real, from': real, to: real)
    requires from <= from' && Ordered(events, from')
    ensures Asked(events, key, from, to) == Asked(events, key, from', to)
  {
    if events != [] {
      AskedFromLater(events[1..], key, from, from', to);
    }
  }

  lemma {:induction false} AskedIsCounted(events: seq<Event>, key: string, from: real, to: real, max: int)
    requires SizesWithin(events, max)
    ensures Asked(events, key, from, to) >= 0
  {
    if events != [] {
      assert events[0] in events && SizesWithin(events[1..], max);
      AskedIsCounted(events[1..], key, from, to, max);
    }
  }

  /** Tokens come in at the rate, up to the burst. */
  lemma LevelIs(c: Config, store: Buckets, key: string, now: real, later: real)
    requires c.rate >= 0 && c.burst >= 0 && now <= later && BucketsOk(c, store, now)
    ensures Level(c, store, key, later) == MinValue(c.burst as real, Level(c, store, key, now) + Gain(c, later - now))
  {
    GainOfRest(c, later - now);
    if key in store {
      GainSplits(c, now - store[key].lastUpdate, later - now);
      assert now - store[key].lastUpdate + (later - now) == later - store[key].lastUpdate;
    }
  }

  /** A request is granted exactly if the key is unknown or has the tokens. */
  lemma GrantsIff(c: Config, store: Buckets, e: Event)
    requires e.Request?
    ensures TokenGrants(c, store, e) <==> e.key !in store || e.n as real <= Level(c, store, e.key, e.at)
  {
  }

  /** The first event costs no more than there is then, and what follows asks for no more than it leaves. */
  lemma AsksWithinRest(c: Config, tokens: real, events: seq<Event>, key: string, now: real, cost: int, left: real)
    requires c.rate >= 0 && events != [] && Ordered(events, now) && SizesWithin(events, c.burst)
    requires AsksWithin(c, tokens, events, key, now) && AsksWithinRate(c, events, key)
    requires cost == if events[0].Request? && events[0].key == key then events[0].n else 0
    requires left == MinValue(c.burst as real, tokens + Gain(c, events[0].at - now)) - cost as real
    ensures left >= 0.0 && AsksWithin(c, left, events[1..], key, events[0].at) && AsksWithinRate(c, events[1..], key)
  {
    var at, rest := events[0].at, events[1..];
    assert events[0] in events && SizesWithin(rest, c.burst);
    forall to | at <= to ensures Asked(rest, key, at, to) as real <= left + Gain(c, to - at) {
      AskedFromLater(rest, key, now, at, to);
      assert Asked(events, key, now, to) == cost + Asked(rest, key, now, to);
      assert Asked(events, key, at, to) == cost + Asked(rest, key, at, to);
      GainSplits(c, at - now, to - at);
      assert at - now + (to - at) == to - now;
    }
    AskedIsCounted(rest, key, at, at, c.burst);
    assert Gain(c, at - at) == 0.0;
    forall from, to | from <= to ensures Asked(rest, key, from, to) as real <= c.burst as real + Gain(c, to - from) {
      assert Asked(events, key, from, to) >= Asked(rest, key, from, to);
    }
  }

  lemma {:induction false} ServedWithinLevel(c: Config, store: Buckets, events: seq<Event>, key: string, now: real)
    requires c.rate >= 0 && c.burst >= 0 && DropsOnlyFull(c, events)
    requires Ordered(events, now) && SizesWithin(events, c.burst) && BucketsOk(c, store, now)
    requires AsksWithin(c, Level(c, store, key, now), events, key, now) && AsksWithinRate(c, events, key)
    ensures NeverRefused(c, store, events, key)
    decreases |events|
  {
    if events != [] {
      var e, rest := events[0], events[1..];
      var cost := if e.Request? && e.key == key then e.n else 0;
      var left := Level(c, store, key, e.at) - cost as real;
      assert SizesWithin(rest, c.burst) && e in events && DropsOnlyFull(c, rest);
      LevelIs(c, store, key, now, e.at);
      AsksWithinRest(c, Level(c, store, key, now), events, key, now, cost, left);
      TokenNextKeepsOk(c, store, e, now);
      GrantLowersLevel(c, store, e, key, now);
      if cost > 0 {
        GrantsIff(c, store, e);
      }
      ServedWithinLevel(c, TokenNext(c, store, e), rest, key, e.at);
    }
  }

  lemma {:induction false} GrantedIsAsked(c: Config, store: Buckets, events: seq<Event>, key: string, from: real, to: real)
    requires NeverRefused(c, store, events, key)
    ensures TokenGranted(c, store, events, key, from, to) == Asked(events, key, from, to)
    decreases |events|
  {
    if events != [] {
      GrantedIsAsked(c, TokenNext(c, store, events[0]), events[1..], key, from, to);
    }
  }

  /**
   The other half of the rate bound: over a run from an empty store in which no entry is dropped before it
   is full again, a key is never refused exactly if, over every interval of time, it asks for no more than
   the burst plus the rate times the length of the interval.
   */
  lemma NeverRefusedIff(c: Config, events: seq<Event>, key: string, now: real)
    requires c.rate >= 0 && c.burst >= 0 && DropsOnlyFull(c, events)
    requires Ordered(events, now) && SizesWithin(events, c.burst)
    ensures NeverRefused(c, map[], events, key) <==> AsksWithinRate(c, events, key)
  {
    if AsksWithinRate(c, events, key) {
      ServedWithinLevel(c, map[], events, key, now);
    }
    if NeverRefused(c, map[], events, key) {
      forall from, to | from <= to ensures Asked(events, key, from, to) as real <= c.burst as real + Gain(c, to - from) {
        var start := if from < now then from else now;
        GrantedIsAsked(c, map[], events, key, from, to);
        GrantedWithinRate(c, map[], events, key, start, from, to);
      }
    }
  }

  // ----- Fixed window -----

  type Windows = map<string, Window>

  function WindowStep(c: Config, entry: Option<Window>, n: int, now: real): (Window, bool) {
    match entry
    case None => (Window(n, now, now), true)
    case Some(w) =>
      if now - w.windowStart >= c.window then (Window(n, now, now), true)
      else if w.count + n <= c.rate then (Window(w.count + n, w.windowStart, now), true)
      else (w, false)
  }

  function SweepWindows(c: Config, store: Windows, now: real): Windows {
    map key | key in store && !Expired(c, store[key].lastUpdated, now) :: store[key]
  }

  function WindowNext(c: Config, store: Windows, e: Event): Windows {
    match e
    case Request(key, n, at) => store[key := WindowStep(c, Lookup(store, key), n, at).0]
    case Sweep(at) => SweepWindows(c, store, at)
  }

  function WindowGrants(c: Config, store: Windows, e: Event): bool
    requires e.Request?
  {
    WindowStep(c, Lookup(store, e.key), e.n, e.at).1
  }

  function WindowAnswers(c: Config, store: Windows, events: seq<Event>): seq<bool>
    decreases |events|
  {
    if events == [] then []
    else (if events[0].Request? then [WindowGrants(c, store, events[0])] else [])
         + WindowAnswers(c, WindowNext(c, store, events[0]), events[1..])
  }

  /** The units granted to a key from one point in time to just before another. */
  function WindowGranted(c: Config, store: Windows, events: seq<Event>, key: string, from: real, to: real): int
    decreases |events|
  {
    if events == [] then 0
    else
      var e := events[0];
      (if e.Request? && e.key == key && from <= e.at < to && WindowGrants(c, store, e) then e.n else 0)
      + WindowGranted(c, WindowNext(c, store, e), events[1..], key, from, to)
  }

  predicate WindowOk(w: Window, now: real) {
    w.windowStart <= w.lastUpdated <= now
  }

  ghost predicate WindowsOk(store: Windows, now: real) {
    forall key | key in store :: WindowOk(store[key], now)
  }

  /** `swept` lacks some entries of `kept`, all of them past their window. */
  ghost predicate LacksOnlyOver(c: Config, kept: Windows, swept: Windows, now: real) {
    && (forall key | key in swept :: key in kept && swept[key] == kept[key])
    && (forall key | key in kept && key !in swept :: now - kept[key].windowStart >= c.window)
  }

  /** Sweeps are invisible in the fixed window, whatever its settings and the sizes asked for. */
  lemma {:induction false} WindowSweepsAreInvisible(c: Config, kept: Windows, swept: Windows, events: seq<Event>, now: real)
    requires Ordered(events, now) && WindowsOk(kept, now) && LacksOnlyOver(c, kept, swept, now)
    ensures WindowAnswers(c, swept, events) == WindowAnswers(c, kept, WithoutSweeps(events))
    decreases |events|
  {
    if events != [] {
      var e, rest := events[0], events[1..];
      var swept' := WindowNext(c, swept, e);
      if e.Request? {
        WindowSweepsAreInvisible(c, WindowNext(c, kept, e), swept', rest, e.at);
        assert WithoutSweeps(events)[1..] == WithoutSweeps(rest);
      } else {
        WindowSweepsAreInvisible(c, kept, swept', rest, e.at);
        assert WithoutSweeps(events) == WithoutSweeps(rest);
      }
    }
  }

  /** What may still be granted before `to` without a new window, which counts from zero. */
  function Room(c: Config, store: Windows, key: string, now: real): int {
    if key in store && now - store[key].windowStart < c.window then c.rate - store[key].count else 0
  }

  ghost predicate CountsOk(c: Config, store: Windows) {
    forall key | key in store :: 1 <= store[key].count <= c.rate
  }

  /** Until the current window of the key is over, only its remaining room can be granted. */
  lemma {:induction false} GrantedWithinRoom(c: Config, store: Windows, events: seq<Event>, key: string, now: real, from: real, to: real)
    requires c.window >= 0.0 && CountsOk(c, store) && WindowsOk(store, now)
    requires Ordered(events, now) && SizesWithin(events, c.rate)
    requires key in store && to <= store[key].windowStart + c.window
    ensures WindowGranted(c, store, events, key, from, to) <= c.rate - store[key].count
    decreases |events|
  {
    if events != [] {
      var e, rest := events[0], events[1..];
      assert SizesWithin(rest, c.rate) && e in events;
      if e.at < to {
        GrantedWithinRoom(c, WindowNext(c, store, e), rest, key, e.at, from, to);
      } else {
        NoWindowGrantAfter(c, store, events, key, now, from, to);
      }
    }
  }

  lemma {:induction false} NoWindowGrantAfter(c: Config, store: Windows, events: seq<Event>, key: string, now: real, from: real, to: real)
    requires Ordered(events, now) && (events != [] ==> events[0].at >= to)
    ensures WindowGranted(c, store, events, key, from, to) == 0
    decreases |events|
  {
    if events != [] {
      NoWindowGrantAfter(c, WindowNext(c, store, events[0]), events[1..], key, events[0].at, from, to);
    }
  }

  /** Within one window length from now: the room left, then at most one whole new window. */
  lemma {:induction false} GrantedWithinTwoWindows(c: Config, store: Windows, events: seq<Event>, key: string, now: real, from: real, to: real)
    requires c.window >= 0.0 && c.rate >= 1 && CountsOk(c, store) && WindowsOk(store, now)
    requires Ordered(events, now) && SizesWithin(events, c.rate) && to <= now + c.window
    ensures WindowGranted(c, store, events, key, from, to) <= Room(c, store, key, now) + c.rate
    decreases |events|
  {
    if events != [] {
      var e, rest := events[0], events[1..];
      assert SizesWithin(rest, c.rate) && e in events;
      var store' := WindowNext(c, store, e);
      if e.at >= to {
        NoWindowGrantAfter(c, store, events, key, now, from, to);
      } else if e.Request? && e.key == key && store'[key].windowStart == e.at {
        GrantedWithinRoom(c, store', rest, key, e.at, from, to);
      } else {
        GrantedWithinTwoWindows(c, store', rest, key, e.at, from, to);
      }
    }
  }

  /**
   Over any run, sweeps included, any half-open interval of one window length sees at most
   2 * rate - 1 granted units: the unit that opened the first window lies before it.
   */
  lemma {:induction false} FixedWindowBound(c: Config, store: Windows, events: seq<Event>, key: string, now: real, from: real)
    requires c.window >= 0.0 && c.rate >= 1 && CountsOk(c, store) && WindowsOk(store, now)
    requires Ordered(events, now) && SizesWithin(events, c.rate) && now <= from
    ensures WindowGranted(c, store, events, key, from, from + c.window) <= 2 * c.rate - 1
    decreases |events|
  {
    if events != [] && events[0].at < from {
      assert SizesWithin(events[1..], c.rate) && events[0] in events;
      FixedWindowBound(c, WindowNext(c, store, events[0]), events[1..], key, events[0].at, from);
    } else {
      GrantedWithinTwoWindows(c, store, events, key, from, from, from + c.window);
    }
  }

  /** A request is granted exactly if the key is unknown, its window is over, or the window has room for it. */
  lemma WindowGrantsIff(c: Config, store: Windows, e: Event)
    requires e.Request?
    ensures WindowGrants(c, store, e) <==>
            e.key !in store || e.at - store[e.key].windowStart >= c.window || e.n <= c.rate - store[e.key].count
  {
  }

  /** The units a key asks for from one point in time to just before another. */
  function AskedBefore(events: seq<Event>, key: string, from: real, to: real): int {
    if events == [] then 0
    else
      var e := events[0];
      (if e.Request? && e.key == key && from <= e.at < to then e.n else 0) + AskedBefore(events[1..], key, from, to)
  }

  lemma {:induction false} AskedBeforeFromLater(events: seq<Event>, key: string, from: real, from': real, to: real)
    requires from <= from' && Ordered(events, from')
    ensures AskedBefore(events, key, from, to) == AskedBefore(events, key, from', to)
  {
    if events != [] {
      AskedBeforeFromLater(events[1..], key, from, from', to);
    }
  }

  lemma {:induction false} AskedBeforeIsCounted(events: seq<Event>, key: string, from: real, to: real, max: int)
    requires SizesWithin(events, max)
    ensures AskedBefore(events, key, from, to) >= 0
  {
    if events != [] {
      assert events[0] in events && SizesWithin(events[1..], max);
      AskedBeforeIsCounted(events[1..], key, from, to, max);
    }
  }

  predicate WindowNeverRefused(c: Config, store: Windows, events: seq<Event>, key: string)
    decreases |events|
  {
    events == [] ||
    ((events[0].Request? && events[0].key == key ==> WindowGrants(c, store, events[0])) &&
     WindowNeverRefused(c, WindowNext(c, store, events[0]), events[1..], key))
  }

  /** In no interval of at most one window length the key asks for more than the rate. */
  ghost predicate AsksWithinWindow(c: Config, events: seq<Event>, key: string) {
    forall from, to :: to - from <= c.window ==> AskedBefore(events, key, from, to) <= c.rate
  }

  /** The current window has room for all that the key asks for before its end. */
  predicate WindowHasRoom(c: Config, store: Windows, events: seq<Event>, key: string, now: real) {
    key in store && now < store[key].windowStart + c.window ==>
      store[key].count + AskedBefore(events, key, now, store[key].windowStart + c.window) <= c.rate
  }

  lemma WindowRoomAfter(c: Config, store: Windows, events: seq<Event>, key: string, now: real)
    requires c.window > 0.0 && events != [] && Ordered(events, now) && SizesWithin(events, c.rate)
    requires AsksWithinWindow(c, events, key) && WindowHasRoom(c, store, events, key, now)
    ensures events[0].Request? && events[0].key == key ==> WindowGrants(c, store, events[0])
    ensures WindowHasRoom(c, WindowNext(c, store, events[0]), events[1..], key, events[0].at)
    ensures AsksWithinWindow(c, events[1..], key)
  {
    var e, rest := events[0], events[1..];
    assert e in events && SizesWithin(rest, c.rate);
    if key in store {
      AskedBeforeFromLater(rest, key, now, e.at, store[key].windowStart + c.window);
      AskedBeforeIsCounted(rest, key, now, store[key].windowStart + c.window, c.rate);
    }
    assert AskedBefore(events, key, e.at, e.at + c.window) <= c.rate;
    forall from, to | to - from <= c.window ensures AskedBefore(rest, key, from, to) <= c.rate {
      assert AskedBefore(events, key, from, to) >= AskedBefore(rest, key, from, to);
    }
  }

  /** A key that asks for no more than the rate in any interval of one window length is never refused, whatever is swept. */
  lemma {:induction false} WindowServes(c: Config, store: Windows, events: seq<Event>, key: string, now: real)
    requires c.window > 0.0 && Ordered(events, now) && SizesWithin(events, c.rate)
    requires AsksWithinWindow(c, events, key) && WindowHasRoom(c, store, events, key, now)
    ensures WindowNeverRefused(c, store, events, key)
    decreases |events|
  {
    if events != [] {
      assert events[0] in events && SizesWithin(events[1..], c.rate);
      WindowRoomAfter(c, store, events, key, now);
      WindowServes(c, WindowNext(c, store, events[0]), events[1..], key, events[0].at);
    }
  }

  /**
   The API limiter counts per minute below sixty; from sixty on it gives a sixtieth, rounded down, every
   second and saves up ten seconds' worth.
   */
  lemma APILimiterUnits(rpm: int)
    ensures
      var c := NewAPILimiter(rpm);
      if rpm < 60 then !c.isTokenBucket && c.window == 60.0 && c.rate == rpm
      else c.isTokenBucket && rpm - 60 < 60 * c.rate <= rpm && c.burst == 10 * c.rate && Gain(c, 60.0) == (60 * c.rate) as real
  {
  }

  /** The bound is reached by every configuration: a window opened early and used up late. */
  lemma FixedWindowBoundIsTight(c: Config) returns (events: seq<Event>, from: real)
    requires c.window > 0.0 && c.rate >= 2
    ensures Ordered(events, 0.0) && SizesWithin(events, c.rate) && from >= 0.0
    ensures WindowGranted(c, map[], events, "k", from, from + c.window) == 2 * c.rate - 1
  {
    from := c.window / 2.0;
    var e0, e1, e2 := Request("k", 1, 0.0), Request("k", c.rate - 1, from), Request("k", c.rate, c.window);
    events := [e0, e1, e2];
    assert Ordered([e2], from) && Ordered([e1, e2], 0.0) by {
      assert [e1, e2][1..] == [e2];
    }
    assert events[1..] == [e1, e2];
    var s1: Windows := map["k" := Window(1, 0.0, 0.0)];
    var s2: Windows := map["k" := Window(c.rate, 0.0, from)];
    assert WindowNext(c, map[], e0) == s1 && WindowNext(c, s1, e1) == s2;
    calc {
      WindowGranted(c, map[], events, "k", from, from + c.window);
      WindowGranted(c, s1, [e1, e2], "k", from, from + c.window);
      { assert [e1, e2][1..] == [e2]; }
      c.rate - 1 + WindowGranted(c, s2, [e2], "k", from, from + c.window);
      c.rate - 1 + c.rate;
    }
  }

  // ----- The code -----

  class MemoryLimiter {
    const config: Config
    var tokenStore: Buckets
    var windowStore: Windows

    constructor (rate: int, window: real, useTokenBucket: bool)
      ensures config == NewMemoryLimiter(rate, window, useTokenBucket)
      ensures tokenStore == map[] && windowStore == map[]
    {
      config := NewMemoryLimiter(rate, window, useTokenBucket);
      tokenStore, windowStore := map[], map[];
    }

    method AllowN(key: string, n: int, now: real) returns (ok: bool)
      modifies this
      ensures var e := Request(key, n, now);
              if config.isTokenBucket then
                ok == TokenGrants(config, old(tokenStore), e) &&
                tokenStore == TokenNext(config, old(tokenStore), e) && windowStore == old(windowStore)
              else
                ok == WindowGrants(config, old(windowStore), e) &&
                windowStore == WindowNext(config, old(windowStore), e) && tokenStore == old(tokenStore)
    {
      if config.isTokenBucket {
        ok := AllowTokenBucket(key, n, now);
      } else {
        ok := AllowFixedWindow(key, n, now);
      }
    }

    method AllowFixedWindow(key: string, n: int, now: real) returns (ok: bool)
      modifies this`windowStore
      ensures ok == WindowGrants(config, old(windowStore), Request(key, n, now))
      ensures windowStore == WindowNext(config, old(windowStore), Request(key, n, now))
    {
      if key !in windowStore {
        windowStore := windowStore[key := Window(n, now, now)];
        return true;
      }
      var data := windowStore[key];
      if now - data.windowStart >= config.window {
        windowStore := windowStore[key := data.(count := n, windowStart := now, lastUpdated := now)];
        return true;
      }
      if data.count + n <= config.rate {
        windowStore := windowStore[key := data.(count := data.count + n, lastUpdated := now)];
        return true;
      }
      assert windowStore[key := data] == windowStore;
      return false;
    }

    method AllowTokenBucket(key: string, n: int, now: real) returns (ok: bool)
      modifies this`tokenStore
      ensures ok == TokenGrants(config, old(tokenStore), Request(key, n, now))
      ensures tokenStore == TokenNext(config, old(tokenStore), Request(key, n, now))
    {
      if key !in tokenStore {
        tokenStore := tokenStore[key := Bucket(config.burst as real - n as real, now, now)];
        return true;
      }
      var data := tokenStore[key];
      var elapsed := now - data.lastUpdate;
      var newTokens := elapsed * config.rate as real;
      assert newTokens == Gain(config, now - data.lastUpdate);
      ghost var refilled := Refilled(config, data, now);
      data := data.(tokens := MinValue(config.burst as real, data.tokens + newTokens), lastUpdate := now);
      assert data.tokens == refilled;
      if data.tokens >= n as real {
        data := data.(tokens := data.tokens - n as real, lastUpdated := now);
        tokenStore := tokenStore[key := data];
        return true;
      }
      tokenStore := tokenStore[key := data];
      return false;
    }

    /** The sweep visits the entries in no particular order. */
    method RemoveExpiredEntries(now: real)
      modifies this
      ensures if config.isTokenBucket then
                tokenStore == SweepBuckets(config, old(tokenStore), now) && windowStore == old(windowStore)
              else
                windowStore == SweepWindows(config, old(windowStore), now) && tokenStore == old(tokenStore)
    {
      if config.isTokenBucket {
        var keys := tokenStore.Keys;
        while keys != {}
          invariant keys <= tokenStore.Keys <= old(tokenStore).Keys
          invariant windowStore == old(windowStore)
          invariant forall k | k in tokenStore :: tokenStore[k] == old(tokenStore)[k]
          invariant forall k | k in old(tokenStore) && k !in keys ::
                      k in tokenStore <==> !Expired(config, old(tokenStore)[k].lastUpdated, now)
          decreases keys
        {
          ghost var some := SomeElement(keys);
          var key :| key in keys;
          if now - tokenStore[key].lastUpdated > 2.0 * config.window {
            tokenStore := tokenStore - {key};
          }
          keys := keys - {key};
        }
      } else {
        var keys := windowStore.Keys;
        while keys != {}
          invariant keys <= windowStore.Keys <= old(windowStore).Keys
          invariant tokenStore == old(tokenStore)
          invariant forall k | k in windowStore :: windowStore[k] == old(windowStore)[k]
          invariant forall k | k in old(windowStore) && k !in keys ::
                      k in windowStore <==> !Expired(config, old(windowStore)[k].lastUpdated, now)
          decreases keys
        {
          ghost var some := SomeElement(keys);
          var key :| key in keys;
          if now - windowStore[key].lastUpdated > 2.0 * config.window {
            windowStore := windowStore - {key};
          }
          keys := keys - {key};
        }
      }
    }
  }
}
