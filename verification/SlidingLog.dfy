/**
 The sliding-log rate limiters: a queue of grant times per key in memory (common/rate-limit.go), and
 the same limiter on a Redis list (middleware/rate-limit.go). Both are compared with a reference that
 remembers every grant and counts those of the last `duration`.

 The clock is a parameter that never runs backwards. The in-memory limiter reads whole seconds; the
 Redis limiter stores milliseconds and compares after truncating the difference to seconds.
 */
module SlidingLog {
  import opened Options
  import opened Collections

  // ----- Reference: remember every grant -----

  /** How many of the grants lie within the last `duration`, now included. */
  function Recent(grants: seq<int>, duration: int, now: int): nat {
    if grants == [] then 0
    else (if grants[0] > now - duration then 1 else 0) + Recent(grants[1..], duration, now)
  }

  predicate MayGrant(grants: seq<int>, max: nat, duration: int, now: int) {
    Recent(grants, duration, now) < max
  }

  /** One event of a key's history: a request at a time, or a sweep of the store. */
  datatype Event = Request(at: int) | Sweep(at: int)

  predicate Ordered(events: seq<Event>, now: int) {
    events == [] || (now <= events[0].at && Ordered(events[1..], events[0].at))
  }

  /** The answers of the reference, starting from a history of grants. */
  function NaiveAnswers(grants: seq<int>, max: nat, duration: int, events: seq<Event>): seq<bool>
    decreases |events|
  {
    if events == [] then []
    else match events[0]
      case Sweep(_) => NaiveAnswers(grants, max, duration, events[1..])
      case Request(at) =>
        var ok := MayGrant(grants, max, duration, at);
        [ok] + NaiveAnswers(if ok then grants + [at] else grants, max, duration, events[1..])
  }

  /** The times the reference grants. */
  function NaiveGrants(grants: seq<int>, max: nat, duration: int, events: seq<Event>): seq<int>
    decreases |events|
  {
    if events == [] then grants
    else match events[0]
      case Sweep(_) => NaiveGrants(grants, max, duration, events[1..])
      case Request(at) =>
        NaiveGrants(if MayGrant(grants, max, duration, at) then grants + [at] else grants, max, duration, events[1..])
  }

  predicate Nondecreasing(s: seq<int>, now: int) {
    (forall i, j | 0 <= i < j < |s| :: s[i] <= s[j]) && (forall i | 0 <= i < |s| :: s[i] <= now)
  }

  /** Any max + 1 consecutive grants span at least the duration. */
  predicate Spaced(s: seq<int>, max: nat, duration: int) {
    forall i | 0 <= i && i + max < |s| :: s[i + max] - s[i] >= duration
  }

  lemma {:induction false} RecentOfSuffix(grants: seq<int>, i: nat, duration: int, now: int)
    requires i <= |grants|
    requires forall k | 0 <= k < i :: grants[k] <= now - duration
    requires forall k | i <= k < |grants| :: grants[k] > now - duration
    ensures Recent(grants, duration, now) == |grants| - i
    decreases |grants|
  {
    if grants != [] {
      RecentOfSuffix(grants[1..], if i == 0 then 0 else i - 1, duration, now);
    }
  }

  /** In a nondecreasing history, max recent grants means the max-th last one is recent. */
  lemma RecentCounts(grants: seq<int>, max: nat, duration: int, now: int)
    requires Nondecreasing(grants, now) && max >= 1
    ensures MayGrant(grants, max, duration, now) <==> |grants| < max || now - grants[|grants| - max] >= duration
  {
    var i := FirstRecent(grants, duration, now);
    RecentOfSuffix(grants, i, duration, now);
  }

  lemma {:induction false} FirstRecent(grants: seq<int>, duration: int, now: int) returns (i: nat)
    requires forall a, b | 0 <= a < b < |grants| :: grants[a] <= grants[b]
    ensures i <= |grants|
    ensures forall k | 0 <= k < i :: grants[k] <= now - duration
    ensures forall k | i <= k < |grants| :: grants[k] > now - duration
    decreases |grants|
  {
    if grants == [] || grants[|grants| - 1] <= now - duration {
      i := |grants|;
    } else {
      i := FirstRecent(grants[..|grants| - 1], duration, now);
    }
  }

  /** Over any run the reference's grants stay spaced. */
  lemma {:induction false} NaiveGrantsAreSpaced(grants: seq<int>, max: nat, duration: int, events: seq<Event>, now: int)
    requires max >= 1 && Ordered(events, now)
    requires Nondecreasing(grants, now) && Spaced(grants, max, duration)
    ensures Spaced(NaiveGrants(grants, max, duration, events), max, duration)
    ensures exists last :: Nondecreasing(NaiveGrants(grants, max, duration, events), last)
    decreases |events|
  {
    if events == [] {
    } else if events[0].Sweep? {
      assert Nondecreasing(grants, events[0].at);
      NaiveGrantsAreSpaced(grants, max, duration, events[1..], events[0].at);
    } else {
      var at := events[0].at;
      assert Nondecreasing(grants, at);
      RecentCounts(grants, max, duration, at);
      NaiveGrantsAreSpaced(if MayGrant(grants, max, duration, at) then grants + [at] else grants,
                           max, duration, events[1..], at);
    }
  }

  /** Grants in the half-open interval of one duration from a point in time. */
  function Within(grants: seq<int>, from: int, duration: int): nat {
    if grants == [] then 0
    else (if from <= grants[0] < from + duration then 1 else 0) + Within(grants[1..], from, duration)
  }

  lemma {:induction false} WithinIsConsecutive(grants: seq<int>, from: int, duration: int) returns (i: nat)
    requires forall a, b | 0 <= a < b < |grants| :: grants[a] <= grants[b]
    ensures var n := Within(grants, from, duration);
            n > 0 ==> i + n <= |grants| && from <= grants[i] && grants[i + n - 1] < from + duration
    decreases |grants|
  {
    i := 0;
    if grants != [] {
      var n := Within(grants[1..], from, duration);
      i := WithinIsConsecutive(grants[1..], from, duration);
      if from <= grants[0] < from + duration {
        assert n > 0 ==> grants[n] <= grants[i + n] == grants[1..][i + n - 1];
        i := 0;
      } else if n > 0 {
        assert grants[1..][i] == grants[i + 1] && grants[1..][i + n - 1] == grants[i + n];
        i := i + 1;
      }
    }
  }

  /** Spacing is what bounds the rate: no interval of one duration holds more than max grants. */
  lemma SpacedBoundsRate(grants: seq<int>, max: nat, duration: int, from: int)
    requires max >= 1 && Spaced(grants, max, duration)
    requires forall a, b | 0 <= a < b < |grants| :: grants[a] <= grants[b]
    ensures Within(grants, from, duration) <= max
  {
    if Within(grants, from, duration) > max {
      var i := CrowdedInterval(grants, max, duration, from);
    }
  }

  lemma CrowdedInterval(grants: seq<int>, max: nat, duration: int, from: int) returns (i: nat)
    requires Within(grants, from, duration) > max
    requires forall a, b | 0 <= a < b < |grants| :: grants[a] <= grants[b]
    ensures i + max < |grants| && grants[i + max] - grants[i] < duration
  {
    var n := Within(grants, from, duration);
    i := WithinIsConsecutive(grants, from, duration);
    assert i + max == i + n - 1 || grants[i + max] <= grants[i + n - 1];
  }

  // ----- The queue -----

  /** An entry of the store: no entry, or the queue of grant times, oldest first. */
  type Entry = Option<seq<int>>

  /**
   InMemoryRateLimiter.Request on the entry of one key. The queue of an entry is never empty, and a
   maximum below one acts as one: the first request is granted without looking at it.
   */
  function QueueStep(entry: Entry, max: nat, duration: int, now: int): (seq<int>, bool) {
    match entry
    case None => ([now], true)
    case Some(queue) =>
      if |queue| < max then (queue + [now], true)
      else if queue != [] && now - queue[0] >= duration then (queue[1..] + [now], true)
      else (queue, false)
  }

  /** clearExpiredItems on the entry of one key. */
  function QueueSweep(entry: Entry, expiration: int, now: int): Entry {
    match entry
    case None => None
    case Some(queue) => if queue == [] || now - queue[|queue| - 1] > expiration then None else entry
  }

  function QueueNext(entry: Entry, max: nat, duration: int, expiration: int, e: Event): Entry {
    match e
    case Request(at) => Some(QueueStep(entry, max, duration, at).0)
    case Sweep(at) => QueueSweep(entry, expiration, at)
  }

  function QueueAnswers(entry: Entry, max: nat, duration: int, expiration: int, events: seq<Event>): seq<bool>
    decreases |events|
  {
    if events == [] then []
    else (if events[0].Request? then [QueueStep(entry, max, duration, events[0].at).1] else [])
         + QueueAnswers(QueueNext(entry, max, duration, expiration, events[0]), max, duration, expiration, events[1..])
  }

  function AtLeastOne(max: nat): nat {
    if max == 0 then 1 else max
  }

  function QueueOf(entry: Entry): seq<int> {
    match entry
    case None => []
    case Some(queue) => queue
  }

  /**
   The queue is a suffix of the grant history, no longer than the maximum; if it is shorter, all
   that it lacks is past the duration.
   */
  ghost predicate Remembers(entry: Entry, grants: seq<int>, max: nat, duration: int, now: int) {
    var queue := QueueOf(entry);
    && entry != Some([])
    && |queue| <= max && |queue| <= |grants| && queue == grants[|grants| - |queue|..]
    && (|queue| < max ==> forall i | 0 <= i < |grants| - |queue| :: grants[i] <= now - duration)
  }

  lemma RequestAgrees(entry: Entry, grants: seq<int>, max: nat, duration: int, now: int)
    requires Remembers(entry, grants, AtLeastOne(max), duration, now) && Nondecreasing(grants, now)
    ensures var (queue, ok) := QueueStep(entry, max, duration, now);
            ok == MayGrant(grants, AtLeastOne(max), duration, now) &&
            Remembers(Some(queue), if ok then grants + [now] else grants, AtLeastOne(max), duration, now)
  {
    var queue, m := QueueOf(entry), AtLeastOne(max);
    RecentCounts(grants, m, duration, now);
    if |queue| < m {
      assert |grants| >= m ==> grants[|grants| - m] <= now - duration;
      assert queue + [now] == (grants + [now])[|grants| - |queue|..];
    } else {
      assert queue[0] == grants[|grants| - m];
      assert queue[1..] + [now] == (grants + [now])[|grants| + 1 - m..];
    }
  }

  lemma SweepAgrees(entry: Entry, grants: seq<int>, max: nat, duration: int, expiration: int, now: int)
    requires Remembers(entry, grants, max, duration, now) && Nondecreasing(grants, now) && max >= 1
    requires duration <= expiration + 1
    ensures Remembers(QueueSweep(entry, expiration, now), grants, max, duration, now)
  {
    if entry != None && QueueSweep(entry, expiration, now) == None {
      forall i | 0 <= i < |grants| ensures grants[i] <= now - duration {
        assert grants[i] <= grants[|grants| - 1] == entry.value[|entry.value| - 1];
      }
      assert grants[|grants|..] == [];
    }
  }

  /**
   The queue refines the reference: with the duration no longer than the expiration plus one second,
   every run with sweeps at any points gets the answers of the limiter that remembers everything.
   */
  lemma {:induction false} QueueRefinesNaive(entry: Entry, grants: seq<int>, max: nat, duration: int, expiration: int,
                                             events: seq<Event>, now: int)
    requires Ordered(events, now) && duration <= expiration + 1
    requires Remembers(entry, grants, AtLeastOne(max), duration, now) && Nondecreasing(grants, now)
    ensures QueueAnswers(entry, max, duration, expiration, events)
         == NaiveAnswers(grants, AtLeastOne(max), duration, events)
    decreases |events|
  {
    if events != [] {
      var at, m := events[0].at, AtLeastOne(max);
      assert Remembers(entry, grants, m, duration, at) && Nondecreasing(grants, at);
      match events[0] {
        case Sweep(_) =>
          SweepAgrees(entry, grants, m, duration, expiration, at);
          QueueRefinesNaive(QueueSweep(entry, expiration, at), grants, max, duration, expiration, events[1..], at);
        case Request(_) =>
          RequestAgrees(entry, grants, max, duration, at);
          var ok := MayGrant(grants, m, duration, at);
          QueueRefinesNaive(Some(QueueStep(entry, max, duration, at).0), if ok then grants + [at] else grants,
                            max, duration, expiration, events[1..], at);
      }
    }
  }

  ghost predicate SweepsNeverShow(max: nat, duration: int, expiration: int) {
    forall events, now :: Ordered(events, now) ==>
      QueueAnswers(None, max, duration, expiration, events) == NaiveAnswers([], AtLeastOne(max), duration, events)
  }

  /** The bound on the duration is exact. */
  lemma SweepsNeverShowIff(max: nat, duration: int, expiration: nat)
    ensures SweepsNeverShow(max, duration, expiration) <==> duration <= expiration + 1
  {
    if duration <= expiration + 1 {
      forall events, now | Ordered(events, now)
        ensures QueueAnswers(None, max, duration, expiration, events) == NaiveAnswers([], AtLeastOne(max), duration, events)
      {
        QueueRefinesNaive(None, [], max, duration, expiration, events, now);
      }
    } else {
      var events := SweepShows(max, duration, expiration);
      assert Ordered(events, 0);
    }
  }

  /** n requests at time zero. */
  function Burst(n: nat): seq<Event> {
    if n == 0 then [] else [Request(0)] + Burst(n - 1)
  }

  function Zeros(n: nat): (r: seq<int>)
    ensures |r| == n && forall i | 0 <= i < n :: r[i] == 0
  {
    if n == 0 then [] else Zeros(n - 1) + [0]
  }

  function Trues(n: nat): (r: seq<bool>)
    ensures |r| == n
  {
    if n == 0 then [] else [true] + Trues(n - 1)
  }

  /** Otherwise: use up the limit at once, and ask again right after the sweep. */
  lemma SweepShows(max: nat, duration: int, expiration: nat) returns (events: seq<Event>)
    requires duration > expiration + 1
    ensures Ordered(events, 0)
    ensures QueueAnswers(None, max, duration, expiration, events) != NaiveAnswers([], AtLeastOne(max), duration, events)
  {
    var m, t := AtLeastOne(max), expiration + 1;
    var tail := [Sweep(t), Request(t)];
    TailAnswers(max, m, duration, expiration, t);
    var more := Burst(m - 1) + tail;
    events := [Request(0)] + more;
    assert events[1..] == more;
    BurstFillsQueue(m - 1, 1, max, duration, expiration, tail);
    BurstFillsHistory(m - 1, 1, m, duration, tail);
    BurstIsOrdered(m - 1, tail);
    assert Zeros(1) == [0] by { assert Zeros(0) + [0] == [0]; }
    var full := Zeros(m);
    assert QueueAnswers(None, max, duration, expiration, events)
        == [true] + QueueAnswers(Some([0]), max, duration, expiration, more) == [true] + (Trues(m - 1) + [true]);
    assert NaiveAnswers([], m, duration, events)
        == [true] + NaiveAnswers([0], m, duration, more) == [true] + (Trues(m - 1) + [false]) by {
      assert [] + [0] == [0];
    }
    assert ([true] + (Trues(m - 1) + [true]))[m] != ([true] + (Trues(m - 1) + [false]))[m];
  }

  /** A sweep just past the expiration, and a request: the queue has forgotten what a limiter that remembers still counts. */
  lemma TailAnswers(max: nat, m: nat, duration: int, expiration: nat, t: int)
    requires duration > expiration + 1 && m == AtLeastOne(max) && t == expiration + 1
    ensures Ordered([Sweep(t), Request(t)], 0)
    ensures QueueAnswers(Some(Zeros(m)), max, duration, expiration, [Sweep(t), Request(t)]) == [true]
    ensures NaiveAnswers(Zeros(m), m, duration, [Sweep(t), Request(t)]) == [false]
  {
    var tail := [Sweep(t), Request(t)];
    assert tail[1..] == [Request(t)] && Ordered([Request(t)], t) && Ordered(tail, 0);
    RecentOfSuffix(Zeros(m), 0, duration, t);
    assert QueueSweep(Some(Zeros(m)), expiration, t) == None;
    assert QueueAnswers(Some(Zeros(m)), max, duration, expiration, tail)
        == [] + QueueAnswers(None, max, duration, expiration, [Request(t)]) == [true];
    assert NaiveAnswers(Zeros(m), m, duration, tail) == NaiveAnswers(Zeros(m), m, duration, [Request(t)]) == [false];
  }

  lemma {:induction false} BurstFillsQueue(n: nat, used: nat, max: nat, duration: int, expiration: nat, tail: seq<Event>)
    requires used >= 1 && used + n == AtLeastOne(max)
    ensures QueueAnswers(Some(Zeros(used)), max, duration, expiration, Burst(n) + tail)
         == Trues(n) + QueueAnswers(Some(Zeros(used + n)), max, duration, expiration, tail)
    decreases n
  {
    if n == 0 {
      assert Burst(0) + tail == tail;
    } else {
      assert Burst(n) + tail == [Request(0)] + (Burst(n - 1) + tail);
      assert QueueStep(Some(Zeros(used)), max, duration, 0) == (Zeros(used + 1), true);
      BurstFillsQueue(n - 1, used + 1, max, duration, expiration, tail);
    }
  }

  lemma {:induction false} BurstIsOrdered(n: nat, tail: seq<Event>)
    requires Ordered(tail, 0)
    ensures Ordered(Burst(n) + tail, 0)
  {
    if n == 0 {
      assert Burst(0) + tail == tail;
    } else {
      assert Burst(n) + tail == [Request(0)] + (Burst(n - 1) + tail);
      assert ([Request(0)] + (Burst(n - 1) + tail))[1..] == Burst(n - 1) + tail;
      BurstIsOrdered(n - 1, tail);
    }
  }

  lemma NextInBurst(used: nat, max: nat, duration: int, rest: seq<Event>)
    requires used < max && duration > 0
    ensures NaiveAnswers(Zeros(used), max, duration, [Request(0)] + rest) == [true] + NaiveAnswers(Zeros(used + 1), max, duration, rest)
  {
    RecentOfSuffix(Zeros(used), 0, duration, 0);
    assert Zeros(used) + [0] == Zeros(used + 1);
  }

  lemma {:induction false} BurstFillsHistory(n: nat, used: nat, max: nat, duration: int, tail: seq<Event>)
    requires used + n == max && duration > 0
    ensures NaiveAnswers(Zeros(used), max, duration, Burst(n) + tail) == Trues(n) + NaiveAnswers(Zeros(max), max, duration, tail)
    decreases n
  {
    var rest := NaiveAnswers(Zeros(max), max, duration, tail);
    if n == 0 {
      assert Burst(0) + tail == tail && Trues(0) + rest == rest;
    } else {
      assert Burst(n) + tail == [Request(0)] + (Burst(n - 1) + tail);
      NextInBurst(used, max, duration, Burst(n - 1) + tail);
      BurstFillsHistory(n - 1, used + 1, max, duration, tail);
      assert [true] + (Trues(n - 1) + rest) == Trues(n) + rest;
    }
  }

  /** The times of the granted requests of a run, given its answers. */
  function GrantTimes(events: seq<Event>, answers: seq<bool>): seq<int>
    decreases |events|
  {
    if events == [] || answers == [] then []
    else if events[0].Sweep? then GrantTimes(events[1..], answers)
    else (if answers[0] then [events[0].at] else []) + GrantTimes(events[1..], answers[1..])
  }

  lemma {:induction false} NaiveGrantsFollowAnswers(grants: seq<int>, max: nat, duration: int, events: seq<Event>)
    ensures NaiveGrants(grants, max, duration, events)
         == grants + GrantTimes(events, NaiveAnswers(grants, max, duration, events))
    decreases |events|
  {
    if events != [] {
      if events[0].Sweep? {
        NaiveGrantsFollowAnswers(grants, max, duration, events[1..]);
      } else {
        var ok := MayGrant(grants, max, duration, events[0].at);
        NaiveGrantsFollowAnswers(if ok then grants + [events[0].at] else grants, max, duration, events[1..]);
      }
    }
  }

  lemma NaiveRateBound(m: nat, duration: int, events: seq<Event>, now: int, from: int)
    requires m >= 1 && Ordered(events, now)
    ensures Within(GrantTimes(events, NaiveAnswers([], m, duration, events)), from, duration) <= m
  {
    var grants, times := NaiveGrants([], m, duration, events), GrantTimes(events, NaiveAnswers([], m, duration, events));
    NaiveGrantsFollowAnswers([], m, duration, events);
    assert grants == [] + times == times;
    NaiveGrantsAreSpaced([], m, duration, events, now);
    SpacedBoundsRate(grants, m, duration, from);
  }

  /** Rate bound: over any run of the queue, no interval of one duration holds more than max grants. */
  lemma RateBound(max: nat, duration: int, expiration: int, events: seq<Event>, now: int, from: int)
    requires duration <= expiration + 1 && Ordered(events, now)
    ensures Within(GrantTimes(events, QueueAnswers(None, max, duration, expiration, events)), from, duration) <= AtLeastOne(max)
  {
    var m := AtLeastOne(max);
    QueueRefinesNaive(None, [], max, duration, expiration, events, now);
    NaiveRateBound(m, duration, events, now, from);
  }

  // ----- The Redis list -----

  /** A list with its expiry time; newest element first. Absent means that Redis has dropped the key. */
  datatype RedisEntry = Absent | Present(list: seq<int>, expires: int)

  /** The answers of the middleware: go on, status 429, or status 500. */
  datatype Verdict = Granted | TooMany | ServerError

  /** What Redis shows of an entry at a point in time. */
  function Visible(entry: RedisEntry, now: int): seq<int> {
    match entry
    case Absent => []
    case Present(list, expires) => if now >= expires then [] else list
  }

  /** Times in milliseconds, the duration in seconds, `ttl` in milliseconds. Dividing truncates toward zero. */
  function RedisStep(entry: RedisEntry, max: nat, duration: int, ttl: nat, now: int): (RedisEntry, Verdict) {
    var list := Visible(entry, now);
    if |list| < max then (Present([now] + list, now + ttl), Granted)
    else if list == [] then (Absent, ServerError)
    else if TruncatedSeconds(now - list[|list| - 1]) < duration then (Present(list, now + ttl), TooMany)
    else (Present(([now] + list)[..max], now + ttl), Granted)
  }

  function TruncatedSeconds(ms: int): int {
    if ms >= 0 then ms / 1000 else -((-ms) / 1000)
  }

  function RedisAnswers(entry: RedisEntry, max: nat, duration: int, ttl: nat, events: seq<Event>): seq<bool>
    decreases |events|
  {
    if events == [] then []
    else match events[0]
      case Sweep(_) => RedisAnswers(entry, max, duration, ttl, events[1..])
      case Request(at) =>
        var (entry', verdict) := RedisStep(entry, max, duration, ttl, at);
        [verdict == Granted] + RedisAnswers(entry', max, duration, ttl, events[1..])
  }

  function Reverse(s: seq<int>): (r: seq<int>)
    ensures |r| == |s|
  {
    seq(|s|, i requires 0 <= i < |s| => s[|s| - 1 - i])
  }

  /** Pushing at the head and trimming the tail is shifting and appending on the other side. */
  lemma ReverseDropsOldest(queue: seq<int>, now: int)
    requires queue != []
    ensures ([now] + Reverse(queue))[..|queue|] == Reverse(queue[1..] + [now])
    ensures Reverse(queue)[|queue| - 1] == queue[0]
  {
  }

  /** A queue as the entry of the in-memory store. */
  function AsEntry(queue: seq<int>): Entry {
    if queue == [] then None else Some(queue)
  }

  /**
   One request: pushing at the head, testing the tail and trimming is appending to, testing the
   head of and shifting the queue; the list stays the queue reversed.
   */
  lemma RedisMirrorsQueue(entry: RedisEntry, queue: seq<int>, max: nat, duration: nat, ttl: nat, now: int)
    requires max >= 1 && Visible(entry, now) == Reverse(queue) && |queue| <= max && Nondecreasing(queue, now)
    ensures var (entry', verdict) := RedisStep(entry, max, duration, ttl, now);
            var (queue', ok) := QueueStep(AsEntry(queue), max, 1000 * duration, now);
            (verdict == if ok then Granted else TooMany) && entry' == Present(Reverse(queue'), now + ttl)
  {
    if |queue| >= max {
      ReverseDropsOldest(queue, now);
    }
    assert queue == [] ==> [now] == queue + [now];
  }

  /** The list is the queue reversed, and the key outlives the newest grant by the time to live. */
  predicate Backs(entry: RedisEntry, queue: seq<int>, ttl: nat) {
    match entry
    case Absent => queue == []
    case Present(list, expires) => queue != [] && list == Reverse(queue) && queue[|queue| - 1] + ttl <= expires
  }

  /** What an expired key takes with it is past the duration. */
  lemma ExpiryForgetsOnlyOld(entry: RedisEntry, queue: seq<int>, grants: seq<int>, max: nat, duration: nat, ttl: nat, now: int)
    requires max >= 1 && 1000 * duration <= ttl && Nondecreasing(grants, now)
    requires Backs(entry, queue, ttl) && Remembers(AsEntry(queue), grants, max, 1000 * duration, now)
    ensures var live := if entry.Present? && now >= entry.expires then [] else queue;
            Visible(entry, now) == Reverse(live) && Remembers(AsEntry(live), grants, max, 1000 * duration, now)
  {
    if entry.Present? && now >= entry.expires {
      forall i | 0 <= i < |grants| ensures grants[i] <= now - 1000 * duration {
        assert grants[i] <= grants[|grants| - 1] == queue[|queue| - 1];
      }
      assert grants[|grants|..] == [];
    }
  }

  /** With the time to live no shorter than the duration, the Redis limiter refines the reference too. */
  lemma {:induction false} RedisRefinesNaive(entry: RedisEntry, queue: seq<int>, grants: seq<int>, max: nat, duration: nat, ttl: nat,
                                             events: seq<Event>, now: int)
    requires max >= 1 && 1000 * duration <= ttl && Ordered(events, now) && Nondecreasing(grants, now)
    requires Backs(entry, queue, ttl) && Remembers(AsEntry(queue), grants, max, 1000 * duration, now)
    ensures RedisAnswers(entry, max, duration, ttl, events) == NaiveAnswers(grants, max, 1000 * duration, events)
    decreases |events|
  {
    if events != [] {
      var at := events[0].at;
      assert Nondecreasing(grants, at) && Remembers(AsEntry(queue), grants, max, 1000 * duration, at);
      if events[0].Sweep? {
        RedisRefinesNaive(entry, queue, grants, max, duration, ttl, events[1..], at);
      } else {
        var queue', ok := OneRequestRefines(entry, queue, grants, max, duration, ttl, at);
        var entry' := RedisStep(entry, max, duration, ttl, at).0;
        RedisRefinesNaive(entry', queue', if ok then grants + [at] else grants, max, duration, ttl, events[1..], at);
      }
    }
  }

  /** One request: the same answer as the reference, with a queue that again backs the list. */
  lemma OneRequestRefines(entry: RedisEntry, queue: seq<int>, grants: seq<int>, max: nat, duration: nat, ttl: nat, at: int)
    returns (queue': seq<int>, ok: bool)
    requires max >= 1 && 1000 * duration <= ttl && Nondecreasing(grants, at)
    requires Backs(entry, queue, ttl) && Remembers(AsEntry(queue), grants, max, 1000 * duration, at)
    ensures ok == MayGrant(grants, max, 1000 * duration, at)
    ensures var (entry', verdict) := RedisStep(entry, max, duration, ttl, at);
            (verdict == Granted <==> ok) && Backs(entry', queue', ttl)
    ensures var grants' := if ok then grants + [at] else grants;
            Nondecreasing(grants', at) && Remembers(AsEntry(queue'), grants', max, 1000 * duration, at)
  {
    ExpiryForgetsOnlyOld(entry, queue, grants, max, duration, ttl, at);
    var live := if entry.Present? && at >= entry.expires then [] else queue;
    RequestAgrees(AsEntry(live), grants, max, 1000 * duration, at);
    RequestKeepsTime(live, grants, max, 1000 * duration, at);
    RedisMirrorsQueue(entry, live, max, duration, ttl, at);
    queue', ok := QueueStep(AsEntry(live), max, 1000 * duration, at).0, QueueStep(AsEntry(live), max, 1000 * duration, at).1;
  }

  lemma RequestKeepsTime(queue: seq<int>, grants: seq<int>, max: nat, duration: int, now: int)
    requires max >= 1 && Nondecreasing(grants, now) && Remembers(AsEntry(queue), grants, max, duration, now)
    ensures var (queue', ok) := QueueStep(AsEntry(queue), max, duration, now);
            queue' != [] && queue'[|queue'| - 1] <= now && Nondecreasing(if ok then grants + [now] else grants, now)
    ensures Nondecreasing(queue, now)
  {
  }

  // ----- Both limiters on one run -----

  function InMilliseconds(events: seq<Event>): seq<Event> {
    if events == [] then []
    else [match events[0]
          case Request(at) => Request(1000 * at)
          case Sweep(at) => Sweep(1000 * at)] + InMilliseconds(events[1..])
  }

  function Scaled(grants: seq<int>): seq<int> {
    if grants == [] then [] else [1000 * grants[0]] + Scaled(grants[1..])
  }

  lemma {:induction false} ScaledAppend(grants: seq<int>, x: int)
    ensures Scaled(grants + [x]) == Scaled(grants) + [1000 * x]
  {
    if grants != [] {
      ScaledAppend(grants[1..], x);
      assert (grants + [x])[1..] == grants[1..] + [x];
    } else {
      assert [] + [x] == [x] && [x][1..] == [];
    }
  }

  lemma {:induction false} ScaledRecent(grants: seq<int>, duration: int, now: int)
    ensures Recent(Scaled(grants), 1000 * duration, 1000 * now) == Recent(grants, duration, now)
  {
    if grants != [] {
      ScaledRecent(grants[1..], duration, now);
      assert Scaled(grants)[1..] == Scaled(grants[1..]);
    }
  }

  lemma {:induction false} NaiveInMilliseconds(grants: seq<int>, max: nat, duration: int, events: seq<Event>, now: int)
    requires Ordered(events, now)
    ensures NaiveAnswers(Scaled(grants), max, 1000 * duration, InMilliseconds(events))
         == NaiveAnswers(grants, max, duration, events)
    ensures Ordered(InMilliseconds(events), 1000 * now)
    decreases |events|
  {
    if events != [] {
      assert InMilliseconds(events)[1..] == InMilliseconds(events[1..]);
      var at := events[0].at;
      ScaledRecent(grants, duration, at);
      ScaledAppend(grants, at);
      NaiveInMilliseconds(if events[0].Request? && MayGrant(grants, max, duration, at) then grants + [at] else grants,
                          max, duration, events[1..], at);
    }
  }

  /**
   On every run over a whole-second clock the two limiters give the same answers, sweeps and key
   expiry included, as long as neither forgets faster than the duration.
   */
  lemma RedisAgreesWithMemory(max: nat, duration: nat, expiration: int, ttl: nat, events: seq<Event>, now: int)
    requires max >= 1 && ttl >= 1 && 1000 * duration <= ttl && duration <= expiration + 1 && Ordered(events, now)
    ensures RedisAnswers(Absent, max, duration, ttl, InMilliseconds(events))
         == QueueAnswers(None, max, duration, expiration, events)
  {
    QueueRefinesNaive(None, [], max, duration, expiration, events, now);
    NaiveInMilliseconds([], max, duration, events, now);
    RedisRefinesNaive(Absent, [], [], max, duration, ttl, InMilliseconds(events), 1000 * now);
  }

  /** With a maximum of zero they differ: Redis answers every request with an error, memory grants the first. */
  lemma ZeroMaximumDiffers(duration: int, ttl: nat, now: int, entry: RedisEntry)
    requires Visible(entry, now) == []
    ensures RedisStep(entry, 0, duration, ttl, now) == (Absent, ServerError)
    ensures QueueStep(None, 0, duration, now) == ([now], true)
  {
  }

  // ----- The code -----

  /** The in-memory limiter; the keys do not affect one another. */
  class InMemoryRateLimiter {
    const expiration: int
    var store: map<string, seq<int>>

    constructor (expiration: int)
      ensures this.expiration == expiration && store == map[]
    {
      this.expiration, store := expiration, map[];
    }

    function EntryOf(key: string): Entry
      reads this
    {
      if key in store then Some(store[key]) else None
    }

    method Request(key: string, maxRequestNum: nat, duration: int, now: int) returns (ok: bool)
      requires EntryOf(key) != Some([])
      modifies this
      ensures key in store && store[key] != []
      ensures (store[key], ok) == QueueStep(old(EntryOf(key)), maxRequestNum, duration, now)
      ensures forall k | k != key :: EntryOf(k) == old(EntryOf(k))
    {
      if key in store {
        if |store[key]| < maxRequestNum {
          store := store[key := store[key] + [now]];
          return true;
        }
        if now - store[key][0] >= duration {
          store := store[key := store[key][1..]];
          store := store[key := store[key] + [now]];
          return true;
        }
        return false;
      }
      store := store[key := []];
      store := store[key := store[key] + [now]];
      assert store[key] == [now];
      return true;
    }

    method ClearExpiredItems(now: int)
      modifies this
      ensures forall key :: EntryOf(key) == QueueSweep(old(EntryOf(key)), expiration, now)
    {
      var keys := store.Keys;
      while keys != {}
        invariant keys <= store.Keys <= old(store).Keys
        invariant forall k | k in keys :: EntryOf(k) == old(EntryOf(k))
        invariant forall k | k !in keys :: EntryOf(k) == QueueSweep(old(EntryOf(k)), expiration, now)
        decreases keys
      {
        ghost var some := SomeElement(keys);
        var key :| key in keys;
        var queue := store[key];
        if |queue| == 0 || now - queue[|queue| - 1] > expiration {
          store := store - {key};
        }
        keys := keys - {key};
      }
    }
  }

  /** The Redis key of one client. */
  class RedisRateLimiter {
    const ttl: nat
    var entry: RedisEntry

    constructor (ttl: nat)
      ensures this.ttl == ttl && entry == Absent
    {
      this.ttl, entry := ttl, Absent;
    }

    method Request(maxRequestNum: nat, duration: int, now: int) returns (verdict: Verdict)
      modifies this
      ensures (entry, verdict) == RedisStep(old(entry), maxRequestNum, duration, ttl, now)
    {
      if entry.Present? && now >= entry.expires {
        entry := Absent;
      }
      var listLength := if entry.Present? then |entry.list| else 0;
      if listLength < maxRequestNum {
        LPush(now);
        Expire(now);
        assert [now] + [] == [now];
        return Granted;
      }
      if listLength == 0 {
        entry := Absent;
        return ServerError;
      }
      var oldTime := entry.list[listLength - 1];
      if TruncatedSeconds(now - oldTime) < duration {
        Expire(now);
        return TooMany;
      }
      LPush(now);
      LTrim(maxRequestNum);
      Expire(now);
      return Granted;
    }

    method LPush(value: int)
      modifies this
      ensures entry == (if old(entry).Present? then Present([value] + old(entry).list, old(entry).expires) else Present([value], 0))
    {
      entry := if entry.Present? then entry.(list := [value] + entry.list) else Present([value], 0);
    }

    method LTrim(length: nat)
      requires entry.Present? && length <= |entry.list|
      modifies this
      ensures entry == old(entry).(list := old(entry).list[..length])
    {
      entry := entry.(list := entry.list[..length]);
    }

    method Expire(now: int)
      requires entry.Present?
      modifies this
      ensures entry == old(entry).(expires := now + ttl)
    {
      entry := entry.(expires := now + ttl);
    }
  }
}
