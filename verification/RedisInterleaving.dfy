/**
 The Redis-list limiter with requests that overlap (middleware/rate-limit.go:38-79). A request is several
 commands, and other requests of the same client run between them: all of them may read the length, or the
 oldest grant, before any of them pushes; the key may expire before a request that has pushed renews it;
 and a push carries the time at which its request read the clock. The question is how many grants that
 lets through.

 The list is the newest part of everything ever pushed; trimming and expiry only move where it begins.
 */
module RedisInterleaving {
  import opened Options

  /** The duration and the time to live of the key are in milliseconds. */
  datatype Config = Config(max: nat, duration: nat, ttl: nat)

  /** A list element: the time it carries, and the time it was pushed, which no request sees. */
  datatype Grant = Grant(stamp: int, at: int)

  /** Where a request stands. Each constructor but Idle is what it does next. */
  datatype Stage =
    | Idle
    | Counting                 // LLEN
    | Stamping                 // reads the clock, the length was below the maximum
    | Adding(stamp: int)       // LPUSH
    | Peeking                  // LINDEX -1
    | Comparing(oldest: Grant) // the clock against the oldest grant
    | Restamping               // reads the clock, the oldest grant was past the duration
    | Appending(stamp: int)    // LPUSH
    | Trimming                 // LTRIM
    | Renewing(pushed: bool)   // EXPIRE, after a push or a refusal

  /** All grants ever pushed, oldest first; the list is what begins at `first`. One stage for each overlapping request. */
  datatype State = State(pushes: seq<Grant>, first: nat, deadline: Option<int>, stages: seq<Stage>, now: int)

  function Length(s: State): int {
    |s.pushes| - s.first
  }

  function Init(c: nat, now: int): State {
    State([], 0, None, seq(c, _ => Idle), now)
  }

  function NextStage(s: State, stage: Stage, config: Config): Stage {
    match stage
    case Idle => Counting
    case Counting => if Length(s) < config.max then Stamping else Peeking
    case Stamping => Adding(s.now)
    case Peeking => if s.first < |s.pushes| then Comparing(s.pushes[s.first]) else Idle
    case Comparing(oldest) => if s.now - oldest.stamp < config.duration then Renewing(false) else Restamping
    case Restamping => Appending(s.now)
    case Appending(_) => Trimming
    case Renewing(_) => Idle
    case _ => Renewing(true)
  }

  /** EXPIRE does nothing to a key that is gone. */
  function Effect(s: State, stage: Stage, config: Config): State {
    match stage
    case Adding(stamp) => s.(pushes := s.pushes + [Grant(stamp, s.now)])
    case Appending(stamp) => s.(pushes := s.pushes + [Grant(stamp, s.now)])
    case Trimming => s.(first := if Length(s) > config.max then |s.pushes| - config.max else s.first)
    case Renewing(_) => s.(deadline := if Length(s) > 0 then Some(s.now + config.ttl) else s.deadline)
    case _ => s
  }

  function Later(now: int, at: int): int {
    if at < now then now else at
  }

  /** The key has a time to live, and it has run out. */
  predicate Expires(s: State, at: int) {
    s.deadline.Some? && Later(s.now, at) >= s.deadline.value
  }

  /** The clock moves on; a time before the last one counts as the last one. */
  function Arrive(s: State, at: int): State {
    if Expires(s, at) then s.(first := |s.pushes|, deadline := None, now := Later(s.now, at)) else s.(now := Later(s.now, at))
  }

  function Command(s: State, i: nat, config: Config): State
    requires i < |s.stages|
  {
    Effect(s, s.stages[i], config).(stages := s.stages[i := NextStage(s, s.stages[i], config)])
  }

  /** One step of one request. */
  datatype Turn = Turn(request: nat, at: int)

  function Next(s: State, t: Turn, config: Config): State {
    if t.request >= |s.stages| then s else Command(Arrive(s, t.at), t.request, config)
  }

  function Run(s: State, turns: seq<Turn>, config: Config): State
    decreases |turns|
  {
    if turns == [] then s else Run(Next(s, turns[0], config), turns[1..], config)
  }

  /** The key never expires under a request. */
  predicate NeverExpires(s: State, turns: seq<Turn>, config: Config)
    decreases |turns|
  {
    turns == [] ||
    ((turns[0].request < |s.stages| ==> !Expires(s, turns[0].at)) && NeverExpires(Next(s, turns[0], config), turns[1..], config))
  }

  /** Whenever the key expires under a request, at most so many requests have pushed and not yet renewed it. */
  predicate LosesAtMost(s: State, turns: seq<Turn>, config: Config, slack: nat)
    decreases |turns|
  {
    turns == [] ||
    ((turns[0].request < |s.stages| && Expires(s, turns[0].at) ==> CountOf(s.stages, Due, 0) <= slack) &&
     LosesAtMost(Next(s, turns[0], config), turns[1..], config, slack))
  }

  /** Pushes in a half-open interval of time. */
  function Within(pushes: seq<Grant>, from: int, length: int): nat {
    if pushes == [] then 0
    else Within(pushes[..|pushes| - 1], from, length) + if from <= pushes[|pushes| - 1].at < from + length then 1 else 0
  }

  /** No push came more than delta after its request read the clock. */
  predicate Prompt(pushes: seq<Grant>, delta: nat) {
    forall i :: 0 <= i < |pushes| ==> pushes[i].at - pushes[i].stamp <= delta
  }

  // ----- Counting requests -----

  /**
   Requests that have found the list short and not yet pushed, requests that have pushed and not yet
   trimmed, requests that may still push in the window, requests that have pushed and not yet renewed the key.
   */
  datatype Kind = Short | Untrimmed | Pending | Due

  predicate Counts(kind: Kind, stage: Stage, from: int) {
    match kind
    case Short => stage.Stamping? || stage.Adding?
    case Untrimmed => stage.Trimming?
    case Pending => stage.Stamping? || stage.Adding? || stage.Restamping? || stage.Appending? || (stage.Comparing? && stage.oldest.at < from)
    case Due => stage.Trimming? || (stage.Renewing? && stage.pushed)
  }

  function One(b: bool): int {
    if b then 1 else 0
  }

  function CountOf(stages: seq<Stage>, kind: Kind, from: int): int {
    if stages == [] then 0 else One(Counts(kind, stages[0], from)) + CountOf(stages[1..], kind, from)
  }

  lemma {:induction false} CountAfter(stages: seq<Stage>, i: nat, stage: Stage, kind: Kind, from: int)
    requires i < |stages|
    ensures CountOf(stages[i := stage], kind, from)
         == CountOf(stages, kind, from) - One(Counts(kind, stages[i], from)) + One(Counts(kind, stage, from))
  {
    if i == 0 {
      assert stages[i := stage][1..] == stages[1..];
    } else {
      assert stages[i := stage][1..] == stages[1..][i - 1 := stage];
      CountAfter(stages[1..], i - 1, stage, kind, from);
    }
  }

  lemma {:induction false} CountsFit(stages: seq<Stage>, from: int)
    ensures 0 <= CountOf(stages, Short, from) <= CountOf(stages, Pending, from)
    ensures 0 <= CountOf(stages, Untrimmed, from) <= CountOf(stages, Due, from)
    ensures CountOf(stages, Pending, from) + CountOf(stages, Due, from) <= |stages|
  {
    if stages != [] {
      CountsFit(stages[1..], from);
    }
  }

  // ----- What every step keeps -----

  predicate Sorted(pushes: seq<Grant>, now: int) {
    && (forall i, j :: 0 <= i < j < |pushes| ==> pushes[i].at <= pushes[j].at)
    && (forall i :: 0 <= i < |pushes| ==> pushes[i].at <= now)
  }

  /** A key that is gone has no time to live. */
  predicate ListOk(s: State) {
    s.first <= |s.pushes| && Sorted(s.pushes, s.now) && (s.deadline.Some? ==> Length(s) > 0)
  }

  /** What requests compare with was pushed promptly. */
  predicate PeekedOk(s: State, delta: nat) {
    forall i :: 0 <= i < |s.stages| && s.stages[i].Comparing? ==> s.stages[i].oldest.at - s.stages[i].oldest.stamp <= delta
  }

  /** The list exceeds the maximum by no more than the requests that overlap. */
  predicate LengthOk(s: State, max: nat, from: int) {
    Length(s) + CountOf(s.stages, Short, from) - CountOf(s.stages, Untrimmed, from) <= max + |s.stages| - 1
  }

  /** A short list has lost no more of the window than the slack. */
  predicate RoomOk(s: State, max: nat, from: int, length: int, slack: nat) {
    s.now < from + length && Length(s) < max ==> Within(s.pushes, from, length) <= Length(s) + slack
  }

  /** A key that can expire within the window was renewed before it, so whoever pushed in it has yet to renew. */
  predicate DuesOk(s: State, from: int, length: int) {
    s.deadline.Some? && s.deadline.value < from + length ==> Within(s.pushes, from, length) <= CountOf(s.stages, Due, from)
  }

  /** With c overlapping requests, of whose pushes an expiring key may lose as many as the slack. */
  function Limit(max: nat, c: nat, slack: nat): int {
    max + c - 1 + if slack > c - 1 then slack else c - 1
  }

  /** In the window so far, with everything that may still be pushed in it. */
  predicate WindowOk(s: State, max: nat, from: int, length: int, slack: nat) {
    && Within(s.pushes, from, length) <= Limit(max, |s.stages|, slack)
    && (s.now < from + length ==>
          Within(s.pushes, from, length) + CountOf(s.stages, Pending, from) <= Limit(max, |s.stages|, slack))
  }

  ghost predicate Kept(s: State, config: Config, delta: nat, from: int, slack: nat) {
    var length := config.duration - delta;
    && ListOk(s) && PeekedOk(s, delta) && LengthOk(s, config.max, from)
    && RoomOk(s, config.max, from, length, slack) && DuesOk(s, from, length)
    && WindowOk(s, config.max, from, length, slack)
  }

  // ----- The results -----

  /**
   Every single step, of whichever request, keeps the window within the limit, as long as pushes are
   prompt and, should the key expire just then, the slack covers the requests that have yet to renew it.
   */
  lemma TurnKeepsWindow(s: State, t: Turn, config: Config, delta: nat, from: int, slack: nat)
    requires config.max >= 1 && config.ttl >= config.duration && Kept(s, config, delta, from, slack)
    requires Prompt(s.pushes, delta)
    requires t.request < |s.stages| && Expires(s, t.at) ==> CountOf(s.stages, Due, from) <= slack
    ensures Kept(Next(s, t, config), config, delta, from, slack)
  {
    if t.request < |s.stages| {
      ArriveKeeps(s, t.at, config, delta, from, slack);
      CommandKeeps(Arrive(s, t.at), t.request, config, delta, from, slack);
    }
  }

  /**
   However the commands of at most c overlapping requests interleave, and whenever the key expires, at most
   max + 2c - 1 grants are pushed in an interval of one duration, shortened by the longest time that passed
   between reading the clock and pushing.
   */
  lemma OverlapBound(c: nat, start: int, turns: seq<Turn>, config: Config, delta: nat, from: int)
    requires c >= 1 && config.max >= 1 && config.ttl >= config.duration
    requires Prompt(Run(Init(c, start), turns, config).pushes, delta)
    ensures Within(Run(Init(c, start), turns, config).pushes, from, config.duration - delta) <= config.max + 2 * c - 1
  {
    InitIsKept(c, start, config, delta, from, c);
    LosesNoMoreThanAll(Init(c, start), turns, config);
    RunKeepsWindow(Init(c, start), turns, config, delta, from, c);
    PushesGrow(Init(c, start), turns, config);
  }

  /**
   As long as the key never expires between a push and its renewal it is one less; requests one after the
   other then keep the limit.
   */
  lemma SteadyBound(c: nat, start: int, turns: seq<Turn>, config: Config, delta: nat, from: int)
    requires c >= 1 && config.max >= 1 && config.ttl >= config.duration
    requires LosesAtMost(Init(c, start), turns, config, 0) && Prompt(Run(Init(c, start), turns, config).pushes, delta)
    ensures Within(Run(Init(c, start), turns, config).pushes, from, config.duration - delta) <= config.max + 2 * (c - 1)
  {
    InitIsKept(c, start, config, delta, from, 0);
    RunKeepsWindow(Init(c, start), turns, config, delta, from, 0);
    PushesGrow(Init(c, start), turns, config);
  }

  /**
   With expiry the bound is reached for every duration above one millisecond. All requests find the oldest
   grant past and push just before the key expires; it expires before any of them renews it, and the list
   is gone. It is filled again to one short of the maximum, and all requests find it short and add.
   */
  lemma OverlapBoundIsReached(c: nat, config: Config) returns (turns: seq<Turn>)
    requires c >= 1 && config.max >= 1 && 2 <= config.duration <= config.ttl
    ensures Prompt(Run(Init(c, 0), turns, config).pushes, 0)
    ensures Within(Run(Init(c, 0), turns, config).pushes, config.ttl, config.duration) == config.max + 2 * c - 1
  {
    var lost := Early(config.max) + Repeat(Exact(config.ttl), c);
    turns := FillEarly(c, config.max, config);
    turns := AllAppend(c, turns, config.max, config.ttl, config);
    turns := KeyExpires(c, turns, lost, config);
    turns := Fill(Init(c, 0), turns, State(lost, |lost|, None, [], config.ttl + 1), c, config.max - 1, config);
    turns := AllAddLate(c, turns, lost, config);
    LateWithin(c, lost, config);
  }

  /**
   With nothing lost the bound is reached for every number of requests, maximum and duration. With the list one
   short of the maximum all requests find it short and add; when the first grant has passed the duration,
   all of them find it past and push again. All these grants but the first fall in one duration.
   */
  lemma SteadyBoundIsReached(c: nat, config: Config) returns (turns: seq<Turn>)
    requires c >= 1 && config.max >= 1 && 1 <= config.duration <= config.ttl
    ensures LosesAtMost(Init(c, 0), turns, config, 0) && Prompt(Run(Init(c, 0), turns, config).pushes, 0)
    ensures Within(Run(Init(c, 0), turns, config).pushes, 1, config.duration) == config.max + 2 * (c - 1)
  {
    var n, d := config.max - 1 + c, config.duration;
    turns := AllAdd(c, config);
    turns := AllAppend(c, turns, n, d, config);
    NothingToLose(Init(c, 0), turns, config);
    WithinOneMore([], Exact(0), 1, d);
    assert [] + [Exact(0)] == [Exact(0)];
    RepeatWithin([Exact(0)], Exact(1), n - 1, 1, d);
    RepeatWithin(Early(n), Exact(d), c, 1, d);
  }

  // ----- Single steps -----

  lemma {:induction false} WithinAtMost(pushes: seq<Grant>, from: int, length: int, first: nat)
    requires first <= |pushes| && forall i :: 0 <= i < first ==> pushes[i].at < from
    ensures Within(pushes, from, length) <= |pushes| - first
  {
    if first < |pushes| {
      WithinAtMost(pushes[..|pushes| - 1], from, length, first);
    } else if pushes != [] {
      WithinAtMost(pushes[..|pushes| - 1], from, length, first - 1);
    }
  }

  lemma WithinOneMore(pushes: seq<Grant>, g: Grant, from: int, length: int)
    ensures Within(pushes + [g], from, length) == Within(pushes, from, length) + if from <= g.at < from + length then 1 else 0
  {
    assert (pushes + [g])[..|pushes|] == pushes;
  }

  /** Who has yet to renew does not depend on the window. */
  lemma {:induction false} DueAnywhere(stages: seq<Stage>, from: int, from': int)
    ensures CountOf(stages, Due, from) == CountOf(stages, Due, from')
  {
    if stages != [] {
      DueAnywhere(stages[1..], from, from');
    }
  }

  /** Time passes, and the key may expire; then the slack must cover the requests that have yet to renew it. */
  lemma ArriveKeeps(s: State, at: int, config: Config, delta: nat, from: int, slack: nat)
    requires config.max >= 1 && Kept(s, config, delta, from, slack)
    requires Expires(s, at) ==> CountOf(s.stages, Due, from) <= slack
    ensures Kept(Arrive(s, at), config, delta, from, slack)
  {
    CountsFit(s.stages, from);
  }

  predicate Pushing(stage: Stage) {
    stage.Adding? || stage.Appending?
  }

  lemma CommandKeepsList(s: State, i: nat, config: Config, delta: nat)
    requires i < |s.stages| && config.max >= 1 && ListOk(s) && PeekedOk(s, delta) && Prompt(s.pushes, delta)
    ensures ListOk(Command(s, i, config)) && PeekedOk(Command(s, i, config), delta)
  {
  }

  lemma CommandKeepsLength(s: State, i: nat, config: Config, from: int)
    requires i < |s.stages| && config.max >= 1 && LengthOk(s, config.max, from)
    ensures LengthOk(Command(s, i, config), config.max, from)
  {
    var next := NextStage(s, s.stages[i], config);
    CountAfter(s.stages, i, next, Short, from);
    CountAfter(s.stages, i, next, Untrimmed, from);
    CountsFit(s.stages, from);
    CountsFit(s.stages[i := next], from);
  }

  lemma CommandKeepsRoom(s: State, i: nat, config: Config, from: int, length: int, slack: nat)
    requires i < |s.stages| && RoomOk(s, config.max, from, length, slack)
    ensures RoomOk(Command(s, i, config), config.max, from, length, slack)
  {
  }

  lemma CommandKeepsDues(s: State, i: nat, config: Config, from: int, length: int)
    requires i < |s.stages| && ListOk(s) && DuesOk(s, from, length) && config.ttl >= length
    ensures DuesOk(Command(s, i, config), from, length)
  {
    var next := NextStage(s, s.stages[i], config);
    CountAfter(s.stages, i, next, Due, from);
    CountsFit(s.stages[i := next], from);
    if s.stages[i].Renewing? && s.now < from {
      WithinAtMost(s.pushes, from, length, |s.pushes|);
    }
  }

  /** Who starts to be a possible push in the window finds room in it: a short list, or an oldest grant from before it. */
  lemma NewPending(s: State, i: nat, config: Config, from: int, length: int, slack: nat)
    requires i < |s.stages| && config.max >= 1 && s.now < from + length
    requires ListOk(s) && LengthOk(s, config.max, from) && RoomOk(s, config.max, from, length, slack)
    requires Counts(Pending, NextStage(s, s.stages[i], config), from)
    requires s.stages[i].Counting? || s.stages[i].Peeking?
    ensures Within(s.pushes, from, length) + CountOf(s.stages[i := NextStage(s, s.stages[i], config)], Pending, from)
         <= Limit(config.max, |s.stages|, slack)
  {
    var next := NextStage(s, s.stages[i], config);
    CountsFit(s.stages[i := next], from);
    if next.Comparing? {
      CountAfter(s.stages, i, next, Untrimmed, from);
      CountsFit(s.stages, from);
      WithinAtMost(s.pushes, from, length, s.first + 1);
    }
  }

  lemma CommandKeepsWindow(s: State, i: nat, config: Config, delta: nat, from: int, slack: nat)
    requires i < |s.stages| && config.max >= 1 && Kept(s, config, delta, from, slack)
    ensures WindowOk(Command(s, i, config), config.max, from, config.duration - delta, slack)
  {
    var length, stage, next := config.duration - delta, s.stages[i], NextStage(s, s.stages[i], config);
    CountAfter(s.stages, i, next, Pending, from);
    CountsFit(s.stages[i := next], from);
    if s.now < from + length && (stage.Counting? || stage.Peeking?) && Counts(Pending, next, from) {
      NewPending(s, i, config, from, length, slack);
    }
  }

  lemma CommandKeeps(s: State, i: nat, config: Config, delta: nat, from: int, slack: nat)
    requires i < |s.stages| && config.max >= 1 && config.ttl >= config.duration
    requires Kept(s, config, delta, from, slack) && Prompt(s.pushes, delta)
    ensures Kept(Command(s, i, config), config, delta, from, slack)
  {
    var length := config.duration - delta;
    CommandKeepsList(s, i, config, delta);
    CommandKeepsLength(s, i, config, from);
    CommandKeepsRoom(s, i, config, from, length, slack);
    CommandKeepsDues(s, i, config, from, length);
    CommandKeepsWindow(s, i, config, delta, from, slack);
  }

  // ----- Over whole runs -----

  lemma {:induction false} PushesGrow(s: State, turns: seq<Turn>, config: Config)
    ensures s.pushes <= Run(s, turns, config).pushes && |Run(s, turns, config).stages| == |s.stages|
    decreases |turns|
  {
    if turns != [] {
      PushesGrow(Next(s, turns[0], config), turns[1..], config);
    }
  }

  lemma {:induction false} RunKeepsWindow(s: State, turns: seq<Turn>, config: Config, delta: nat, from: int, slack: nat)
    requires config.max >= 1 && config.ttl >= config.duration && Kept(s, config, delta, from, slack)
    requires Prompt(Run(s, turns, config).pushes, delta)
    requires LosesAtMost(s, turns, config, slack)
    ensures WindowOk(Run(s, turns, config), config.max, from, config.duration - delta, slack)
    decreases |turns|
  {
    if turns != [] {
      PushesGrow(s, turns, config);
      DueAnywhere(s.stages, 0, from);
      TurnKeepsWindow(s, turns[0], config, delta, from, slack);
      RunKeepsWindow(Next(s, turns[0], config), turns[1..], config, delta, from, slack);
    }
  }

  lemma {:induction false} IdleCountsNothing(stages: seq<Stage>, kind: Kind, from: int)
    requires forall i :: 0 <= i < |stages| ==> stages[i] == Idle
    ensures CountOf(stages, kind, from) == 0
  {
    if stages != [] {
      IdleCountsNothing(stages[1..], kind, from);
    }
  }

  lemma InitIsKept(c: nat, start: int, config: Config, delta: nat, from: int, slack: nat)
    requires c >= 1
    ensures Kept(Init(c, start), config, delta, from, slack)
  {
    IdleCountsNothing(Init(c, start).stages, Short, from);
    IdleCountsNothing(Init(c, start).stages, Untrimmed, from);
    IdleCountsNothing(Init(c, start).stages, Pending, from);
  }

  lemma {:induction false} LosesNoMoreThanAll(s: State, turns: seq<Turn>, config: Config)
    ensures LosesAtMost(s, turns, config, |s.stages|)
    decreases |turns|
  {
    if turns != [] {
      CountsFit(s.stages, 0);
      LosesNoMoreThanAll(Next(s, turns[0], config), turns[1..], config);
    }
  }

  lemma {:induction false} NothingToLose(s: State, turns: seq<Turn>, config: Config)
    requires NeverExpires(s, turns, config)
    ensures LosesAtMost(s, turns, config, 0)
    decreases |turns|
  {
    if turns != [] {
      NothingToLose(Next(s, turns[0], config), turns[1..], config);
    }
  }

  // ----- Schedules that reach the bounds -----

  lemma {:induction false} RunConcat(s: State, x: seq<Turn>, y: seq<Turn>, config: Config)
    ensures Run(s, x + y, config) == Run(Run(s, x, config), y, config)
    ensures NeverExpires(s, x + y, config) <==> NeverExpires(s, x, config) && NeverExpires(Run(s, x, config), y, config)
    decreases |x|
  {
    if x == [] {
      assert x + y == y;
    } else {
      assert (x + y)[1..] == x[1..] + y;
      RunConcat(Next(s, x[0], config), x[1..], y, config);
    }
  }

  /** The requests from lo up to hi issue one command each, at the same time. */
  function Sweep(lo: nat, hi: nat, at: int): (r: seq<Turn>)
    ensures |r| == if lo < hi then hi - lo else 0
    ensures forall i :: 0 <= i < |r| ==> r[i] == Turn(lo + i, at)
    decreases hi - lo
  {
    if lo >= hi then [] else [Turn(lo, at)] + Sweep(lo + 1, hi, at)
  }

  function Repeat(g: Grant, n: nat): (r: seq<Grant>)
    ensures |r| == n && forall i :: 0 <= i < n ==> r[i] == g
  {
    if n == 0 then [] else [g] + Repeat(g, n - 1)
  }

  function Grown(pushes: seq<Grant>, stage: Stage, at: int, n: nat): seq<Grant> {
    if Pushing(stage) then pushes + Repeat(Grant(stage.stamp, at), n) else pushes
  }

  function RenewedTo(s: State, stage: Stage, n: nat, config: Config): Option<int> {
    if n > 0 && stage.Renewing? && Length(s) > 0 then Some(s.now + config.ttl) else s.deadline
  }

  predicate Alive(s: State) {
    s.deadline.Some? ==> s.now < s.deadline.value
  }

  /** The requests from lo up to hi have moved from one stage to another, with what they did. */
  predicate Swept(s: State, s': State, lo: nat, hi: nat, stage: Stage, next: Stage, config: Config)
    requires lo <= hi
  {
    && s'.first == s.first && s'.pushes == Grown(s.pushes, stage, s.now, hi - lo)
    && s'.deadline == RenewedTo(s, stage, hi - lo, config) && s'.now == s.now
    && |s'.stages| == |s.stages|
    && forall i :: 0 <= i < |s.stages| ==> s'.stages[i] == if lo <= i < hi then next else s.stages[i]
  }

  lemma OneMoves(s: State, k: nat, stage: Stage, next: Stage, config: Config)
    requires k < |s.stages| && s.stages[k] == stage && Alive(s) && config.ttl >= 1
    requires stage.Trimming? ==> Length(s) <= config.max
    requires next == NextStage(s, stage, config)
    ensures var s' := Next(s, Turn(k, s.now), config);
            Swept(s, s', k, k + 1, stage, next, config) && Alive(s') && next == NextStage(s', stage, config)
            && (stage.Trimming? ==> Length(s') <= config.max)
  {
    assert Arrive(s, s.now) == s;
    if Pushing(stage) {
      assert Repeat(Grant(stage.stamp, s.now), 1) == [Grant(stage.stamp, s.now)];
    }
  }

  lemma SweptFurther(s: State, s1: State, s': State, lo: nat, hi: nat, stage: Stage, next: Stage, config: Config)
    requires lo < hi <= |s.stages|
    requires Swept(s, s1, lo, lo + 1, stage, next, config) && Swept(s1, s', lo + 1, hi, stage, next, config)
    ensures Swept(s, s', lo, hi, stage, next, config)
  {
    if Pushing(stage) {
      var g := Grant(stage.stamp, s.now);
      assert (s.pushes + Repeat(g, 1)) + Repeat(g, hi - lo - 1) == s.pushes + Repeat(g, hi - lo);
    }
  }

  /** Requests at the same stage all do the same; the pushes come one after the other. */
  lemma {:induction false} SweepMoves(s: State, lo: nat, hi: nat, stage: Stage, next: Stage, config: Config)
    requires lo <= hi <= |s.stages| && Alive(s) && config.ttl >= 1
    requires forall i :: lo <= i < hi ==> s.stages[i] == stage
    requires stage.Trimming? ==> Length(s) <= config.max
    requires next == NextStage(s, stage, config)
    ensures Swept(s, Run(s, Sweep(lo, hi, s.now), config), lo, hi, stage, next, config)
    ensures NeverExpires(s, Sweep(lo, hi, s.now), config)
    decreases hi - lo
  {
    if lo < hi {
      var s1 := Next(s, Turn(lo, s.now), config);
      OneMoves(s, lo, stage, next, config);
      assert Sweep(lo, hi, s.now)[1..] == Sweep(lo + 1, hi, s.now);
      SweepMoves(s1, lo + 1, hi, stage, next, config);
      SweptFurther(s, s1, Run(s1, Sweep(lo + 1, hi, s.now), config), lo, hi, stage, next, config);
    }
  }

  /** All of n requests at one stage. */
  function Uniform(s: State, stage: Stage, n: nat): State {
    s.(stages := seq(n, _ => stage))
  }

  function After(s: State, stage: Stage, n: nat, config: Config): State {
    s.(pushes := Grown(s.pushes, stage, s.now, n), deadline := RenewedTo(s, stage, n, config))
  }

  lemma UniformMoves(s: State, stage: Stage, n: nat, config: Config)
    requires Alive(s) && config.ttl >= 1 && (stage.Trimming? ==> Length(s) <= config.max)
    ensures var u, sweep := Uniform(s, stage, n), Sweep(0, n, s.now);
            Run(u, sweep, config) == Uniform(After(s, stage, n, config), NextStage(s, stage, config), n) && NeverExpires(u, sweep, config)
  {
    var u, next := Uniform(s, stage, n), NextStage(s, stage, config);
    SweepMoves(u, 0, n, stage, next, config);
    assert Run(u, Sweep(0, n, s.now), config).stages == Uniform(s, next, n).stages;
  }

  /** After some turns all requests do what is next for them, at the same time. */
  lemma AllMove(s0: State, turns: seq<Turn>, s: State, stage: Stage, n: nat, at: int, config: Config) returns (turns': seq<Turn>)
    requires Run(s0, turns, config) == Uniform(s, stage, n) && n >= 1 && config.ttl >= 1
    requires stage.Trimming? ==> Length(Arrive(s, at)) <= config.max
    ensures
      var a := Arrive(s, at);
      Run(s0, turns', config) == Uniform(After(a, stage, n, config), NextStage(a, stage, config), n)
    ensures NeverExpires(s0, turns, config) && !Expires(s, at) ==> NeverExpires(s0, turns', config)
  {
    var a := Arrive(s, at);
    var sweep := Sweep(0, n, a.now);
    turns' := turns + sweep;
    RunConcat(s0, turns, sweep, config);
    AllArrive(s, stage, n, at, config);
    UniformMoves(a, stage, n, config);
  }

  lemma AllArrive(s: State, stage: Stage, n: nat, at: int, config: Config)
    requires n >= 1
    ensures var u, a := Uniform(s, stage, n), Arrive(s, at);
            var sweep := Sweep(0, n, a.now);
            && Run(u, sweep, config) == Run(Uniform(a, stage, n), sweep, config)
            && (!Expires(s, at) && NeverExpires(Uniform(a, stage, n), sweep, config) ==> NeverExpires(u, sweep, config))
  {
    var u, a := Uniform(s, stage, n), Arrive(s, at);
    assert Arrive(u, a.now) == Uniform(a, stage, n) && (Expires(u, a.now) <==> Expires(s, at));
  }

  /** A grant that carries the time of its push. */
  function Exact(at: int): Grant {
    Grant(at, at)
  }

  /** One request adds, alone, and renews the key at a later time. */
  lemma OneAdds(s: State, at: int, config: Config) returns (turns: seq<Turn>)
    requires s.stages != [] && s.stages[0] == Idle && Alive(s) && 0 <= Length(s) < config.max && config.ttl >= 1
    requires s.now <= at && !Expires(s, at)
    ensures Run(s, turns, config) == s.(pushes := s.pushes + [Exact(s.now)], deadline := Some(at + config.ttl), now := at)
    ensures NeverExpires(s, turns, config)
  {
    var t, renew := Turn(0, s.now), Turn(0, at);
    var s1 := Next(s, t, config);
    var s2 := Next(s1, t, config);
    var s3 := Next(s2, t, config);
    var s4 := Next(s3, t, config);
    assert s1 == s.(stages := s.stages[0 := Counting]);
    assert s2 == s.(stages := s.stages[0 := Stamping]);
    assert s3 == s.(stages := s.stages[0 := Adding(s.now)]);
    assert s4 == s.(stages := s.stages[0 := Renewing(true)], pushes := s.pushes + [Exact(s.now)]);
    turns := [t] + ([t] + ([t] + ([t] + [renew])));
    OneMore(s4, renew, [], config);
    OneMore(s3, t, [renew], config);
    OneMore(s2, t, [t] + [renew], config);
    OneMore(s1, t, [t] + ([t] + [renew]), config);
    OneMore(s, t, [t] + ([t] + ([t] + [renew])), config);
    assert [renew] + [] == [renew];
    assert s.stages[0 := Renewing(true)][0 := Idle] == s.stages;
  }

  lemma OneMore(s: State, t: Turn, rest: seq<Turn>, config: Config)
    ensures Run(s, [t] + rest, config) == Run(Next(s, t, config), rest, config)
    ensures NeverExpires(s, [t] + rest, config) <==>
            (t.request < |s.stages| ==> !Expires(s, t.at)) && NeverExpires(Next(s, t, config), rest, config)
  {
    assert ([t] + rest)[1..] == rest;
  }

  /** Several grants, one request adding them one after the other. */
  lemma {:induction false} Fill(s0: State, turns: seq<Turn>, s: State, c: nat, k: nat, config: Config) returns (turns': seq<Turn>)
    requires Run(s0, turns, config) == Uniform(s, Idle, c) && c >= 1 && config.ttl >= 1
    requires Alive(s) && 0 <= Length(s) && Length(s) + k <= config.max
    ensures
      var deadline := if k > 0 then Some(s.now + config.ttl) else s.deadline;
      Run(s0, turns', config) == Uniform(s.(pushes := s.pushes + Repeat(Exact(s.now), k), deadline := deadline), Idle, c)
    ensures NeverExpires(s0, turns, config) ==> NeverExpires(s0, turns', config)
    decreases k
  {
    if k == 0 {
      turns' := turns;
      assert s.pushes + Repeat(Exact(s.now), 0) == s.pushes;
    } else {
      var add := OneAdds(Uniform(s, Idle, c), s.now, config);
      RunConcat(s0, turns, add, config);
      var s1 := s.(pushes := s.pushes + [Exact(s.now)], deadline := Some(s.now + config.ttl));
      turns' := Fill(s0, turns + add, s1, c, k - 1, config);
      assert s1.pushes + Repeat(Exact(s.now), k - 1) == s.pushes + Repeat(Exact(s.now), k);
    }
  }

  /** The first grants of the schedules: one at 0, the others at 1. */
  function Early(n: nat): (r: seq<Grant>)
    ensures |r| == n && forall i :: 0 <= i < n ==> r[i] == if i == 0 then Exact(0) else Exact(1)
  {
    if n == 0 then [] else [Exact(0)] + Repeat(Exact(1), n - 1)
  }

  lemma EarlyGrows(n: nat, k: nat)
    ensures Early(0) + [Exact(0)] == Early(1)
    ensures n >= 1 ==> Early(n) + [Exact(1)] == Early(n + 1) && Early(n) + Repeat(Exact(1), k) == Early(n + k)
  {
  }

  /** The state after them; the stages are given separately. */
  function Started(n: nat, config: Config): State {
    if n == 0 then State([], 0, None, [], 0) else State(Early(n), 0, Some(1 + config.ttl), [], 1)
  }

  lemma FillEarly(c: nat, n: nat, config: Config) returns (turns: seq<Turn>)
    requires c >= 1 && config.ttl >= 1 && n <= config.max
    ensures Run(Init(c, 0), turns, config) == Uniform(Started(n, config), Idle, c) && NeverExpires(Init(c, 0), turns, config)
  {
    if n == 0 {
      turns := [];
    } else {
      turns := FirstEarly(c, config);
      turns := Fill(Init(c, 0), turns, Started(1, config), c, n - 1, config);
      EarlyGrows(1, n - 1);
    }
  }

  lemma FirstEarly(c: nat, config: Config) returns (turns: seq<Turn>)
    requires c >= 1 && config.ttl >= 1 && config.max >= 1
    ensures Run(Init(c, 0), turns, config) == Uniform(Started(1, config), Idle, c) && NeverExpires(Init(c, 0), turns, config)
  {
    turns := OneAdds(Init(c, 0), 1, config);
    EarlyGrows(0, 0);
  }

  /** The first of n requests is idle, the others are at one stage. */
  function Rest(s: State, stage: Stage, n: nat): State
    requires n >= 1
  {
    s.(stages := [Idle] + seq(n - 1, _ => stage))
  }

  lemma RestMove(s0: State, turns: seq<Turn>, s: State, stage: Stage, n: nat, config: Config) returns (turns': seq<Turn>)
    requires n >= 1 && Run(s0, turns, config) == Rest(s, stage, n) && Alive(s) && config.ttl >= 1 && !stage.Trimming?
    ensures Run(s0, turns', config) == Rest(After(s, stage, n - 1, config), NextStage(s, stage, config), n)
    ensures NeverExpires(s0, turns, config) ==> NeverExpires(s0, turns', config)
  {
    turns' := turns + Sweep(1, n, s.now);
    RunConcat(s0, turns, Sweep(1, n, s.now), config);
    RestSwept(s, stage, n, config);
  }

  lemma RestSwept(s: State, stage: Stage, n: nat, config: Config)
    requires n >= 1 && Alive(s) && config.ttl >= 1 && !stage.Trimming?
    ensures var u, sweep := Rest(s, stage, n), Sweep(1, n, s.now);
            Run(u, sweep, config) == Rest(After(s, stage, n - 1, config), NextStage(s, stage, config), n) && NeverExpires(u, sweep, config)
  {
    var u, next := Rest(s, stage, n), NextStage(s, stage, config);
    SweepMoves(u, 1, n, stage, next, config);
    assert Run(u, Sweep(1, n, s.now), config).stages == Rest(s, next, n).stages;
  }

  /** With the list one short of the maximum, all requests find it short and add. */
  lemma AllAdd(c: nat, config: Config) returns (turns: seq<Turn>)
    requires c >= 1 && config.max >= 1 && config.ttl >= 1
    ensures Run(Init(c, 0), turns, config) == Uniform(Started(config.max - 1 + c, config), Idle, c)
    ensures NeverExpires(Init(c, 0), turns, config)
  {
    turns := FillEarly(c, config.max - 1, config);
    turns := OthersCount(c, turns, config);
    var add := FirstAdds(c, config);
    RunConcat(Init(c, 0), turns, add, config);
    turns := OthersAdd(Init(c, 0), turns + add, c, config);
  }

  lemma OthersCount(c: nat, turns: seq<Turn>, config: Config) returns (turns': seq<Turn>)
    requires c >= 1 && config.max >= 1 && config.ttl >= 1
    requires Run(Init(c, 0), turns, config) == Uniform(Started(config.max - 1, config), Idle, c) && NeverExpires(Init(c, 0), turns, config)
    ensures Run(Init(c, 0), turns', config) == Rest(Started(config.max - 1, config), Stamping, c)
    ensures NeverExpires(Init(c, 0), turns', config)
  {
    var s0, s := Init(c, 0), Started(config.max - 1, config);
    assert Uniform(s, Idle, c) == Rest(s, Idle, c);
    turns' := RestMove(s0, turns, s, Idle, c, config);
    turns' := RestMove(s0, turns', s, Counting, c, config);
  }

  lemma FirstAdds(c: nat, config: Config) returns (add: seq<Turn>)
    requires c >= 1 && config.max >= 1 && config.ttl >= 1
    ensures
      var s := Rest(Started(config.max - 1, config), Stamping, c);
      Run(s, add, config) == Rest(Started(config.max, config), Stamping, c) && NeverExpires(s, add, config)
  {
    var s := Started(config.max - 1, config);
    add := OneAdds(Rest(s, Stamping, c), 1, config);
    EarlyGrows(config.max - 1, 0);
  }

  lemma OthersAdd(s0: State, turns: seq<Turn>, c: nat, config: Config) returns (turns': seq<Turn>)
    requires c >= 1 && config.max >= 1 && config.ttl >= 1
    requires Run(s0, turns, config) == Rest(Started(config.max, config), Stamping, c) && NeverExpires(s0, turns, config)
    ensures Run(s0, turns', config) == Uniform(Started(config.max - 1 + c, config), Idle, c)
    ensures NeverExpires(s0, turns', config)
  {
    var s, s' := Started(config.max, config), Started(config.max - 1 + c, config);
    turns' := RestMove(s0, turns, s, Stamping, c, config);
    turns' := RestMove(s0, turns', s, Adding(1), c, config);
    OthersAdded(c, s, s', config);
    turns' := RestMove(s0, turns', s', Renewing(true), c, config);
    assert Rest(s', Idle, c) == Uniform(s', Idle, c);
  }

  /** What the other requests add to the state, and that renewing at the same time adds nothing more. */
  lemma OthersAdded(c: nat, s: State, s': State, config: Config)
    requires c >= 1 && config.max >= 1 && config.ttl >= 1 && s == Started(config.max, config) && s' == Started(config.max - 1 + c, config)
    ensures After(s, Adding(1), c - 1, config) == s' && After(s', Renewing(true), c - 1, config) == s'
    ensures Alive(s')
  {
    EarlyGrows(config.max, c - 1);
  }

  lemma {:induction false} RepeatWithin(pushes: seq<Grant>, g: Grant, k: nat, from: int, length: int)
    requires from <= g.at < from + length
    ensures Within(pushes + Repeat(g, k), from, length) == Within(pushes, from, length) + k
    decreases k
  {
    if k == 0 {
      assert pushes + [] == pushes;
    } else {
      assert pushes + Repeat(g, k) == (pushes + [g]) + Repeat(g, k - 1);
      RepeatWithin(pushes + [g], g, k - 1, from, length);
      WithinOneMore(pushes, g, from, length);
    }
  }

  /** With a full list, and the oldest grant past the duration at some time, all requests find it past and push then. */
  lemma AllAppend(c: nat, turns: seq<Turn>, n: nat, at: int, config: Config) returns (turns': seq<Turn>)
    requires c >= 1 && config.max >= 1 && n >= config.max && 1 <= config.duration <= at <= config.ttl
    requires Run(Init(c, 0), turns, config) == Uniform(Started(n, config), Idle, c) && NeverExpires(Init(c, 0), turns, config)
    ensures Run(Init(c, 0), turns', config)
         == Uniform(Started(n, config).(pushes := Early(n) + Repeat(Exact(at), c), now := at), Trimming, c)
    ensures NeverExpires(Init(c, 0), turns', config)
  {
    var s0, s := Init(c, 0), Started(n, config);
    turns' := AllMove(s0, turns, s, Idle, c, 1, config);
    turns' := AllMove(s0, turns', s, Counting, c, 1, config);
    turns' := AllMove(s0, turns', s, Peeking, c, 1, config);
    turns' := AllMove(s0, turns', s, Comparing(Exact(0)), c, at, config);
    turns' := AllMove(s0, turns', s.(now := at), Restamping, c, at, config);
    turns' := AllMove(s0, turns', s.(now := at), Appending(at), c, at, config);
  }

  /** A millisecond later nothing is left to trim and nothing to renew. */
  lemma KeyExpires(c: nat, turns: seq<Turn>, lost: seq<Grant>, config: Config) returns (turns': seq<Turn>)
    requires c >= 1 && config.max >= 1 && config.ttl >= 1
    requires Run(Init(c, 0), turns, config)
          == Uniform(Started(config.max, config).(pushes := lost, now := config.ttl), Trimming, c)
    ensures Run(Init(c, 0), turns', config) == Uniform(State(lost, |lost|, None, [], config.ttl + 1), Idle, c)
  {
    var s0, t: int, s := Init(c, 0), config.ttl, Started(config.max, config).(pushes := lost, now := config.ttl);
    assert Expires(s, t + 1);
    turns' := AllMove(s0, turns, s, Trimming, c, t + 1, config);
    turns' := AllMove(s0, turns', State(lost, |lost|, None, [], t + 1), Renewing(true), c, t + 1, config);
  }

  lemma LateWithin(c: nat, lost: seq<Grant>, config: Config)
    requires config.max >= 1 && config.ttl >= config.duration >= 2 && lost == Early(config.max) + Repeat(Exact(config.ttl), c)
    ensures Within((lost + Repeat(Exact(config.ttl + 1), config.max - 1)) + Repeat(Exact(config.ttl + 1), c), config.ttl, config.duration)
         == config.max + 2 * c - 1
  {
    var t: int := config.ttl;
    EarlyIsBefore(config.max, t, config.duration);
    RepeatWithin(Early(config.max), Exact(t), c, t, config.duration);
    RepeatWithin(lost, Exact(t + 1), config.max - 1, t, config.duration);
    RepeatWithin(lost + Repeat(Exact(t + 1), config.max - 1), Exact(t + 1), c, t, config.duration);
  }

  lemma AllAddLate(c: nat, turns: seq<Turn>, lost: seq<Grant>, config: Config) returns (turns': seq<Turn>)
    requires c >= 1 && config.max >= 1 && config.ttl >= 1
    requires
      var s := State(lost + Repeat(Exact(config.ttl + 1), config.max - 1), |lost|,
                     if config.max > 1 then Some(config.ttl + 1 + config.ttl) else None, [], config.ttl + 1);
      Run(Init(c, 0), turns, config) == Uniform(s, Idle, c)
    ensures Run(Init(c, 0), turns', config).pushes
         == (lost + Repeat(Exact(config.ttl + 1), config.max - 1)) + Repeat(Exact(config.ttl + 1), c)
  {
    var s0, t := Init(c, 0), config.ttl + 1;
    var s := State(lost + Repeat(Exact(t), config.max - 1), |lost|, if config.max > 1 then Some(t + config.ttl) else None, [], t);
    turns' := AllMove(s0, turns, s, Idle, c, t, config);
    turns' := AllMove(s0, turns', s, Counting, c, t, config);
    turns' := AllMove(s0, turns', s, Stamping, c, t, config);
    turns' := AllMove(s0, turns', s, Adding(t), c, t, config);
  }

  lemma EarlyIsBefore(n: nat, from: int, length: int)
    requires from >= 2
    ensures Within(Early(n), from, length) == 0
  {
    WithinAtMost(Early(n), from, length, n);
  }
}
