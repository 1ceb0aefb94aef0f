/**
 One relayed request and its retries (relay/main.go, relay/common.go): pick a channel from the primary
 group, else from the backup group; send; on a retryable error put the channel on the skip list and
 try again.

 Between two attempts anything may happen to the shared chooser. What an attempt meets there, the
 clock, the random numbers and the upstream's answer are given by a World for each attempt.
 */
module Relay {
  import opened Options
  import opened Text
  import opened ChannelIndex
  import opened Balancer

  datatype ApiError = ApiError(status: int, localError: bool, retryableBadRequest: bool)

  /** RelayHandler's answer: success, or an error and whether the request is finished regardless. */
  datatype Outcome = Sent | Failed(error: ApiError, done: bool)

  datatype World = World(
    chooser: Chooser,
    now: int,
    random: nat,
    ratioKnown: bool,   // the backup group has a price ratio
    providerOk: bool,   // the provider of the chosen channel can be set up
    late: bool,         // the retry timeout has passed
    outcome: Outcome,
    newModel: string,   // the model name the channel maps the request to
    failedAt: int       // the clock when a failure is handled
  )

  type Worlds = nat -> World

  /** The request context: token groups, model, fixed filters, and a channel pinned by an administrator. */
  datatype Request = Request(
    primary: string,
    backup: string,
    model: string,
    filters: seq<Filter>,
    pinned: Option<Channel>,
    retryTimes: int,
    cooldownSeconds: int
  )

  /** What attempts leave behind in the context: the skip list and the group whose ratio is charged. */
  datatype Context = Context(skip: seq<int>, ratioGroup: string)

  /** One call of RelayHandler: the channel, the group it was taken from, the group whose ratio is charged. */
  datatype Attempt = Attempt(channel: Channel, group: string, charged: string)

  /** shouldRetry. */
  function ShouldRetry(req: Request, e: ApiError): bool {
    if e.localError || req.pinned.Some? then false
    else if e.status == 429 || e.status == 307 then true
    else if e.status == 408 || e.status == 504 || e.status == 524 then false
    else if e.status == 400 then e.retryableBadRequest
    else if e.status / 100 == 5 then true
    else if e.status / 100 == 2 then false
    else true
  }

  predicate Retryable(req: Request, outcome: Outcome) {
    outcome.Failed? && !outcome.done && ShouldRetry(req, outcome.error)
  }

  function QueryOf(req: Request, skip: seq<int>, now: int): Query {
    Query(req.model, req.filters + [SkipIds(skip)], now)
  }

  /** What Next answers for a group of the request. */
  function Ask(req: Request, skip: seq<int>, w: World, group: string): NextResult
    requires PositiveWeights(w.chooser)
  {
    if group == "" then GroupNotFound else Next(w.chooser, group, QueryOf(req, skip, w.now), w.random)
  }

  /**
   TryWithGroups on the answers for the primary and the backup group: the channel and its group, or
   none. The ratio of the backup group, once set, is never set back.
   */
  function Choose(req: Request, ctx: Context, ratioKnown: bool, first: NextResult, second: NextResult): (Option<Attempt>, Context) {
    if first.Found? then (Some(Attempt(first.channel, req.primary, ctx.ratioGroup)), ctx)
    else if req.backup == "" || req.backup == req.primary || !second.Found? || !ratioKnown then (None, ctx)
    else (Some(Attempt(second.channel, req.backup, req.backup)), ctx.(ratioGroup := req.backup))
  }

  /** fetchChannel and GetProvider. */
  function Fetch(req: Request, ctx: Context, w: World): (Option<Attempt>, Context)
    requires PositiveWeights(w.chooser)
  {
    var (chosen, ctx') :=
      if req.pinned.Some? then (Some(Attempt(req.pinned.value, req.primary, ctx.ratioGroup)), ctx)
      else Choose(req, ctx, w.ratioKnown, Ask(req, ctx.skip, w, req.primary), Ask(req, ctx.skip, w, req.backup));
    (if w.providerOk then chosen else None, ctx')
  }

  /** A call of SetCooldowns. */
  datatype Cooling = Cooling(id: int, model: string, at: int)

  /** shouldCooldowns after a failed attempt: only a 429 is put on cooldown, under the mapped model name. */
  function CoolingOf(w: World, a: Attempt): seq<Cooling> {
    if w.outcome.Failed? && w.outcome.error.status == 429 then [Cooling(a.channel.id, w.newModel, w.failedAt)] else []
  }

  /** The cooldowns a run asks for: those of the attempts after which the loop goes round, found or not. */
  function Coolings(req: Request, worlds: Worlds, attempts: seq<Attempt>): seq<Cooling> {
    if attempts == [] then []
    else
      var k := |attempts| - 1;
      Coolings(req, worlds, attempts[..k])
      + if Retryable(req, worlds(k).outcome) && k < req.retryTimes then CoolingOf(worlds(k), attempts[k]) else []
  }

  /** The chooser after them. */
  function Cooled(req: Request, s: Chooser, coolings: seq<Cooling>): Chooser {
    if coolings == [] then s
    else
      var front, c := Cooled(req, s, coolings[..|coolings| - 1]), coolings[|coolings| - 1];
      front.(cooldowns := WithCooldown(front.cooldowns, c.id, c.model, c.at, req.cooldownSeconds))
  }

  ghost predicate Sane(worlds: Worlds) {
    forall i :: PositiveWeights(worlds(i).chooser)
  }

  function AfterFailure(ctx: Context, a: Attempt): Context {
    ctx.(skip := ctx.skip + [a.channel.id])
  }

  /**
   The attempts of a run with the contexts they start from: attempt k is fetched in world k, and every
   attempt but the last failed in a way that is retried.
   */
  ghost predicate IsRun(req: Request, worlds: Worlds, attempts: seq<Attempt>, contexts: seq<Context>)
    requires Sane(worlds)
  {
    && |contexts| == |attempts| + 1
    && (forall k | 0 <= k < |attempts| :: Fetched(req, worlds(k), contexts[k], attempts[k], contexts[k + 1]))
    && (forall k | 0 <= k < |attempts| :: k + 1 < |attempts| ==> Retried(req, worlds, k))
  }

  /** An attempt, and the context after it should it fail. */
  ghost predicate Fetched(req: Request, w: World, ctx: Context, a: Attempt, ctx': Context) {
    PositiveWeights(w.chooser) && Fetch(req, ctx, w).0 == Some(a) && ctx' == AfterFailure(Fetch(req, ctx, w).1, a)
  }

  predicate Retried(req: Request, worlds: Worlds, k: nat) {
    Retryable(req, worlds(k).outcome) && !worlds(k + 1).late
  }

  lemma RunGrows(req: Request, worlds: Worlds, attempts: seq<Attempt>, contexts: seq<Context>, a: Attempt)
    requires Sane(worlds) && IsRun(req, worlds, attempts, contexts)
    requires Fetch(req, contexts[|attempts|], worlds(|attempts|)).0 == Some(a)
    requires attempts != [] ==> Retried(req, worlds, |attempts| - 1)
    ensures IsRun(req, worlds, attempts + [a],
                  contexts + [AfterFailure(Fetch(req, contexts[|attempts|], worlds(|attempts|)).1, a)])
  {
    var next := AfterFailure(Fetch(req, contexts[|attempts|], worlds(|attempts|)).1, a);
    RetriesGrow(req, worlds, attempts, contexts, a);
  }

  lemma RetriesGrow(req: Request, worlds: Worlds, attempts: seq<Attempt>, contexts: seq<Context>, a: Attempt)
    requires Sane(worlds) && IsRun(req, worlds, attempts, contexts)
    requires attempts != [] ==> Retried(req, worlds, |attempts| - 1)
    ensures forall k | 0 <= k < |attempts + [a]| :: k + 1 < |attempts + [a]| ==> Retried(req, worlds, k)
  {
    forall k | 0 <= k < |attempts| ensures Retried(req, worlds, k) {
      assert k + 1 < |attempts| || k == |attempts| - 1;
    }
  }

  function MaxAttempts(req: Request): nat {
    1 + if req.retryTimes > 0 then req.retryTimes else 0
  }

  /** A run ends with an answer, after the last retry, after the timeout, or with no channel left. */
  ghost predicate Ended(req: Request, worlds: Worlds, attempts: seq<Attempt>, contexts: seq<Context>)
    requires Sane(worlds) && IsRun(req, worlds, attempts, contexts)
  {
    var n := |attempts|;
    || (n > 0 && !Retryable(req, worlds(n - 1).outcome))
    || n == MaxAttempts(req)
    || (n > 0 && worlds(n).late)
    || Fetch(req, contexts[n], worlds(n)).0 == None
  }

  /** The loop of Relay: the calls of RelayHandler, in order. */
  method RelayRequest(req: Request, worlds: Worlds, skip: seq<int>)
    returns (attempts: seq<Attempt>, coolings: seq<Cooling>, ghost contexts: seq<Context>)
    requires Sane(worlds)
    ensures IsRun(req, worlds, attempts, contexts) && contexts[0] == Context(skip, req.primary)
    ensures Ended(req, worlds, attempts, contexts)
    ensures coolings == Coolings(req, worlds, attempts)
    ensures |attempts| <= MaxAttempts(req)
    ensures req.pinned.Some? ==> |attempts| <= 1
  {
    var ctx := Context(skip, req.primary);
    attempts, coolings, contexts := [], [], [ctx];
    var (fetched, ctx') := Fetch(req, ctx, worlds(0));
    if fetched == None {
      return;
    }
    FirstAttempt(req, worlds, ctx, fetched.value, ctx');
    attempts, contexts := [fetched.value], [ctx, AfterFailure(ctx', fetched.value)];
    ctx := ctx';
    if worlds(0).outcome == Sent {
      return;
    }
    var retryTimes := if Retryable(req, worlds(0).outcome) then req.retryTimes else 0;
    attempts, coolings, contexts := RetryLoop(req, worlds, retryTimes, ctx, attempts, contexts);
  }

  lemma FirstAttempt(req: Request, worlds: Worlds, ctx: Context, a: Attempt, ctx': Context)
    requires Sane(worlds) && Fetch(req, ctx, worlds(0)) == (Some(a), ctx')
    ensures IsRun(req, worlds, [a], [ctx, AfterFailure(ctx', a)])
    ensures Coolings(req, worlds, [a]) ==
              if Retryable(req, worlds(0).outcome) && 0 < req.retryTimes then CoolingOf(worlds(0), a) else []
  {
    RunGrows(req, worlds, [], [ctx], a);
    assert [] + [a] == [a] && [ctx] + [AfterFailure(ctx', a)] == [ctx, AfterFailure(ctx', a)];
  }

  /** Where the loop stands: the run and the cooldowns so far, and whether it goes round again. */
  ghost predicate LoopOk(req: Request, worlds: Worlds, attempts: seq<Attempt>, coolings: seq<Cooling>, contexts: seq<Context>,
                         ctx: Context, again: bool)
    requires Sane(worlds)
  {
    var last := |attempts| - 1;
    && attempts != [] && IsRun(req, worlds, attempts, contexts)
    && contexts[|attempts|] == AfterFailure(ctx, attempts[last])
    && (again ==> Retryable(req, worlds(last).outcome) && last < req.retryTimes)
    && Coolings(req, worlds, attempts) == coolings + if again then CoolingOf(worlds(last), attempts[last]) else []
  }

  /** One turn of the loop that gets as far as calling RelayHandler. */
  lemma LoopTurn(req: Request, worlds: Worlds, attempts: seq<Attempt>, coolings: seq<Cooling>, contexts: seq<Context>, ctx: Context,
                 a: Attempt, ctx': Context)
    requires Sane(worlds) && LoopOk(req, worlds, attempts, coolings, contexts, ctx, true)
    requires !worlds(|attempts|).late
    requires Fetch(req, AfterFailure(ctx, attempts[|attempts| - 1]), worlds(|attempts|)) == (Some(a), ctx')
    ensures
      var again := Retryable(req, worlds(|attempts|).outcome) && |attempts| < req.retryTimes;
      LoopOk(req, worlds, attempts + [a], coolings + CoolingOf(worlds(|attempts| - 1), attempts[|attempts| - 1]),
             contexts + [AfterFailure(ctx', a)], ctx', again)
    ensures (contexts + [AfterFailure(ctx', a)])[0] == contexts[0]
  {
    RunGrows(req, worlds, attempts, contexts, a);
  }

  /** A finished run with its cooldowns. */
  ghost predicate Complete(req: Request, worlds: Worlds, attempts: seq<Attempt>, coolings: seq<Cooling>, contexts: seq<Context>)
    requires Sane(worlds)
  {
    IsRun(req, worlds, attempts, contexts) && Ended(req, worlds, attempts, contexts) && coolings == Coolings(req, worlds, attempts)
  }

  /** The body of the loop: the cooldown, the next channel, the next call, and whether to go round again. */
  method Retry(req: Request, worlds: Worlds, ctx: Context, attempts: seq<Attempt>, coolings: seq<Cooling>, ghost contexts: seq<Context>)
    returns (again: bool, ctx': Context, attempts': seq<Attempt>, coolings': seq<Cooling>, ghost contexts': seq<Context>)
    requires Sane(worlds) && LoopOk(req, worlds, attempts, coolings, contexts, ctx, true) && contexts != []
    ensures contexts' != [] && contexts'[0] == contexts[0] && |attempts'| <= |attempts| + 1
    ensures !again ==> Complete(req, worlds, attempts', coolings', contexts')
    ensures again ==> |attempts'| == |attempts| + 1 && Retryable(req, worlds(|attempts|).outcome)
    ensures again ==> LoopOk(req, worlds, attempts', coolings', contexts', ctx', |attempts| < req.retryTimes)
  {
    again, ctx', attempts', contexts' := false, ctx, attempts, contexts;
    var last := attempts[|attempts| - 1];
    coolings' := coolings + CoolingOf(worlds(|attempts| - 1), last);
    var w := worlds(|attempts|);
    if w.late {
      return;
    }
    var (next, fetched) := Fetch(req, ctx.(skip := ctx.skip + [last.channel.id]), w);
    if next == None {
      return;
    }
    again := Retryable(req, w.outcome);
    ctx', attempts', contexts' := fetched, attempts + [next.value], contexts + [AfterFailure(fetched, next.value)];
    LoopTurn(req, worlds, attempts, coolings, contexts, ctx, next.value, fetched);
  }

  /** The retries after the first attempt. */
  method RetryLoop(req: Request, worlds: Worlds, retryTimes: int, ctx: Context, attempts: seq<Attempt>, ghost contexts: seq<Context>)
    returns (attempts': seq<Attempt>, coolings: seq<Cooling>, ghost contexts': seq<Context>)
    requires Sane(worlds) && IsRun(req, worlds, attempts, contexts) && |attempts| == 1
    requires contexts[1] == AfterFailure(ctx, attempts[0])
    requires retryTimes == if Retryable(req, worlds(0).outcome) then req.retryTimes else 0
    ensures Complete(req, worlds, attempts', coolings, contexts') && contexts'[0] == contexts[0]
    ensures |attempts'| <= 1 + if retryTimes > 0 then retryTimes else 0
  {
    attempts', coolings, contexts' := attempts, [], contexts;
    var ctx, i := ctx, retryTimes;
    while i > 0
      invariant contexts' != [] && contexts'[0] == contexts[0]
      invariant i <= retryTimes && |attempts'| == 1 + if retryTimes > 0 then retryTimes - i else 0
      invariant retryTimes > 0 ==> i >= 0 && retryTimes == req.retryTimes
      invariant retryTimes <= 0 ==> !Retryable(req, worlds(0).outcome) || req.retryTimes <= 0
      invariant LoopOk(req, worlds, attempts', coolings, contexts', ctx, i > 0)
    {
      var again: bool;
      again, ctx, attempts', coolings, contexts' := Retry(req, worlds, ctx, attempts', coolings, contexts');
      if !again {
        return;
      }
      i := i - 1;
    }
  }

  // ----- Where an attempt comes from -----

  /**
   The primary group goes first: an unpinned attempt outside it means that the primary group had nothing to
   offer, and inside it the attempt is what the primary group offers. A pinned channel is used as it is.
   */
  lemma PrimaryGoesFirst(req: Request, worlds: Worlds, attempts: seq<Attempt>, contexts: seq<Context>, k: nat)
    requires Sane(worlds) && IsRun(req, worlds, attempts, contexts) && k < |attempts|
    ensures
      var a, w, skip := attempts[k], worlds(k), contexts[k].skip;
      if req.pinned.Some? then a.channel == req.pinned.value && a.group == req.primary
      else
        var first, second := Ask(req, skip, w, req.primary), Ask(req, skip, w, req.backup);
        if first.Found? then a.group == req.primary && a.channel == first.channel
        else a.group == req.backup != req.primary && w.ratioKnown && second == Found(a.channel)
  {
    assert Fetched(req, worlds(k), contexts[k], attempts[k], contexts[k + 1]);
  }

  /** And what a group offers is the best its rows have for the request, among the channels not tried yet. */
  lemma AttemptIsBest(req: Request, worlds: Worlds, rows: seq<Channel>, attempts: seq<Attempt>, contexts: seq<Context>, k: nat)
    requires Sane(worlds) && IsRun(req, worlds, attempts, contexts) && k < |attempts| && req.pinned == None
    requires Loaded(worlds(k).chooser, rows)
    ensures
      var q := QueryOf(req, contexts[k].skip, worlds(k).now);
      Answers(worlds(k).chooser, rows, attempts[k].group, q, Found(attempts[k].channel))
      && (attempts[k].group != req.primary && req.primary != "" ==>
            exists r: NextResult :: !r.Found? && Answers(worlds(k).chooser, rows, req.primary, q, r))
  {
    PrimaryGoesFirst(req, worlds, attempts, contexts, k);
    var q := QueryOf(req, contexts[k].skip, worlds(k).now);
    NextMeetsScan(worlds(k).chooser, rows, req.primary, q, worlds(k).random);
    NextMeetsScan(worlds(k).chooser, rows, req.backup, q, worlds(k).random);
  }

  /** The cooldowns a run asks for are those of its rate-limited attempts after which it goes round. */
  lemma {:induction false} CoolingsAreRateLimits(req: Request, worlds: Worlds, attempts: seq<Attempt>, c: Cooling)
    ensures c in Coolings(req, worlds, attempts) <==>
      exists k :: 0 <= k < |attempts| && k < req.retryTimes && Retryable(req, worlds(k).outcome)
        && worlds(k).outcome.error.status == 429
        && c.id == attempts[k].channel.id && c.model == worlds(k).newModel && c.at == worlds(k).failedAt
  {
    if attempts != [] {
      var last := |attempts| - 1;
      CoolingsAreRateLimits(req, worlds, attempts[..last], c);
      assert forall k :: 0 <= k < last ==> attempts[..last][k] == attempts[k];
    }
  }

  // ----- Which failures are retried -----

  /** An error of the upstream, with more to come from the handler and no channel pinned. */
  predicate MayRetry(req: Request, outcome: Outcome) {
    outcome.Failed? && !outcome.done && !outcome.error.localError && req.pinned == None
  }

  /**
   Another attempt follows exactly if retries are left, the timeout has not passed, a channel is found, and
   the error allows it: it comes from the upstream of an unpinned request that is not done with, it is
   neither a timeout (408, 504, 524) nor a success status, and a 400 is one that the provider lets retry.
   */
  lemma RetriedIff(req: Request, worlds: Worlds, attempts: seq<Attempt>, contexts: seq<Context>, k: nat)
    requires Sane(worlds) && IsRun(req, worlds, attempts, contexts) && Ended(req, worlds, attempts, contexts) && k < |attempts|
    requires |attempts| <= MaxAttempts(req)
    ensures
      var outcome := worlds(k).outcome;
      k + 1 < |attempts| <==>
        && MayRetry(req, outcome) && k < req.retryTimes
        && outcome.error.status !in {408, 504, 524} && !(200 <= outcome.error.status <= 299)
        && (outcome.error.status == 400 ==> outcome.error.retryableBadRequest)
        && !worlds(k + 1).late && Fetch(req, contexts[k + 1], worlds(k + 1)).0.Some?
  {
    if k + 1 < |attempts| {
      assert Retried(req, worlds, k) && Fetched(req, worlds(k + 1), contexts[k + 1], attempts[k + 1], contexts[k + 2]);
    }
  }

  /** In particular the attempt after a rate limit, a redirect or a server error that is no timeout. */
  lemma RateLimitIsRetried(req: Request, worlds: Worlds, attempts: seq<Attempt>, contexts: seq<Context>, k: nat)
    requires Sane(worlds) && IsRun(req, worlds, attempts, contexts) && Ended(req, worlds, attempts, contexts) && k < |attempts|
    requires |attempts| <= MaxAttempts(req)
    requires MayRetry(req, worlds(k).outcome) && k < req.retryTimes
    requires var status := worlds(k).outcome.error.status; status in {429, 307} || (500 <= status <= 599 && status !in {504, 524})
    requires !worlds(k + 1).late && Fetch(req, contexts[k + 1], worlds(k + 1)).0.Some?
    ensures k + 1 < |attempts|
  {
    RetriedIff(req, worlds, attempts, contexts, k);
  }

  // ----- Whatever happens in between -----

  /** The skip list holds everything tried so far. */
  lemma {:induction false} TriedIsSkipped(skips: seq<seq<int>>, ids: seq<int>, j: nat, k: nat)
    requires |skips| == |ids| + 1 && forall k | 0 <= k < |ids| :: skips[k + 1] == skips[k] + [ids[k]]
    requires j <= k <= |ids|
    ensures skips[j] <= skips[k] && (j < k ==> ids[j] in skips[k])
    decreases k
  {
    if j < k {
      TriedIsSkipped(skips, ids, j, k - 1);
      assert skips[k] == skips[k - 1] + [ids[k - 1]];
    }
  }

  function Ids(attempts: seq<Attempt>): (r: seq<int>)
    ensures |r| == |attempts| && forall k | 0 <= k < |r| :: r[k] == attempts[k].channel.id
  {
    seq(|attempts|, k requires 0 <= k < |attempts| => attempts[k].channel.id)
  }

  function Skips(contexts: seq<Context>): (r: seq<seq<int>>)
    ensures |r| == |contexts| && forall k | 0 <= k < |r| :: r[k] == contexts[k].skip
  {
    seq(|contexts|, k requires 0 <= k < |contexts| => contexts[k].skip)
  }

  lemma FetchKeepsSkip(req: Request, ctx: Context, w: World, a: Attempt, ctx': Context)
    requires Fetched(req, w, ctx, a, ctx')
    ensures ctx'.skip == ctx.skip + [a.channel.id]
  {
  }

  /** What Next finds is usable for the query, so it is not on the skip list. */
  lemma FoundIsNotSkipped(req: Request, skip: seq<int>, w: World, rows: seq<Channel>, group: string)
    requires Loaded(w.chooser, rows)
    ensures PositiveWeights(w.chooser)
    ensures Ask(req, skip, w, group).Found? ==> Ask(req, skip, w, group).channel.id !in skip
  {
    var q := QueryOf(req, skip, w.now);
    NextMeetsScan(w.chooser, rows, group, q, w.random);
    AnswerIsNotSkipped(w.chooser, rows, group, q, skip, Next(w.chooser, group, q, w.random));
  }

  lemma AnswerIsNotSkipped(s: Chooser, rows: seq<Channel>, group: string, q: Query, skip: seq<int>, r: NextResult)
    requires Answers(s, rows, group, q, r) && SkipIds(skip) in q.filters
    ensures r.Found? ==> r.channel.id !in skip
  {
  }

  /** Some rows, possibly other ones at every attempt, stand behind the chooser. */
  ghost predicate AlwaysLoaded(worlds: Worlds, tables: nat -> seq<Channel>) {
    forall i :: Loaded(worlds(i).chooser, tables(i))
  }

  lemma AlwaysSane(worlds: Worlds, tables: nat -> seq<Channel>)
    requires AlwaysLoaded(worlds, tables)
    ensures Sane(worlds)
  {
    forall i ensures PositiveWeights(worlds(i).chooser) {
      WeightsAfterLoad(worlds(i).chooser, tables(i));
    }
  }

  /**
   However the chooser is reloaded, enabled, disabled or cools down in between, an unpinned request
   never tries a channel twice, nor one that was to be skipped from the start.
   */
  lemma ChannelsAreDistinct(req: Request, worlds: Worlds, tables: nat -> seq<Channel>, attempts: seq<Attempt>, contexts: seq<Context>)
    requires AlwaysLoaded(worlds, tables) && Sane(worlds) && IsRun(req, worlds, attempts, contexts) && req.pinned == None
    ensures forall j, k | 0 <= j < k < |attempts| :: attempts[j].channel.id != attempts[k].channel.id
    ensures forall k | 0 <= k < |attempts| :: attempts[k].channel.id !in contexts[0].skip
  {
    forall j, k | 0 <= j <= k < |attempts|
      ensures j < k ==> attempts[j].channel.id != attempts[k].channel.id
      ensures attempts[k].channel.id !in contexts[0].skip
    {
      TriedIsSkipped(Skips(contexts), Ids(attempts), j, k);
      TriedIsSkipped(Skips(contexts), Ids(attempts), 0, k);
      FetchedIsNotSkipped(req, contexts[k], worlds(k), tables(k), attempts[k], contexts[k + 1]);
    }
  }

  lemma FetchedIsNotSkipped(req: Request, ctx: Context, w: World, rows: seq<Channel>, a: Attempt, ctx': Context)
    requires Loaded(w.chooser, rows) && req.pinned == None && Fetched(req, w, ctx, a, ctx')
    ensures a.channel.id !in ctx.skip
  {
    FoundIsNotSkipped(req, ctx.skip, w, rows, req.primary);
    FoundIsNotSkipped(req, ctx.skip, w, rows, req.backup);
  }

  // ----- With nothing becoming available in between -----

  /**
   The same rows and patterns at every attempt, and what a later attempt may use, the channels on its
   skip list apart, was usable before.
   */
  ghost predicate NothingAppears(req: Request, worlds: Worlds, rows: seq<Channel>, contexts: seq<Context>) {
    && (forall i :: 0 <= i < |contexts| - 1 ==>
          Loaded(worlds(i).chooser, rows) && worlds(i).chooser.patterns == worlds(0).chooser.patterns)
    && (forall i, j :: 0 <= i <= j < |contexts| - 1 ==> NoneNew(req, worlds(i), worlds(j), contexts[j].skip))
  }

  ghost predicate NoneNew(req: Request, w: World, w': World, skip: seq<int>) {
    forall id :: UsableIn(req, w', id) && id !in skip ==> UsableIn(req, w, id)
  }

  ghost predicate UsableIn(req: Request, w: World, id: int) {
    Usable(w.chooser, id, Query(req.model, req.filters, w.now))
  }

  lemma UsableSplits(req: Request, skip: seq<int>, w: World, id: int)
    ensures Usable(w.chooser, id, QueryOf(req, skip, w.now)) <==> UsableIn(req, w, id) && id !in skip
  {
    var q := QueryOf(req, skip, w.now);
    assert forall f :: f in q.filters <==> f in req.filters || f == SkipIds(skip);
    if id in w.chooser.channels {
      assert Rejects(SkipIds(skip), id, w.chooser.channels[id]) <==> id in skip;
    }
  }

  /** A candidate of a later world, with a longer skip list, was one before. */
  lemma CandidateBefore(req: Request, w: World, w': World, rows: seq<Channel>, skip: seq<int>, skip': seq<int>,
                        group: string, entry: string, c: Channel)
    requires skip <= skip' && NoneNew(req, w, w', skip')
    requires Candidate(w'.chooser, rows, group, entry, QueryOf(req, skip', w'.now), c)
    ensures Candidate(w.chooser, rows, group, entry, QueryOf(req, skip, w.now), c)
  {
    UsableSplits(req, skip', w', c.id);
    UsableSplits(req, skip, w, c.id);
  }

  /** What is found later is no better than what is found before, and nothing before means nothing later. */
  predicate NoBetter(before: NextResult, later: NextResult) {
    later.Found? ==> before.Found? && later.channel.priority <= before.channel.priority
  }

  lemma AnswersDegrade(req: Request, w: World, w': World, rows: seq<Channel>, skip: seq<int>, skip': seq<int>,
                       group: string, r: NextResult, r': NextResult)
    requires skip <= skip' && NoneNew(req, w, w', skip')
    requires w.chooser.patterns == w'.chooser.patterns
    requires Answers(w.chooser, rows, group, QueryOf(req, skip, w.now), r)
    requires Answers(w'.chooser, rows, group, QueryOf(req, skip', w'.now), r')
    ensures NoBetter(r, r')
  {
    if r'.Found? {
      var q, q' := QueryOf(req, skip, w.now), QueryOf(req, skip', w'.now);
      var entry := if Offered(rows, group, req.model) then req.model else FirstMatch(w.chooser.patterns, req.model);
      assert MeetsScan(w.chooser, rows, group, entry, q, r) && MeetsScan(w'.chooser, rows, group, entry, q', r');
      ScansDegrade(req, w, w', rows, skip, skip', group, entry, r, r');
    }
  }

  lemma ScansDegrade(req: Request, w: World, w': World, rows: seq<Channel>, skip: seq<int>, skip': seq<int>,
                     group: string, entry: string, r: NextResult, r': NextResult)
    requires skip <= skip' && NoneNew(req, w, w', skip')
    requires MeetsScan(w.chooser, rows, group, entry, QueryOf(req, skip, w.now), r)
    requires MeetsScan(w'.chooser, rows, group, entry, QueryOf(req, skip', w'.now), r')
    ensures NoBetter(r, r')
  {
    if r'.Found? {
      var c :| Candidate(w'.chooser, rows, group, entry, QueryOf(req, skip', w'.now), c) && r'.channel == Normalized(c);
      CandidateBefore(req, w, w', rows, skip, skip', group, entry, c);
    }
  }

  lemma AskDegrades(req: Request, w: World, w': World, rows: seq<Channel>, skip: seq<int>, skip': seq<int>, group: string)
    requires skip <= skip' && NoneNew(req, w, w', skip')
    requires w.chooser.patterns == w'.chooser.patterns && Loaded(w.chooser, rows) && Loaded(w'.chooser, rows)
    ensures PositiveWeights(w.chooser) && PositiveWeights(w'.chooser)
    ensures NoBetter(Ask(req, skip, w, group), Ask(req, skip', w', group))
  {
    NextMeetsScan(w.chooser, rows, group, QueryOf(req, skip, w.now), w.random);
    NextMeetsScan(w'.chooser, rows, group, QueryOf(req, skip', w'.now), w'.random);
    AnswersDegrade(req, w, w', rows, skip, skip', group,
                   Next(w.chooser, group, QueryOf(req, skip, w.now), w.random),
                   Next(w'.chooser, group, QueryOf(req, skip', w'.now), w'.random));
  }

  /** A later attempt stays in the backup group, and within a group its priority is no higher. */
  predicate Follows(req: Request, a: Attempt, b: Attempt) {
    && (a.group != req.primary ==> b.group == a.group)
    && (a.group == b.group ==> b.channel.priority <= a.channel.priority)
  }

  /** An unpinned attempt is what Choose makes of the two answers. */
  lemma ChosenOf(req: Request, w: World, ctx: Context, a: Attempt, ctx': Context)
    requires Fetched(req, w, ctx, a, ctx') && req.pinned == None
    ensures Choose(req, ctx, w.ratioKnown, Ask(req, ctx.skip, w, req.primary), Ask(req, ctx.skip, w, req.backup)).0 == Some(a)
  {
  }

  lemma LaterFollows(req: Request, worlds: Worlds, rows: seq<Channel>, attempts: seq<Attempt>, contexts: seq<Context>, j: nat, k: nat)
    requires NothingAppears(req, worlds, rows, contexts) && Sane(worlds) && IsRun(req, worlds, attempts, contexts) && req.pinned == None
    requires j < k < |attempts|
    ensures Follows(req, attempts[j], attempts[k])
  {
    TriedIsSkipped(Skips(contexts), Ids(attempts), j, k);
    var w, w', skip, skip' := worlds(j), worlds(k), contexts[j].skip, contexts[k].skip;
    AskDegrades(req, w, w', rows, skip, skip', req.primary);
    AskDegrades(req, w, w', rows, skip, skip', req.backup);
    ChosenOf(req, w, contexts[j], attempts[j], contexts[j + 1]);
    ChosenOf(req, w', contexts[k], attempts[k], contexts[k + 1]);
  }

  /** Attempt number k or an earlier one used the channel. */
  predicate Tried(attempts: seq<Attempt>, k: nat, id: int)
    requires k < |attempts|
  {
    exists j :: 0 <= j <= k && attempts[j].channel.id == id
  }

  /** The same rows behind two choosers: only disabled flags and cooldowns differ. */
  predicate SameRows(s: Chooser, s': Chooser) {
    && s'.rule == s.rule && s'.patterns == s.patterns && s'.modelGroup == s.modelGroup
    && s'.channels.Keys == s.channels.Keys
    && forall id | id in s.channels :: s'.channels[id].channel == s.channels[id].channel
  }

  /** The same entry for a channel, and the same cooldown under the requested model. */
  predicate SameFor(req: Request, s: Chooser, s': Chooser, id: int) {
    var key := (id, req.model);
    && (id in s.channels ==> id in s'.channels && s'.channels[id] == s.channels[id])
    && (key in s'.cooldowns <==> key in s.cooldowns)
    && (key in s.cooldowns ==> s'.cooldowns[key] == s.cooldowns[key])
  }

  /** One step of the request's own writing: the cooldown of attempt k, and tried channels that get disabled. */
  ghost predicate OwnWrites(req: Request, worlds: Worlds, attempts: seq<Attempt>, k: nat)
    requires k < |attempts|
  {
    var s, s' := Cooled(req, worlds(k).chooser, CoolingOf(worlds(k), attempts[k])), worlds(k + 1).chooser;
    && SameRows(s, s') && s'.cooldowns == s.cooldowns
    && forall id | id in s.channels ::
         s'.channels[id] == s.channels[id] || (Tried(attempts, k, id) && s'.channels[id] == s.channels[id].(disable := true))
  }

  /**
   Nobody but the request itself touches the chooser: each attempt finds it as the attempt before has
   left it, with the cooldown of a 429 added. A failed channel may be disabled as well, which happens in
   the background, so at any later time.
   */
  ghost predicate LeftAlone(req: Request, worlds: Worlds, attempts: seq<Attempt>) {
    forall k {:trigger attempts[k]} :: 0 <= k < |attempts| - 1 ==>
      OwnWrites(req, worlds, attempts, k) && worlds(k).now <= worlds(k + 1).now
  }

  /** The entry and the cooldown of a channel that has not been tried are the ones found at the start, and so are the rows. */
  lemma {:induction false} UntriedIsUntouched(req: Request, worlds: Worlds, attempts: seq<Attempt>, k: nat, id: int)
    requires LeftAlone(req, worlds, attempts) && k < |attempts|
    requires forall j :: 0 <= j < k ==> attempts[j].channel.id != id
    ensures SameRows(worlds(0).chooser, worlds(k).chooser) && SameFor(req, worlds(0).chooser, worlds(k).chooser, id)
    ensures worlds(0).now <= worlds(k).now
  {
    if k > 0 {
      UntriedIsUntouched(req, worlds, attempts, k - 1, id);
      assert OwnWrites(req, worlds, attempts, k - 1) && !Tried(attempts, k - 1, id);
      CoolingTouchesOne(req, worlds(k - 1), attempts[k - 1], id);
    }
  }

  lemma {:induction false} RowsStay(req: Request, worlds: Worlds, attempts: seq<Attempt>, k: nat)
    requires LeftAlone(req, worlds, attempts) && k < |attempts|
    ensures SameRows(worlds(0).chooser, worlds(k).chooser)
  {
    if k > 0 {
      RowsStay(req, worlds, attempts, k - 1);
      assert OwnWrites(req, worlds, attempts, k - 1);
      CoolingTouchesOne(req, worlds(k - 1), attempts[k - 1], attempts[k - 1].channel.id + 1);
    }
  }

  lemma CoolingTouchesOne(req: Request, w: World, a: Attempt, id: int)
    requires id != a.channel.id
    ensures var s := Cooled(req, w.chooser, CoolingOf(w, a));
            s.(cooldowns := map[]) == w.chooser.(cooldowns := map[]) && SameFor(req, w.chooser, s, id)
  {
    var coolings := CoolingOf(w, a);
    if coolings != [] {
      assert coolings[..0] == [];
      assert Cooled(req, w.chooser, []) == w.chooser;
    }
  }

  /** No cooldown of the requested model that is in force at the first attempt ends before the last one. */
  ghost predicate NoCooldownEnds(req: Request, worlds: Worlds, n: nat) {
    forall id, k :: InCooldown(worlds(0).chooser, id, req.model, worlds(0).now) && 0 <= k < n ==>
      InCooldown(worlds(0).chooser, id, req.model, worlds(k).now)
  }

  /**
   A chooser that only the request itself writes is such a case, its own cooldowns included however soon
   they end, and the channels it gets disabled whenever that happens, as long as no cooldown found at the
   start ends during the run.
   */
  lemma FrozenChooserSuffices(req: Request, worlds: Worlds, rows: seq<Channel>, attempts: seq<Attempt>, contexts: seq<Context>)
    requires Sane(worlds) && IsRun(req, worlds, attempts, contexts) && Loaded(worlds(0).chooser, rows)
    requires LeftAlone(req, worlds, attempts) && NoCooldownEnds(req, worlds, |attempts|)
    ensures NothingAppears(req, worlds, rows, contexts)
  {
    forall i | 0 <= i < |attempts|
      ensures Loaded(worlds(i).chooser, rows) && worlds(i).chooser.patterns == worlds(0).chooser.patterns
    {
      RowsStay(req, worlds, attempts, i);
    }
    forall i, j | 0 <= i <= j < |attempts| ensures NoneNew(req, worlds(i), worlds(j), contexts[j].skip) {
      forall id | UsableIn(req, worlds(j), id) && id !in contexts[j].skip ensures UsableIn(req, worlds(i), id) {
        UntriedStaysUsable(req, worlds, attempts, contexts, i, j, id);
      }
    }
  }

  lemma UntriedStaysUsable(req: Request, worlds: Worlds, attempts: seq<Attempt>, contexts: seq<Context>, i: nat, j: nat, id: int)
    requires Sane(worlds) && IsRun(req, worlds, attempts, contexts)
    requires LeftAlone(req, worlds, attempts) && NoCooldownEnds(req, worlds, |attempts|)
    requires i <= j < |attempts| && UsableIn(req, worlds(j), id) && id !in contexts[j].skip
    ensures UsableIn(req, worlds(i), id)
  {
    forall k | 0 <= k < j ensures attempts[k].channel.id != id {
      TriedIsSkipped(Skips(contexts), Ids(attempts), k, j);
    }
    UntriedIsUntouched(req, worlds, attempts, i, id);
    UntriedIsUntouched(req, worlds, attempts, j, id);
    ClockRises(req, worlds, attempts, i, j);
    CooldownBefore(req, worlds(0), worlds(i), worlds(j), id);
  }

  lemma {:induction false} ClockRises(req: Request, worlds: Worlds, attempts: seq<Attempt>, i: nat, j: nat)
    requires LeftAlone(req, worlds, attempts) && i <= j < |attempts|
    ensures worlds(i).now <= worlds(j).now
    decreases j
  {
    if i < j {
      ClockRises(req, worlds, attempts, i, j - 1);
      assert attempts[j - 1] == attempts[j - 1];
    }
  }

  lemma CooldownBefore(req: Request, start: World, w: World, w': World, id: int)
    requires SameRows(start.chooser, w.chooser) && SameRows(start.chooser, w'.chooser)
    requires SameFor(req, start.chooser, w.chooser, id) && SameFor(req, start.chooser, w'.chooser, id)
    requires start.now <= w.now <= w'.now
    requires InCooldown(start.chooser, id, req.model, start.now) ==> InCooldown(start.chooser, id, req.model, w'.now)
    requires UsableIn(req, w', id)
    ensures UsableIn(req, w, id)
  {
    assert id in start.chooser.channels.Keys && w.chooser.channels[id] == w'.chooser.channels[id];
  }

  // ----- Which ratio is charged -----

  /** Some attempt before k took its channel from another group than the primary one. */
  predicate LeftPrimary(req: Request, attempts: seq<Attempt>, k: nat)
    requires k <= |attempts|
  {
    exists j :: 0 <= j < k && attempts[j].group != req.primary
  }

  /** The ratio charged is the backup group's from the first attempt that uses it, else the primary group's. */
  lemma {:induction false} RatioOfRun(req: Request, worlds: Worlds, attempts: seq<Attempt>, contexts: seq<Context>, k: nat)
    requires Sane(worlds) && IsRun(req, worlds, attempts, contexts) && contexts[0].ratioGroup == req.primary
    requires k <= |attempts|
    ensures contexts[k].ratioGroup == if LeftPrimary(req, attempts, k) then req.backup else req.primary
  {
    if k > 0 {
      var before: nat := k - 1;
      RatioOfRun(req, worlds, attempts, contexts, before);
      RatioOfStep(req, worlds, attempts, contexts, before);
    }
  }

  lemma RatioOfStep(req: Request, worlds: Worlds, attempts: seq<Attempt>, contexts: seq<Context>, k: nat)
    requires Sane(worlds) && IsRun(req, worlds, attempts, contexts) && k < |attempts|
    ensures attempts[k].group == req.primary || attempts[k].group == req.backup
    ensures contexts[k + 1].ratioGroup == if attempts[k].group == req.primary then contexts[k].ratioGroup else req.backup
  {
    RatioOfFetch(req, contexts[k], worlds(k), attempts[k], contexts[k + 1]);
  }

  lemma RatioOfFetch(req: Request, ctx: Context, w: World, a: Attempt, ctx': Context)
    requires Fetched(req, w, ctx, a, ctx')
    ensures a.group == req.primary || a.group == req.backup
    ensures a.charged == ctx'.ratioGroup == if a.group == req.primary then ctx.ratioGroup else req.backup
  {
  }

  /**
   An attempt is charged at the ratio of its own group exactly when it is not a return to the primary
   group after an earlier attempt in the backup group.
   */
  lemma ChargedAtOwnRatioIff(req: Request, worlds: Worlds, attempts: seq<Attempt>, contexts: seq<Context>, k: nat)
    requires Sane(worlds) && IsRun(req, worlds, attempts, contexts) && contexts[0].ratioGroup == req.primary
    requires k < |attempts|
    ensures attempts[k].charged == attempts[k].group
       <==> !(attempts[k].group == req.primary && LeftPrimary(req, attempts, k))
  {
    RatioOfRun(req, worlds, attempts, contexts, k);
    RatioOfFetch(req, contexts[k], worlds(k), attempts[k], contexts[k + 1]);
    if LeftPrimary(req, attempts, k) {
      var j :| 0 <= j < k && attempts[j].group != req.primary;
      RatioOfStep(req, worlds, attempts, contexts, j);
    }
  }

  /**
   With nothing becoming available, priorities never rise within a group, the primary group is not
   used again after the backup, and every attempt is charged at the ratio of the group it uses.
   */
  lemma RetriesDescend(req: Request, worlds: Worlds, rows: seq<Channel>, attempts: seq<Attempt>, contexts: seq<Context>)
    requires NothingAppears(req, worlds, rows, contexts) && Sane(worlds) && IsRun(req, worlds, attempts, contexts) && req.pinned == None
    requires contexts[0].ratioGroup == req.primary
    ensures forall j, k | 0 <= j < k < |attempts| :: Follows(req, attempts[j], attempts[k])
    ensures forall k | 0 <= k < |attempts| :: attempts[k].charged == attempts[k].group
  {
    forall j, k | 0 <= j < k < |attempts| ensures Follows(req, attempts[j], attempts[k]) {
      LaterFollows(req, worlds, rows, attempts, contexts, j, k);
    }
    forall k | 0 <= k < |attempts| ensures attempts[k].charged == attempts[k].group {
      ChargedAtOwnRatioIff(req, worlds, attempts, contexts, k);
    }
  }

  lemma SingleChannel(s: Chooser, id: int, q: Query, random: nat)
    requires PositiveWeights(s)
    ensures Draw(s, [id], q, random) == if Usable(s, id, q) then Some(id) else None
  {
    assert [id][..0] == [];
    assert UsableIds(s, [id], q) == [] + if Usable(s, id, q) then [id] else [];
  }

  /** Two groups with one channel each, both serving model m; the first channel cools down until 5. */
  const PRIMARY_CHANNEL := Channel(1, 0, "p", "m", 1, 0, true, false, [])
  const BACKUP_CHANNEL := Channel(2, 0, "b", "m", 1, 0, true, false, [])
  const TWO_GROUPS := Chooser(
    map[1 := Choice(PRIMARY_CHANNEL, false), 2 := Choice(BACKUP_CHANNEL, false)],
    map["p" := map["m" := [[1]]], "b" := map["m" := [[2]]]], [], map[], map[(1, "m") := 5])

  lemma TwoGroupsUsable(skip: seq<int>, now: int, id: int)
    requires id == 1 || id == 2
    ensures Usable(TWO_GROUPS, id, Query("m", [] + [SkipIds(skip)], now)) <==> id !in skip && (id == 1 ==> now >= 5)
  {
    var q := Query("m", [] + [SkipIds(skip)], now);
    assert q.filters[0] == SkipIds(skip);
    assert forall f :: f in q.filters <==> f == SkipIds(skip);
    assert Rejects(SkipIds(skip), id, TWO_GROUPS.channels[id]) <==> id in skip;
    assert InCooldown(TWO_GROUPS, id, "m", now) <==> id == 1 && now < 5;
  }

  lemma AskTwoGroups(skip: seq<int>, now: int, group: string, id: int)
    requires (group == "p" && id == 1) || (group == "b" && id == 2)
    ensures PositiveWeights(TWO_GROUPS)
    ensures Next(TWO_GROUPS, group, Query("m", [] + [SkipIds(skip)], now), 0)
         == if id !in skip && (id == 1 ==> now >= 5) then Found(TWO_GROUPS.channels[id].channel) else ChannelNotFound
  {
    var q := Query("m", [] + [SkipIds(skip)], now);
    TwoGroupsUsable(skip, now, id);
    SingleChannel(TWO_GROUPS, id, q, 0);
    assert "p"[0] != "b"[0];
    var buckets := TWO_GROUPS.rule[group]["m"];
    assert buckets == [[id]] && buckets[1..] == [];
    assert FirstDraw(TWO_GROUPS, buckets, q, 0) == Draw(TWO_GROUPS, [id], q, 0);
  }

  const TWO_GROUP_REQUEST := Request("p", "b", "m", [], None, 1, 5)

  function WorldAt(now: int): World {
    World(TWO_GROUPS, now, 0, true, true, false, Failed(ApiError(500, false, false), false), "m", now)
  }

  lemma FetchFromTwoGroups(ctx: Context, now: int)
    requires now >= 5 || 2 !in ctx.skip
    requires 1 !in ctx.skip
    ensures PositiveWeights(TWO_GROUPS)
    ensures Fetch(TWO_GROUP_REQUEST, ctx, WorldAt(now))
         == if now >= 5 then (Some(Attempt(PRIMARY_CHANNEL, "p", ctx.ratioGroup)), ctx)
            else (Some(Attempt(BACKUP_CHANNEL, "b", "b")), ctx.(ratioGroup := "b"))
  {
    AskTwoGroups(ctx.skip, now, "p", 1);
    AskTwoGroups(ctx.skip, now, "b", 2);
    assert "p"[0] != "b"[0];
  }

  lemma FirstGoesToBackup(worlds: Worlds, c0: Context, c1: Context, first: Attempt)
    requires Sane(worlds) && worlds(0) == WorldAt(0)
    requires c0 == Context([], "p") && c1 == Context([2], "b") && first == Attempt(BACKUP_CHANNEL, "b", "b")
    ensures IsRun(TWO_GROUP_REQUEST, worlds, [first], [c0, c1])
  {
    FetchFromTwoGroups(c0, 0);
    assert AfterFailure(Context([], "b"), first) == c1 by { assert [] + [2] == [2]; }
    RunGrows(TWO_GROUP_REQUEST, worlds, [], [c0], first);
    assert [] + [first] == [first] && [c0] + [c1] == [c0, c1];
  }

  /** Such a return happens when a cooldown in the primary group ends between two attempts. */
  lemma ReturnToPrimaryIsMischarged()
    returns (req: Request, worlds: Worlds, attempts: seq<Attempt>, contexts: seq<Context>)
    ensures Sane(worlds) && IsRun(req, worlds, attempts, contexts) && contexts[0] == Context([], req.primary)
    ensures |attempts| == 2 && attempts[1].group == req.primary && attempts[1].charged == req.backup != req.primary
  {
    req := TWO_GROUP_REQUEST;
    worlds := (i: nat) => WorldAt(10 * i);
    var first, second := Attempt(BACKUP_CHANNEL, "b", "b"), Attempt(PRIMARY_CHANNEL, "p", "b");
    var c0, c1, c2 := Context([], "p"), Context([2], "b"), Context([2, 1], "b");
    assert AfterFailure(c1, second) == c2 by { assert [2] + [1] == [2, 1]; }
    FirstGoesToBackup(worlds, c0, c1, first);
    FetchFromTwoGroups(c1, 10);
    assert worlds(0) == WorldAt(0) && worlds(1) == WorldAt(10);
    RunGrows(req, worlds, [first], [c0, c1], second);
    attempts, contexts := [first] + [second], [c0, c1] + [c2];
    assert "p"[0] != "b"[0];
  }

  /**
   A rate-limited channel is put on cooldown under its own, mapped model name, while routing looks for
   the requested name: a fresh cooldown is noticed exactly when the mapping keeps the name.
   */
  lemma CooldownNoticedIff(s: Chooser, id: int, requested: string, mapped: string, now: int, seconds: int)
    requires id != 0 && mapped != "" && seconds > 0
    requires (id, mapped) !in s.cooldowns && !InCooldown(s, id, requested, now)
    ensures InCooldown(s.(cooldowns := WithCooldown(s.cooldowns, id, mapped, now, seconds)), id, requested, now)
       <==> mapped == requested
  {
  }
}
