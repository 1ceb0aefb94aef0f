# A verified model of the gateway's stateful core

The repository is a gateway in front of language-model providers. These Dafny modules model the parts of it that keep
state and must not lose or invent anything: quota accounting, channel routing and retries, rate limiting, the
translation between two message formats, and the payment, price and refund protocols. Each module states what the code
does in the form the code has (fields and loops where the code has them, functions where it computes) and proves what
the code is for as lemmas about all inputs, all runs or all interleavings. Where a property one would expect is false
of the code, the code is kept, a lemma gives the failing input, and another says exactly when the property holds.

`dafny verify dfyconfig.toml` verifies the whole project.

## Modules

| file | what it models |
|---|---|
| `BisectingInsert.dfy` | chunked insertion of logs, a refused batch being split in two; the buffer in front of it |
| `BatchAccounting.dfy` | quota changes collected in per-type maps and flushed later, against immediate updates |
| `Settlement.dfy` | what one relayed request takes in advance, gives back or charges, and what that does to a user's balance |
| `MemoryLimiter.dfy` | the token bucket and the fixed window, with the background sweep |
| `SlidingLog.dfy` | the sliding-log limiter in memory and on a Redis list, against a limiter that remembers everything |
| `RedisInterleaving.dfy` | the commands of overlapping requests on one Redis list, and the expiry of its key |
| `WeightedDraw.dfy` | the random choice by running subtraction of weights |
| `ChannelIndex.dfy` | channel rows and the group, model and priority index, against a naive listing of the rows |
| `Balancer.dfy` | loading the index, finding a channel, cooldowns |
| `Relay.dfy` | the retry loop with its skip list and the fallback to the backup group |
| `RequestTranslation.dfy` | chat request to Responses request and back |
| `ResponseTranslation.dfy` | chat response to Responses response and back, usage, streamed tool calls |
| `OrderProtocol.dfy` | concurrent payment callbacks: the table of per-key locks, the orders, the credits |
| `Pricing.dfy` | the price table, the cache over it, the synchronisation modes, batch changes |
| `Midjourney.dfy` | the polling worker that copies task reports and refunds failures |
| `RefundHistory.dfy` | exactly how often one task is refunded, in a poll, in a run and in every continuation |
| `Text.dfy`, `Options.dfy`, `Collections.dfy` | string operations and wildcard lookup; an optional value; facts about sets |

## What the code does that one might not expect

Each of these is stated by a lemma or a method's contract below, most of them as an if-and-only-if.

- Two callbacks for one order credit it twice if they carry different gateway numbers: the lock is taken on the gateway
  number, the order is found by its trade number (`OrderProtocol.CreditedOnceIff`).
- A successful request whose cost comes out as zero keeps what was taken in advance
  (`Settlement.UserQuotaConserved`, `Settlement.ZeroCostSuccessKeepsEstimate`).
- A sweep of the token bucket is invisible, and its rate bound holds, exactly if an entry refills within twice the
  window (`MemoryLimiter.SweepsNeverShowIff`, `MemoryLimiter.RateHoldsIff`); a sweep of the sliding log is invisible
  exactly if the duration is at most the expiration plus one second (`SlidingLog.SweepsNeverShowIff`).
- Overlapping requests on the Redis list can pass the limit by two for each request but the first, and by one more if
  the key expires before a push is renewed; both bounds are reached for every number of requests and every limit
  (`RedisInterleaving.OverlapBound`, `RedisInterleaving.SteadyBound` and the two lemmas that reach them).
- A wildcard of another group can hide a group's own wildcard (`Balancer.PatternOfOtherGroupShadows`); in the price cache a
  deleted wildcard hides the remaining ones (`Pricing.ServedAfterDeletionIff`).
- An expired cooldown that has not been cleaned up is not renewed (`Balancer.CooldownTakesEffectIff`), and a cooldown is
  stored under the mapped model name but looked up under the requested one (`Relay.CooldownNoticedIff`).
- A request that comes back to the primary group after the backup group is charged at the backup ratio
  (`Relay.ChargedAtOwnRatioIff`).
- A tool without a name in its function object makes a second request translation differ from the first
  (`RequestTranslation.SecondTripChangesNothingIff`).
- A choice whose content is a list loses it (`ResponseTranslation.ListContentIsLost`).
- Converting a response there and back without encoding it loses its text (`ResponseTranslation.TextIsLostInMemory`,
  `ResponseTranslation.TextSurvivesInMemoryIff`), and every streamed tool call carries the id of the first
  (`ResponseTranslation.StreamReassembles`).
- A price synchronisation with nothing to insert leaves its transaction open in two modes
  (`Pricing.Pricing.SyncPriceWithOverwrite`, `Pricing.Pricing.SyncPriceOnlyUpdate`), an empty table leaves the old cache
  in place (`Pricing.Pricing.Init`), the price service updates the table but not the shared cache, which stays fresh exactly if nothing new
  was written (`Pricing.CacheStaysFreshIff`), and setting prices in bulk can create a second row for a model
  (`Pricing.BatchSetKeepsUniqueIff`).
- A Midjourney task can be refunded twice: by two reports of one poll, also of two channels, or because the refunded row
  was not saved or was reopened by a later report. `RefundHistory.RefundedAtMostOnceIff` says for every run when it is
  not, and `RefundHistory.RefundedOnceForGoodIff` when a refund is the last whatever follows.
- A Midjourney success reported after an hour is turned into a failure (`Midjourney.FailsExactlyForCause`), and the worker
  survives a poll exactly if every report names a task the poll has found (`RefundHistory.WorkerSurvivesIff`).

## Model

| member | source | states |
|---|---|---|
| `BisectingInsert.InsertEachAccountsForAll` | model/utils.go:110-156 | one-at-a-time insertion, the reference: stored rows are never lost and every offered record ends up stored or refused, counted with multiplicity |
| `BisectingInsert.InsertEachConcat` | model/utils.go:117-121 | inserting chunk after chunk is inserting the concatenation, and refuses the same records in the same order |
| `BisectingInsert.Database.Create` | model/utils.go:127-129 | a batch is stored as a whole or not at all, and is refused exactly when a record in it would be |
| `BisectingInsert.BatchInsertWithRetry` | model/utils.go:126-156 | bisection leaves the table of one-at-a-time insertion, errs exactly when a record was refused, and makes the counted number of `Create` calls |
| `BisectingInsert.BatchInsert` | model/utils.go:110-124 | chunked insertion leaves that same table and makes at most one call per chunk plus 16 per refused record |
| `BisectingInsert.CallBound` | model/utils.go:126-156 | at most 1 + 2·k·⌈log2 n⌉ calls for n records of which k are refused |
| `BisectingInsert.CeilLog2IsLeast` | model/utils.go:131-137 | the logarithm in that bound is the least exponent whose power of two reaches n |
| `BisectingInsert.CallsAtMostTwicePerRecord` | model/utils.go:126-156 | never more than 2n - 1 calls, and a single one exactly when nothing is refused or there is one record |
| `BisectingInsert.CallsWhenAllRejected` | model/utils.go:126-156 | the 2n - 1 calls are reached when every record is refused |
| `BisectingInsert.LogsSurviveInterleaving` | model/utils.go:45-66 | however adding and flushing interleave, no log is lost, doubled or reordered |
| `BisectingInsert.FlushEmptiesBuffer` | model/utils.go:51-66 | an uninterrupted flush empties the buffer into the table |
| `BatchAccounting.StepConserves` | model/utils.go:68-108 | a step moves database value plus pending plus in flight by exactly what it records |
| `BatchAccounting.RunConserves` | model/utils.go:68-108 | the same over every interleaving of recording with the steps of the flush, for each type and id |
| `BatchAccounting.ImmediateMoves` | model/user.go:460-534 | a direct update of user, token or channel moves each counter by the records that the batched form of the call would leave |
| `BatchAccounting.MovedIsUnique` | model/utils.go:83-107 | the order of the records does not matter: equal multisets lead to equal databases |
| `BatchAccounting.DrainedRunIsImmediate` | model/utils.go:68-108 | once drained, the batched database is the one the calls would have left with batching off |
| `BatchAccounting.BatchUpdater.AddNewRecord` | model/utils.go:68-76 | recording adds to the entry of its type and id and changes nothing else |
| `BatchAccounting.BatchUpdater.Call` | model/token.go:362-404 | a quota call is refused without effect when negative, else updates directly or takes the shared state through exactly its recording steps, as configured |
| `BatchAccounting.FlushEnds` | model/utils.go:78-108 | from every state of the interleaving a flush can go on to its end |
| `BatchAccounting.FlushDrains` | model/utils.go:78-108 | a flush that starts over and meets no new record has drained every map at its end, in whatever order entries are applied |
| `BatchAccounting.BatchUpdater.BatchUpdate` | model/utils.go:78-108 | an undisturbed flush empties the maps and brings every amount to its row |
| `Settlement.PreConsumptionCharges` | relay/relay_util/quota.go:66-106 | taking quota in advance charges user and token by what is remembered as taken, or not at all |
| `Settlement.PreConsumptionRefusedIff` | relay/relay_util/quota.go:66-106 | refused if and only if the cached quota does not cover the estimate, or does so at most a hundred times and the token or the user's row does not; what is remembered as taken is the estimate or nothing |
| `Settlement.PostConsumptionCharges` | model/token.go:464-489 | the settlement moves user and token quota by the difference, in either direction |
| `Settlement.FailedAttemptIsFree` | relay/relay_util/quota.go:181-191 | a failed attempt leaves every counter as it was |
| `Settlement.SuccessfulAttemptChargesItsCost` | relay/relay_util/quota.go:139-179 | a successful attempt charges its cost whatever was estimated, except that a zero cost keeps the estimate |
| `Settlement.RunBalance` | relay/relay_util/quota.go:193-203 | over any list of attempts, remaining plus used quota falls by what zero-cost successes kept, and that is zero exactly when each kept nothing |
| `Settlement.UserQuotaConserved` | relay/relay_util/quota.go:66-203 | the same on the database, for any interleaving with the flush: the sum is conserved if and only if no zero-cost success had anything taken |
| `Settlement.ZeroCostSuccessKeepsEstimate` | relay/relay_util/quota.go:139-179 | such a success exists |
| `MemoryLimiter.TokenNextKeepsOk` | common/limit/memorylimit.go:152-204 | tokens stay between zero and the burst over every request and sweep |
| `MemoryLimiter.SweepsAreInvisible` | common/limit/memorylimit.go:235-255 | a run of the token bucket answers as the same run without sweeps, given that an unused entry is full when dropped |
| `MemoryLimiter.SweepsNeverShowIff` | common/limit/memorylimit.go:235-255 | that holds for every run if and only if the burst refills within twice the window |
| `MemoryLimiter.TransparentFromFiveSeconds` | common/limit/memorylimit.go:48-70 | for limiters as constructed, if and only if the window is at least five seconds |
| `MemoryLimiter.APILimiterIsTransparent` | common/limit/api_limiter.go:21-50 | every token bucket of the API limiter is transparent, with ten times its rate as burst |
| `MemoryLimiter.GrantedWithinRate` | common/limit/memorylimit.go:152-204 | between any two points of a run at most burst + rate × time units are granted to a key: for any configuration without sweeps, and with sweeps where an entry refills within twice the window |
| `MemoryLimiter.RateHoldsIff` | common/limit/memorylimit.go:235-255 | with sweeps the bound holds over every run if and only if the burst refills within twice the window |
| `MemoryLimiter.NeverRefusedIff` | common/limit/memorylimit.go:152-204 | from an empty store a key is never refused if and only if over every interval it asks for no more than burst + rate × time, wherever no entry is dropped before it is full |
| `MemoryLimiter.GrantsIff` | common/limit/memorylimit.go:157-204 | a request is granted if and only if the key is unknown or has the tokens |
| `MemoryLimiter.APILimiterUnits` | common/limit/api_limiter.go:21-34 | below sixty the limit is per minute, from sixty on a sixtieth of it, rounded down, comes in every second and ten seconds of it can be saved up |
| `MemoryLimiter.GrantLowersLevel` | common/limit/memorylimit.go:152-204 | a grant lowers the level by its size, a refusal leaves it, and so does a sweep where the burst refills within twice the window |
| `MemoryLimiter.WindowSweepsAreInvisible` | common/limit/memorylimit.go:94-130 | in the fixed window sweeps never change an answer, for any settings and sizes |
| `MemoryLimiter.FixedWindowBound` | common/limit/memorylimit.go:94-130 | an interval of one window length sees at most 2·rate - 1 granted units |
| `MemoryLimiter.WindowServes` | common/limit/memorylimit.go:94-130 | a key that asks for no more than the rate in any interval of one window length is never refused |
| `MemoryLimiter.WindowGrantsIff` | common/limit/memorylimit.go:101-130 | a request is granted if and only if the key is unknown, its window is over, or the window has room |
| `MemoryLimiter.FixedWindowBoundIsTight` | common/limit/memorylimit.go:94-130 | every configuration with a rate of at least two reaches that bound |
| `MemoryLimiter.MemoryLimiter.AllowN` | common/limit/memorylimit.go:78-84 | dispatches to one of the two limiters and leaves the other's entries alone |
| `MemoryLimiter.MemoryLimiter.AllowTokenBucket` | common/limit/memorylimit.go:152-204 | the update of one bucket in place is the step the run lemmas are about |
| `MemoryLimiter.MemoryLimiter.AllowFixedWindow` | common/limit/memorylimit.go:94-130 | the same for the fixed window |
| `MemoryLimiter.MemoryLimiter.RemoveExpiredEntries` | common/limit/memorylimit.go:235-255 | the sweep drops exactly the entries unused for more than twice the window, in whatever order it meets them |
| `SlidingLog.NaiveGrantsAreSpaced` | common/rate-limit.go:45-70 | a limiter that remembers everything keeps the max-th next grant at least one duration away |
| `SlidingLog.QueueRefinesNaive` | common/rate-limit.go:28-70 | the bounded queue with sweeps at any points answers as that limiter, when the duration is at most the expiration plus one |
| `SlidingLog.SweepsNeverShowIff` | common/rate-limit.go:28-43 | that bound is exact |
| `SlidingLog.SweepShows` | common/rate-limit.go:28-43 | a run that shows a sweep whenever the bound is broken |
| `SlidingLog.RateBound` | common/rate-limit.go:45-70 | every half-open interval of one duration holds at most max grants |
| `SlidingLog.RedisMirrorsQueue` | middleware/rate-limit.go:48-78 | one request on the Redis list takes the queue's decision and keeps the list the queue reversed |
| `SlidingLog.RedisRefinesNaive` | middleware/rate-limit.go:38-79 | with a time to live no shorter than the duration, the Redis limiter answers as the limiter that remembers everything |
| `SlidingLog.RedisAgreesWithMemory` | middleware/rate-limit.go:38-79 | on every run over a whole-second clock the two limiters answer alike, sweeps and key expiry included |
| `SlidingLog.ZeroMaximumDiffers` | middleware/rate-limit.go:48-57 | with a maximum of zero Redis answers with an error where memory grants the first request |
| `SlidingLog.InMemoryRateLimiter.Request` | common/rate-limit.go:45-70 | changes the queue of its key as the step function says and no other key |
| `SlidingLog.InMemoryRateLimiter.ClearExpiredItems` | common/rate-limit.go:28-43 | drops exactly the entries whose newest grant is older than the expiration |
| `SlidingLog.RedisRateLimiter.Request` | middleware/rate-limit.go:38-79 | the sequence of list commands, uninterrupted, has the effect of one step |
| `RedisInterleaving.TurnKeepsWindow` | middleware/rate-limit.go:38-79 | every single step of any of c overlapping requests, reading the clock and the expiry of the key included, keeps the grants of a window and those still to come within the limit |
| `RedisInterleaving.OverlapBound` | middleware/rate-limit.go:38-79 | however the commands of at most c overlapping requests interleave and whenever the key expires, an interval of one duration, less the longest pause between reading the clock and pushing, holds at most max + 2c - 1 grants |
| `RedisInterleaving.SteadyBound` | middleware/rate-limit.go:38-79 | one less if the key never expires between a push and its renewal, so requests one after the other keep the limit |
| `RedisInterleaving.OverlapBoundIsReached` | middleware/rate-limit.go:48-77 | for every c and maximum, and every duration above one millisecond, a schedule reaches the first bound, pushes just before the key expires being lost |
| `RedisInterleaving.SteadyBoundIsReached` | middleware/rate-limit.go:48-77 | for every c, maximum and duration a schedule that loses nothing reaches the second bound |
| `WeightedDraw.PickIsInterval` | model/balancer.go:168-181 | position i owns exactly the random numbers from the sum of the weights before it up to its own, and the draw fails only beyond the total |
| `WeightedDraw.ShareOfPosition` | model/balancer.go:159-181 | each random number below the total selects one position, and a position is selected by as many as it weighs |
| `WeightedDraw.ShareOfLabel` | model/balancer.go:159-181 | a repeated label is selected by the sum of the weights of its positions |
| `ChannelIndex.ListingsMembers` | model/balancer.go:288-307 | the naive listing holds exactly what enabled rows name |
| `ChannelIndex.NamesInMeans` | model/balancer.go:273-290 | the names in a list are exactly the pieces between its commas without the space around them, the empty ones left out |
| `ChannelIndex.IdsAtCounts` | model/balancer.go:309-345 | an id is in a bucket as often as it is listed with that group, model and priority |
| `ChannelIndex.CountOfRow` | model/balancer.go:273-307 | that is the product of how often the row's group list and model list name the two |
| `Balancer.DrawFindsUsable` | model/balancer.go:134-181 | drawing from a bucket fails exactly when nothing in it is usable |
| `Balancer.UsableIff` | model/balancer.go:31-55 | a channel may be used if and only if it is loaded, enabled, not cooling down, and passes each kind of filter |
| `Balancer.ShareOfChannel` | model/balancer.go:134-181 | of the random numbers below the weight of the usable channels, the draw picks a usable channel for exactly its weight times its multiplicity in the bucket |
| `Balancer.WeightsAfterLoad` | model/balancer.go:268-270 | after loading every weight is positive, which makes the draw total |
| `Balancer.FirstDrawIsFirst` | model/balancer.go:205-211 | the walk over the buckets answers from the first one with a usable channel |
| `Balancer.NextMeetsScan` | model/balancer.go:184-212 | the search returns an eligible channel of maximal priority among those a scan of the rows finds for the exact name, else for the matched wildcard, and fails, with the right error, exactly when there is none |
| `Balancer.PatternServesIff` | model/balancer.go:193-203 | a name without a row of its own is served if and only if the first matching pattern of all groups is offered by its group |
| `Balancer.PatternOfOtherGroupShadows` | model/balancer.go:193-203 | a group whose own pattern matches can therefore find no model |
| `Balancer.CooldownTakesEffectIff` | model/balancer.go:68-83 | a cooldown starts if and only if one was running or no entry was left over |
| `Balancer.CooldownLasts` | model/balancer.go:68-94 | a new cooldown lasts for the configured seconds and no longer, and touches no other |
| `Balancer.ExpiredCooldownIsNotRenewed` | model/balancer.go:68-83 | an expired entry that is still stored keeps the channel in use |
| `Balancer.CleanupIsInvisible` | model/balancer.go:96-104 | cleaning up changes no present or later answer and makes every cooldown settable again |
| `Balancer.ChannelsChooser.Load` | model/balancer.go:250-356 | builds, for any rows, buckets in strictly descending priority, none empty, holding exactly the enabled rows naming both with their multiplicity; the pattern list and the model-to-groups map agree with the index; nothing is disabled |
| `Balancer.ChannelsChooser.Balance` | model/balancer.go:134-181 | the collecting and the subtracting loop compute the draw |
| `Balancer.ChannelsChooser.NextChannel` | model/balancer.go:184-212 | the method computes the search the lemmas are about |
| `Balancer.ChannelsChooser.SetCooldowns` | model/balancer.go:68-83 | stores an end time only where no entry is present |
| `Balancer.ChannelsChooser.IsInCooldown` | model/balancer.go:85-94 | true exactly while a stored end time lies ahead |
| `Balancer.ChannelsChooser.CleanupExpiredCooldowns` | model/balancer.go:96-104 | removes exactly the entries whose end has come |
| `Balancer.ChannelsChooser.ChangeStatus` | model/balancer.go:126-132 | flips one flag, ignores unknown ids and keeps the index valid |
| `Balancer.BuildRule` | model/balancer.go:309-345 | sorting each pair's priorities gives the index, in whatever order the pairs are visited |
| `Text.GetModelsWithMatch` | common/utils/helper.go:325-332 | the first entry that, up to its closing stars, begins the name; the empty string if and only if there is none |
| `Text.MatchesIff` | common/utils/helper.go:327-327 | trimming the stars and testing the prefix is matching the pattern character by character up to its closing stars |
| `Relay.RelayRequest` | relay/main.go:66-108 | the loop makes at most max(RetryTimes, 0) + 1 attempts, at most one when pinned, each retried for a reason; it stops only for one of the listed causes, and sets exactly the cooldowns of the 429s after which it goes round |
| `Relay.RetriedIff` | relay/common.go:523-553 | another attempt follows if and only if retries are left, the timeout has not passed, a channel is found, and the error is the upstream's, of an unpinned request not done with, neither a timeout (408, 504, 524) nor a success, and for a 400 one the provider lets retry |
| `Relay.PrimaryGoesFirst` | relay/common.go:182-233 | an unpinned attempt is what the primary group offers, and what the backup group offers only if the primary group has nothing |
| `Relay.AttemptIsBest` | relay/common.go:182-233 | and that is the best untried usable channel the rows hold for the request, the primary group failing by the rows if it is left |
| `Relay.CoolingsAreRateLimits` | relay/main.go:86-107 | the cooldowns asked for are exactly those of the attempts that were rate limited and went round, with channel, mapped model and time |
| `Relay.RateLimitIsRetried` | relay/common.go:538-549 | in particular after 429, 307 and every 5xx but the timeouts |
| `Relay.AlwaysSane` | model/balancer.go:268-270 | whatever rows were loaded at each attempt, the draws of the run are well defined |
| `Relay.ChannelsAreDistinct` | relay/main.go:85-107 | an unpinned request never tries a channel twice, whatever is loaded, enabled, disabled or cools down in between |
| `Relay.RetriesDescend` | relay/common.go:182-233 | with no untried channel becoming available, priorities never rise within a group and the primary group is not used after the backup |
| `Relay.FrozenChooserSuffices` | relay/common.go:572-577 | a chooser that only the request writes is such a case, with the cooldown of each 429, however soon that ends, and with tried channels disabled at any later time, if no cooldown found at the start ends during the run |
| `Relay.UntriedIsUntouched` | relay/main.go:178-195 | the request's own cooldowns, and the channels it gets disabled, never touch the entry, the flag or the cooldown of a channel it has not tried, nor the index |
| `Relay.RatioOfRun` | relay/common.go:244-252 | the ratio in force is the backup group's from the first attempt that uses it |
| `Relay.ChargedAtOwnRatioIff` | relay/common.go:182-233 | an attempt is charged at its own group's ratio if and only if it is not a return to the primary group |
| `Relay.ReturnToPrimaryIsMischarged` | relay/common.go:182-233 | such a return happens when a cooldown ends between two attempts |
| `Relay.CooldownNoticedIff` | relay/main.go:178-195 | a fresh cooldown is noticed if and only if the model mapping keeps the requested name |
| `RequestTranslation.TripIsNormalForm` | types/chat.go:466-617 | chat to Responses to chat fails exactly on an image part with an empty URL, and otherwise yields the normal form: one assistant message per call, tool outputs kept, text and image parts in order, the rest dropped |
| `RequestTranslation.SecondTripChangesNothingIff` | types/responses.go:94-152 | a second trip changes nothing if and only if no tool lacks a name; the messages never change again |
| `RequestTranslation.NormalMessagesAreNormal` | types/responses.go:178-255 | the normal form of messages is its own normal form |
| `RequestTranslation.NamelessToolChangesTwice` | types/responses.go:94-152 | a tool without a name for which the second trip differs |
| `RequestTranslation.BuildInputs` | types/chat.go:547-610 | the append loop over the messages builds the item list of the translation |
| `RequestTranslation.RequestOnWire` | types/chat.go:466-610 | the Responses request field by field: limits, text format, reasoning, tools, and one entry for each tool call, tool answer and message with something to send, in order |
| `RequestTranslation.PartsOnWire` | types/chat.go:583-602 | texts are sent as output_text by the assistant and as input_text by everybody else, images as input_image, in the order of the parts, with their text and URL |
| `RequestTranslation.ResponsesRequestRead` | types/responses.go:154-255 | a request in Responses form is refused if and only if a message has a hollow image or file or nothing of a known kind; otherwise instructions, strings, messages, calls and answers become chat messages in order |
| `RequestTranslation.PartsRead` | types/responses.go:356-390 | content is refused for its first hollow image or file, and otherwise read item by item |
| `RequestTranslation.ResponsesFieldsRead` | types/responses.go:94-143 | the other fields, the function tools and the format are carried over |
| `RequestTranslation.BuildMessages` | types/responses.go:193-255 | the loop over the items builds the messages, stopping at the first error |
| `RequestTranslation.BuildParts` | types/responses.go:207-216 | the loop over content items builds the parts or reports the first bad one |
| `ResponseTranslation.UsageSurvivesIff` | types/responses.go:656-696 | usage survives the trip if and only if it uses only the common counters |
| `ResponseTranslation.ResponsesUsageSurvivesIff` | types/responses.go:656-696 | the same in the other direction |
| `ResponseTranslation.ChoiceRoundTrip` | types/responses.go:720-875 | on the wire a single choice comes back as its normal form, for every choice |
| `ResponseTranslation.ChoiceSurvivesIff` | types/responses.go:720-875 | content, reasoning, calls and finish reason all survive if and only if the choice is one of the listed plain kinds; content that is not a string, such as a list, never does |
| `ResponseTranslation.ListContentIsLost` | types/responses.go:797-808 | a choice whose content is a list of texts arrives with no content |
| `ResponseTranslation.PlainCallsAreKept` | types/responses.go:733-752 | calls come back unchanged if and only if they are functions with the plain type and index |
| `ResponseTranslation.TextIsLostInMemory` | types/responses.go:503-530 | without the wire in between the text of every choice is lost |
| `ResponseTranslation.TextSurvivesInMemoryIff` | types/responses.go:503-530 | without the wire, content comes back if and only if it was absent with nothing said in its place, or an empty text beside a refusal; a list never does |
| `ResponseTranslation.ToResponses` | types/responses.go:720-822 | the loop over choices builds the outputs and takes the status of the last choice |
| `ResponseTranslation.StatusFollowsLastChoice` | types/responses.go:744-748 | the status is failed, incomplete or completed by the finish reason of the last choice alone |
| `ResponseTranslation.ChoiceOnWire` | types/responses.go:746-822 | the outputs of a choice, kind, order and text: its calls that have a function, or nothing for audio, or its reasoning and then its refusal and text in one message |
| `ResponseTranslation.SpeechRead` | types/responses.go:842-846 | any outputs are read as the text of the last message and the summary of the last reasoning |
| `ResponseTranslation.CallsRead` | types/responses.go:847-862 | and as all their calls in order, with id, name and arguments |
| `ResponseTranslation.FinishRead` | types/responses.go:838-870 | the finish reason comes from the last output that is a call, failed or incomplete, and failing comes before being a call |
| `ResponseTranslation.ToChat` | types/responses.go:824-875 | the loop over outputs assembles the choice |
| `ResponseTranslation.ConvertOpenaiStream` | types/chat.go:327-347 | the function call, or else the loop over tool calls, in two chunks each, and a final finish reason |
| `ResponseTranslation.StreamReassembles` | types/chat.go:349-405 | from the chunks a client recovers every name and argument text; ids survive if and only if they are all equal |
| `ResponseTranslation.StreamedFunctionReassembles` | types/chat.go:330-333 | a function call comes back whole, and tool calls beside it are not sent |
| `ResponseTranslation.StreamedChunks` | types/chat.go:349-405 | every chunk carries the choice's index, every one but the last its role, and only the last a finish reason |
| `OrderProtocol.LocksAreSafe` | controller/order.go:108-135 | in every interleaving no key gets two mutexes, callbacks of one key exclude each other, the creation lock has one holder, and no unheld mutex is released |
| `OrderProtocol.StepKeepsLocking` | controller/order.go:108-135 | every turn of every callback keeps the lock invariant |
| `OrderProtocol.NeverStuck` | controller/order.go:108-127 | no reachable state is deadlocked, although the creation lock is held while waiting for an order |
| `OrderProtocol.TurnsAreBounded` | controller/order.go:108-191 | at most ten turns per callback, so every schedule that keeps choosing one that can move finishes them all |
| `OrderProtocol.StepKeepsAccounting` | controller/order.go:151-178 | reading, saving, crediting, closing and placing orders keep the accounting invariant |
| `OrderProtocol.PaidOrdersSettleOnce` | controller/order.go:137-189 | with one gateway number per order, outcomes are for distinct paid orders with the amounts on their rows, and at the end every order paid in the run has one |
| `OrderProtocol.FinishedCallbackSettles` | controller/order.go:108-189 | in every run a callback that ends with none of its own database calls failing leaves no pending order behind, its key new to the lock table or not; with one gateway number per order a paid one then has its outcome, whatever still runs |
| `OrderProtocol.CreditGoesThrough` | controller/order.go:171-178 | what a callback has started to credit it credits, with the user and the amount of the row it read |
| `OrderProtocol.CreditedExactlyOnce` | controller/order.go:108-189 | with one gateway number per order and no failing call, a pending order is closed or paid and credited exactly once as soon as one callback for it has ended, and paid unless it was closed for being more than three hours old |
| `OrderProtocol.ClosedIff` | model/order.go:37-41 | an order is closed if and only if it is pending and more than three hours old; nothing else about any order changes |
| `OrderProtocol.BalancesAreAccounted` | controller/order.go:171-175 | in every run balances move by exactly the recorded credits |
| `OrderProtocol.CreditedOnceIff` | controller/order.go:137-178 | no run credits an order twice if and only if the callbacks of each payable order agree on its gateway number |
| `OrderProtocol.CreditsTwice` | controller/order.go:148-175 | the schedule in which two such callbacks both credit |
| `OrderProtocol.ClosingKeepsAccounting` | model/order.go:37-41 | closing unpaid orders at any moment breaks nothing, even between a callback's read and save |
| `Pricing.CacheHolds` | model/pricing.go:96-106 | the cache has exactly the models of the table, each with one of its rows, and the only one when models are unique |
| `Pricing.Pricing.Init` | model/pricing.go:70-120 | reloads cache and patterns, except from an empty table or after a failed read |
| `Pricing.SynchronisedMeans` | model/pricing.go:347-447 | from a fresh cache, each mode with something to insert leaves exactly the rows it is meant to, one per model; otherwise the table is untouched |
| `Pricing.ModelsAfter` | model/pricing.go:347-447 | update keeps the set of models, add unites it with the incoming ones, overwrite leaves the locked and the incoming ones |
| `Pricing.LockedRowsSurvive` | model/price.go:179-189 | no mode removes or changes a locked row, whatever the cache says |
| `Pricing.LockedPriceIsServed` | model/pricing.go:347-447 | a locked price is still the one in the cache afterwards |
| `Pricing.SynchronisingTwice` | model/pricing.go:347-447 | every mode is idempotent |
| `Pricing.Pricing.SyncPriceWithOverwrite` | model/pricing.go:348-383 | all or nothing under failing calls, the cache fresh again on success, and a transaction left open when there is nothing to insert |
| `Pricing.Pricing.SyncPriceOnlyUpdate` | model/pricing.go:386-419 | the same for the update mode |
| `Pricing.Pricing.SyncPriceWithoutOverwrite` | model/pricing.go:422-447 | the same for the add mode, which never leaves a transaction open |
| `Pricing.Pricing.SyncPricing` | model/pricing.go:225-245 | an unknown mode and the system mode add |
| `Pricing.UpdatePriceByPriceService` | model/pricing.go:247-309 | changes the table as its mode says, under any failing call, and never the shared cache |
| `Pricing.CacheStaysFreshIff` | model/pricing.go:247-309 | a fresh cache is still fresh afterwards if and only if an addition chose nothing, an update only rows already there, an overwrite nothing or exactly the unlocked rows |
| `Pricing.UpdateBesideCache` | cron/main.go:76-83 | the scheduled job leaves the shared cache as it was, whatever fails; it is fresh afterwards if and only if the run was abandoned before it committed or that condition holds |
| `Pricing.ServiceLeavesCacheStale` | model/pricing.go:257-272 | the first price added to an empty table is not in the shared cache |
| `Pricing.LookupMeetsTable` | model/pricing.go:123-142 | with a fresh cache a name gets its own row, else one whose wildcard covers it, else the row without a name, else the default |
| `Pricing.UnpricedCosts` | model/pricing.go:136-141 | a name nobody has priced gets the default rate of thirty for input and output |
| `Pricing.Pricing.GetPrice` | model/pricing.go:123-142 | the lookup, and hence what the table promises |
| `Pricing.ServedAfterDeletionIff` | model/pricing.go:450-469 | after a batch deletion that promise holds for a name if and only if it has a row, or its first pattern was not deleted, or nothing else is left for it |
| `Pricing.Pricing.BatchDeletePrices` | model/pricing.go:450-469 | rows and cache entries go, patterns stay |
| `Pricing.BatchSetMeans` | model/pricing.go:471-521 | the rows after setting prices in bulk: the given price for kept and new models, even over a lock, nothing for dropped ones, the rest unchanged |
| `Pricing.BatchSetKeepsUniqueIff` | model/pricing.go:471-521 | models stay unique if and only if the added ones are listed once and have no row yet |
| `Pricing.Pricing.BatchSetPrices` | model/pricing.go:471-521 | the three statements run only when needed, all or nothing |
| `Pricing.Pricing.DeletePrice` | model/pricing.go:204-222 | deleting the last row leaves it in the cache |
| `Midjourney.FailsExactlyForCause` | controller/midjourney.go:175-229 | an unfinished task is refunded by a report exactly for a timeout, a reason below 100% or FAILURE at 100%, and is stored as finished if and only if the save succeeds |
| `Midjourney.ReportIsTakenOver` | controller/midjourney.go:175-228 | the task takes over every column of the report, properties and buttons if given, keeps owner and cost, and is stored so if the save succeeds |
| `Midjourney.GoneChannelFailsRows` | controller/midjourney.go:114-124 | the tasks of a channel that is gone are failed with the reason that names it, and no other |
| `Midjourney.RepeatedReportSettlesIff` | controller/midjourney.go:185-205 | a report without a cause settles the row, the same report changing nothing more, if and only if its own submission time, which replaces the stored one, is not past the hour either |
| `Midjourney.RefundedAtMostOnce` | controller/midjourney.go:71-232 | a condition the upstream can meet: if each poll names a task at most once and saves after refunds succeed, refunds over any run are for distinct tasks stored as finished, with the user and amount of their rows |
| `Midjourney.FinishedForGood` | model/midjourney.go:121-129 | a task stored at 100% stays there and is never refunded again, with no condition on the reports |
| `Midjourney.RefundsAreAccounted` | controller/midjourney.go:207-224 | balances move by the recorded refunds and nothing else |
| `RefundHistory.PollFollows` | controller/midjourney.go:113-133 | what one poll does to a task depends only on the reports that name it and the loss of its channel, up to a report that ends the poll |
| `RefundHistory.PollOfTask` | controller/midjourney.go:113-229 | a poll refunds a row as often as its reports repay it, and leaves it at 100% if and only if the last touch to write it did |
| `RefundHistory.HeldProgress` | controller/midjourney.go:188-209 | a task is held at 100% after a report if and only if the report said 100% or had a cause |
| `RefundHistory.RefundedOncePerPollIff` | controller/midjourney.go:175-229 | in one poll a row is refunded at most once if and only if no two of its reports repay it, whatever else is reported and whichever saves fail |
| `RefundHistory.RefundsAreCounted` | controller/midjourney.go:71-232 | over any run a task is refunded exactly as often as reports repay it |
| `RefundHistory.RefundedAtMostOnceIff` | controller/midjourney.go:71-232 | over any run a task is refunded at most once if and only if at most one report repays it, counted through the states of the run; what a caller can check beforehand is in RefundedOnceForGoodIff, SavedRefundIsFinalIff and SecondReportIff |
| `RefundHistory.RefundsHaveCauses` | controller/midjourney.go:178-209 | every refund of any run comes from a report with a cause: a timeout, a reason below 100%, or FAILURE at 100% |
| `RefundHistory.MayRefundAgainIff` | model/midjourney.go:121-129 | some continuation refunds a row if and only if the worker lives and the row is unfinished, has a Midjourney id and was charged |
| `RefundHistory.RefundedOnceForGoodIff` | controller/midjourney.go:175-229 | a refund is the only one, in its poll and in every continuation, if and only if no two reports repay the row and it was last written at 100% or the worker ended |
| `RefundHistory.SavedRefundIsFinalIff` | controller/midjourney.go:225-228 | with one report of the row in its poll, if and only if its save succeeds |
| `RefundHistory.SecondReportIff` | controller/midjourney.go:175-229 | any second report after a refund refunds again if and only if it gives a reason below 100% or is a FAILURE at 100% that says something new, and keeps the saved row at 100% if and only if it says 100% or gives a reason |
| `RefundHistory.TwoChannelsRefundTwice` | controller/midjourney.go:86-133 | two channels that answer for one id refund it twice, ids distinct within each answer |
| `RefundHistory.WorkerSurvivesIff` | controller/midjourney.go:175-178 | the worker survives a poll if and only if every report names an unfinished task the poll has found |
| `Midjourney.RepeatedReportRefundsTwiceIff` | controller/midjourney.go:175-229 | the case of the same report twice, read off its own fields: a reason below 100%, or a late FAILURE at 100% with a reason of its own |
| `Midjourney.FailedSaveRefundsAgain` | controller/midjourney.go:225-228 | a refund whose save fails is given again by the next poll |
| `Midjourney.UnknownReportEndsPolling` | controller/midjourney.go:175-178 | what the end of the worker means: no later poll changes anything |
| `Midjourney.Worker.UpdateMidjourneyTaskBulk` | controller/midjourney.go:71-136 | one round of the worker, with its index of tasks and its visits to channels, is the poll the run lemmas are about |
| `Midjourney.Worker.MjTaskHandler` | controller/midjourney.go:175-231 | the loop over reports, which stops at an unknown task |
| `Midjourney.Worker.HandleOne` | controller/midjourney.go:176-228 | the one-hour rule, the test for changes, the copying, the refund and the save, in this order |

## Left out

- Provider adapters, HTTP handlers, sessions, OAuth and other logins, mail, the web UI and metrics: input and output around code that is not part of this model.
- Floating point: tokens of the bucket, prices and ratios are exact reals; the estimate and the cost of a request are given numbers.
- Integer width: counters, weights and times are unbounded; a negative weight read from the database is not representable.
- The database: every update is atomic, and succeeds unless a parameter says otherwise; rows exist or not at fixed times; the order of rows without an ORDER BY is whatever the caller passes; column defaults for empty values are ignored.
- `accessed_time` of tokens, and the caches of quotas in Redis, including the early return of `Settlement`'s source when that cache fails: a settlement that errs midway is not modelled.
- Two requests that both pass the quota test before either is charged: `Settlement` is about what is charged, not about overspending.
- The per-minute counters of the memory limiter and `GetCurrentRate`; the Redis limiters written in Lua (`countlimit.go`, `slidingwindow.go`, `tokenlimit.go`), whose scripts are not part of this model.
- SlidingLog.RedisRateLimiter.Request: runs its commands without interruption, which the code does not enforce; `RedisInterleaving` says what overlapping requests can do.
- `applyPreMappingBeforeRequest` and `mergeCustomParamsForPreMapping`, which edit the raw request body.
- `relay.send` is any outcome; streaming to the client, caching of answers and error texts are not modelled.
- Ids generated for Responses outputs, and the change that `ToResponses` makes to the caller's tool list.
- JSON encoding: decoded values are the starting point, and "on the wire" means that typed lists come back as generic ones.
- ResponseTranslation.ToChat: with several choices the outputs of all are folded into one choice; the round trip is stated for a single choice, which is what the format is used for.
- SlidingLog.RedisAgreesWithMemory: stated for a maximum of at least one; `ZeroMaximumDiffers` shows why.
- OrderProtocol.PaidOrdersSettleOnce: a credit that fails leaves the order paid and uncredited for good; the lemma counts it as settled with its outcome recorded as not credited.
- The check that upgrades a user's group after a payment, the log entries, and the amount arithmetic of new orders (fee, discount, currency).
- Pricing.Pricing.GetPrice: the concurrent readers and writers of the cache; its lock makes each call one step.
- Midjourney.RefundedAtMostOnce: a sufficient condition that can be checked on the answers alone; `RefundHistory.RefundedAtMostOnceIff` has the exact one.
- The wake-up of the Midjourney worker through its condition variable, and its fifteen-second pause.
- Image token counts of `common/token.go`, log listing, statistics queries, migrations.
