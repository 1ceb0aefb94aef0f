/**
 Channel routing (model/balancer.go): the chooser's index, its cooldowns, and the choice of the next
 channel for a group and model. Random numbers and the clock are parameters. A lock makes each
 operation atomic.
 */
module Balancer {
  import opened Options
  import opened Collections
  import opened Text
  import opened WeightedDraw
  import opened ChannelIndex

  datatype Choice = Choice(channel: Channel, disable: bool)

  /** Reasons to pass over a channel for one request. */
  datatype Filter =
    | SkipIds(ids: seq<int>)
    | AllowTypes(types: seq<int>)
    | SkipOnlyChat
    | NeedsStream(model: string)

  predicate Rejects(f: Filter, id: int, choice: Choice) {
    match f
    case SkipIds(ids) => id in ids
    case AllowTypes(types) => choice.channel.kind !in types
    case SkipOnlyChat => choice.channel.onlyChat
    case NeedsStream(model) => model in choice.channel.disabledStream
  }

  /** The state of the chooser. A cooldown is kept per channel id and model name, until a time in seconds. */
  datatype Chooser = Chooser(
    channels: map<int, Choice>,
    rule: Rule,
    patterns: seq<string>,
    modelGroup: map<string, set<string>>,
    cooldowns: map<(int, string), int>
  )

  /** One request for a channel. */
  datatype Query = Query(model: string, filters: seq<Filter>, now: int)

  predicate InCooldown(s: Chooser, id: int, model: string, now: int) {
    (id, model) in s.cooldowns && now < s.cooldowns[(id, model)]
  }

  predicate Usable(s: Chooser, id: int, q: Query) {
    && id in s.channels
    && !s.channels[id].disable
    && !InCooldown(s, id, q.model, q.now)
    && forall f | f in q.filters :: !Rejects(f, id, s.channels[id])
  }

  /**
   A channel may be used exactly if it is loaded and enabled, is not cooling down, has not been tried, is
   of an allowed type, is not reserved for chat when that matters, and streams the model when it must.
   */
  lemma UsableIff(s: Chooser, id: int, q: Query)
    ensures Usable(s, id, q) <==>
      && id in s.channels && !s.channels[id].disable
      && ((id, q.model) in s.cooldowns ==> s.cooldowns[(id, q.model)] <= q.now)
      && (forall ids :: SkipIds(ids) in q.filters ==> id !in ids)
      && (forall types :: AllowTypes(types) in q.filters ==> s.channels[id].channel.kind in types)
      && (SkipOnlyChat in q.filters ==> !s.channels[id].channel.onlyChat)
      && (forall model :: NeedsStream(model) in q.filters ==> model !in s.channels[id].channel.disabledStream)
  {
    if Usable(s, id, q) {
      forall f | f in q.filters ensures !Rejects(f, id, s.channels[id]) {}
      assert SkipOnlyChat in q.filters ==> !Rejects(SkipOnlyChat, id, s.channels[id]);
    }
  }

  function UsableIds(s: Chooser, ids: seq<int>, q: Query): (r: seq<int>)
    ensures forall id :: id in r <==> id in ids && Usable(s, id, q)
    ensures Known(s, r)
  {
    if ids == [] then []
    else
      var last := ids[|ids| - 1];
      assert ids == ids[..|ids| - 1] + [last];
      UsableIds(s, ids[..|ids| - 1], q) + if Usable(s, last, q) then [last] else []
  }

  predicate Known(s: Chooser, ids: seq<int>) {
    forall i | 0 <= i < |ids| :: ids[i] in s.channels
  }

  function Weights(s: Chooser, ids: seq<int>): (ws: seq<nat>)
    requires Known(s, ids)
    ensures |ws| == |ids| && forall i | 0 <= i < |ids| :: ws[i] == s.channels[ids[i]].channel.weight
  {
    if ids == [] then []
    else Weights(s, ids[..|ids| - 1]) + [s.channels[ids[|ids| - 1]].channel.weight]
  }

  ghost predicate PositiveWeights(s: Chooser) {
    forall id | id in s.channels :: s.channels[id].channel.weight >= 1
  }

  lemma PositiveSum(s: Chooser, ids: seq<int>)
    requires PositiveWeights(s) && Known(s, ids) && ids != []
    ensures Sum(Weights(s, ids)) >= 1
  {
    var id := ids[0];
    assert id in s.channels;
    assert s.channels[id].channel.weight >= 1;
    assert Weights(s, ids)[0] == s.channels[id].channel.weight;
  }

  /** rand.Intn(n), from a source of randomness; every value below n is possible. */
  function Intn(random: nat, n: nat): (r: nat)
    requires n > 0
    ensures r < n
  {
    random % n
  }

  /** The id chosen from one bucket. */
  function Draw(s: Chooser, ids: seq<int>, q: Query, random: nat): (r: Option<int>)
    requires PositiveWeights(s)
  {
    var usable := UsableIds(s, ids, q);
    if usable == [] then None
    else if |usable| == 1 then Some(usable[0])
    else
      PositiveSum(s, usable);
      match Pick(Weights(s, usable), Intn(random, Sum(Weights(s, usable))))
      case None => None
      case Some(i) => Some(usable[i])
  }

  /** A draw fails only when nothing in the bucket is usable: the subtraction never runs off the end. */
  lemma DrawFindsUsable(s: Chooser, ids: seq<int>, q: Query, random: nat)
    requires PositiveWeights(s)
    ensures Draw(s, ids, q, random) == None <==> forall id | id in ids :: !Usable(s, id, q)
    ensures Draw(s, ids, q, random).Some? ==> Draw(s, ids, q, random).value in UsableIds(s, ids, q)
  {
    var usable := UsableIds(s, ids, q);
    if usable == [] {
      assert forall id | id in ids :: id !in usable;
    } else {
      var first := usable[0];
      assert first in usable;
      assert first in ids && Usable(s, first, q);
      var ws := Weights(s, usable);
      PositiveSum(s, usable);
      PickIsInterval(ws, Intn(random, Sum(ws)), 0);
      assert Draw(s, ids, q, random).Some? && !(forall id | id in ids :: !Usable(s, id, q));
    }
  }

  /** How many random numbers below n draw the channel from the bucket. */
  function DrawHits(s: Chooser, ids: seq<int>, q: Query, id: int, n: nat): int
    requires PositiveWeights(s)
  {
    if n == 0 then 0 else DrawHits(s, ids, q, id, n - 1) + if Draw(s, ids, q, n - 1) == Some(id) then 1 else 0
  }

  /** Below the total weight the draw takes the random number as it is. */
  lemma DrawPicks(s: Chooser, ids: seq<int>, q: Query, random: nat)
    requires PositiveWeights(s)
    ensures
      var usable := UsableIds(s, ids, q);
      random < Sum(Weights(s, usable)) ==>
        Pick(Weights(s, usable), random).Some? && Draw(s, ids, q, random) == Some(usable[Pick(Weights(s, usable), random).value])
  {
    var usable := UsableIds(s, ids, q);
    var ws := Weights(s, usable);
    if random < Sum(ws) {
      PickIsInterval(ws, random, 0);
      IntnBelow(random, Sum(ws));
      assert |usable| == 1 ==> Pick(ws, random).value == 0;
    }
  }

  lemma IntnBelow(random: nat, n: nat)
    requires random < n
    ensures Intn(random, n) == random
  {
  }

  lemma {:induction false} DrawHitsAreHits(s: Chooser, ids: seq<int>, q: Query, id: int, n: nat)
    requires PositiveWeights(s) && n <= Sum(Weights(s, UsableIds(s, ids, q)))
    ensures DrawHits(s, ids, q, id, n) == Hits(UsableIds(s, ids, q), Weights(s, UsableIds(s, ids, q)), id, n)
    decreases n
  {
    if n > 0 {
      DrawHitsAreHits(s, ids, q, id, n - 1);
      DrawPicks(s, ids, q, n - 1);
    }
  }

  /**
   Among the random numbers below the total weight of what is usable in a bucket, a channel is drawn by
   as many as its weight times how often it is in the bucket.
   */
  lemma ShareOfChannel(s: Chooser, ids: seq<int>, q: Query, id: int)
    requires PositiveWeights(s) && id in s.channels
    ensures var usable := UsableIds(s, ids, q);
            var times: int, weight: int := multiset(usable)[id], s.channels[id].channel.weight;
            DrawHits(s, ids, q, id, Sum(Weights(s, usable))) == times * weight
    ensures multiset(UsableIds(s, ids, q))[id] == if Usable(s, id, q) then multiset(ids)[id] else 0
  {
    var usable := UsableIds(s, ids, q);
    DrawHitsAreHits(s, ids, q, id, Sum(Weights(s, usable)));
    ShareOfLabel(usable, Weights(s, usable), id);
    WeightPerOccurrence(s, usable, id);
    TimesIsProduct(multiset(usable)[id], s.channels[id].channel.weight);
    UsableKeepsMultiplicity(s, ids, q, id);
  }

  lemma {:induction false} UsableKeepsMultiplicity(s: Chooser, ids: seq<int>, q: Query, id: int)
    ensures multiset(UsableIds(s, ids, q))[id] == if Usable(s, id, q) then multiset(ids)[id] else 0
  {
    if ids != [] {
      var before, last := ids[..|ids| - 1], ids[|ids| - 1];
      UsableKeepsMultiplicity(s, before, q, id);
      CountLast(ids, id);
      CountConcat(UsableIds(s, before, q), [last], id);
    }
  }

  lemma {:induction false} WeightPerOccurrence(s: Chooser, ids: seq<int>, id: int)
    requires id in s.channels && Known(s, ids)
    ensures WeightOf(ids, Weights(s, ids), id) == Times(multiset(ids)[id], s.channels[id].channel.weight)
  {
    if ids != [] {
      var before, last := ids[..|ids| - 1], ids[|ids| - 1];
      WeightPerOccurrence(s, before, id);
      assert ids == before + [last];
      assert Weights(s, before) == Weights(s, ids)[..|ids| - 1];
    }
  }

  /** One turn of the collecting loop. */
  lemma CollectOne(s: Chooser, ids: seq<int>, i: nat, q: Query)
    requires i < |ids|
    ensures
      var before, after := UsableIds(s, ids[..i], q), UsableIds(s, ids[..i + 1], q);
      if Usable(s, ids[i], q) then
        after == before + [ids[i]] && Sum(Weights(s, after)) == Sum(Weights(s, before)) + s.channels[ids[i]].channel.weight
      else after == before
  {
    var before, id := UsableIds(s, ids[..i], q), ids[i];
    assert ids[..i + 1][..i] == ids[..i];
    if Usable(s, id, q) {
      var w := s.channels[id].channel.weight;
      assert (before + [id])[..|before|] == before;
      SumConcat(Weights(s, before), [w]);
      assert Sum([w]) == w;
    }
  }

  // ----- The next channel -----

  datatype NextResult = Found(channel: Channel) | GroupNotFound | ModelNotFound | ChannelNotFound

  /** The rule entry for a model: under its own name, else under the first pattern that matches. */
  function Resolve(s: Chooser, group: string, model: string): Option<string>
    requires group in s.rule
  {
    if model in s.rule[group] then Some(model)
    else
      var pattern := FirstMatch(s.patterns, model);
      if pattern in s.rule[group] then Some(pattern) else None
  }

  function FirstDraw(s: Chooser, buckets: Buckets, q: Query, random: nat): Option<int>
    requires PositiveWeights(s)
  {
    if buckets == [] then None
    else
      var draw := Draw(s, buckets[0], q, random);
      if draw.Some? then draw else FirstDraw(s, buckets[1..], q, random)
  }

  /** The id is in bucket i, and nothing in the buckets before it is usable. */
  ghost predicate FirstUsableIn(s: Chooser, buckets: Buckets, q: Query, i: nat, id: int)
    requires i < |buckets|
  {
    id in buckets[i] && forall j, x | 0 <= j < i && x in buckets[j] :: !Usable(s, x, q)
  }

  lemma {:induction false} FirstDrawIsFirst(s: Chooser, buckets: Buckets, q: Query, random: nat)
    requires PositiveWeights(s)
    ensures var r := FirstDraw(s, buckets, q, random);
            match r
            case None => forall i, id | 0 <= i < |buckets| && id in buckets[i] :: !Usable(s, id, q)
            case Some(id) => Usable(s, id, q) && exists i :: 0 <= i < |buckets| && FirstUsableIn(s, buckets, q, i, id)
  {
    if buckets != [] {
      DrawFindsUsable(s, buckets[0], q, random);
      FirstDrawIsFirst(s, buckets[1..], q, random);
      var draw, rest := Draw(s, buckets[0], q, random), FirstDraw(s, buckets[1..], q, random);
      if draw.Some? {
        assert draw.value in UsableIds(s, buckets[0], q);
        assert FirstUsableIn(s, buckets, q, 0, draw.value);
      } else if rest.Some? {
        var i :| 0 <= i < |buckets[1..]| && FirstUsableIn(s, buckets[1..], q, i, rest.value);
        forall j, x | 0 <= j < i + 1 && x in buckets[j] ensures !Usable(s, x, q) {
          if j > 0 {
            assert x in buckets[1..][j - 1];
          }
        }
        assert FirstUsableIn(s, buckets, q, i + 1, rest.value);
      } else {
        forall i, id | 0 <= i < |buckets| && id in buckets[i] ensures !Usable(s, id, q) {
          if i > 0 {
            assert id in buckets[1..][i - 1];
          }
        }
      }
    }
  }

  /** ChannelsChooser.Next. */
  function Next(s: Chooser, group: string, q: Query, random: nat): NextResult
    requires PositiveWeights(s)
  {
    if group !in s.rule then GroupNotFound
    else
      var entry := Resolve(s, group, q.model);
      if entry == None then ModelNotFound
      else
        var draw := FirstDraw(s, s.rule[group][entry.value], q, random);
        if draw.Some? && draw.value in s.channels then Found(s.channels[draw.value].channel) else ChannelNotFound
  }

  // ----- Against the rows -----

  function Normalized(c: Channel): Channel {
    if c.weight == 0 then c.(weight := DEFAULT_CHANNEL_WEIGHT) else c
  }

  /** The chooser holds the index of these rows; flags and cooldowns are whatever they have become. */
  ghost predicate Loaded(s: Chooser, rows: seq<Channel>) {
    && DistinctIds(rows)
    && (forall id :: id in s.channels <==> exists c :: c in rows && c.enabled && c.id == id)
    && (forall c | c in rows && c.enabled :: s.channels[c.id].channel == Normalized(c))
    && Indexes(Listings(rows), s.rule)
    && MatchesListed(Listings(rows), s.patterns)
    && GroupsListed(Listings(rows), s.modelGroup)
  }

  /** A row that a naive scan finds for the group and the resolved model, and that may be used. */
  ghost predicate Candidate(s: Chooser, rows: seq<Channel>, group: string, entry: string, q: Query, c: Channel) {
    c in rows && c.enabled && RowLists(c, group, entry) && Usable(s, c.id, q)
  }

  /** A row names the pair. */
  ghost predicate Offered(rows: seq<Channel>, group: string, model: string) {
    exists c :: c in rows && c.enabled && RowLists(c, group, model)
  }

  lemma OfferedIsListed(rows: seq<Channel>, group: string, model: string)
    ensures Offered(rows, group, model) <==> Listed(Listings(rows), group, model)
  {
    if Offered(rows, group, model) {
      var c :| c in rows && c.enabled && RowLists(c, group, model);
      var l := Listing(group, model, c.priority, c.id);
      ListingsMembers(rows, l);
      assert StandsFor(l, c);
    }
    if Listed(Listings(rows), group, model) {
      var l :| l in Listings(rows) && l.group == group && l.model == model;
      ListingsMembers(rows, l);
    }
  }

  lemma WeightsAfterLoad(s: Chooser, rows: seq<Channel>)
    requires Loaded(s, rows)
    ensures PositiveWeights(s)
  {
    forall id | id in s.channels ensures s.channels[id].channel.weight >= 1 {
      var c :| c in rows && c.enabled && c.id == id;
    }
  }

  /** The buckets of an entry hold exactly the ids of the rows naming it, by descending priority. */
  lemma BucketMember(s: Chooser, rows: seq<Channel>, group: string, entry: string, priorities: seq<int>, i: nat, id: int)
    requires Loaded(s, rows) && group in s.rule && entry in s.rule[group]
    requires BucketsBy(Listings(rows), group, entry, s.rule[group][entry], priorities) && i < |priorities|
    ensures id in s.rule[group][entry][i]
       <==> exists c :: c in rows && c.enabled && c.id == id && c.priority == priorities[i] && RowLists(c, group, entry)
  {
    IdsAtMembers(Listings(rows), group, entry, priorities[i], id);
    ListingsMembers(rows, Listing(group, entry, priorities[i], id));
    var l := Listing(group, entry, priorities[i], id);
    assert forall c :: StandsFor(l, c) <==> c.enabled && c.id == id && c.priority == priorities[i] && RowLists(c, group, entry);
  }

  /** Every row naming an entry is in the bucket of its priority. */
  lemma RowIsInBucket(s: Chooser, rows: seq<Channel>, group: string, entry: string, priorities: seq<int>, c: Channel)
    returns (i: nat)
    requires Loaded(s, rows) && group in s.rule && entry in s.rule[group]
    requires BucketsBy(Listings(rows), group, entry, s.rule[group][entry], priorities)
    requires c in rows && c.enabled && RowLists(c, group, entry)
    ensures i < |priorities| && priorities[i] == c.priority && c.id in s.rule[group][entry][i]
  {
    var l := Listing(group, entry, c.priority, c.id);
    assert StandsFor(l, c);
    ListingsMembers(rows, l);
    IdsAtMembers(Listings(rows), group, entry, c.priority, c.id);
    i :| 0 <= i < |priorities| && priorities[i] == c.priority;
  }

  /** What Next answers, said without the index. */
  ghost predicate MeetsScan(s: Chooser, rows: seq<Channel>, group: string, entry: string, q: Query, r: NextResult) {
    match r
    case Found(channel) =>
      exists c :: Candidate(s, rows, group, entry, q, c) && channel == Normalized(c) &&
        forall d | Candidate(s, rows, group, entry, q, d) :: d.priority <= c.priority
    case ChannelNotFound => forall d :: !Candidate(s, rows, group, entry, q, d)
    case _ => false
  }

  /** What Next owes for a group: which name is unknown, or the outcome of the scan for the resolved entry. */
  ghost predicate Answers(s: Chooser, rows: seq<Channel>, group: string, q: Query, r: NextResult) {
    var pattern := FirstMatch(s.patterns, q.model);
    if forall m :: !Offered(rows, group, m) then r == GroupNotFound
    else if Offered(rows, group, q.model) then MeetsScan(s, rows, group, q.model, q, r)
    else if Offered(rows, group, pattern) then MeetsScan(s, rows, group, pattern, q, r)
    else r == ModelNotFound
  }

  /**
   Next against the rows: the error says whether the group or the model is unknown, and otherwise a
   candidate of maximal priority is returned, failing exactly when there is none.
   */
  lemma NextMeetsScan(s: Chooser, rows: seq<Channel>, group: string, q: Query, random: nat)
    requires Loaded(s, rows)
    ensures PositiveWeights(s)
    ensures Answers(s, rows, group, q, Next(s, group, q, random))
  {
    WeightsAfterLoad(s, rows);
    OfferedIffIndexed(s, rows, group);
    if group in s.rule && Resolve(s, group, q.model).Some? {
      EntryMeetsScan(s, rows, group, Resolve(s, group, q.model).value, q, random);
    }
  }

  lemma OfferedIffIndexed(s: Chooser, rows: seq<Channel>, group: string)
    requires Loaded(s, rows)
    ensures forall m :: Offered(rows, group, m) <==> group in s.rule && m in s.rule[group]
    ensures group in s.rule <==> exists m :: Offered(rows, group, m)
  {
    forall m ensures Offered(rows, group, m) <==> group in s.rule && m in s.rule[group] {
      OfferedIsListed(rows, group, m);
    }
    if group in s.rule {
      ghost var some := SomeElement(s.rule[group].Keys);
      assert s.rule[group].Keys != {};
      var m :| m in s.rule[group].Keys;
      assert Offered(rows, group, m);
    }
  }

  lemma EntryMeetsScan(s: Chooser, rows: seq<Channel>, group: string, entry: string, q: Query, random: nat)
    requires Loaded(s, rows) && PositiveWeights(s)
    requires group in s.rule && entry in s.rule[group] && Resolve(s, group, q.model) == Some(entry)
    ensures MeetsScan(s, rows, group, entry, q, Next(s, group, q, random))
  {
    var buckets := s.rule[group][entry];
    var ps :| BucketsBy(Listings(rows), group, entry, buckets, ps);
    FirstDrawIsFirst(s, buckets, q, random);
    DrawMeetsScan(s, rows, group, entry, ps, q, FirstDraw(s, buckets, q, random), Next(s, group, q, random));
  }

  /** The draw over the buckets, given what FirstDrawIsFirst says of it. */
  lemma DrawMeetsScan(s: Chooser, rows: seq<Channel>, group: string, entry: string, ps: seq<int>, q: Query,
                      draw: Option<int>, r: NextResult)
    requires Loaded(s, rows) && group in s.rule && entry in s.rule[group]
    requires BucketsBy(Listings(rows), group, entry, s.rule[group][entry], ps)
    requires var buckets := s.rule[group][entry];
             match draw
             case None => forall i, id | 0 <= i < |buckets| && id in buckets[i] :: !Usable(s, id, q)
             case Some(id) => Usable(s, id, q) && exists i :: 0 <= i < |buckets| && FirstUsableIn(s, buckets, q, i, id)
    requires r == if draw.Some? && draw.value in s.channels then Found(s.channels[draw.value].channel) else ChannelNotFound
    ensures MeetsScan(s, rows, group, entry, q, r)
  {
    if draw.Some? {
      var i :| 0 <= i < |s.rule[group][entry]| && FirstUsableIn(s, s.rule[group][entry], q, i, draw.value);
      var c := FirstUsableIsBest(s, rows, group, entry, ps, q, i, draw.value);
    } else {
      NoneUsableNoCandidate(s, rows, group, entry, ps, q);
    }
  }

  lemma NoneUsableNoCandidate(s: Chooser, rows: seq<Channel>, group: string, entry: string, ps: seq<int>, q: Query)
    requires Loaded(s, rows) && group in s.rule && entry in s.rule[group]
    requires BucketsBy(Listings(rows), group, entry, s.rule[group][entry], ps)
    requires forall i, id | 0 <= i < |s.rule[group][entry]| && id in s.rule[group][entry][i] :: !Usable(s, id, q)
    ensures forall d :: !Candidate(s, rows, group, entry, q, d)
  {
    forall d ensures !Candidate(s, rows, group, entry, q, d) {
      if d in rows && d.enabled && RowLists(d, group, entry) {
        var j := RowIsInBucket(s, rows, group, entry, ps, d);
      }
    }
  }

  lemma FirstUsableIsBest(s: Chooser, rows: seq<Channel>, group: string, entry: string, ps: seq<int>, q: Query, i: nat, id: int)
    returns (c: Channel)
    requires Loaded(s, rows) && group in s.rule && entry in s.rule[group]
    requires BucketsBy(Listings(rows), group, entry, s.rule[group][entry], ps)
    requires i < |ps| && FirstUsableIn(s, s.rule[group][entry], q, i, id) && Usable(s, id, q)
    ensures Candidate(s, rows, group, entry, q, c) && c.id == id && s.channels[id].channel == Normalized(c)
    ensures forall d | Candidate(s, rows, group, entry, q, d) :: d.priority <= c.priority
  {
    BucketMember(s, rows, group, entry, ps, i, id);
    c :| c in rows && c.enabled && c.id == id && c.priority == ps[i] && RowLists(c, group, entry);
    forall d | Candidate(s, rows, group, entry, q, d) ensures d.priority <= c.priority {
      NoCandidateAbove(s, rows, group, entry, ps, q, i, id, d);
    }
  }

  lemma NoCandidateAbove(s: Chooser, rows: seq<Channel>, group: string, entry: string, ps: seq<int>, q: Query, i: nat, id: int, d: Channel)
    requires Loaded(s, rows) && group in s.rule && entry in s.rule[group]
    requires BucketsBy(Listings(rows), group, entry, s.rule[group][entry], ps)
    requires i < |ps| && FirstUsableIn(s, s.rule[group][entry], q, i, id) && Candidate(s, rows, group, entry, q, d)
    ensures d.priority <= ps[i]
  {
    var j := RowIsInBucket(s, rows, group, entry, ps, d);
    assert !(j < i);
    assert i == j || ps[i] > ps[j];
  }

  // ----- Shadowed patterns -----

  /**
   A model no row names exactly is served only if the first matching pattern in the chooser's list, of
   whatever group, happens to be one that the group offers.
   */
  lemma PatternServesIff(s: Chooser, rows: seq<Channel>, group: string, q: Query, random: nat)
    requires Loaded(s, rows) && !Offered(rows, group, q.model) && exists m :: Offered(rows, group, m)
    ensures PositiveWeights(s)
    ensures Next(s, group, q, random) != ModelNotFound <==> Offered(rows, group, FirstMatch(s.patterns, q.model))
    ensures IsFirstCover(s.patterns, q.model, FirstMatch(s.patterns, q.model))
  {
    NextMeetsScan(s, rows, group, q, random);
    FirstMatchIsFirstCover(s.patterns, q.model);
  }

  lemma OneName(name: string)
    requires name != "" && ',' !in name && TrimSpace(name) == name
    ensures NamesIn(name) == [name]
  {
    SplitOfPlain(name, ',');
    assert [name][..0] == [];
    assert Trimmed([name]) == Trimmed([]) + [name];
  }

  lemma ListingsOfTwo(c: Channel, d: Channel)
    requires c.enabled && d.enabled && NamesIn(c.group) == [c.group] && NamesIn(c.models) == [c.models]
    requires NamesIn(d.group) == [d.group] && NamesIn(d.models) == [d.models]
    ensures Listings([c, d]) == [Listing(c.group, c.models, c.priority, c.id), Listing(d.group, d.models, d.priority, d.id)]
  {
    assert [c, d][..1] == [c] && [c][..0] == [];
    ListingsOfOneRow(c);
    ListingsOfOneRow(d);
    assert Listings([c]) == [] + RowListings(c);
  }

  lemma ListingsOfOneRow(c: Channel)
    requires c.enabled && NamesIn(c.group) == [c.group] && NamesIn(c.models) == [c.models]
    ensures RowListings(c) == [Listing(c.group, c.models, c.priority, c.id)]
  {
    assert [c.group][..0] == [] && [c.models][..0] == [];
    assert ModelListings(c, c.group, [c.models]) == [] + [Listing(c.group, c.models, c.priority, c.id)];
    assert GroupListings(c, [c.group], [c.models]) == [] + ModelListings(c, c.group, [c.models]);
  }

  lemma ExamplePatterns()
    ensures Matches("x*", "xy") && FirstMatch(["*", "x*"], "xy") == "*" && IsWildcard("*") && IsWildcard("x*")
    ensures forall name | name in {"a", "b", "*", "x*"} :: NamesIn(name) == [name]
  {
    assert "x*"[..1] == "x" && "*"[..0] == "";
    assert !IsWildcard("x") && !IsWildcard("");
    assert TrimStars("x") == "x" && TrimStars("") == "";
    assert TrimStars("x*") == TrimStars("x*"[..1]) && TrimStars("*") == TrimStars("*"[..0]);
    forall name | name in {"a", "b", "*", "x*"} ensures NamesIn(name) == [name] {
      OneName(name);
    }
  }

  lemma TwoRowsLoaded(c: Channel, d: Channel, s: Chooser)
    requires c.enabled && d.enabled && c.id != d.id && c.weight == 1 && d.weight == 1
    requires s.channels == map[c.id := Choice(c, false), d.id := Choice(d, false)]
    requires Indexes(Listings([c, d]), s.rule) && MatchesListed(Listings([c, d]), s.patterns)
    requires GroupsListed(Listings([c, d]), s.modelGroup)
    ensures Loaded(s, [c, d])
  {
    TwoRowsKnown(c, d, s.channels);
  }

  lemma TwoRowsKnown(c: Channel, d: Channel, channels: map<int, Choice>)
    requires c.enabled && d.enabled && c.id != d.id && c.weight == 1 && d.weight == 1
    requires channels == map[c.id := Choice(c, false), d.id := Choice(d, false)]
    ensures DistinctIds([c, d])
    ensures forall id :: id in channels <==> exists e :: e in [c, d] && e.enabled && e.id == id
    ensures forall e | e in [c, d] && e.enabled :: channels[e.id].channel == Normalized(e)
  {
    assert forall e :: e in [c, d] <==> e == c || e == d;
    assert Normalized(c) == c && Normalized(d) == d;
    assert c in [c, d] && d in [c, d];
  }

  lemma TwoRowsIndexed(c: Channel, d: Channel, rule: Rule, patterns: seq<string>, modelGroup: map<string, set<string>>)
    requires c.enabled && d.enabled
    requires c.group != d.group && c.models != d.models && IsWildcard(c.models) && IsWildcard(d.models)
    requires NamesIn(c.group) == [c.group] && NamesIn(c.models) == [c.models]
    requires NamesIn(d.group) == [d.group] && NamesIn(d.models) == [d.models]
    requires rule == map[c.group := map[c.models := [[c.id]]], d.group := map[d.models := [[d.id]]]]
    requires patterns == [d.models, c.models] && modelGroup == map[c.models := {c.group}, d.models := {d.group}]
    ensures var ls := Listings([c, d]); Indexes(ls, rule) && MatchesListed(ls, patterns) && GroupsListed(ls, modelGroup)
  {
    var l, l' := Listing(c.group, c.models, c.priority, c.id), Listing(d.group, d.models, d.priority, d.id);
    ListingsOfTwo(c, d);
    TwoListingsIndexed(l, l', rule);
    TwoListingsMatched(l, l', patterns, modelGroup);
  }

  lemma ExampleRule(rule: Rule)
    requires rule == map["a" := map["x*" := [[1]]], "b" := map["*" := [[2]]]]
    ensures "a" in rule && "xy" !in rule["a"] && "*" !in rule["a"]
  {
    assert "xy"[1] != "x*"[1] && |"*"| != |"x*"| && "a"[0] != "b"[0];
    assert rule["a"] == map["x*" := [[1]]];
  }

  lemma ExampleChooser() returns (s: Chooser, c: Channel, d: Channel)
    ensures Loaded(s, [c, d]) && c.enabled && RowLists(c, "a", "x*")
    ensures "a" in s.rule && "xy" !in s.rule["a"] && "*" !in s.rule["a"] && s.patterns == ["*", "x*"]
  {
    c := Channel(1, 0, "a", "x*", 1, 0, true, false, []);
    d := Channel(2, 0, "b", "*", 1, 0, true, false, []);
    s := Chooser(map[1 := Choice(c, false), 2 := Choice(d, false)],
                 map["a" := map["x*" := [[1]]], "b" := map["*" := [[2]]]],
                 ["*", "x*"], map["x*" := {"a"}, "*" := {"b"}], map[]);
    ExamplePatterns();
    ExampleRule(s.rule);
    TwoRowsIndexed(c, d, s.rule, s.patterns, s.modelGroup);
    TwoRowsLoaded(c, d, s);
  }

  /**
   It fails for a group whose own pattern matches: group a offers x*, group b offers *, and the list
   happens to start with *; then a request of group a for model xy finds no model.
   */
  lemma PatternOfOtherGroupShadows(random: nat) returns (s: Chooser, rows: seq<Channel>, q: Query)
    ensures Loaded(s, rows) && PositiveWeights(s)
    ensures Offered(rows, "a", "x*") && CoversName("x*", q.model)
    ensures Next(s, "a", q, random) == ModelNotFound
  {
    var c, d;
    s, c, d := ExampleChooser();
    rows, q := [c, d], Query("xy", [], 0);
    assert c in rows && Offered(rows, "a", "x*");
    WeightsAfterLoad(s, rows);
    ExamplePatterns();
    MatchesIff("x*", q.model);
    UnresolvedFails(s, "a", q, random);
  }

  lemma UnresolvedFails(s: Chooser, group: string, q: Query, random: nat)
    requires PositiveWeights(s) && group in s.rule
    requires q.model !in s.rule[group] && FirstMatch(s.patterns, q.model) !in s.rule[group]
    ensures Next(s, group, q, random) == ModelNotFound
  {
  }

  lemma ListedInTwo(l: Listing, l': Listing, g: string, m: string)
    ensures Listed([l, l'], g, m) <==> (g == l.group && m == l.model) || (g == l'.group && m == l'.model)
  {
    assert l in [l, l'] && l' in [l, l'];
  }

  lemma TwoListingsIndexed(l: Listing, l': Listing, rule: Rule)
    requires l.group != l'.group && l.model != l'.model
    requires rule == map[l.group := map[l.model := [[l.id]]], l'.group := map[l'.model := [[l'.id]]]]
    ensures Indexes([l, l'], rule)
  {
    TwoBuckets(l, l');
    forall g, m { ListedInTwo(l, l', g, m); }
    assert l.model in rule[l.group] && l'.model in rule[l'.group];
  }

  lemma TwoListingsMatched(l: Listing, l': Listing, patterns: seq<string>, modelGroup: map<string, set<string>>)
    requires l.group != l'.group && l.model != l'.model && IsWildcard(l.model) && IsWildcard(l'.model)
    requires patterns == [l'.model, l.model] && modelGroup == map[l.model := {l.group}, l'.model := {l'.group}]
    ensures MatchesListed([l, l'], patterns) && GroupsListed([l, l'], modelGroup)
  {
    forall g, m { ListedInTwo(l, l', g, m); }
    assert Listed([l, l'], l.group, l.model) && Listed([l, l'], l'.group, l'.model);
  }

  lemma TwoBuckets(l: Listing, l': Listing)
    requires l.group != l'.group && l.model != l'.model
    ensures BucketsBy([l, l'], l.group, l.model, [[l.id]], [l.priority])
    ensures BucketsBy([l, l'], l'.group, l'.model, [[l'.id]], [l'.priority])
  {
    forall g, m, p { IdsAtInTwo(l, l', g, m, p); }
    ListedInTwo(l, l', l.group, l.model);
    ListedInTwo(l, l', l'.group, l'.model);
  }

  lemma IdsAtInTwo(l: Listing, l': Listing, g: string, m: string, p: int)
    ensures IdsAt([l, l'], g, m, p) == (if Listing(g, m, p, l.id) == l then [l.id] else [])
                                     + (if Listing(g, m, p, l'.id) == l' then [l'.id] else [])
  {
    assert [l, l'][..1] == [l] && [l][..0] == [];
    assert IdsAt([l], g, m, p) == [] + if Listing(g, m, p, l.id) == l then [l.id] else [];
  }

  // ----- Cooldowns -----

  /** The cooldown map after SetCooldowns: LoadOrStore keeps an entry that is there, even an expired one. */
  function WithCooldown(cooldowns: map<(int, string), int>, id: int, model: string, now: int, seconds: int): map<(int, string), int> {
    if id == 0 || model == "" || seconds == 0 || (id, model) in cooldowns then cooldowns
    else cooldowns[(id, model) := now + seconds]
  }

  /** One that is set lasts for the given seconds from now, and no other cooldown changes. */
  lemma CooldownLasts(s: Chooser, id: int, model: string, now: int, seconds: int, key: (int, string), at: int)
    requires id != 0 && model != "" && seconds > 0
    ensures var started := s.(cooldowns := WithCooldown(s.cooldowns, id, model, now, seconds));
            InCooldown(started, key.0, key.1, at) <==>
            if key == (id, model) && key !in s.cooldowns then at - now < seconds else InCooldown(s, key.0, key.1, at)
  {
  }

  /**
   Setting a cooldown does not always start one: it takes effect exactly when the channel was already
   cooling down, or no entry was left over and the settings ask for a positive time.
   */
  lemma CooldownTakesEffectIff(s: Chooser, id: int, model: string, now: int, seconds: int)
    requires id != 0 && model != "" && seconds >= 0
    ensures InCooldown(s.(cooldowns := WithCooldown(s.cooldowns, id, model, now, seconds)), id, model, now)
       <==> InCooldown(s, id, model, now) || ((id, model) !in s.cooldowns && seconds > 0)
  {
  }

  /** The failing case: an expired entry that the hourly cleanup has not yet removed. */
  lemma ExpiredCooldownIsNotRenewed(s: Chooser, id: int, model: string, now: int, seconds: int)
    requires (id, model) in s.cooldowns && s.cooldowns[(id, model)] <= now
    ensures !InCooldown(s.(cooldowns := WithCooldown(s.cooldowns, id, model, now, seconds)), id, model, now)
  {
  }

  /** The cleanup removes nothing that is still in force, and after it every cooldown can be set again. */
  function CleanedUp(cooldowns: map<(int, string), int>, now: int): map<(int, string), int> {
    map key | key in cooldowns && now < cooldowns[key] :: cooldowns[key]
  }

  lemma CleanupIsInvisible(s: Chooser, id: int, model: string, now: int, later: int, seconds: int)
    requires now <= later
    ensures var cleaned := s.(cooldowns := CleanedUp(s.cooldowns, now));
            (InCooldown(cleaned, id, model, later) <==> InCooldown(s, id, model, later)) &&
            (id != 0 && model != "" && seconds > 0 ==>
               InCooldown(cleaned.(cooldowns := WithCooldown(cleaned.cooldowns, id, model, now, seconds)), id, model, now))
  {
  }

  // ----- The code -----

  class ChannelsChooser {
    var channels: map<int, Choice>
    var rule: Rule
    var patterns: seq<string>
    var modelGroup: map<string, set<string>>
    var cooldowns: map<(int, string), int>

    constructor ()
      ensures Snapshot() == Chooser(map[], map[], [], map[], map[])
    {
      channels, rule, patterns, modelGroup, cooldowns := map[], map[], [], map[], map[];
    }

    function Snapshot(): Chooser
      reads this
    {
      Chooser(channels, rule, patterns, modelGroup, cooldowns)
    }

    method SetCooldowns(channelId: int, modelName: string, now: int, seconds: int) returns (ok: bool)
      modifies this`cooldowns
      ensures ok == (channelId != 0 && modelName != "" && seconds != 0)
      ensures cooldowns == WithCooldown(old(cooldowns), channelId, modelName, now, seconds)
    {
      if channelId == 0 || modelName == "" || seconds == 0 {
        return false;
      }
      var key := (channelId, modelName);
      if key in cooldowns && now < cooldowns[key] {
        return true;
      }
      if key !in cooldowns {
        cooldowns := cooldowns[key := now + seconds];
      }
      return true;
    }

    method IsInCooldown(channelId: int, modelName: string, now: int) returns (r: bool)
      ensures r == InCooldown(Snapshot(), channelId, modelName, now)
    {
      if (channelId, modelName) !in cooldowns {
        return false;
      }
      return now < cooldowns[(channelId, modelName)];
    }

    method CleanupExpiredCooldowns(now: int)
      modifies this`cooldowns
      ensures cooldowns == CleanedUp(old(cooldowns), now)
    {
      var keys := cooldowns.Keys;
      while keys != {}
        invariant keys <= cooldowns.Keys <= old(cooldowns).Keys
        invariant forall k | k in cooldowns :: cooldowns[k] == old(cooldowns)[k]
        invariant forall k | k in old(cooldowns) && k !in keys :: k in cooldowns <==> now < old(cooldowns)[k]
        decreases keys
      {
        ghost var some := SomeElement(keys);
        var key :| key in keys;
        if now >= cooldowns[key] {
          cooldowns := cooldowns - {key};
        }
        keys := keys - {key};
      }
    }

    /** Enable or Disable; unknown ids are ignored, and the index stays that of the loaded rows. */
    method ChangeStatus(channelId: int, status: bool, ghost rows: seq<Channel>)
      modifies this`channels
      ensures channels == if channelId in old(channels)
                          then old(channels)[channelId := old(channels)[channelId].(disable := !status)] else old(channels)
      ensures old(Loaded(Snapshot(), rows)) ==> Loaded(Snapshot(), rows)
    {
      if channelId !in channels {
        return;
      }
      channels := channels[channelId := channels[channelId].(disable := !status)];
    }

    method Balance(channelIds: seq<int>, q: Query, random: nat) returns (r: Option<int>)
      requires PositiveWeights(Snapshot())
      ensures r == Draw(Snapshot(), channelIds, q, random)
    {
      var validChannels, totalWeight := Collect(channelIds, q);
      if |validChannels| == 0 {
        return None;
      }
      if |validChannels| == 1 {
        return Some(validChannels[0]);
      }
      PositiveSum(Snapshot(), validChannels);
      r := PickChannel(validChannels, Intn(random, totalWeight));
    }

    /** The collecting loop. */
    method Collect(channelIds: seq<int>, q: Query) returns (validChannels: seq<int>, totalWeight: nat)
      ensures validChannels == UsableIds(Snapshot(), channelIds, q)
      ensures totalWeight == Sum(Weights(Snapshot(), validChannels))
    {
      totalWeight, validChannels := 0, [];
      ghost var s := Snapshot();
      for i := 0 to |channelIds|
        invariant validChannels == UsableIds(s, channelIds[..i], q)
        invariant totalWeight == Sum(Weights(s, validChannels))
      {
        var id := channelIds[i];
        var skip := Skips(id, q);
        CollectOne(s, channelIds, i, q);
        if !skip {
          totalWeight := totalWeight + channels[id].channel.weight;
          validChannels := validChannels + [id];
        }
      }
      assert channelIds[..|channelIds|] == channelIds;
    }

    method Skips(id: int, q: Query) returns (skip: bool)
      ensures skip == !Usable(Snapshot(), id, q)
    {
      skip := id !in channels || channels[id].disable;
      if !skip {
        skip := IsInCooldown(id, q.model, q.now);
      }
      if !skip {
        skip := exists f | f in q.filters :: Rejects(f, id, channels[id]);
      }
    }

    /** The subtraction loop of the draw. */
    method PickChannel(validChannels: seq<int>, choice: nat) returns (r: Option<int>)
      requires Known(Snapshot(), validChannels)
      ensures r == match Pick(Weights(Snapshot(), validChannels), choice)
                   case None => None
                   case Some(i) => Some(validChannels[i])
    {
      var choiceWeight: int := choice;
      ghost var ws := Weights(Snapshot(), validChannels);
      ghost var drawn := choiceWeight;
      for i := 0 to |validChannels|
        invariant choiceWeight >= 0
        invariant Pick(ws, drawn) == match Pick(ws[i..], choiceWeight)
                                     case None => None
                                     case Some(k) => Some(i + k)
      {
        choiceWeight := choiceWeight - channels[validChannels[i]].channel.weight;
        if choiceWeight < 0 {
          return Some(validChannels[i]);
        }
      }
      return None;
    }

    method NextChannel(group: string, q: Query, random: nat) returns (r: NextResult)
      requires PositiveWeights(Snapshot())
      ensures r == Next(Snapshot(), group, q, random)
    {
      if group !in rule {
        return GroupNotFound;
      }
      var entry := q.model;
      if entry !in rule[group] {
        entry := GetModelsWithMatch(patterns, q.model);
        if entry !in rule[group] {
          return ModelNotFound;
        }
      }
      var channelsPriority := rule[group][entry];
      for i := 0 to |channelsPriority|
        invariant FirstDraw(Snapshot(), channelsPriority, q, random) == FirstDraw(Snapshot(), channelsPriority[i..], q, random)
      {
        var id := Balance(channelsPriority[i], q, random);
        DrawFindsUsable(Snapshot(), channelsPriority[i], q, random);
        if id.Some? {
          return Found(channels[id.value].channel);
        }
      }
      return ChannelNotFound;
    }

    /** Rebuild everything from the enabled rows; cooldowns stay. */
    method Load(rows: seq<Channel>)
      requires DistinctIds(rows)
      modifies this
      ensures Loaded(Snapshot(), rows) && cooldowns == old(cooldowns)
      ensures forall id | id in channels :: !channels[id].disable
    {
      var newChannels, channelGroups, newMatch, newModelGroup := ScanRows(rows);
      var newGroup := BuildRule(channelGroups, Listings(rows));
      var newMatchList := ListMatches(newMatch);
      rule, channels, patterns, modelGroup := newGroup, newChannels, newMatchList, newModelGroup;
    }
  }

  /** The first half of Load: everything that is collected row by row. */
  method ScanRows(rows: seq<Channel>)
    returns (newChannels: map<int, Choice>, channelGroups: Accumulator, newMatch: set<string>, newModelGroup: map<string, set<string>>)
    requires DistinctIds(rows)
    ensures ChannelsOf(rows, newChannels) && Built(Listings(rows), channelGroups, newMatch, newModelGroup)
  {
    newChannels, channelGroups, newMatch, newModelGroup := map[], map[], {}, map[];
    ghost var done: seq<Listing> := [];
    for i := 0 to |rows|
      invariant done == Listings(rows[..i]) && Built(done, channelGroups, newMatch, newModelGroup)
      invariant ChannelsOf(rows[..i], newChannels)
    {
      ListingsGrow(rows, i);
      newChannels := AddChannel(rows, i, newChannels);
      if rows[i].enabled {
        channelGroups, newMatch, newModelGroup, done := AddRow(rows[i], channelGroups, newMatch, newModelGroup, done);
      }
    }
    assert rows[..|rows|] == rows;
  }

  lemma ListingsGrow(rows: seq<Channel>, i: nat)
    requires i < |rows|
    ensures Listings(rows[..i + 1]) == if rows[i].enabled then Listings(rows[..i]) + RowListings(rows[i]) else Listings(rows[..i])
  {
    assert rows[..i + 1][..i] == rows[..i];
    if !rows[i].enabled {
      assert RowListings(rows[i]) == [] && Listings(rows[..i]) + [] == Listings(rows[..i]);
    }
  }

  /** The entry of one row, with the default for a weight of zero. */
  method AddChannel(rows: seq<Channel>, i: nat, newChannels: map<int, Choice>) returns (newChannels': map<int, Choice>)
    requires DistinctIds(rows) && i < |rows| && ChannelsOf(rows[..i], newChannels)
    ensures ChannelsOf(rows[..i + 1], newChannels')
  {
    ChannelsGrow(rows, i, newChannels);
    newChannels' := newChannels;
    var channel := rows[i];
    if channel.enabled {
      if channel.weight == 0 {
        channel := channel.(weight := DEFAULT_CHANNEL_WEIGHT);
      }
      newChannels' := newChannels[channel.id := Choice(channel, false)];
    }
  }

  ghost predicate Wildcards(listings: seq<Listing>, patterns: set<string>) {
    forall p :: p in patterns <==> IsWildcard(p) && exists g :: Listed(listings, g, p)
  }

  ghost predicate ChannelsOf(rows: seq<Channel>, channels: map<int, Choice>) {
    && (forall id :: id in channels <==> exists c :: c in rows && c.enabled && c.id == id)
    && (forall c | c in rows && c.enabled :: channels[c.id] == Choice(Normalized(c), false))
  }

  lemma ChannelsGrow(rows: seq<Channel>, i: nat, channels: map<int, Choice>)
    requires DistinctIds(rows) && i < |rows| && ChannelsOf(rows[..i], channels)
    ensures ChannelsOf(rows[..i + 1], if rows[i].enabled then channels[rows[i].id := Choice(Normalized(rows[i]), false)] else channels)
  {
    var row := rows[i];
    assert forall c :: c in rows[..i + 1] <==> c in rows[..i] || c == row;
    forall c | c in rows[..i] && c.enabled && row.enabled ensures c.id != row.id {
      var j :| 0 <= j < i && rows[j] == c;
    }
  }

  /** The maps under construction agree with what has been listed so far. */
  ghost predicate Built(listings: seq<Listing>, channelGroups: Accumulator, newMatch: set<string>, newModelGroup: map<string, set<string>>) {
    Accumulates(channelGroups, listings) && Wildcards(listings, newMatch) && GroupsListed(listings, newModelGroup)
  }

  /** The two inner loops of Load for one row. */
  method AddRow(channel: Channel, channelGroups: Accumulator, newMatch: set<string>, newModelGroup: map<string, set<string>>,
                ghost done: seq<Listing>)
    returns (channelGroups': Accumulator, newMatch': set<string>, newModelGroup': map<string, set<string>>,
             ghost done': seq<Listing>)
    requires channel.enabled && Built(done, channelGroups, newMatch, newModelGroup)
    ensures done' == done + RowListings(channel) && Built(done', channelGroups', newMatch', newModelGroup')
  {
    channelGroups', newMatch', newModelGroup', done' :=
      AddGroups(channel, NamesIn(channel.group), NamesIn(channel.models), channelGroups, newMatch, newModelGroup, done);
  }

  method AddGroups(channel: Channel, groups: seq<string>, models: seq<string>, channelGroups: Accumulator, newMatch: set<string>,
                   newModelGroup: map<string, set<string>>, ghost done: seq<Listing>)
    returns (channelGroups': Accumulator, newMatch': set<string>, newModelGroup': map<string, set<string>>,
             ghost done': seq<Listing>)
    requires Built(done, channelGroups, newMatch, newModelGroup)
    ensures done' == done + GroupListings(channel, groups, models) && Built(done', channelGroups', newMatch', newModelGroup')
  {
    channelGroups', newMatch', newModelGroup', done' := channelGroups, newMatch, newModelGroup, done;
    for j := 0 to |groups|
      invariant done' == done + GroupListings(channel, groups[..j], models)
      invariant Built(done', channelGroups', newMatch', newModelGroup')
    {
      assert groups[..j + 1][..j] == groups[..j];
      channelGroups', newMatch', newModelGroup', done' :=
        AddGroup(channel, groups[j], models, channelGroups', newMatch', newModelGroup', done');
    }
    assert groups[..|groups|] == groups;
  }

  method AddGroup(channel: Channel, group: string, models: seq<string>, channelGroups: Accumulator, newMatch: set<string>,
                  newModelGroup: map<string, set<string>>, ghost done: seq<Listing>)
    returns (channelGroups': Accumulator, newMatch': set<string>, newModelGroup': map<string, set<string>>,
             ghost done': seq<Listing>)
    requires Built(done, channelGroups, newMatch, newModelGroup)
    ensures done' == done + ModelListings(channel, group, models) && Built(done', channelGroups', newMatch', newModelGroup')
  {
    channelGroups', newMatch', newModelGroup', done' := channelGroups, newMatch, newModelGroup, done;
    for k := 0 to |models|
      invariant done' == done + ModelListings(channel, group, models[..k])
      invariant Built(done', channelGroups', newMatch', newModelGroup')
    {
      assert models[..k + 1][..k] == models[..k];
      var l := Listing(group, models[k], channel.priority, channel.id);
      channelGroups', newMatch', newModelGroup' := AddListing(l, channelGroups', newMatch', newModelGroup', done');
      done' := done' + [l];
    }
    assert models[..|models|] == models;
  }

  method AddListing(l: Listing, channelGroups: Accumulator, newMatch: set<string>, newModelGroup: map<string, set<string>>,
                    ghost done: seq<Listing>)
    returns (channelGroups': Accumulator, newMatch': set<string>, newModelGroup': map<string, set<string>>)
    requires Built(done, channelGroups, newMatch, newModelGroup)
    ensures Built(done + [l], channelGroups', newMatch', newModelGroup')
  {
    AppendAccumulates(channelGroups, l, done);
    MatchesGrow(done, l, newMatch);
    GroupsGrow(done, l, newModelGroup);
    channelGroups' := Append(channelGroups, l);
    newMatch' := if IsWildcard(l.model) then newMatch + {l.model} else newMatch;
    newModelGroup' := newModelGroup;
    if l.model !in newModelGroup' {
      newModelGroup' := newModelGroup'[l.model := {}];
    }
    newModelGroup' := newModelGroup'[l.model := newModelGroup'[l.model] + {l.group}];
    assert newModelGroup' == newModelGroup[l.model := (if l.model in newModelGroup then newModelGroup[l.model] else {}) + {l.group}];
  }

  lemma MatchesGrow(listings: seq<Listing>, l: Listing, patterns: set<string>)
    requires Wildcards(listings, patterns)
    ensures Wildcards(listings + [l], if IsWildcard(l.model) then patterns + {l.model} else patterns)
  {
    forall g, m { ListedMore(listings, l, g, m); }
    forall p | IsWildcard(p)
      ensures (exists g :: Listed(listings + [l], g, p)) <==> (exists g :: Listed(listings, g, p)) || p == l.model
    {
      assert Listed(listings + [l], l.group, l.model);
    }
  }

  lemma GroupsGrow(listings: seq<Listing>, l: Listing, groups: map<string, set<string>>)
    requires GroupsListed(listings, groups)
    ensures GroupsListed(listings + [l], groups[l.model := (if l.model in groups then groups[l.model] else {}) + {l.group}])
  {
    forall g, m { ListedMore(listings, l, g, m); }
  }

  /** Sort the priorities of every pair and line up their ids. The pairs are visited in no particular order. */
  method BuildRule(channelGroups: Accumulator, ghost listings: seq<Listing>) returns (rule: Rule)
    requires Accumulates(channelGroups, listings)
    ensures Indexes(listings, rule)
  {
    rule := map[];
    var keys := channelGroups.Keys;
    while keys != {}
      invariant keys <= channelGroups.Keys
      invariant RuleWithout(rule, channelGroups.Keys, keys) && SoundRule(rule, listings)
      decreases keys
    {
      ghost var some := SomeElement(keys);
      var key :| key in keys;
      var grown := AddBuckets(rule, channelGroups, key.0, key.1, listings);
      rule := grown;
      keys := keys - {key};
    }
  }

  method AddBuckets(rule: Rule, channelGroups: Accumulator, group: string, model: string, ghost listings: seq<Listing>)
    returns (grown: Rule)
    requires Accumulates(channelGroups, listings) && (group, model) in channelGroups && SoundRule(rule, listings)
    ensures SoundRule(grown, listings)
    ensures forall g, m :: InRule(grown, g, m) <==> InRule(rule, g, m) || (g == group && m == model)
  {
    var channelsList := SortBuckets(channelGroups, group, model, listings);
    RuleGrows(rule, listings, group, model, channelsList);
    var models := map[];
    if group in rule {
      models := rule[group];
    }
    grown := rule[group := models[model := channelsList]];
    assert grown == WithBuckets(rule, group, model, channelsList);
  }

  /** The rule has the pairs of `all` that are not in `left`. */
  ghost predicate RuleWithout(rule: Rule, all: set<(string, string)>, left: set<(string, string)>) {
    forall g, m :: InRule(rule, g, m) <==> (g, m) in all && (g, m) !in left
  }

  predicate InRule(rule: Rule, group: string, model: string) {
    group in rule && model in rule[group]
  }

  ghost predicate SoundRule(rule: Rule, listings: seq<Listing>) {
    && (forall g | g in rule :: rule[g] != map[])
    && (forall g, m | InRule(rule, g, m) :: exists ps :: BucketsBy(listings, g, m, rule[g][m], ps))
  }

  /** One more pair in a rule. */
  function WithBuckets(rule: Rule, group: string, model: string, buckets: Buckets): (r: Rule)
    ensures forall g, m :: InRule(r, g, m) <==> InRule(rule, g, m) || (g == group && m == model)
  {
    var models := if group in rule then rule[group] else map[];
    rule[group := models[model := buckets]]
  }

  lemma RuleGrows(rule: Rule, listings: seq<Listing>, group: string, model: string, buckets: Buckets)
    requires SoundRule(rule, listings) && exists ps :: BucketsBy(listings, group, model, buckets, ps)
    ensures SoundRule(WithBuckets(rule, group, model, buckets), listings)
  {
    var rule' := WithBuckets(rule, group, model, buckets);
    assert model in rule'[group];
    forall g, m | InRule(rule', g, m) ensures exists ps :: BucketsBy(listings, g, m, rule'[g][m], ps) {
      if g != group || m != model {
        assert InRule(rule, g, m) && rule'[g][m] == rule[g][m];
      }
    }
  }

  method SortBuckets(channelGroups: Accumulator, group: string, model: string, ghost listings: seq<Listing>)
    returns (channelsList: Buckets)
    requires Accumulates(channelGroups, listings) && (group, model) in channelGroups
    ensures exists ps :: BucketsBy(listings, group, model, channelsList, ps)
  {
    var priorityMap := channelGroups[(group, model)];
    var priorities: seq<int> := [];
    var left := priorityMap.Keys;
    while left != {}
      invariant left <= priorityMap.Keys && StrictlyDecreasing(priorities)
      invariant forall p :: p in priorities <==> p in priorityMap && p !in left
      decreases left
    {
      ghost var some := SomeElement(left);
      var p :| p in left;
      InsertDescendingSorts(priorities, p);
      priorities := InsertDescending(priorities, p);
      left := left - {p};
    }
    channelsList := [];
    for i := 0 to |priorities|
      invariant |channelsList| == i
      invariant forall j | 0 <= j < i :: priorities[j] in priorityMap && channelsList[j] == priorityMap[priorities[j]]
    {
      assert priorities[i] in priorities;
      channelsList := channelsList + [priorityMap[priorities[i]]];
    }
    assert forall j | 0 <= j < |priorities| :: priorities[j] in priorities;
    BucketsInOrder(channelGroups, group, model, listings, priorities, channelsList);
  }

  lemma BucketsInOrder(channelGroups: Accumulator, group: string, model: string, listings: seq<Listing>,
                       priorities: seq<int>, channelsList: Buckets)
    requires Accumulates(channelGroups, listings) && (group, model) in channelGroups
    requires StrictlyDecreasing(priorities) && |channelsList| == |priorities|
    requires forall p :: p in priorities <==> p in channelGroups[(group, model)]
    requires forall j | 0 <= j < |priorities| :: priorities[j] in channelGroups[(group, model)]
                                                 && channelsList[j] == channelGroups[(group, model)][priorities[j]]
    ensures BucketsBy(listings, group, model, channelsList, priorities)
  {
    forall j | 0 <= j < |priorities|
      ensures channelsList[j] == IdsAt(listings, group, model, priorities[j]) && channelsList[j] != []
    {
      assert At(channelGroups, group, model, priorities[j]) == IdsAt(listings, group, model, priorities[j]);
    }
    forall p | IdsAt(listings, group, model, p) != [] ensures p in priorities {
      assert At(channelGroups, group, model, p) != [];
    }
  }

  method ListMatches(newMatch: set<string>) returns (list: seq<string>)
    ensures forall i, j | 0 <= i < j < |list| :: list[i] != list[j]
    ensures forall p :: p in list <==> p in newMatch
  {
    list := [];
    var left := newMatch;
    while left != {}
      invariant left <= newMatch
      invariant forall i, j | 0 <= i < j < |list| :: list[i] != list[j]
      invariant forall p :: p in list <==> p in newMatch && p !in left
      decreases left
    {
      ghost var some := SomeElement(left);
      var p :| p in left;
      list := list + [p];
      left := left - {p};
    }
  }
}
