/**
 Channel rows, and the index that Load builds from them (model/balancer.go): group, then model, then
 buckets of channel ids by descending priority. The reference is a naive scan: the list of every
 (group, model, priority, id) that the enabled rows name, in the order they are read.
 */
module ChannelIndex {
  import opened Text

  const DEFAULT_CHANNEL_WEIGHT: nat := 1

  datatype Channel = Channel(
    id: int,
    kind: int,
    group: string,
    models: string,
    weight: nat,
    priority: int,
    enabled: bool,
    onlyChat: bool,
    disabledStream: seq<string>
  )

  type Buckets = seq<seq<int>>
  type Rule = map<string, map<string, Buckets>>
  type Accumulator = map<(string, string), map<int, seq<int>>>

  /** One naming of a channel by group and model. */
  datatype Listing = Listing(group: string, model: string, priority: int, id: int)

  // ----- The naive scan -----

  function Trimmed(pieces: seq<string>): seq<string> {
    if pieces == [] then []
    else
      var last := TrimSpace(pieces[|pieces| - 1]);
      Trimmed(pieces[..|pieces| - 1]) + if last == "" then [] else [last]
  }

  /** The names in a comma-separated list: trimmed, the empty ones left out. */
  function NamesIn(list: string): seq<string> {
    Trimmed(Split(list, ','))
  }

  /** The names are the pieces between commas, without the space around them, in order; empty ones are no names. */
  lemma NamesInMeans(list: string, name: string)
    ensures name in NamesIn(list) <==> name != "" && exists i :: 0 <= i < |Split(list, ',')| && TrimSpace(Split(list, ',')[i]) == name
    ensures Joined(Split(list, ','), ',') == list && forall i :: 0 <= i < |Split(list, ',')| ==> ',' !in Split(list, ',')[i]
  {
    SplitJoins(list, ',');
    TrimmedMeans(Split(list, ','), name);
  }

  lemma {:induction false} TrimmedMeans(pieces: seq<string>, name: string)
    ensures name in Trimmed(pieces) <==> name != "" && exists i :: 0 <= i < |pieces| && TrimSpace(pieces[i]) == name
  {
    if pieces != [] {
      var front, last := pieces[..|pieces| - 1], pieces[|pieces| - 1];
      TrimmedMeans(front, name);
      assert pieces == front + [last];
    }
  }

  function ModelListings(c: Channel, group: string, models: seq<string>): seq<Listing> {
    if models == [] then []
    else ModelListings(c, group, models[..|models| - 1]) + [Listing(group, models[|models| - 1], c.priority, c.id)]
  }

  function GroupListings(c: Channel, groups: seq<string>, models: seq<string>): seq<Listing> {
    if groups == [] then []
    else GroupListings(c, groups[..|groups| - 1], models) + ModelListings(c, groups[|groups| - 1], models)
  }

  /** What one row names; nothing if it is not enabled. */
  function RowListings(c: Channel): seq<Listing> {
    if c.enabled then GroupListings(c, NamesIn(c.group), NamesIn(c.models)) else []
  }

  /** Everything the enabled rows name, row by row. */
  function Listings(rows: seq<Channel>): seq<Listing> {
    if rows == [] then []
    else Listings(rows[..|rows| - 1]) + RowListings(rows[|rows| - 1])
  }

  /** The ids listed for a group, model and priority, in order and with repetitions. */
  function IdsAt(listings: seq<Listing>, group: string, model: string, priority: int): seq<int> {
    if listings == [] then []
    else
      var l := listings[|listings| - 1];
      IdsAt(listings[..|listings| - 1], group, model, priority)
      + if l.group == group && l.model == model && l.priority == priority then [l.id] else []
  }

  ghost predicate Listed(listings: seq<Listing>, group: string, model: string) {
    exists l :: l in listings && l.group == group && l.model == model
  }

  lemma {:induction false} IdsAtMembers(listings: seq<Listing>, group: string, model: string, priority: int, id: int)
    ensures id in IdsAt(listings, group, model, priority) <==> Listing(group, model, priority, id) in listings
  {
    if listings != [] {
      var last := |listings| - 1;
      IdsAtMembers(listings[..last], group, model, priority, id);
      assert listings == listings[..last] + [listings[last]];
    }
  }

  predicate RowLists(c: Channel, group: string, model: string) {
    group in NamesIn(c.group) && model in NamesIn(c.models)
  }

  lemma {:induction false} ModelListingsMembers(c: Channel, group: string, models: seq<string>, l: Listing)
    ensures l in ModelListings(c, group, models)
       <==> l.group == group && l.priority == c.priority && l.id == c.id && l.model in models
  {
    if models != [] {
      ModelListingsMembers(c, group, models[..|models| - 1], l);
      assert models == models[..|models| - 1] + [models[|models| - 1]];
    }
  }

  lemma {:induction false} GroupListingsMembers(c: Channel, groups: seq<string>, models: seq<string>, l: Listing)
    ensures l in GroupListings(c, groups, models)
       <==> l.group in groups && l.priority == c.priority && l.id == c.id && l.model in models
  {
    if groups != [] {
      GroupListingsMembers(c, groups[..|groups| - 1], models, l);
      ModelListingsMembers(c, groups[|groups| - 1], models, l);
      assert groups == groups[..|groups| - 1] + [groups[|groups| - 1]];
    }
  }

  predicate StandsFor(l: Listing, c: Channel) {
    c.enabled && c.id == l.id && c.priority == l.priority && RowLists(c, l.group, l.model)
  }

  /** A listing stands for an enabled row that names the group and the model. */
  lemma {:induction false} ListingsMembers(rows: seq<Channel>, l: Listing)
    ensures l in Listings(rows) <==> exists c :: c in rows && StandsFor(l, c)
  {
    if rows != [] {
      var c, before := rows[|rows| - 1], rows[..|rows| - 1];
      ListingsMembers(before, l);
      GroupListingsMembers(c, NamesIn(c.group), NamesIn(c.models), l);
      assert l in RowListings(c) <==> StandsFor(l, c);
      assert forall d :: d in rows <==> d in before || d == c;
    }
  }

  /** An id is in its bucket as often as it is listed there. */
  lemma {:induction false} IdsAtCounts(listings: seq<Listing>, group: string, model: string, priority: int, id: int)
    ensures multiset(IdsAt(listings, group, model, priority))[id]
         == multiset(listings)[Listing(group, model, priority, id)]
  {
    if listings != [] {
      var front, l := listings[..|listings| - 1], listings[|listings| - 1];
      IdsAtCounts(front, group, model, priority, id);
      CountLast(listings, Listing(group, model, priority, id));
      CountConcat(IdsAt(front, group, model, priority), [l.id], id);
    }
  }

  lemma {:induction false} CountInModels(c: Channel, g: string, models: seq<string>, l: Listing)
    requires l.priority == c.priority && l.id == c.id
    ensures multiset(ModelListings(c, g, models))[l] == if l.group == g then multiset(models)[l.model] else 0
  {
    if models != [] {
      var front, m := models[..|models| - 1], models[|models| - 1];
      CountInModels(c, g, front, l);
      CountLast(models, l.model);
      CountConcat(ModelListings(c, g, front), [Listing(g, m, c.priority, c.id)], l);
    }
  }

  lemma {:induction false} CountInGroups(c: Channel, groups: seq<string>, models: seq<string>, l: Listing)
    requires l.priority == c.priority && l.id == c.id
    ensures multiset(GroupListings(c, groups, models))[l] == Times(multiset(groups)[l.group], multiset(models)[l.model])
  {
    if groups != [] {
      var before, g := groups[..|groups| - 1], groups[|groups| - 1];
      CountInGroups(c, before, models, l);
      CountInModels(c, g, models, l);
      CountConcat(GroupListings(c, before, models), ModelListings(c, g, models), l);
      CountLast(groups, l.group);
    }
  }

  lemma CountLast<T>(s: seq<T>, x: T)
    requires s != []
    ensures multiset(s)[x] == multiset(s[..|s| - 1])[x] + if s[|s| - 1] == x then 1 else 0
  {
    assert s == s[..|s| - 1] + [s[|s| - 1]];
  }

  lemma CountConcat<T>(a: seq<T>, b: seq<T>, x: T)
    ensures multiset(a + b)[x] == multiset(a)[x] + multiset(b)[x]
  {
  }

  /** a * b by repeated addition, as the loops over the two lists multiply. */
  function Times(a: nat, b: nat): nat {
    if a == 0 then 0 else Times(a - 1, b) + b
  }

  lemma TimesIsProduct(a: nat, b: nat)
    ensures Times(a, b) == a * b
  {
  }

  ghost predicate DistinctIds(rows: seq<Channel>) {
    forall i, j | 0 <= i < j < |rows| && rows[i].enabled && rows[j].enabled :: rows[i].id != rows[j].id
  }

  /** In the bucket of its priority an enabled row appears as often as its lists name the pair. */
  lemma CountOfRow(rows: seq<Channel>, i: nat, group: string, model: string)
    requires DistinctIds(rows) && i < |rows| && rows[i].enabled
    ensures var groups: int, models: int := multiset(NamesIn(rows[i].group))[group], multiset(NamesIn(rows[i].models))[model];
            multiset(IdsAt(Listings(rows), group, model, rows[i].priority))[rows[i].id] == groups * models
  {
    var groups, models := multiset(NamesIn(rows[i].group))[group], multiset(NamesIn(rows[i].models))[model];
    var count := multiset(IdsAt(Listings(rows), group, model, rows[i].priority))[rows[i].id];
    CountOfListing(rows, i, Listing(group, model, rows[i].priority, rows[i].id), count, groups, models);
  }

  lemma CountOfListing(rows: seq<Channel>, i: nat, l: Listing, count: nat, groups: nat, models: nat)
    requires DistinctIds(rows) && i < |rows| && rows[i].enabled && l.priority == rows[i].priority && l.id == rows[i].id
    requires count == multiset(IdsAt(Listings(rows), l.group, l.model, l.priority))[l.id]
    requires groups == multiset(NamesIn(rows[i].group))[l.group] && models == multiset(NamesIn(rows[i].models))[l.model]
    ensures count == groups * models
  {
    IdsAtCounts(Listings(rows), l.group, l.model, l.priority, l.id);
    ListedByRow(rows, i, l);
    TimesIsProduct(groups, models);
  }

  lemma {:induction false} ListedByRow(rows: seq<Channel>, i: nat, l: Listing)
    requires DistinctIds(rows) && i < |rows| && rows[i].enabled && l.priority == rows[i].priority && l.id == rows[i].id
    ensures multiset(Listings(rows))[l]
         == Times(multiset(NamesIn(rows[i].group))[l.group], multiset(NamesIn(rows[i].models))[l.model])
    decreases |rows|
  {
    var before, d := rows[..|rows| - 1], rows[|rows| - 1];
    if i < |before| {
      ListedByRow(before, i, l);
      GroupListingsMembers(d, NamesIn(d.group), NamesIn(d.models), l);
      assert l !in RowListings(d);
    } else {
      CountInGroups(d, NamesIn(d.group), NamesIn(d.models), l);
      ListingsMembers(before, l);
      assert l !in Listings(before);
    }
  }

  // ----- What Load promises -----

  ghost predicate StrictlyDecreasing(s: seq<int>) {
    forall i, j | 0 <= i < j < |s| :: s[i] > s[j]
  }

  /** The buckets of a pair: one for each listed priority, descending, with exactly the ids listed there. */
  ghost predicate BucketsBy(listings: seq<Listing>, group: string, model: string, buckets: Buckets, priorities: seq<int>) {
    && |priorities| == |buckets| && StrictlyDecreasing(priorities)
    && (forall i | 0 <= i < |buckets| :: buckets[i] == IdsAt(listings, group, model, priorities[i]) && buckets[i] != [])
    && (forall p | IdsAt(listings, group, model, p) != [] :: p in priorities)
  }

  ghost predicate Indexes(listings: seq<Listing>, rule: Rule) {
    && (forall g, m :: (g in rule && m in rule[g]) <==> Listed(listings, g, m))
    && (forall g | g in rule :: rule[g] != map[])
    && (forall g, m | g in rule && m in rule[g] :: exists ps :: BucketsBy(listings, g, m, rule[g][m], ps))
  }

  ghost predicate MatchesListed(listings: seq<Listing>, patterns: seq<string>) {
    && (forall i, j | 0 <= i < j < |patterns| :: patterns[i] != patterns[j])
    && (forall p :: p in patterns <==> IsWildcard(p) && exists g :: Listed(listings, g, p))
  }

  ghost predicate GroupsListed(listings: seq<Listing>, modelGroup: map<string, set<string>>) {
    forall m, g :: (m in modelGroup && g in modelGroup[m]) <==> Listed(listings, g, m)
  }

  // ----- Building it -----

  function At(acc: Accumulator, group: string, model: string, priority: int): seq<int> {
    if (group, model) in acc && priority in acc[(group, model)] then acc[(group, model)][priority] else []
  }

  ghost predicate Accumulates(acc: Accumulator, listings: seq<Listing>) {
    && (forall g, m, p :: At(acc, g, m, p) == IdsAt(listings, g, m, p))
    && (forall g, m :: (g, m) in acc <==> Listed(listings, g, m))
    && (forall key, p | key in acc && p in acc[key] :: acc[key][p] != [])
  }

  /** Append a channel to its priority, creating the maps on the way down. */
  function Append(acc: Accumulator, l: Listing): Accumulator {
    var key := (l.group, l.model);
    var byPriority := if key in acc then acc[key] else map[];
    acc[key := byPriority[l.priority := At(acc, l.group, l.model, l.priority) + [l.id]]]
  }

  lemma ListedMore(listings: seq<Listing>, l: Listing, g: string, m: string)
    ensures Listed(listings + [l], g, m) <==> Listed(listings, g, m) || (l.group == g && l.model == m)
  {
    if Listed(listings, g, m) {
      var l' :| l' in listings && l'.group == g && l'.model == m;
      assert l' in listings + [l];
    }
    assert l in listings + [l];
  }

  lemma AppendAccumulates(acc: Accumulator, l: Listing, listings: seq<Listing>)
    requires Accumulates(acc, listings)
    ensures Accumulates(Append(acc, l), listings + [l])
  {
    assert (listings + [l])[..|listings|] == listings;
    forall g, m, p ensures At(Append(acc, l), g, m, p) == IdsAt(listings + [l], g, m, p) {
    }
    forall g, m ensures (g, m) in Append(acc, l) <==> Listed(listings + [l], g, m) {
      ListedMore(listings, l, g, m);
    }
  }

  /** Insert a priority into a descending list: the map's keys, sorted as they are collected. */
  function InsertDescending(s: seq<int>, x: int): seq<int> {
    if s == [] || x > s[0] then [x] + s else [s[0]] + InsertDescending(s[1..], x)
  }

  lemma {:induction false} InsertDescendingSorts(s: seq<int>, x: int)
    requires StrictlyDecreasing(s) && x !in s
    ensures StrictlyDecreasing(InsertDescending(s, x))
    ensures forall y :: y in InsertDescending(s, x) <==> y == x || y in s
  {
    if s == [] || x > s[0] {
      assert forall y :: y in [x] + s <==> y == x || y in s;
    } else {
      InsertDescendingSorts(s[1..], x);
      var rest := InsertDescending(s[1..], x);
      assert s == [s[0]] + s[1..];
      assert forall y :: y in [s[0]] + rest <==> y == s[0] || y in rest;
      forall j | 0 <= j < |rest| ensures s[0] > rest[j] {
        assert rest[j] in rest;
        if rest[j] != x {
          var k :| 0 <= k < |s[1..]| && s[1..][k] == rest[j];
        }
      }
    }
  }
}
