/**
 The price table, the cache loaded from it, and the synchronisation modes (model/pricing.go, model/price.go).
 */
module Pricing {
  import opened Collections
  import opened Options
  import opened Text

  // ----- Rows -----

  datatype Details = Details(kind: string, channelType: int, input: real, output: real, extraRatios: map<string, real>)

  datatype Price = Price(model: string, details: Details, locked: bool)

  /** The answer for a model nobody has priced. */
  const DEFAULT_PRICE := Price("", Details("tokens", 0, 30.0, 30.0, map[]), false)

  function ModelsOf(rows: seq<Price>): set<string> {
    set p | p in rows :: p.model
  }

  ghost predicate UniqueModels(rows: seq<Price>) {
    forall i, j :: 0 <= i < j < |rows| ==> rows[i].model != rows[j].model
  }

  /** The map Init builds: a later row of the same model replaces an earlier one. */
  function CacheOf(rows: seq<Price>): map<string, Price> {
    if rows == [] then map[]
    else
      var last := rows[|rows| - 1];
      CacheOf(rows[..|rows| - 1])[last.model := last]
  }

  lemma ModelsGrow(front: seq<Price>, last: Price)
    ensures ModelsOf(front + [last]) == ModelsOf(front) + {last.model}
  {
    forall m ensures m in ModelsOf(front + [last]) <==> m in ModelsOf(front) + {last.model} {
      if m in ModelsOf(front) {
        var p :| p in front && p.model == m;
        assert p in front + [last];
      }
      if m in ModelsOf(front + [last]) {
        var p :| p in front + [last] && p.model == m;
        assert p in front || p == last;
      }
    }
  }

  lemma {:induction false} CacheHolds(rows: seq<Price>)
    ensures CacheOf(rows).Keys == ModelsOf(rows)
    ensures forall m :: m in CacheOf(rows) ==> CacheOf(rows)[m] in rows && CacheOf(rows)[m].model == m
    ensures UniqueModels(rows) ==> forall p :: p in rows ==> CacheOf(rows)[p.model] == p
  {
    if rows != [] {
      var front, last := rows[..|rows| - 1], rows[|rows| - 1];
      assert rows == front + [last];
      CacheHolds(front);
      ModelsGrow(front, last);
      forall p | p in rows && UniqueModels(rows) ensures CacheOf(rows)[p.model] == p {
        if p in front {
          assert p.model != last.model;
        }
      }
    }
  }

  // ----- Statements -----

  /** The condition of a DELETE. */
  datatype Where = Nothing | Unlocked | UnlockedAmong(models: seq<string>) | Among(models: seq<string>)

  predicate Hits(w: Where, p: Price) {
    match w
    case Nothing => false
    case Unlocked => !p.locked
    case UnlockedAmong(models) => !p.locked && p.model in models
    case Among(models) => p.model in models
  }

  function Delete(rows: seq<Price>, w: Where): seq<Price> {
    if rows == [] then []
    else (if Hits(w, rows[0]) then [] else [rows[0]]) + Delete(rows[1..], w)
  }

  lemma {:induction false} DeleteRemovesHits(rows: seq<Price>, w: Where)
    ensures forall p :: p in Delete(rows, w) <==> p in rows && !Hits(w, p)
    ensures UniqueModels(rows) ==> UniqueModels(Delete(rows, w))
  {
    if rows != [] {
      var rest := Delete(rows[1..], w);
      DeleteRemovesHits(rows[1..], w);
      assert forall p :: p in rows <==> p == rows[0] || p in rows[1..];
      if UniqueModels(rows) && !Hits(w, rows[0]) {
        assert Delete(rows, w) == [rows[0]] + rest;
        forall j | 0 <= j < |rest| ensures rest[j].model != rows[0].model {
          assert rest[j] in rows[1..];
        }
      }
    }
  }

  // ----- Synchronisation -----

  datatype Mode = System | Add | Overwrite | Update | Other

  /** Which incoming rows a mode writes, judged by the cache. */
  predicate Accepts(mode: Mode, cache: map<string, Price>, p: Price) {
    match mode
    case Overwrite => p.model !in cache || !cache[p.model].locked
    case Update => p.model in cache && !cache[p.model].locked
    case _ => p.model !in cache
  }

  function Chosen(mode: Mode, cache: map<string, Price>, pricing: seq<Price>): seq<Price> {
    if pricing == [] then []
    else (if Accepts(mode, cache, pricing[0]) then [pricing[0]] else []) + Chosen(mode, cache, pricing[1..])
  }

  lemma {:induction false} ChosenAreAccepted(mode: Mode, cache: map<string, Price>, pricing: seq<Price>)
    ensures forall p :: p in Chosen(mode, cache, pricing) <==> p in pricing && Accepts(mode, cache, p)
    ensures UniqueModels(pricing) ==> UniqueModels(Chosen(mode, cache, pricing))
  {
    if pricing != [] {
      var rest := Chosen(mode, cache, pricing[1..]);
      ChosenAreAccepted(mode, cache, pricing[1..]);
      assert forall p :: p in pricing <==> p == pricing[0] || p in pricing[1..];
      if UniqueModels(pricing) && Accepts(mode, cache, pricing[0]) {
        assert Chosen(mode, cache, pricing) == [pricing[0]] + rest;
        forall j | 0 <= j < |rest| ensures rest[j].model != pricing[0].model {
          assert rest[j] in pricing[1..];
        }
      }
    }
  }

  function NamesOf(rows: seq<Price>): seq<string> {
    seq(|rows|, i requires 0 <= i < |rows| => rows[i].model)
  }

  /** What a mode deletes before it inserts the chosen rows. */
  function Deleted(mode: Mode, chosen: seq<Price>): Where {
    match mode
    case Overwrite => Unlocked
    case Update => UnlockedAmong(NamesOf(chosen))
    case _ => Nothing
  }

  /** The table after a synchronisation; with nothing to insert no mode commits anything. */
  function Synchronised(mode: Mode, rows: seq<Price>, cache: map<string, Price>, pricing: seq<Price>): seq<Price> {
    var chosen := Chosen(mode, cache, pricing);
    if chosen == [] then rows else Delete(rows, Deleted(mode, chosen)) + chosen
  }

  // ----- What each mode achieves -----

  /** Some row of the table locks the model. */
  ghost predicate IsLocked(rows: seq<Price>, model: string) {
    exists p :: p in rows && p.model == model && p.locked
  }

  /** The rows each mode is meant to leave behind. */
  ghost predicate Meant(mode: Mode, rows: seq<Price>, pricing: seq<Price>, p: Price) {
    match mode
    case Overwrite => (p in rows && p.locked) || (p in pricing && !IsLocked(rows, p.model))
    case Update =>
      (p in rows && (p.locked || p.model !in ModelsOf(pricing)))
      || (p in pricing && p.model in ModelsOf(rows) && !IsLocked(rows, p.model))
    case _ => p in rows || (p in pricing && p.model !in ModelsOf(rows))
  }

  /** Accepts, read off the table instead of the cache. */
  ghost predicate Allowed(mode: Mode, rows: seq<Price>, p: Price) {
    match mode
    case Overwrite => !IsLocked(rows, p.model)
    case Update => p.model in ModelsOf(rows) && !IsLocked(rows, p.model)
    case _ => p.model !in ModelsOf(rows)
  }

  lemma AcceptsMeans(mode: Mode, rows: seq<Price>, p: Price)
    requires UniqueModels(rows)
    ensures Accepts(mode, CacheOf(rows), p) <==> Allowed(mode, rows, p)
  {
    CacheHolds(rows);
  }

  lemma UniqueConcat(a: seq<Price>, b: seq<Price>)
    requires UniqueModels(a) && UniqueModels(b)
    requires forall p, q :: p in a && q in b ==> p.model != q.model
    ensures UniqueModels(a + b)
  {
    forall i, j | 0 <= i < j < |a + b| ensures (a + b)[i].model != (a + b)[j].model {
      if i < |a| <= j {
        assert a[i] in a && b[j - |a|] in b;
      }
    }
  }

  lemma NamesAreModels(rows: seq<Price>)
    ensures forall m :: m in NamesOf(rows) <==> m in ModelsOf(rows)
  {
    forall m ensures m in NamesOf(rows) <==> m in ModelsOf(rows) {
      if m in NamesOf(rows) {
        var i :| 0 <= i < |rows| && NamesOf(rows)[i] == m;
        assert rows[i] in rows;
      }
      if m in ModelsOf(rows) {
        var i :| 0 <= i < |rows| && rows[i].model == m;
        assert NamesOf(rows)[i] == m;
      }
    }
  }

  /**
   From a table and an incoming list that each name a model once, and the
   cache loaded from the table: when there is something to insert, a mode
   leaves exactly the rows it is meant to, again one per model; otherwise it
   leaves the table alone.
   */
  lemma SynchronisedMeans(mode: Mode, rows: seq<Price>, pricing: seq<Price>)
    requires UniqueModels(rows) && UniqueModels(pricing)
    ensures
      var after := Synchronised(mode, rows, CacheOf(rows), pricing);
      && UniqueModels(after)
      && if Chosen(mode, CacheOf(rows), pricing) == [] then after == rows
         else forall p :: p in after <==> Meant(mode, rows, pricing, p)
  {
    var chosen := Chosen(mode, CacheOf(rows), pricing);
    ChosenAreAccepted(mode, CacheOf(rows), pricing);
    if chosen != [] {
      var kept := Delete(rows, Deleted(mode, chosen));
      DeleteRemovesHits(rows, Deleted(mode, chosen));
      NamesAreModels(chosen);
      forall p ensures p in chosen <==> p in pricing && Accepts(mode, CacheOf(rows), p) {}
      forall p: Price ensures Accepts(mode, CacheOf(rows), p) <==> Allowed(mode, rows, p) {
        AcceptsMeans(mode, rows, p);
      }
      KeptAndChosen(mode, rows, pricing, kept, chosen);
      UniqueConcat(kept, chosen);
    }
  }

  lemma KeptAndChosen(mode: Mode, rows: seq<Price>, pricing: seq<Price>, kept: seq<Price>, chosen: seq<Price>)
    requires UniqueModels(rows)
    requires forall p :: p in chosen <==> p in pricing && Allowed(mode, rows, p)
    requires forall p :: p in kept <==> p in rows && !Hits(Deleted(mode, chosen), p)
    requires forall m :: m in NamesOf(chosen) <==> m in ModelsOf(chosen)
    ensures forall p, q :: p in kept && q in chosen ==> p.model != q.model
    ensures forall p :: p in kept + chosen <==> Meant(mode, rows, pricing, p)
  {
    forall p ensures p in kept <==> p in rows && !Hits(Deleted(mode, chosen), p) {}
    forall p, q | p in kept && q in chosen ensures p.model != q.model {
      assert p in rows && Allowed(mode, rows, q);
    }
    forall p ensures p in kept + chosen <==> Meant(mode, rows, pricing, p) {
      if mode.Update? && p in rows && !p.locked {
        UpdatedModels(rows, pricing, chosen, p);
      }
    }
  }

  lemma UpdatedModels(rows: seq<Price>, pricing: seq<Price>, chosen: seq<Price>, p: Price)
    requires UniqueModels(rows) && p in rows && !p.locked
    requires forall q :: q in chosen <==> q in pricing && Allowed(Update, rows, q)
    ensures p.model in ModelsOf(chosen) <==> p.model in ModelsOf(pricing)
  {
    assert p.model in ModelsOf(rows) && !IsLocked(rows, p.model);
    if p.model in ModelsOf(pricing) {
      var q :| q in pricing && q.model == p.model;
      assert Allowed(Update, rows, q);
      assert q in chosen;
    }
  }

  /** No mode changes or removes a locked row, whatever the cache says and however often models repeat. */
  lemma LockedRowsSurvive(mode: Mode, rows: seq<Price>, cache: map<string, Price>, pricing: seq<Price>, p: Price)
    requires p in rows && p.locked
    ensures p in Synchronised(mode, rows, cache, pricing)
    ensures multiset(Synchronised(mode, rows, cache, pricing))[p] >= multiset(rows)[p]
  {
    var chosen := Chosen(mode, cache, pricing);
    if chosen != [] {
      DeleteKeepsCount(rows, Deleted(mode, chosen), p);
    }
  }

  lemma {:induction false} DeleteKeepsCount(rows: seq<Price>, w: Where, p: Price)
    requires !Hits(w, p)
    ensures multiset(Delete(rows, w))[p] == multiset(rows)[p]
  {
    if rows != [] {
      DeleteKeepsCount(rows[1..], w, p);
      assert rows == [rows[0]] + rows[1..];
    }
  }

  /** A locked price is still the one served for its model after a synchronisation. */
  lemma LockedPriceIsServed(mode: Mode, rows: seq<Price>, pricing: seq<Price>, p: Price)
    requires UniqueModels(rows) && UniqueModels(pricing) && p in rows && p.locked
    ensures
      var cache := CacheOf(Synchronised(mode, rows, CacheOf(rows), pricing));
      p.model in cache && cache[p.model] == p
  {
    SynchronisedMeans(mode, rows, pricing);
    LockedRowsSurvive(mode, rows, CacheOf(rows), pricing, p);
    CacheHolds(Synchronised(mode, rows, CacheOf(rows), pricing));
  }

  /** The models priced afterwards: the same, all of both, or the locked and the incoming ones. */
  lemma ModelsAfter(mode: Mode, rows: seq<Price>, pricing: seq<Price>, m: string)
    requires UniqueModels(rows) && UniqueModels(pricing)
    ensures
      var after := ModelsOf(Synchronised(mode, rows, CacheOf(rows), pricing));
      m in after <==>
        match mode
        case Update => m in ModelsOf(rows)
        case Overwrite =>
          if Chosen(mode, CacheOf(rows), pricing) == [] then m in ModelsOf(rows)
          else IsLocked(rows, m) || m in ModelsOf(pricing)
        case _ => m in ModelsOf(rows) || m in ModelsOf(pricing)
  {
    var chosen := Chosen(mode, CacheOf(rows), pricing);
    var after := Synchronised(mode, rows, CacheOf(rows), pricing);
    SynchronisedMeans(mode, rows, pricing);
    if chosen == [] {
      if m in ModelsOf(pricing) && !mode.Update? && !mode.Overwrite? {
        NothingChosen(mode, rows, pricing, m);
      }
    } else {
      MeantModels(mode, rows, pricing, after, m);
    }
  }

  lemma NothingChosen(mode: Mode, rows: seq<Price>, pricing: seq<Price>, m: string)
    requires UniqueModels(rows) && Chosen(mode, CacheOf(rows), pricing) == [] && m in ModelsOf(pricing)
    requires mode.Add? || mode.System? || mode.Other?
    ensures m in ModelsOf(rows)
  {
    ChosenAreAccepted(mode, CacheOf(rows), pricing);
    var p :| p in pricing && p.model == m;
    AcceptsMeans(mode, rows, p);
  }

  lemma MeantModels(mode: Mode, rows: seq<Price>, pricing: seq<Price>, after: seq<Price>, m: string)
    requires forall p :: p in after <==> Meant(mode, rows, pricing, p)
    ensures m in ModelsOf(after) <==>
      match mode
      case Update => m in ModelsOf(rows)
      case Overwrite => IsLocked(rows, m) || m in ModelsOf(pricing)
      case _ => m in ModelsOf(rows) || m in ModelsOf(pricing)
  {
  }

  /** Synchronising again with the same list, the cache reloaded, changes no row. */
  lemma SynchronisingTwice(mode: Mode, rows: seq<Price>, pricing: seq<Price>)
    requires UniqueModels(rows) && UniqueModels(pricing)
    ensures
      var once := Synchronised(mode, rows, CacheOf(rows), pricing);
      var twice := Synchronised(mode, once, CacheOf(once), pricing);
      UniqueModels(twice) && forall p :: p in twice <==> p in once
  {
    var once := Synchronised(mode, rows, CacheOf(rows), pricing);
    SynchronisedMeans(mode, rows, pricing);
    SynchronisedMeans(mode, once, pricing);
    if Chosen(mode, CacheOf(rows), pricing) != [] {
      forall p ensures Meant(mode, once, pricing, p) <==> p in once {
        MeantTwice(mode, rows, pricing, once, p);
      }
    }
  }

  lemma MeantTwice(mode: Mode, rows: seq<Price>, pricing: seq<Price>, once: seq<Price>, p: Price)
    requires UniqueModels(rows) && UniqueModels(pricing) && UniqueModels(once)
    requires forall q :: q in once <==> Meant(mode, rows, pricing, q)
    ensures Meant(mode, once, pricing, p) <==> p in once
  {
  }

  // ----- Serving a price -----

  /** The pattern list Init builds from a map, whose order is not defined. */
  ghost predicate PatternsOf(patterns: seq<string>, prices: map<string, Price>) {
    && (forall i, j :: 0 <= i < j < |patterns| ==> patterns[i] != patterns[j])
    && (forall m :: m in patterns <==> m in prices && IsWildcard(m))
  }

  /** The cache and the patterns a successful Init has read from these rows. */
  ghost predicate LoadedFrom(rows: seq<Price>, prices: map<string, Price>, patterns: seq<string>) {
    prices == CacheOf(rows) && PatternsOf(patterns, prices)
  }

  function Lookup(prices: map<string, Price>, patterns: seq<string>, name: string): Price {
    if name in prices then prices[name]
    else
      var pattern := FirstMatch(patterns, name);
      if pattern in prices then prices[pattern] else DEFAULT_PRICE
  }

  /** A row that covers the name as a wildcard. */
  ghost predicate Covers(p: Price, name: string) {
    IsWildcard(p.model) && CoversName(p.model, name)
  }

  /**
   What a table promises for a name: the row of that very name; failing that a
   row whose wildcard covers it, if any does; failing that a row with an
   empty name, if there is one; and only then the default price.
   */
  ghost predicate Serves(rows: seq<Price>, name: string, p: Price) {
    if name in ModelsOf(rows) then p in rows && p.model == name
    else if IsCovered(rows, name) then p in rows && Covers(p, name)
    else if "" in ModelsOf(rows) then p in rows && p.model == ""
    else p == DEFAULT_PRICE
  }

  ghost predicate IsCovered(rows: seq<Price>, name: string) {
    exists q :: q in rows && Covers(q, name)
  }

  lemma FirstMatchCovers(rows: seq<Price>, prices: map<string, Price>, patterns: seq<string>, name: string)
    requires UniqueModels(rows) && LoadedFrom(rows, prices, patterns)
    ensures
      var pattern := FirstMatch(patterns, name);
      if IsCovered(rows, name) then pattern in patterns && pattern in prices && Covers(prices[pattern], name)
      else pattern == ""
  {
    CacheHolds(rows);
    var pattern := FirstMatch(patterns, name);
    MatchesIff(pattern, name);
    if IsCovered(rows, name) {
      var q :| q in rows && Covers(q, name);
      MatchesIff(q.model, name);
      assert q.model in patterns && q.model != "" && "" !in patterns;
      assert prices[pattern].model == pattern;
    }
  }

  lemma LookupMeetsTable(rows: seq<Price>, prices: map<string, Price>, patterns: seq<string>, name: string)
    requires UniqueModels(rows) && LoadedFrom(rows, prices, patterns)
    ensures Serves(rows, name, Lookup(prices, patterns, name))
  {
    CacheHolds(rows);
    FirstMatchCovers(rows, prices, patterns, name);
  }

  /** A name that nobody has priced gets the default rate, thirty for input and output. */
  lemma UnpricedCosts(rows: seq<Price>, prices: map<string, Price>, patterns: seq<string>, name: string)
    requires UniqueModels(rows) && LoadedFrom(rows, prices, patterns)
    requires name !in ModelsOf(rows) && !IsCovered(rows, name) && "" !in ModelsOf(rows)
    ensures
      var d := Lookup(prices, patterns, name).details;
      d.kind == "tokens" && d.channelType == 0 && d.input == 30.0 && d.output == 30.0 && d.extraRatios == map[]
  {
    LookupMeetsTable(rows, prices, patterns, name);
  }

  /** BatchDeletePrices drops the models from the map and leaves the pattern list as it was. */
  function Dropped(prices: map<string, Price>, models: seq<string>): map<string, Price> {
    map m | m in prices && m !in models :: prices[m]
  }

  /**
   After BatchDeletePrices a name is still served as the remaining rows
   promise exactly when it has a row, or the first pattern that matches it
   has not been deleted, or nothing remains for it but the default price.
   A deleted pattern stays in the list and hides the others.
   */
  lemma ServedAfterDeletionIff(rows: seq<Price>, prices: map<string, Price>, patterns: seq<string>,
                               models: seq<string>, name: string)
    requires UniqueModels(rows) && LoadedFrom(rows, prices, patterns)
    ensures
      var left := Delete(rows, Among(models));
      Serves(left, name, Lookup(Dropped(prices, models), patterns, name)) <==>
      (name in ModelsOf(left) || FirstMatch(patterns, name) !in models
       || (!IsCovered(left, name) && ("" in ModelsOf(left) ==> DEFAULT_PRICE in left)))
  {
    var left := Delete(rows, Among(models));
    var pattern := FirstMatch(patterns, name);
    CacheHolds(rows);
    DeleteRemovesHits(rows, Among(models));
    FirstMatchCovers(rows, prices, patterns, name);
    forall m ensures m in ModelsOf(left) <==> m in ModelsOf(rows) && m !in models {}
    if IsCovered(left, name) {
      var q :| q in left && Covers(q, name);
      assert q in rows;
    }
    if DEFAULT_PRICE in left {
      assert "" in ModelsOf(left);
    }
  }

  // ----- Setting many prices -----

  /** The models of the first list that the second does not name. */
  function Missing(models: seq<string>, others: seq<string>): seq<string> {
    if models == [] then []
    else (if models[0] in others then [] else [models[0]]) + Missing(models[1..], others)
  }

  /** The models of the first list that the second names too. */
  function Common(models: seq<string>, others: seq<string>): seq<string> {
    if models == [] then []
    else (if models[0] in others then [models[0]] else []) + Common(models[1..], others)
  }

  function Priced(models: seq<string>, price: Price): seq<Price> {
    seq(|models|, i requires 0 <= i < |models| => price.(model := models[i]))
  }

  /** UpdatePrices: every column but the model. */
  function Updated(rows: seq<Price>, models: seq<string>, price: Price): seq<Price> {
    seq(|rows|, i requires 0 <= i < |rows| =>
      if rows[i].model in models then price.(model := rows[i].model) else rows[i])
  }

  /** The three statements of BatchSetPrices: insert, update, delete. */
  function BatchSet(rows: seq<Price>, models: seq<string>, original: seq<string>, price: Price): seq<Price> {
    Delete(Updated(rows + Priced(Missing(models, original), price), Common(original, models), price),
           Among(Missing(original, models)))
  }

  lemma {:induction false} PartOfModels(models: seq<string>, others: seq<string>)
    ensures forall m :: m in Missing(models, others) <==> m in models && m !in others
    ensures forall m :: m in Common(models, others) <==> m in models && m in others
  {
    if models != [] {
      PartOfModels(models[1..], others);
      assert forall m :: m in models <==> m == models[0] || m in models[1..];
    }
  }

  /**
   The row of a model after BatchSetPrices: the given price, locked or not,
   for every listed model that had a row or is new; nothing for a model
   dropped from the list; the old row otherwise.
   */
  lemma BatchSetMeans(rows: seq<Price>, models: seq<string>, original: seq<string>, price: Price, p: Price)
    ensures p in BatchSet(rows, models, original, price) <==>
      if p.model in original && p.model in models then p == price.(model := p.model) && p.model in ModelsOf(rows)
      else if p.model in original then false
      else if p.model in models then p in rows || p == price.(model := p.model)
      else p in rows
  {
    var added := Priced(Missing(models, original), price);
    var updated := Updated(rows + added, Common(original, models), price);
    PartOfModels(models, original);
    PartOfModels(original, models);
    DeleteRemovesHits(updated, Among(Missing(original, models)));
    PricedMeans(Missing(models, original), price, p);
    UpdatedMeans(rows + added, Common(original, models), price, p);
    if p.model in original {
      assert p.model in ModelsOf(rows + added) <==> p.model in ModelsOf(rows) by {
        assert forall q :: q in added ==> q.model !in original;
        assert forall q :: q in rows + added <==> q in rows || q in added;
      }
    }
  }

  lemma PricedMeans(models: seq<string>, price: Price, p: Price)
    ensures p in Priced(models, price) <==> p.model in models && p == price.(model := p.model)
    ensures forall q :: q in Priced(models, price) ==> q.model in models
  {
    if p.model in models && p == price.(model := p.model) {
      var i :| 0 <= i < |models| && models[i] == p.model;
      assert Priced(models, price)[i] == p;
    }
  }

  lemma UpdatedMeans(rows: seq<Price>, models: seq<string>, price: Price, p: Price)
    ensures p in Updated(rows, models, price) <==>
      if p.model in models then p == price.(model := p.model) && p.model in ModelsOf(rows) else p in rows
  {
    var after := Updated(rows, models, price);
    if p in after {
      var i :| 0 <= i < |rows| && after[i] == p;
      assert rows[i] in rows;
    }
    if p.model in models && p == price.(model := p.model) && p.model in ModelsOf(rows) {
      var i :| 0 <= i < |rows| && rows[i].model == p.model;
      assert after[i] == p;
    }
    if p.model !in models && p in rows {
      var i :| 0 <= i < |rows| && rows[i] == p;
      assert after[i] == p;
    }
  }

  ghost predicate UniqueStrings(s: seq<string>) {
    forall i, j :: 0 <= i < j < |s| ==> s[i] != s[j]
  }

  lemma {:induction false} RepeatedRowsStay(rows: seq<Price>, w: Where, i: nat, j: nat)
    requires i < j < |rows| && rows[i].model == rows[j].model && !Hits(w, rows[i]) && !Hits(w, rows[j])
    ensures !UniqueModels(Delete(rows, w))
  {
    var rest := Delete(rows[1..], w);
    if i == 0 {
      DeleteRemovesHits(rows[1..], w);
      assert rows[j] == rows[1..][j - 1];
      var k :| 0 <= k < |rest| && rest[k] == rows[j];
      assert Delete(rows, w)[0] == rows[0] && Delete(rows, w)[k + 1] == rest[k];
    } else {
      RepeatedRowsStay(rows[1..], w, i - 1, j - 1);
      RepeatedInTail(if Hits(w, rows[0]) then [] else [rows[0]], rest);
    }
  }

  lemma RepeatedInTail(head: seq<Price>, tail: seq<Price>)
    requires !UniqueModels(tail)
    ensures !UniqueModels(head + tail)
  {
    var x, y :| 0 <= x < y < |tail| && tail[x].model == tail[y].model;
    assert (head + tail)[|head| + x] == tail[x] && (head + tail)[|head| + y] == tail[y];
  }

  /**
   The table keeps one row per model exactly when the models to add are
   listed once and have no row yet. Nothing in BatchSetPrices checks that.
   */
  lemma BatchSetKeepsUniqueIff(rows: seq<Price>, models: seq<string>, original: seq<string>, price: Price)
    requires UniqueModels(rows)
    ensures UniqueModels(BatchSet(rows, models, original, price)) <==>
      (UniqueStrings(Missing(models, original)) && forall m :: m in Missing(models, original) ==> m !in ModelsOf(rows))
  {
    var names := Missing(models, original);
    var w := Among(Missing(original, models));
    var updated := Updated(rows + Priced(names, price), Common(original, models), price);
    PartOfModels(models, original);
    PartOfModels(original, models);
    UniqueAfterDeleteIff(rows, names, updated, w);
  }

  lemma UniqueAfterDeleteIff(rows: seq<Price>, names: seq<string>, updated: seq<Price>, w: Where)
    requires UniqueModels(rows) && w.Among? && forall m :: m in names ==> m !in w.models
    requires |updated| == |rows| + |names|
    requires forall i :: 0 <= i < |rows| ==> updated[i].model == rows[i].model
    requires forall i :: 0 <= i < |names| ==> updated[|rows| + i].model == names[i]
    ensures UniqueModels(Delete(updated, w)) <==>
      (UniqueStrings(names) && forall m :: m in names ==> m !in ModelsOf(rows))
  {
    if i, j :| 0 <= i < j < |names| && names[i] == names[j] {
      RepeatedRowsStay(updated, w, |rows| + i, |rows| + j);
    } else if m :| m in names && m in ModelsOf(rows) {
      var i :| 0 <= i < |rows| && rows[i].model == m;
      var j :| 0 <= j < |names| && names[j] == m;
      RepeatedRowsStay(updated, w, i, |rows| + j);
    } else {
      UniqueUpdated(rows, names, updated);
      DeleteRemovesHits(updated, w);
    }
  }

  lemma UniqueUpdated(rows: seq<Price>, names: seq<string>, updated: seq<Price>)
    requires UniqueModels(rows) && UniqueStrings(names) && forall m :: m in names ==> m !in ModelsOf(rows)
    requires |updated| == |rows| + |names|
    requires forall i :: 0 <= i < |rows| ==> updated[i].model == rows[i].model
    requires forall i :: 0 <= i < |names| ==> updated[|rows| + i].model == names[i]
    ensures UniqueModels(updated)
  {
    forall i, j | 0 <= i < j < |updated| ensures updated[i].model != updated[j].model {
      if i < |rows| <= j {
        assert rows[i] in rows;
        assert names[j - |rows|] in names && updated[|rows| + (j - |rows|)].model == names[j - |rows|];
      } else if |rows| <= i {
        assert updated[|rows| + (i - |rows|)].model == names[i - |rows|];
        assert updated[|rows| + (j - |rows|)].model == names[j - |rows|];
      }
    }
  }

  // ----- The database and the cache over it -----

  /** A database call that fails, if any. */
  datatype Fault = NoFault | DeleteFails | InsertFails | UpdateFails | ReadFails

  /** The price table. `open` counts transactions that were begun and never ended. */
  class Database {
    var rows: seq<Price>
    var open: nat

    constructor (rows: seq<Price>)
      ensures this.rows == rows && open == 0
    {
      this.rows := rows;
      open := 0;
    }
  }

  /** What SyncPricing returns: an error when a call it reaches fails. */
  predicate SyncFails(mode: Mode, cache: map<string, Price>, pricing: seq<Price>, fault: Fault) {
    var any := Chosen(mode, cache, pricing) != [];
    match fault
    case DeleteFails => mode.Overwrite? || (mode.Update? && any)
    case InsertFails => any
    case ReadFails => any
    case _ => false
  }

  /** The table a synchronisation leaves: all of it or nothing, and a failing read comes too late to undo it. */
  function Stored(mode: Mode, rows: seq<Price>, cache: map<string, Price>, pricing: seq<Price>, fault: Fault): seq<Price> {
    if SyncFails(mode, cache, pricing, fault) && !fault.ReadFails? then rows
    else Synchronised(mode, rows, cache, pricing)
  }

  /** Each statement of BatchSetPrices runs only when it has something to do. */
  predicate BatchSetFails(models: seq<string>, original: seq<string>, fault: Fault) {
    match fault
    case InsertFails => Missing(models, original) != []
    case UpdateFails => Common(original, models) != []
    case DeleteFails => Missing(original, models) != []
    case ReadFails => true
    case NoFault => false
  }

  // The loops that pick the incoming rows, one for each mode.

  method NotLocked(prices: map<string, Price>, pricing: seq<Price>) returns (newPrices: seq<Price>)
    ensures newPrices == Chosen(Overwrite, prices, pricing)
  {
    newPrices := [];
    for i := 0 to |pricing|
      invariant newPrices + Chosen(Overwrite, prices, pricing[i..]) == Chosen(Overwrite, prices, pricing)
    {
      var price := pricing[i];
      NextChosen(Overwrite, prices, pricing, i, newPrices);
      if price.model !in prices {
        newPrices := newPrices + [price];
      } else if !prices[price.model].locked {
        newPrices := newPrices + [price];
      }
    }
  }

  method KnownAndNotLocked(prices: map<string, Price>, pricing: seq<Price>) returns (newPrices: seq<Price>, newPricesName: seq<string>)
    ensures newPrices == Chosen(Update, prices, pricing) && newPricesName == NamesOf(newPrices)
  {
    newPrices, newPricesName := [], [];
    for i := 0 to |pricing|
      invariant newPrices + Chosen(Update, prices, pricing[i..]) == Chosen(Update, prices, pricing)
      invariant newPricesName == NamesOf(newPrices)
    {
      var price := pricing[i];
      NextChosen(Update, prices, pricing, i, newPrices);
      if price.model in prices && !prices[price.model].locked {
        newPrices := newPrices + [price];
        newPricesName := newPricesName + [price.model];
      }
    }
  }

  method Unknown(prices: map<string, Price>, pricing: seq<Price>) returns (newPrices: seq<Price>)
    ensures newPrices == Chosen(Add, prices, pricing)
  {
    newPrices := [];
    for i := 0 to |pricing|
      invariant newPrices + Chosen(Add, prices, pricing[i..]) == Chosen(Add, prices, pricing)
    {
      var price := pricing[i];
      NextChosen(Add, prices, pricing, i, newPrices);
      if price.model !in prices {
        newPrices := newPrices + [price];
      }
    }
  }

  method Additions(models: seq<string>, price: Price, originalModels: seq<string>) returns (addPrices: seq<Price>)
    ensures addPrices == Priced(Missing(models, originalModels), price)
  {
    addPrices := [];
    for i := 0 to |models|
      invariant addPrices + Priced(Missing(models[i..], originalModels), price) == Priced(Missing(models, originalModels), price)
    {
      NextMissing(models, originalModels, price, i, addPrices);
      if models[i] !in originalModels {
        addPrices := addPrices + [price.(model := models[i])];
      }
    }
  }

  lemma NextMissing(models: seq<string>, originalModels: seq<string>, price: Price, i: nat, done: seq<Price>)
    requires i < |models|
    ensures
      var next := if models[i] !in originalModels then done + [price.(model := models[i])] else done;
      next + Priced(Missing(models[i + 1..], originalModels), price) == done + Priced(Missing(models[i..], originalModels), price)
  {
    assert models[i..][0] == models[i] && models[i..][1..] == models[i + 1..];
  }

  class Pricing {
    const db: Database
    var prices: map<string, Price>
    var patterns: seq<string>

    constructor (db: Database)
      ensures this.db == db && prices == map[] && patterns == []
    {
      this.db := db;
      prices := map[];
      patterns := [];
    }

    /** The cache is the one a successful Init would read now. */
    ghost predicate Fresh()
      reads this, db
    {
      LoadedFrom(db.rows, prices, patterns)
    }

    /** An empty table leaves the cache as it is. */
    method Init(readOk: bool) returns (failed: bool)
      modifies this
      ensures failed == !readOk
      ensures readOk && db.rows != [] ==> Fresh()
      ensures !readOk || db.rows == [] ==> prices == old(prices) && patterns == old(patterns)
    {
      if !readOk {
        return true;
      }
      if |db.rows| == 0 {
        return false;
      }
      var newPrices: map<string, Price> := map[];
      var newMatch: set<string> := {};
      for i := 0 to |db.rows|
        invariant newPrices == CacheOf(db.rows[..i])
        invariant newMatch == set m | m in newPrices && IsWildcard(m)
      {
        var price := db.rows[i];
        assert db.rows[..i + 1][..i] == db.rows[..i];
        newPrices := newPrices[price.model := price];
        if IsWildcard(price.model) {
          newMatch := newMatch + {price.model};
        }
      }
      assert db.rows[..|db.rows|] == db.rows;
      prices := newPrices;
      patterns := ListOf(newMatch);
      return false;
    }

    /** Overwrite: delete every row not locked, insert the incoming rows whose model is not locked. */
    method SyncPriceWithOverwrite(pricing: seq<Price>, fault: Fault) returns (failed: bool)
      modifies this, db
      ensures failed == SyncFails(Overwrite, old(prices), pricing, fault)
      ensures db.rows == Stored(Overwrite, old(db.rows), old(prices), pricing, fault)
      ensures old(Fresh()) && !failed ==> Fresh()
      ensures failed ==> prices == old(prices) && patterns == old(patterns)
      ensures db.open == old(db.open) +
        (if !fault.DeleteFails? && Chosen(Overwrite, old(prices), pricing) == [] then 1 else 0)
    {
      if fault.DeleteFails? {
        return true;
      }
      var rows := Delete(db.rows, Unlocked);
      var newPrices := NotLocked(prices, pricing);
      if |newPrices| == 0 {
        db.open := db.open + 1;
        return false;
      }
      if fault.InsertFails? {
        return true;
      }
      db.rows := rows + newPrices;
      failed := Init(!fault.ReadFails?);
    }

    /** Update: replace the rows that exist, are not locked and are in the incoming list. */
    method SyncPriceOnlyUpdate(pricing: seq<Price>, fault: Fault) returns (failed: bool)
      modifies this, db
      ensures failed == SyncFails(Update, old(prices), pricing, fault)
      ensures db.rows == Stored(Update, old(db.rows), old(prices), pricing, fault)
      ensures old(Fresh()) && !failed ==> Fresh()
      ensures failed ==> prices == old(prices) && patterns == old(patterns)
      ensures db.open == old(db.open) + (if Chosen(Update, old(prices), pricing) == [] then 1 else 0)
    {
      var newPrices, newPricesName := KnownAndNotLocked(prices, pricing);
      if |newPrices| == 0 {
        db.open := db.open + 1;
        return false;
      }
      if fault.DeleteFails? || fault.InsertFails? {
        return true;
      }
      db.rows := Delete(db.rows, UnlockedAmong(newPricesName)) + newPrices;
      failed := Init(!fault.ReadFails?);
    }

    /** Add: insert the incoming rows whose model has none. */
    method SyncPriceWithoutOverwrite(pricing: seq<Price>, fault: Fault) returns (failed: bool)
      modifies this, db
      ensures failed == SyncFails(Add, old(prices), pricing, fault)
      ensures db.rows == Stored(Add, old(db.rows), old(prices), pricing, fault)
      ensures old(Fresh()) && !failed ==> Fresh()
      ensures failed ==> prices == old(prices) && patterns == old(patterns)
      ensures db.open == old(db.open)
    {
      var newPrices := Unknown(prices, pricing);
      if |newPrices| == 0 {
        return false;
      }
      if fault.InsertFails? {
        return true;
      }
      DeleteNothing(db.rows);
      db.rows := db.rows + newPrices;
      failed := Init(!fault.ReadFails?);
    }

    method SyncPricing(pricing: seq<Price>, mode: Mode, fault: Fault) returns (failed: bool)
      modifies this, db
      ensures failed == SyncFails(mode, old(prices), pricing, fault)
      ensures db.rows == Stored(mode, old(db.rows), old(prices), pricing, fault)
      ensures old(Fresh()) && !failed ==> Fresh()
      ensures failed ==> prices == old(prices) && patterns == old(patterns)
    {
      if mode.System? || mode.Other? {
        AddModesAgree(mode, prices, pricing);
      }
      if mode.Overwrite? {
        failed := SyncPriceWithOverwrite(pricing, fault);
      } else if mode.Update? {
        failed := SyncPriceOnlyUpdate(pricing, fault);
      } else {
        failed := SyncPriceWithoutOverwrite(pricing, fault);
      }
    }

    /** The map loses the models, the pattern list keeps them. */
    method BatchDeletePrices(models: seq<string>, fault: Fault) returns (failed: bool)
      modifies this, db
      ensures failed == fault.DeleteFails?
      ensures db.rows == if failed then old(db.rows) else Delete(old(db.rows), Among(models))
      ensures prices == if failed then old(prices) else Dropped(old(prices), models)
      ensures patterns == old(patterns)
    {
      if fault.DeleteFails? {
        return true;
      }
      db.rows := Delete(db.rows, Among(models));
      for i := 0 to |models|
        invariant prices == Dropped(old(prices), models[..i])
        invariant patterns == old(patterns) && db.rows == Delete(old(db.rows), Among(models))
      {
        prices := prices - {models[i]};
        assert forall m :: m in models[..i + 1] <==> m in models[..i] || m == models[i];
      }
      assert models[..|models|] == models;
      return false;
    }

    method GetPrice(modelName: string) returns (price: Price)
      ensures price == Lookup(prices, patterns, modelName)
      ensures Fresh() && UniqueModels(db.rows) ==> Serves(db.rows, modelName, price)
    {
      if Fresh() && UniqueModels(db.rows) {
        LookupMeetsTable(db.rows, prices, patterns, modelName);
      }
      if modelName in prices {
        return prices[modelName];
      }
      var matchModel := GetModelsWithMatch(patterns, modelName);
      if matchModel in prices {
        return prices[matchModel];
      }
      return DEFAULT_PRICE;
    }

    method BatchSetPrices(models: seq<string>, price: Price, originalModels: seq<string>, fault: Fault) returns (failed: bool)
      modifies this, db
      ensures failed == BatchSetFails(models, originalModels, fault)
      ensures db.rows == if failed && !fault.ReadFails? then old(db.rows)
                         else BatchSet(old(db.rows), models, originalModels, price)
      ensures !failed && db.rows != [] ==> Fresh()
      ensures failed ==> prices == old(prices) && patterns == old(patterns)
    {
      var deletePrices, updatePrices := Sorted(originalModels, models);
      var addPrices := Additions(models, price, originalModels);
      assert db.rows + [] == db.rows;
      var rows := db.rows;
      if |addPrices| > 0 {
        if fault.InsertFails? {
          return true;
        }
        rows := rows + addPrices;
      }
      if |updatePrices| > 0 {
        if fault.UpdateFails? {
          return true;
        }
        rows := Updated(rows, updatePrices, price);
      }
      if |deletePrices| > 0 {
        if fault.DeleteFails? {
          return true;
        }
        rows := Delete(rows, Among(deletePrices));
      }
      EmptyLists(db.rows + addPrices, price);
      db.rows := rows;
      failed := Init(!fault.ReadFails?);
    }

    /** DeletePrice: the one deletion that reloads the cache, unless it was the last row. */
    method DeletePrice(modelName: string, fault: Fault) returns (failed: bool)
      modifies this, db
      ensures failed == (modelName !in old(prices) || fault.DeleteFails? || fault.ReadFails?)
      ensures db.rows == if modelName !in old(prices) || fault.DeleteFails? then old(db.rows)
                         else Delete(old(db.rows), Among([old(prices)[modelName].model]))
      ensures !failed && db.rows != [] ==> Fresh()
      ensures failed || db.rows == [] ==> prices == old(prices) && patterns == old(patterns)
    {
      if modelName !in prices || fault.DeleteFails? {
        return true;
      }
      db.rows := Delete(db.rows, Among([prices[modelName].model]));
      failed := Init(!fault.ReadFails?);
    }
  }

  /** The run gets as far as synchronising: a mode that does, prices from the service, and a table that can be read. */
  predicate Synchronises(mode: Mode, served: Option<seq<Price>>, readOk: bool) {
    (mode.Add? || mode.Overwrite? || mode.Update?) && served.Some? && readOk
  }

  /**
   UpdatePriceByPriceService works on an instance of its own; the shared cache is not in its frame. The
   price service answers or not, the table can be read at first or not, and then one call may fail.
   */
  method UpdatePriceByPriceService(db: Database, mode: Mode, served: Option<seq<Price>>, readOk: bool, fault: Fault)
    returns (failed: bool)
    modifies db
    ensures !Synchronises(mode, served, readOk) ==> failed == !mode.System? && db.rows == old(db.rows)
    ensures Synchronises(mode, served, readOk) ==>
      && failed == SyncFails(mode, CacheOf(old(db.rows)), served.value, fault)
      && db.rows == Stored(mode, old(db.rows), CacheOf(old(db.rows)), served.value, fault)
  {
    if mode.System? {
      return false;
    }
    if served == None || mode.Other? {
      return true;
    }
    var p := new Pricing(db);
    failed := p.Init(readOk);
    if failed {
      return true;
    }
    if mode.Add? {
      failed := p.SyncPriceWithoutOverwrite(served.value, fault);
    } else if mode.Overwrite? {
      failed := p.SyncPriceWithOverwrite(served.value, fault);
    } else {
      failed := p.SyncPriceOnlyUpdate(served.value, fault);
    }
  }

  /** The rows of the table are as they were, whatever their order. */
  ghost predicate Undisturbed(mode: Mode, rows: seq<Price>, chosen: seq<Price>) {
    match mode
    case Update => forall p :: p in chosen ==> p in rows
    case Overwrite => chosen == [] || forall p :: p in chosen <==> p in rows && !p.locked
    case _ => chosen == []
  }

  /**
   A cache that was fresh before the price service ran is still fresh exactly when the service wrote
   nothing new: an addition chose nothing, an update only rows that are there already, an overwrite
   nothing or exactly the unlocked rows.
   */
  lemma CacheStaysFreshIff(mode: Mode, rows: seq<Price>, pricing: seq<Price>, prices: map<string, Price>, patterns: seq<string>)
    requires UniqueModels(rows) && UniqueModels(pricing) && LoadedFrom(rows, prices, patterns)
    ensures LoadedFrom(Synchronised(mode, rows, CacheOf(rows), pricing), prices, patterns)
       <==> Undisturbed(mode, rows, Chosen(mode, CacheOf(rows), pricing))
  {
    var chosen := Chosen(mode, CacheOf(rows), pricing);
    var after := Synchronised(mode, rows, CacheOf(rows), pricing);
    SynchronisedMeans(mode, rows, pricing);
    SameCacheIff(rows, after);
    if chosen != [] {
      ChosenAreAccepted(mode, CacheOf(rows), pricing);
      DeleteRemovesHits(rows, Deleted(mode, chosen));
      NamesAreModels(chosen);
      SameRowsIff(mode, rows, pricing, Delete(rows, Deleted(mode, chosen)), chosen, after);
    }
  }

  /** Of two tables with one row per model, the caches agree exactly when the rows do. */
  lemma SameCacheIff(a: seq<Price>, b: seq<Price>)
    requires UniqueModels(a) && UniqueModels(b)
    ensures CacheOf(a) == CacheOf(b) <==> forall p :: p in a <==> p in b
  {
    CacheHolds(a);
    CacheHolds(b);
    if forall p :: p in a <==> p in b {
      assert ModelsOf(a) == ModelsOf(b);
      forall m | m in CacheOf(a) ensures CacheOf(a)[m] == CacheOf(b)[m] {
        assert CacheOf(a)[m] in b;
      }
    }
  }

  lemma SameRowsIff(mode: Mode, rows: seq<Price>, pricing: seq<Price>, kept: seq<Price>, chosen: seq<Price>, after: seq<Price>)
    requires UniqueModels(rows) && chosen != [] && after == kept + chosen
    requires forall p :: p in chosen <==> p in pricing && Accepts(mode, CacheOf(rows), p)
    requires forall p :: p in kept <==> p in rows && !Hits(Deleted(mode, chosen), p)
    requires forall m :: m in NamesOf(chosen) <==> m in ModelsOf(chosen)
    ensures (forall p :: p in after <==> p in rows) <==> Undisturbed(mode, rows, chosen)
  {
    forall p ensures p in after <==> p in kept || p in chosen {}
    CacheHolds(rows);
    match mode
    case Overwrite =>
      forall p | p in chosen && p in rows ensures !p.locked {
        assert Accepts(mode, CacheOf(rows), p);
      }
    case Update =>
      if forall p :: p in chosen ==> p in rows {
        UpdateWritesBack(rows, kept, chosen);
      }
    case _ =>
      assert chosen[0] in chosen && Accepts(mode, CacheOf(rows), chosen[0]);
      assert chosen[0] in after && chosen[0] !in rows;
  }

  /** An update with rows that are there already puts each deleted row back. */
  lemma UpdateWritesBack(rows: seq<Price>, kept: seq<Price>, chosen: seq<Price>)
    requires UniqueModels(rows) && forall p :: p in chosen ==> p in rows
    requires forall p :: p in kept <==> p in rows && !(!p.locked && p.model in NamesOf(chosen))
    requires forall m :: m in NamesOf(chosen) <==> m in ModelsOf(chosen)
    ensures forall p :: p in rows ==> p in kept || p in chosen
  {
    forall p | p in rows && p !in kept ensures p in chosen {
      var q :| q in chosen && q.model == p.model;
      assert q in rows;
    }
  }

  /** The run gets no further than the table: it does not synchronise, or fails before it commits. */
  predicate Abandoned(mode: Mode, cache: map<string, Price>, served: Option<seq<Price>>, readOk: bool, fault: Fault) {
    !Synchronises(mode, served, readOk) || (SyncFails(mode, cache, served.value, fault) && !fault.ReadFails?)
  }

  /**
   The scheduled job beside the shared instance: whatever it does to the table, and whichever call fails,
   the shared cache is left as it was. It is stale afterwards unless the run was abandoned, which leaves
   the rows as they were, or nothing new was written.
   */
  method UpdateBesideCache(shared: Pricing, mode: Mode, served: Option<seq<Price>>, readOk: bool, fault: Fault) returns (failed: bool)
    requires shared.Fresh() && UniqueModels(shared.db.rows) && (served.Some? ==> UniqueModels(served.value))
    modifies shared.db
    ensures shared.prices == old(shared.prices) && shared.patterns == old(shared.patterns)
    ensures Abandoned(mode, old(shared.prices), served, readOk, fault) ==> shared.db.rows == old(shared.db.rows)
    ensures shared.Fresh() <==>
            || Abandoned(mode, old(shared.prices), served, readOk, fault)
            || Undisturbed(mode, old(shared.db.rows), Chosen(mode, old(shared.prices), served.value))
  {
    if served.Some? {
      CacheStaysFreshIff(mode, shared.db.rows, served.value, shared.prices, shared.patterns);
    }
    failed := UpdatePriceByPriceService(shared.db, mode, served, readOk, fault);
  }

  /** It goes stale with the first price added to an empty table. */
  lemma ServiceLeavesCacheStale(p: Price)
    ensures LoadedFrom([], map[], []) && !LoadedFrom(Synchronised(Add, [], CacheOf([]), [p]), map[], [])
  {
    CacheStaysFreshIff(Add, [], [p], map[], []);
    assert Chosen(Add, map[], [p]) == [p] + Chosen(Add, map[], [p][1..]);
  }

  method Sorted(originalModels: seq<string>, models: seq<string>) returns (deletePrices: seq<string>, updatePrices: seq<string>)
    ensures deletePrices == Missing(originalModels, models) && updatePrices == Common(originalModels, models)
  {
    deletePrices, updatePrices := [], [];
    for i := 0 to |originalModels|
      invariant deletePrices + Missing(originalModels[i..], models) == Missing(originalModels, models)
      invariant updatePrices + Common(originalModels[i..], models) == Common(originalModels, models)
    {
      NextSorted(originalModels, models, i, deletePrices, updatePrices);
      if originalModels[i] !in models {
        deletePrices := deletePrices + [originalModels[i]];
      } else {
        updatePrices := updatePrices + [originalModels[i]];
      }
    }
  }

  lemma NextSorted(original: seq<string>, models: seq<string>, i: nat, deletes: seq<string>, updates: seq<string>)
    requires i < |original|
    ensures
      var name, known := original[i], original[i] in models;
      && (if known then deletes else deletes + [name]) + Missing(original[i + 1..], models) == deletes + Missing(original[i..], models)
      && (if known then updates + [name] else updates) + Common(original[i + 1..], models) == updates + Common(original[i..], models)
  {
    assert original[i..][0] == original[i] && original[i..][1..] == original[i + 1..];
  }

  lemma NextChosen(mode: Mode, cache: map<string, Price>, pricing: seq<Price>, i: nat, done: seq<Price>)
    requires i < |pricing|
    ensures
      var next := if Accepts(mode, cache, pricing[i]) then done + [pricing[i]] else done;
      next + Chosen(mode, cache, pricing[i + 1..]) == done + Chosen(mode, cache, pricing[i..])
  {
    assert pricing[i..][0] == pricing[i] && pricing[i..][1..] == pricing[i + 1..];
  }

  lemma {:induction false} DeleteNothing(rows: seq<Price>)
    ensures Delete(rows, Nothing) == rows
  {
    if rows != [] {
      DeleteNothing(rows[1..]);
    }
  }

  lemma {:induction false} EmptyLists(rows: seq<Price>, price: Price)
    ensures Updated(rows, [], price) == rows
    ensures forall s :: Delete(s, Among([])) == s
  {
    forall s ensures Delete(s, Among([])) == s {
      DeleteAmongNone(s);
    }
  }

  lemma {:induction false} DeleteAmongNone(rows: seq<Price>)
    ensures Delete(rows, Among([])) == rows
  {
    if rows != [] {
      DeleteAmongNone(rows[1..]);
    }
  }

  lemma {:induction false} AddModesAgree(mode: Mode, cache: map<string, Price>, pricing: seq<Price>)
    requires mode.System? || mode.Other?
    ensures Chosen(mode, cache, pricing) == Chosen(Add, cache, pricing)
  {
    if pricing != [] {
      AddModesAgree(mode, cache, pricing[1..]);
    }
  }

  method ListOf(names: set<string>) returns (list: seq<string>)
    ensures UniqueStrings(list)
    ensures forall m :: m in list <==> m in names
  {
    list := [];
    var left := names;
    while left != {}
      invariant UniqueStrings(list)
      invariant left <= names
      invariant forall m :: m in list <==> m in names && m !in left
      decreases |left|
    {
      ghost var some := SomeElement(left);
      var m :| m in left;
      left := left - {m};
      list := list + [m];
    }
  }
}
