/**
 Batched quota accounting (model/utils.go with model/token.go, model/user.go, model/channel.go).

 Every quota change is either written to its row at once, or, with batching on, added to one of
 five in-memory maps that a background flush takes out and applies entry by entry while requests
 keep recording. The database is modelled with atomic, successful updates over a fixed set of
 rows; an update of an id that has no row changes nothing.
 */
module BatchAccounting {
  import opened Collections

  const USER_QUOTA := 0
  const TOKEN_QUOTA := 1
  const USED_QUOTA := 2
  const CHANNEL_USED_QUOTA := 3
  const REQUEST_COUNT := 4
  const TYPE_COUNT := 5

  type Store = map<int, int>

  datatype User = User(quota: int, usedQuota: int, requestCount: int)
  datatype Token = Token(remainQuota: int, usedQuota: int)
  datatype Db = Db(users: map<int, User>, tokens: map<int, Token>, channels: map<int, int>)

  // ----- Immediate updates -----

  /** One flushed entry; also what the unbatched functions do for a single counter. */
  function ApplyDelta(db: Db, kind: nat, id: int, value: int): Db {
    if kind == USER_QUOTA && id in db.users then
      db.(users := db.users[id := db.users[id].(quota := db.users[id].quota + value)])
    else if kind == TOKEN_QUOTA && id in db.tokens then
      db.(tokens := db.tokens[id := Token(db.tokens[id].remainQuota + value, db.tokens[id].usedQuota - value)])
    else if kind == USED_QUOTA && id in db.users then
      db.(users := db.users[id := db.users[id].(usedQuota := db.users[id].usedQuota + value)])
    else if kind == CHANNEL_USED_QUOTA && id in db.channels then
      db.(channels := db.channels[id := db.channels[id] + value])
    else if kind == REQUEST_COUNT && id in db.users then
      db.(users := db.users[id := db.users[id].(requestCount := db.users[id].requestCount + value)])
    else db
  }

  /** The calls the rest of the program makes. */
  datatype Op =
    | IncreaseUserQuota(id: int, quota: int)
    | DecreaseUserQuota(id: int, quota: int)
    | IncreaseTokenQuota(id: int, quota: int)
    | DecreaseTokenQuota(id: int, quota: int)
    | UpdateUserUsedQuotaAndRequestCount(id: int, quota: int)
    | UpdateChannelUsedQuota(id: int, quota: int)
  {
    /** The first four calls return an error for a negative amount. */
    predicate Refused() {
      quota < 0 && (IncreaseUserQuota? || DecreaseUserQuota? || IncreaseTokenQuota? || DecreaseTokenQuota?)
    }
  }

  /** What a call does with batching off. */
  function Immediate(db: Db, op: Op): Db {
    if op.Refused() then db else
    match op
    case IncreaseUserQuota(id, q) => ApplyDelta(db, USER_QUOTA, id, q)
    case DecreaseUserQuota(id, q) =>
      if id in db.users then db.(users := db.users[id := db.users[id].(quota := db.users[id].quota - q)]) else db
    case IncreaseTokenQuota(id, q) => ApplyDelta(db, TOKEN_QUOTA, id, q)
    case DecreaseTokenQuota(id, q) =>
      if id in db.tokens then
        db.(tokens := db.tokens[id := Token(db.tokens[id].remainQuota - q, db.tokens[id].usedQuota + q)])
      else db
    case UpdateUserUsedQuotaAndRequestCount(id, q) =>
      if id in db.users then
        var u := db.users[id];
        db.(users := db.users[id := u.(usedQuota := u.usedQuota + q, requestCount := u.requestCount + 1)])
      else db
    case UpdateChannelUsedQuota(id, q) => ApplyDelta(db, CHANNEL_USED_QUOTA, id, q)
  }

  function ImmediateAll(db: Db, ops: seq<Op>): Db
    decreases |ops|
  {
    if ops == [] then db else ImmediateAll(Immediate(db, ops[0]), ops[1..])
  }

  // ----- Batched updates -----

  datatype Rec = Rec(kind: nat, id: int, value: int)

  /** What a call records with batching on. */
  function Records(op: Op): seq<Rec> {
    if op.Refused() then [] else
    match op
    case IncreaseUserQuota(id, q) => [Rec(USER_QUOTA, id, q)]
    case DecreaseUserQuota(id, q) => [Rec(USER_QUOTA, id, -q)]
    case IncreaseTokenQuota(id, q) => [Rec(TOKEN_QUOTA, id, q)]
    case DecreaseTokenQuota(id, q) => [Rec(TOKEN_QUOTA, id, -q)]
    case UpdateUserUsedQuotaAndRequestCount(id, q) => [Rec(USED_QUOTA, id, q), Rec(REQUEST_COUNT, id, 1)]
    case UpdateChannelUsedQuota(id, q) => [Rec(CHANNEL_USED_QUOTA, id, q)]
  }

  function RecordsOf(ops: seq<Op>): seq<Rec> {
    if ops == [] then [] else Records(ops[0]) + RecordsOf(ops[1..])
  }

  function Matching(r: Rec, kind: nat, id: int): int {
    if r.kind == kind && r.id == id then r.value else 0
  }

  /** The sum of the recorded values for one counter. */
  function Total(recs: seq<Rec>, kind: nat, id: int): int {
    if recs == [] then 0
    else Matching(recs[0], kind, id) + Total(recs[1..], kind, id)
  }

  lemma {:induction false} TotalConcat(a: seq<Rec>, b: seq<Rec>, kind: nat, id: int)
    ensures Total(a + b, kind, id) == Total(a, kind, id) + Total(b, kind, id)
  {
    if a == [] {
      assert a + b == b;
    } else {
      assert (a + b)[1..] == a[1..] + b;
      TotalConcat(a[1..], b, kind, id);
    }
  }

  lemma TotalWithout(recs: seq<Rec>, j: nat, kind: nat, id: int)
    requires j < |recs|
    ensures Total(recs, kind, id) == Matching(recs[j], kind, id) + Total(recs[..j] + recs[j + 1..], kind, id)
  {
    assert recs == recs[..j] + recs[j..];
    assert recs[j..][1..] == recs[j + 1..];
    TotalConcat(recs[..j], recs[j..], kind, id);
    TotalConcat(recs[..j], recs[j + 1..], kind, id);
  }

  lemma MultisetWithout(recs: seq<Rec>, j: nat)
    requires j < |recs|
    ensures multiset(recs[..j] + recs[j + 1..]) == multiset(recs) - multiset{recs[j]}
  {
    assert recs == recs[..j] + ([recs[j]] + recs[j + 1..]);
  }

  /** The sum does not depend on the order. */
  lemma {:induction false} TotalOfPermutation(a: seq<Rec>, b: seq<Rec>, kind: nat, id: int)
    requires multiset(a) == multiset(b)
    ensures Total(a, kind, id) == Total(b, kind, id)
    decreases |a|
  {
    if a == [] {
      assert |multiset(b)| == 0;
    } else {
      assert a[0] in multiset(b);
      var j :| 0 <= j < |b| && b[j] == a[0];
      MultisetWithout(a, 0);
      MultisetWithout(b, j);
      TotalOfPermutation(a[..0] + a[1..], b[..j] + b[j + 1..], kind, id);
      TotalWithout(a, 0, kind, id);
      TotalWithout(b, j, kind, id);
    }
  }

  /**
   The shared state: the database, the five maps, and the flush, which has taken the maps of the
   types below `cursor` and still has the entries `rest` of type `cursor - 1` to apply.
   */
  datatype State = State(db: Db, stores: seq<Store>, cursor: nat, rest: Store)

  predicate Wf(s: State) {
    |s.stores| == TYPE_COUNT && s.cursor <= TYPE_COUNT && (s.cursor == 0 ==> s.rest == map[])
  }

  /** One atomic step of a request handler or of the flush. */
  datatype Step =
    | Record(rec: Rec)   // addNewRecord, under the lock of its type
    | Begin              // the flush starts over
    | Swap               // the flush takes the next map, under the lock of its type
    | Apply(id: int)     // the flush applies one entry, in no particular order

  predicate Enabled(s: State, step: Step)
    requires Wf(s)
  {
    match step
    case Record(rec) => rec.kind < TYPE_COUNT
    case Begin => s.rest == map[] && s.cursor == TYPE_COUNT
    case Swap => s.rest == map[] && s.cursor < TYPE_COUNT
    case Apply(id) => id in s.rest
  }

  function Get(store: Store, id: int): int {
    if id in store then store[id] else 0
  }

  function AddTo(store: Store, id: int, value: int): Store {
    if id !in store then store[id := value] else store[id := store[id] + value]
  }

  function Next(s: State, step: Step): (s': State)
    requires Wf(s) && Enabled(s, step)
    ensures Wf(s')
  {
    match step
    case Record(rec) => s.(stores := s.stores[rec.kind := AddTo(s.stores[rec.kind], rec.id, rec.value)])
    case Begin => s.(cursor := 0)
    case Swap => s.(rest := s.stores[s.cursor], stores := s.stores[s.cursor := map[]], cursor := s.cursor + 1)
    case Apply(id) => s.(db := ApplyDelta(s.db, s.cursor - 1, id, s.rest[id]), rest := s.rest - {id})
  }

  predicate IsRun(s: State, steps: seq<Step>)
    requires Wf(s)
    decreases |steps|
  {
    steps == [] || (Enabled(s, steps[0]) && IsRun(Next(s, steps[0]), steps[1..]))
  }

  function Run(s: State, steps: seq<Step>): (s': State)
    requires Wf(s) && IsRun(s, steps)
    ensures Wf(s')
    decreases |steps|
  {
    if steps == [] then s else Run(Next(s, steps[0]), steps[1..])
  }

  function Recorded(steps: seq<Step>): seq<Rec> {
    if steps == [] then []
    else (if steps[0].Record? then [steps[0].rec] else []) + Recorded(steps[1..])
  }

  predicate Drained(s: State) {
    Wf(s) && s.rest == map[] && forall k | 0 <= k < TYPE_COUNT :: s.stores[k] == map[]
  }

  // ----- The flush -----

  /** A step of a flush under way. */
  predicate OfFlush(step: Step) {
    step.Swap? || step.Apply?
  }

  ghost predicate Emptied(s: State) {
    Wf(s) && forall k | 0 <= k < s.cursor :: s.stores[k] == map[]
  }

  /** From every state a flush can go on, in any order of entries, and it comes to its end. */
  lemma {:induction false} FlushEnds(s: State) returns (steps: seq<Step>)
    requires Wf(s)
    ensures (forall step | step in steps :: OfFlush(step)) && IsRun(s, steps)
    ensures Run(s, steps).rest == map[] && Run(s, steps).cursor == TYPE_COUNT
    decreases TYPE_COUNT - s.cursor, |s.rest|
  {
    if s.rest == map[] && s.cursor == TYPE_COUNT {
      return [];
    }
    var step := Swap;
    if s.rest != map[] {
      assert s.rest.Keys != {};
      var id := SomeElement(s.rest.Keys);
      assert (s.rest - {id}).Keys == s.rest.Keys - {id};
      step := Apply(id);
    }
    var more := FlushEnds(Next(s, step));
    steps := [step] + more;
    assert steps[1..] == more;
  }

  /** A flush that has started over and is not interrupted by new records has emptied every map when it ends. */
  lemma FlushDrains(s: State, steps: seq<Step>)
    requires Wf(s) && Enabled(s, Begin) && (forall step | step in steps :: OfFlush(step)) && IsRun(Next(s, Begin), steps)
    ensures
      var t := Run(Next(s, Begin), steps);
      t.rest == map[] && t.cursor == TYPE_COUNT ==> Drained(t)
  {
    StaysEmptied(Next(s, Begin), steps);
  }

  lemma {:induction false} StaysEmptied(s: State, steps: seq<Step>)
    requires Emptied(s) && (forall step | step in steps :: OfFlush(step)) && IsRun(s, steps)
    ensures Emptied(Run(s, steps))
    decreases |steps|
  {
    if steps != [] {
      assert steps[0] in steps;
      StaysEmptied(Next(s, steps[0]), steps[1..]);
    }
  }

  // ----- Conservation -----

  predicate HasRow(db: Db, kind: nat, id: int) {
    if kind == TOKEN_QUOTA then id in db.tokens
    else if kind == CHANNEL_USED_QUOTA then id in db.channels
    else kind < TYPE_COUNT && id in db.users
  }

  /** The value a row holds for a counter. */
  function Counter(db: Db, kind: nat, id: int): int
    requires HasRow(db, kind, id)
  {
    if kind == USER_QUOTA then db.users[id].quota
    else if kind == TOKEN_QUOTA then db.tokens[id].remainQuota
    else if kind == USED_QUOTA then db.users[id].usedQuota
    else if kind == CHANNEL_USED_QUOTA then db.channels[id]
    else db.users[id].requestCount
  }

  /** What is still in a map, plus what the flush has taken but not yet applied. */
  function Pending(s: State, kind: nat, id: int): int
    requires Wf(s) && kind < TYPE_COUNT
  {
    Get(s.stores[kind], id) + if s.cursor == kind + 1 then Get(s.rest, id) else 0
  }

  ghost predicate SameRows(a: Db, b: Db) {
    a.users.Keys == b.users.Keys && a.tokens.Keys == b.tokens.Keys && a.channels.Keys == b.channels.Keys
  }

  /** b is a with every counter moved by the recorded amounts (tokens move both of their columns). */
  ghost predicate Moved(a: Db, b: Db, recs: seq<Rec>) {
    SameRows(a, b) &&
    (forall kind, id | HasRow(a, kind, id) :: Counter(b, kind, id) == Counter(a, kind, id) + Total(recs, kind, id)) &&
    TokenSumKept(a, b)
  }

  ghost predicate TokenSumKept(a: Db, b: Db)
    requires SameRows(a, b)
  {
    forall id | id in a.tokens ::
      b.tokens[id].remainQuota + b.tokens[id].usedQuota == a.tokens[id].remainQuota + a.tokens[id].usedQuota
  }

  /** Nothing but the recorded amounts has moved database value plus pending amounts. */
  ghost predicate Conserved(s: State, s': State, recs: seq<Rec>)
    requires Wf(s) && Wf(s')
  {
    SameRows(s.db, s'.db) &&
    TokenSumKept(s.db, s'.db) &&
    forall kind, id | HasRow(s.db, kind, id) ::
      Counter(s'.db, kind, id) + Pending(s', kind, id)
      == Counter(s.db, kind, id) + Pending(s, kind, id) + Total(recs, kind, id)
  }

  lemma TotalOfFew(recs: seq<Rec>, kind: nat, id: int)
    requires |recs| <= 2
    ensures Total(recs, kind, id) == (if |recs| > 0 then Matching(recs[0], kind, id) else 0)
                                   + (if |recs| > 1 then Matching(recs[1], kind, id) else 0)
  {
    if |recs| == 2 {
      assert recs[1..] == [recs[1]];
    }
  }

  lemma ConservedTransitive(a: State, b: State, c: State, recs: seq<Rec>, recs': seq<Rec>)
    requires Wf(a) && Wf(b) && Wf(c)
    requires Conserved(a, b, recs) && Conserved(b, c, recs')
    ensures Conserved(a, c, recs + recs')
  {
    forall kind, id | HasRow(a.db, kind, id)
      ensures Counter(c.db, kind, id) + Pending(c, kind, id)
           == Counter(a.db, kind, id) + Pending(a, kind, id) + Total(recs + recs', kind, id)
    {
      assert HasRow(b.db, kind, id);
      TotalConcat(recs, recs', kind, id);
    }
  }

  lemma StepConserves(s: State, step: Step)
    requires Wf(s) && Enabled(s, step)
    ensures Conserved(s, Next(s, step), if step.Record? then [step.rec] else [])
  {
    var recs := if step.Record? then [step.rec] else [];
    forall kind, id | HasRow(s.db, kind, id)
      ensures Counter(Next(s, step).db, kind, id) + Pending(Next(s, step), kind, id)
           == Counter(s.db, kind, id) + Pending(s, kind, id) + Total(recs, kind, id)
    {
      TotalOfFew(recs, kind, id);
    }
  }

  /**
   Over every interleaving of recording and flushing, each counter's database value plus what is
   pending or in flight is its initial value plus everything recorded.
   */
  lemma {:induction false} RunConserves(s: State, steps: seq<Step>)
    requires Wf(s) && IsRun(s, steps)
    ensures Conserved(s, Run(s, steps), Recorded(steps))
    decreases |steps|
  {
    if steps != [] {
      var s' := Next(s, steps[0]);
      StepConserves(s, steps[0]);
      RunConserves(s', steps[1..]);
      ConservedTransitive(s, s', Run(s, steps), if steps[0].Record? then [steps[0].rec] else [], Recorded(steps[1..]));
    }
  }

  lemma ImmediateMoves(db: Db, op: Op)
    ensures Moved(db, Immediate(db, op), Records(op))
  {
    forall kind, id | HasRow(db, kind, id)
      ensures Counter(Immediate(db, op), kind, id) == Counter(db, kind, id) + Total(Records(op), kind, id)
    {
      TotalOfFew(Records(op), kind, id);
    }
  }

  lemma {:induction false} ImmediateAllMoves(db: Db, ops: seq<Op>)
    ensures Moved(db, ImmediateAll(db, ops), RecordsOf(ops))
    decreases |ops|
  {
    if ops != [] {
      ImmediateMoves(db, ops[0]);
      ImmediateAllMoves(Immediate(db, ops[0]), ops[1..]);
      forall kind, id {
        TotalConcat(Records(ops[0]), RecordsOf(ops[1..]), kind, id);
      }
    }
  }

  lemma MovedIsUnique(a: Db, b: Db, c: Db, recs: seq<Rec>, recs': seq<Rec>)
    requires Moved(a, b, recs) && Moved(a, c, recs') && multiset(recs) == multiset(recs')
    ensures b == c
  {
    forall kind, id | HasRow(a, kind, id)
      ensures Counter(b, kind, id) == Counter(c, kind, id)
    {
      TotalOfPermutation(recs, recs', kind, id);
    }
    forall id | id in a.users ensures b.users[id] == c.users[id] {
      assert HasRow(a, USER_QUOTA, id) && HasRow(a, USED_QUOTA, id) && HasRow(a, REQUEST_COUNT, id);
    }
    forall id | id in a.tokens ensures b.tokens[id] == c.tokens[id] {
      assert HasRow(a, TOKEN_QUOTA, id);
    }
    forall id | id in a.channels ensures b.channels[id] == c.channels[id] {
      assert HasRow(a, CHANNEL_USED_QUOTA, id);
    }
    assert b.users == c.users && b.tokens == c.tokens && b.channels == c.channels;
  }

  /**
   The fast form agrees with the simple one: whatever calls are made, in whatever order their
   records and the flush steps interleave, once everything has drained the database is the one the
   calls would have left with batching off.
   */
  lemma DrainedRunIsImmediate(s: State, steps: seq<Step>, ops: seq<Op>)
    requires Drained(s) && IsRun(s, steps) && Drained(Run(s, steps))
    requires multiset(Recorded(steps)) == multiset(RecordsOf(ops))
    ensures Run(s, steps).db == ImmediateAll(s.db, ops)
  {
    RunConserves(s, steps);
    ImmediateAllMoves(s.db, ops);
    var s' := Run(s, steps);
    assert Moved(s.db, s'.db, Recorded(steps)) by {
      forall kind, id | HasRow(s.db, kind, id)
        ensures Counter(s'.db, kind, id) == Counter(s.db, kind, id) + Total(Recorded(steps), kind, id)
      {
        assert Pending(s, kind, id) == 0 && Pending(s', kind, id) == 0;
      }
    }
    MovedIsUnique(s.db, s'.db, ImmediateAll(s.db, ops), Recorded(steps), RecordsOf(ops));
  }

  /** What a call with batching on does to the shared state: it records, and nothing else. */
  function Recording(recs: seq<Rec>): seq<Step> {
    seq(|recs|, i requires 0 <= i < |recs| => Record(recs[i]))
  }

  lemma RecordOne(s: State, rec: Rec)
    requires Wf(s) && rec.kind < TYPE_COUNT
    ensures IsRun(s, Recording([rec])) && Run(s, Recording([rec])) == Next(s, Record(rec))
  {
    assert Recording([rec])[1..] == [];
  }

  lemma RecordTwo(s: State, rec: Rec, rec': Rec)
    requires Wf(s) && rec.kind < TYPE_COUNT && rec'.kind < TYPE_COUNT
    ensures IsRun(s, Recording([rec, rec'])) && Run(s, Recording([rec, rec'])) == Next(Next(s, Record(rec)), Record(rec'))
  {
    RecordOne(Next(s, Record(rec)), rec');
    assert Recording([rec, rec'])[1..] == Recording([rec']);
  }

  // ----- The code -----

  class BatchUpdater {
    const batchUpdateEnabled: bool
    var db: Db
    var stores: seq<Store>

    constructor (batchUpdateEnabled: bool, db: Db)
      ensures this.batchUpdateEnabled == batchUpdateEnabled && this.db == db
      ensures Drained(Snapshot())
    {
      this.batchUpdateEnabled, this.db := batchUpdateEnabled, db;
      stores := seq(TYPE_COUNT, _ => map[]);
    }

    /** The shared state between two flushes. */
    function Snapshot(): State
      reads this
    {
      State(db, stores, TYPE_COUNT, map[])
    }

    ghost predicate Valid()
      reads this
    {
      Wf(Snapshot())
    }

    method AddNewRecord(kind: nat, id: int, value: int)
      requires Valid() && kind < TYPE_COUNT
      modifies this`stores
      ensures Valid() && Snapshot() == Next(old(Snapshot()), Record(Rec(kind, id, value)))
    {
      if id !in stores[kind] {
        stores := stores[kind := stores[kind][id := value]];
      } else {
        stores := stores[kind := stores[kind][id := stores[kind][id] + value]];
      }
    }

    /** One call of the quota functions: an error and no effect, a direct update, or records. */
    method Call(op: Op) returns (ok: bool)
      requires Valid()
      modifies this
      ensures Valid() && ok == !op.Refused()
      ensures !batchUpdateEnabled ==> db == Immediate(old(db), op) && stores == old(stores)
      ensures batchUpdateEnabled ==>
                var steps := Recording(Records(op));
                IsRun(old(Snapshot()), steps) && Snapshot() == Run(old(Snapshot()), steps)
      ensures batchUpdateEnabled ==> db == old(db) && Conserved(old(Snapshot()), Snapshot(), Records(op))
    {
      if op.Refused() {
        return false;
      }
      if !batchUpdateEnabled {
        db := Immediate(db, op);
        return true;
      }
      ok := true;
      match op {
        case IncreaseUserQuota(id, quota) => RecordIt(USER_QUOTA, id, quota);
        case DecreaseUserQuota(id, quota) => RecordIt(USER_QUOTA, id, -quota);
        case IncreaseTokenQuota(id, quota) => RecordIt(TOKEN_QUOTA, id, quota);
        case DecreaseTokenQuota(id, quota) => RecordIt(TOKEN_QUOTA, id, -quota);
        case UpdateUserUsedQuotaAndRequestCount(id, quota) => RecordUse(id, quota);
        case UpdateChannelUsedQuota(id, quota) => RecordIt(CHANNEL_USED_QUOTA, id, quota);
      }
    }

    /** addNewRecord, with what one record means for the run and for the sums. */
    method RecordIt(kind: nat, id: int, value: int)
      requires Valid() && kind < TYPE_COUNT
      modifies this`stores
      ensures Valid() && Snapshot() == Next(old(Snapshot()), Record(Rec(kind, id, value)))
      ensures var steps := Recording([Rec(kind, id, value)]);
              IsRun(old(Snapshot()), steps) && Snapshot() == Run(old(Snapshot()), steps)
      ensures Conserved(old(Snapshot()), Snapshot(), [Rec(kind, id, value)])
    {
      RecordOne(Snapshot(), Rec(kind, id, value));
      StepConserves(Snapshot(), Record(Rec(kind, id, value)));
      AddNewRecord(kind, id, value);
    }

    /** The two records of one use. */
    method RecordUse(id: int, quota: int)
      requires Valid()
      modifies this`stores
      ensures Valid()
      ensures var steps := Recording([Rec(USED_QUOTA, id, quota), Rec(REQUEST_COUNT, id, 1)]);
              IsRun(old(Snapshot()), steps) && Snapshot() == Run(old(Snapshot()), steps)
      ensures Conserved(old(Snapshot()), Snapshot(), [Rec(USED_QUOTA, id, quota), Rec(REQUEST_COUNT, id, 1)])
    {
      ghost var before := Snapshot();
      RecordTwo(before, Rec(USED_QUOTA, id, quota), Rec(REQUEST_COUNT, id, 1));
      RecordIt(USED_QUOTA, id, quota);
      ghost var between := Snapshot();
      RecordIt(REQUEST_COUNT, id, 1);
      ConservedTransitive(before, between, Snapshot(), [Rec(USED_QUOTA, id, quota)], [Rec(REQUEST_COUNT, id, 1)]);
      assert [Rec(USED_QUOTA, id, quota)] + [Rec(REQUEST_COUNT, id, 1)] == [Rec(USED_QUOTA, id, quota), Rec(REQUEST_COUNT, id, 1)];
    }

    /** An undisturbed flush: the maps are emptied, and every pending amount reaches its row. */
    method BatchUpdate()
      requires Valid()
      modifies this
      ensures Drained(Snapshot())
      ensures Conserved(old(Snapshot()), Snapshot(), [])
    {
      for i := 0 to TYPE_COUNT
        invariant Wf(State(db, stores, i, map[]))
        invariant forall k | 0 <= k < i :: stores[k] == map[]
        invariant Conserved(old(Snapshot()), State(db, stores, i, map[]), [])
      {
        ghost var before := State(db, stores, i, map[]);
        var store := stores[i];
        stores := stores[i := map[]];
        assert State(db, stores, i + 1, store) == Next(before, Swap);
        StepConserves(before, Swap);
        ApplyStore(i, store);
        ConservedTransitive(before, Next(before, Swap), State(db, stores, i + 1, map[]), [], []);
        ConservedTransitive(old(Snapshot()), before, State(db, stores, i + 1, map[]), [], []);
      }
    }

    /** The inner loop: the entries taken from one map reach their rows, in any order. */
    method ApplyStore(i: nat, store: Store)
      requires i < TYPE_COUNT && Wf(State(db, stores, i + 1, store))
      modifies this`db
      ensures Wf(State(db, stores, i + 1, map[]))
      ensures Conserved(old(State(db, stores, i + 1, store)), State(db, stores, i + 1, map[]), [])
    {
      var rest := store;
      while rest.Keys != {}
        invariant Wf(State(db, stores, i + 1, rest))
        invariant Conserved(old(State(db, stores, i + 1, store)), State(db, stores, i + 1, rest), [])
        decreases rest.Keys
      {
        ghost var some := SomeElement(rest.Keys);
        var id :| id in rest;
        ghost var before := State(db, stores, i + 1, rest);
        StepConserves(before, Apply(id));
        db := ApplyDelta(db, i, id, rest[id]);
        rest := rest - {id};
        ConservedTransitive(old(State(db, stores, i + 1, store)), before, State(db, stores, i + 1, rest), [], []);
      }
      assert rest == map[];
    }
  }
}
