/**
 Fault-tolerant batch insertion of log records (model/utils.go): records go to the database in
 chunks of 200, and a chunk the database refuses is split in two, down to single records.

 The database takes a batch as a whole or not at all: a batch is taken exactly when inserting its
 records singly, in order, would succeed every time. Which single records it takes is an arbitrary
 function of the rows already stored (a unique key is the usual case).
 */
module BisectingInsert {
  import opened Options

  const BATCH_SIZE := 200

  type Acceptance<!T> = (seq<T>, T) -> bool

  // ----- Reference: one record at a time -----

  /** The rows after offering the records one at a time and skipping those that are refused. */
  function InsertEach<T>(accepts: Acceptance<T>, rows: seq<T>, data: seq<T>): seq<T>
    decreases |data|
  {
    if data == [] then rows
    else if accepts(rows, data[0]) then InsertEach(accepts, rows + [data[0]], data[1..])
    else InsertEach(accepts, rows, data[1..])
  }

  /** The records refused on the way, in order. */
  function Rejected<T>(accepts: Acceptance<T>, rows: seq<T>, data: seq<T>): (r: seq<T>)
    ensures |r| <= |data|
    decreases |data|
  {
    if data == [] then []
    else if accepts(rows, data[0]) then Rejected(accepts, rows + [data[0]], data[1..])
    else [data[0]] + Rejected(accepts, rows, data[1..])
  }

  function First<T>(s: seq<T>): Option<T> {
    if s == [] then None else Some(s[0])
  }

  /** Inserting two pieces one after the other is inserting their concatenation. */
  lemma {:induction false} InsertEachConcat<T>(accepts: Acceptance<T>, rows: seq<T>, a: seq<T>, b: seq<T>)
    ensures InsertEach(accepts, rows, a + b) == InsertEach(accepts, InsertEach(accepts, rows, a), b)
    ensures Rejected(accepts, rows, a + b)
         == Rejected(accepts, rows, a) + Rejected(accepts, InsertEach(accepts, rows, a), b)
    decreases |a|
  {
    if a == [] {
      assert a + b == b;
    } else {
      assert (a + b)[1..] == a[1..] + b;
      InsertEachConcat(accepts, if accepts(rows, a[0]) then rows + [a[0]] else rows, a[1..], b);
    }
  }

  /** With nothing refused, the rows are simply extended by the records. */
  lemma {:induction false} NothingRejected<T>(accepts: Acceptance<T>, rows: seq<T>, data: seq<T>)
    requires Rejected(accepts, rows, data) == []
    ensures InsertEach(accepts, rows, data) == rows + data
    decreases |data|
  {
    if data != [] {
      NothingRejected(accepts, rows + [data[0]], data[1..]);
      assert rows + [data[0]] + data[1..] == rows + data;
    }
  }

  /** Stored rows are never lost, and every offered record is either stored or refused. */
  lemma {:induction false} InsertEachAccountsForAll<T>(accepts: Acceptance<T>, rows: seq<T>, data: seq<T>)
    ensures rows <= InsertEach(accepts, rows, data)
    ensures multiset(InsertEach(accepts, rows, data)) + multiset(Rejected(accepts, rows, data))
         == multiset(rows) + multiset(data)
    decreases |data|
  {
    if data != [] {
      var record, rest := data[0], data[1..];
      assert multiset(data) == multiset{record} + multiset(rest) by {
        assert data == [record] + rest;
      }
      if accepts(rows, record) {
        InsertEachAccountsForAll(accepts, rows + [record], rest);
      } else {
        InsertEachAccountsForAll(accepts, rows, rest);
        var refused := Rejected(accepts, rows, rest);
        assert multiset([record] + refused) == multiset{record} + multiset(refused);
        assert Rejected(accepts, rows, data) == [record] + refused;
        assert InsertEach(accepts, rows, data) == InsertEach(accepts, rows, rest);
        calc {
          multiset(InsertEach(accepts, rows, data)) + multiset(Rejected(accepts, rows, data));
          multiset(InsertEach(accepts, rows, rest)) + (multiset{record} + multiset(refused));
          multiset{record} + (multiset(InsertEach(accepts, rows, rest)) + multiset(refused));
          multiset{record} + (multiset(rows) + multiset(rest));
          multiset(rows) + multiset(data);
        }
      }
    }
  }

  // ----- The number of batches the bisection offers -----

  /** How often the bisection calls the database, for data that is not empty. */
  function Calls<T>(accepts: Acceptance<T>, rows: seq<T>, data: seq<T>): nat
    decreases |data|
  {
    if data == [] then 0
    else if Rejected(accepts, rows, data) == [] || |data| == 1 then 1
    else
      var mid := |data| / 2;
      1 + Calls(accepts, rows, data[..mid]) + Calls(accepts, InsertEach(accepts, rows, data[..mid]), data[mid..])
  }

  /** The logarithm to base two, rounded up. */
  function CeilLog2(n: nat): nat {
    if n <= 1 then 0 else 1 + CeilLog2((n + 1) / 2)
  }

  function Pow2(e: nat): nat {
    if e == 0 then 1 else 2 * Pow2(e - 1)
  }

  /** CeilLog2 is the least exponent whose power of two reaches n. */
  lemma {:induction false} CeilLog2IsLeast(n: nat, e: nat)
    requires 1 <= n
    ensures n <= Pow2(e) <==> CeilLog2(n) <= e
  {
    if n == 1 {
      Pow2Positive(e);
    } else if e > 0 {
      CeilLog2IsLeast((n + 1) / 2, e - 1);
    }
  }

  lemma Pow2Positive(e: nat)
    ensures Pow2(e) >= 1
  {
  }

  /** 1 + 2 * bad * log, by repeated addition. */
  function CallLimit(bad: nat, log: nat): nat {
    if bad == 0 then 1 else CallLimit(bad - 1, log) + 2 * log
  }

  lemma {:induction false} CallLimitIsProduct(bad: nat, log: nat)
    ensures CallLimit(bad, log) == 1 + 2 * bad * log
  {
    if bad > 0 {
      CallLimitIsProduct(bad - 1, log);
      assert 2 * bad * log == 2 * (bad - 1) * log + 2 * log;
    }
  }

  /**
   With k of n records refused, at most 1 + 2 k log batches are offered, for any log from log2(n) on.
   */
  lemma CallBound<T>(accepts: Acceptance<T>, rows: seq<T>, data: seq<T>, log: nat)
    requires data != [] && CeilLog2(|data|) <= log
    ensures Calls(accepts, rows, data) <= 1 + 2 * |Rejected(accepts, rows, data)| * log
  {
    CeilLog2IsLeast(|data|, log);
    BisectionCalls(accepts, rows, data, log);
    TraceWithinLimit(Bisection(accepts, rows, data), log);
    CallLimitIsProduct(|Rejected(accepts, rows, data)|, log);
  }

  datatype Trace = Once(bad: nat) | Halved(left: Trace, right: Trace)

  /** How a batch is split up. */
  function Bisection<T>(accepts: Acceptance<T>, rows: seq<T>, data: seq<T>): Trace
    decreases |data|
  {
    if Rejected(accepts, rows, data) == [] || |data| <= 1 then Once(|Rejected(accepts, rows, data)|)
    else
      var mid := |data| / 2;
      Halved(Bisection(accepts, rows, data[..mid]), Bisection(accepts, InsertEach(accepts, rows, data[..mid]), data[mid..]))
  }

  function CallsIn(t: Trace): nat {
    match t
    case Once(_) => 1
    case Halved(left, right) => 1 + CallsIn(left) + CallsIn(right)
  }

  function BadIn(t: Trace): nat {
    match t
    case Once(bad) => bad
    case Halved(left, right) => BadIn(left) + BadIn(right)
  }

  /** Of that depth at most, and split only where something was refused. */
  predicate Within(t: Trace, log: nat) {
    match t
    case Once(_) => true
    case Halved(left, right) => log > 0 && BadIn(t) > 0 && Within(left, log - 1) && Within(right, log - 1)
  }

  lemma {:induction false} BisectionCalls<T>(accepts: Acceptance<T>, rows: seq<T>, data: seq<T>, log: nat)
    requires data != [] && |data| <= Pow2(log)
    ensures var t := Bisection(accepts, rows, data);
            CallsIn(t) == Calls(accepts, rows, data) && BadIn(t) == |Rejected(accepts, rows, data)| && Within(t, log)
    decreases |data|
  {
    if Rejected(accepts, rows, data) != [] && |data| > 1 {
      var left, right := data[..|data| / 2], data[|data| / 2..];
      BisectionCalls(accepts, rows, left, log - 1);
      BisectionCalls(accepts, InsertEach(accepts, rows, left), right, log - 1);
      assert left + right == data;
      InsertEachConcat(accepts, rows, left, right);
    }
  }

  lemma {:induction false} TraceWithinLimit(t: Trace, log: nat)
    requires Within(t, log)
    ensures CallsIn(t) <= CallLimit(BadIn(t), log)
  {
    match t
    case Once(bad) =>
      OneCall(bad, log);
    case Halved(left, right) =>
      TraceWithinLimit(left, log - 1);
      TraceWithinLimit(right, log - 1);
      HalvingPays(CallsIn(t), BadIn(t), log, CallsIn(left), BadIn(left), CallsIn(right), BadIn(right));
  }

  lemma {:induction false} OneCall(bad: nat, log: nat)
    ensures 1 <= CallLimit(bad, log)
  {
    if bad > 0 {
      OneCall(bad - 1, log);
    }
  }

  /** The arithmetic of one split: both halves are one level lower, and something was refused. */
  lemma HalvingPays(calls: nat, bad: nat, log: nat, calls1: nat, bad1: nat, calls2: nat, bad2: nat)
    requires calls == 1 + calls1 + calls2 && bad == bad1 + bad2 && bad > 0 && log > 0
    requires calls1 <= CallLimit(bad1, log - 1) && calls2 <= CallLimit(bad2, log - 1)
    ensures calls <= CallLimit(bad, log)
  {
    LimitOfSum(bad1, bad2, log);
  }

  lemma {:induction false} LimitOfSum(bad1: nat, bad2: nat, log: nat)
    requires log > 0
    ensures CallLimit(bad1 + bad2, log) == CallLimit(bad1, log - 1) + CallLimit(bad2, log - 1) - 1 + 2 * (bad1 + bad2)
  {
    if bad1 > 0 {
      LimitOfSum(bad1 - 1, bad2, log);
    } else if bad2 > 0 {
      LimitOfSum(0, bad2 - 1, log);
    }
  }

  /** Never more than 2n - 1 batches, and a single one exactly when a split is not needed or not possible. */
  lemma {:induction false} CallsAtMostTwicePerRecord<T>(accepts: Acceptance<T>, rows: seq<T>, data: seq<T>)
    requires data != []
    ensures Calls(accepts, rows, data) <= 2 * |data| - 1
    ensures Calls(accepts, rows, data) == 1 <==> Rejected(accepts, rows, data) == [] || |data| == 1
    decreases |data|
  {
    if Rejected(accepts, rows, data) != [] && |data| > 1 {
      var mid := |data| / 2;
      CallsAtMostTwicePerRecord(accepts, rows, data[..mid]);
      CallsAtMostTwicePerRecord(accepts, InsertEach(accepts, rows, data[..mid]), data[mid..]);
    }
  }

  /** The worst case is reached: when every record is refused, exactly 2n - 1 batches are offered. */
  lemma {:induction false} CallsWhenAllRejected<T>(accepts: Acceptance<T>, rows: seq<T>, data: seq<T>)
    requires data != [] && Rejected(accepts, rows, data) == data
    ensures Calls(accepts, rows, data) == 2 * |data| - 1
    decreases |data|
  {
    if |data| > 1 {
      var mid := |data| / 2;
      var left, right := data[..mid], data[mid..];
      assert left + right == data;
      InsertEachConcat(accepts, rows, left, right);
      assert Rejected(accepts, rows, left) == left && Rejected(accepts, InsertEach(accepts, rows, left), right) == right by {
        var l, r := Rejected(accepts, rows, left), Rejected(accepts, InsertEach(accepts, rows, left), right);
        assert l + r == left + right && |l| <= |left| && |r| <= |right|;
        assert l == (l + r)[..|left|] && r == (l + r)[|left|..];
      }
      CallsWhenAllRejected(accepts, rows, left);
      CallsWhenAllRejected(accepts, InsertEach(accepts, rows, left), right);
    }
  }

  // ----- The code -----

  /** The table, and how many batches it has been offered. */
  class Database<T> {
    const accepts: Acceptance<T>
    var rows: seq<T>
    ghost var creates: nat

    constructor (accepts: Acceptance<T>, rows: seq<T>)
      ensures this.accepts == accepts && this.rows == rows && creates == 0
    {
      this.accepts, this.rows, creates := accepts, rows, 0;
    }

    /** One transaction: all records, or none and the first refused record as the error. */
    method Create(data: seq<T>) returns (err: Option<T>)
      modifies this
      ensures creates == old(creates) + 1
      ensures err == First(Rejected(accepts, old(rows), data))
      ensures rows == if err == None then old(rows) + data else old(rows)
    {
      creates := creates + 1;
      var staged, i := rows, 0;
      while i < |data|
        invariant 0 <= i <= |data|
        invariant rows == old(rows) && staged == rows + data[..i]
        invariant Rejected(accepts, rows, data) == Rejected(accepts, staged, data[i..])
        invariant creates == old(creates) + 1
      {
        if !accepts(staged, data[i]) {
          return Some(data[i]);
        }
        staged, i := staged + [data[i]], i + 1;
      }
      rows := staged;
      return None;
    }
  }

  /** Offer the batch; if it is refused, bisect it. The error names the first refused record. */
  method BatchInsertWithRetry<T>(db: Database<T>, data: seq<T>) returns (err: Option<T>)
    modifies db
    ensures db.rows == InsertEach(db.accepts, old(db.rows), data)
    ensures err == First(Rejected(db.accepts, old(db.rows), data))
    ensures db.creates == old(db.creates) + Calls(db.accepts, old(db.rows), data)
    decreases |data|
  {
    if |data| == 0 {
      return None;
    }
    err := db.Create(data);
    if err == None {
      NothingRejected(db.accepts, old(db.rows), data);
      return None;
    }
    if |data| == 1 {
      return err;
    }
    var mid := |data| / 2;
    assert data[..mid] + data[mid..] == data;
    InsertEachConcat(db.accepts, db.rows, data[..mid], data[mid..]);
    var err1 := BatchInsertWithRetry(db, data[..mid]);
    var err2 := BatchInsertWithRetry(db, data[mid..]);
    if err1 != None {
      return err1;
    }
    return err2;
  }

  /** How many chunks of at most BATCH_SIZE hold n records. */
  function Chunks(n: nat): nat {
    (n + BATCH_SIZE - 1) / BATCH_SIZE
  }

  /** Chunked insertion leaves the one-at-a-time table; refused records cost at most 16 batches each. */
  method BatchInsert<T>(db: Database<T>, data: seq<T>)
    modifies db
    ensures db.rows == InsertEach(db.accepts, old(db.rows), data)
    ensures db.creates <= old(db.creates) + Chunks(|data|) + 16 * |Rejected(db.accepts, old(db.rows), data)|
  {
    var i, chunks := 0, 0;
    while i < |data|
      invariant 0 <= chunks && (i == chunks * BATCH_SIZE || i >= |data|) && chunks <= Chunks(|data|)
      invariant var done := data[..if i < |data| then i else |data|];
                db.rows == InsertEach(db.accepts, old(db.rows), done) &&
                db.creates <= old(db.creates) + chunks + 16 * |Rejected(db.accepts, old(db.rows), done)|
      decreases |data| - i
    {
      var end := i + BATCH_SIZE;
      if end > |data| {
        end := |data|;
      }
      assert data[..i] + data[i..end] == data[..end];
      InsertEachConcat(db.accepts, old(db.rows), data[..i], data[i..end]);
      CallBoundForChunk(db.accepts, db.rows, data[i..end]);
      var _ := BatchInsertWithRetry(db, data[i..end]);
      i, chunks := i + BATCH_SIZE, chunks + 1;
    }
    assert data[..|data|] == data;
  }

  lemma CallBoundForChunk<T>(accepts: Acceptance<T>, rows: seq<T>, data: seq<T>)
    requires 0 < |data| <= BATCH_SIZE
    ensures Calls(accepts, rows, data) <= 1 + 16 * |Rejected(accepts, rows, data)|
  {
    assert Pow2(8) == 256;
    CeilLog2IsLeast(|data|, 8);
    CallBound(accepts, rows, data, 8);
  }

  // ----- The log buffer in front of it -----

  /** Logs waiting in the buffer, logs taken out by the flush but not yet inserted, stored rows. */
  datatype LogState<T> = LogState(pending: seq<T>, taken: seq<T>, rows: seq<T>)

  /** What the request handlers and the single flusher do to it, one atomic step each. */
  datatype LogStep<T> = Add(log: T) | Take | Insert

  predicate LogEnabled<T>(s: LogState<T>, step: LogStep<T>) {
    step.Take? ==> s.taken == []
  }

  function LogNext<T>(accepts: Acceptance<T>, s: LogState<T>, step: LogStep<T>): LogState<T> {
    match step
    case Add(log) => s.(pending := s.pending + [log])
    case Take => s.(taken := s.pending, pending := [])
    case Insert => s.(taken := [], rows := InsertEach(accepts, s.rows, s.taken))
  }

  predicate IsLogRun<T>(accepts: Acceptance<T>, s: LogState<T>, steps: seq<LogStep<T>>)
    decreases |steps|
  {
    steps == [] || (LogEnabled(s, steps[0]) && IsLogRun(accepts, LogNext(accepts, s, steps[0]), steps[1..]))
  }

  function LogRun<T>(accepts: Acceptance<T>, s: LogState<T>, steps: seq<LogStep<T>>): LogState<T>
    decreases |steps|
  {
    if steps == [] then s else LogRun(accepts, LogNext(accepts, s, steps[0]), steps[1..])
  }

  function Added<T>(steps: seq<LogStep<T>>): seq<T> {
    if steps == [] then []
    else (if steps[0].Add? then [steps[0].log] else []) + Added(steps[1..])
  }

  /** The table once everything in flight has been inserted. */
  function Settled<T>(accepts: Acceptance<T>, s: LogState<T>): seq<T> {
    InsertEach(accepts, s.rows, s.taken + s.pending)
  }

  /** One step leaves the table still to come as it was, but for the log it adds. */
  lemma StepSettles<T>(accepts: Acceptance<T>, s: LogState<T>, step: LogStep<T>, rest: seq<T>)
    requires LogEnabled(s, step)
    ensures var s' := LogNext(accepts, s, step);
            var added := if step.Add? then [step.log] else [];
            InsertEach(accepts, s'.rows, s'.taken + s'.pending + rest)
            == InsertEach(accepts, s.rows, s.taken + s.pending + (added + rest))
  {
    match step
    case Add(log) =>
      assert s.taken + (s.pending + [log]) + rest == s.taken + s.pending + ([log] + rest);
    case Take =>
      assert s.pending + [] + rest == [] + s.pending + ([] + rest);
    case Insert =>
      assert [] + s.pending + rest == s.pending + rest;
      assert s.taken + s.pending + ([] + rest) == s.taken + (s.pending + rest);
      InsertEachConcat(accepts, s.rows, s.taken, s.pending + rest);
  }

  /** An uninterrupted flush empties the buffer, and every log it held is stored or refused on its own. */
  lemma FlushEmptiesBuffer<T>(accepts: Acceptance<T>, s: LogState<T>)
    requires s.taken == []
    ensures IsLogRun(accepts, s, [Take, Insert])
    ensures LogRun(accepts, s, [Take, Insert]) == LogState([], [], InsertEach(accepts, s.rows, s.pending))
  {
    assert [LogStep<T>.Take, LogStep<T>.Insert][1..] == [LogStep<T>.Insert];
    assert [LogStep<T>.Insert][1..] == [];
  }

  /**
   However adding and flushing interleave, no log is lost, doubled or reordered: at every point the
   table still to come is the one obtained by inserting the added logs directly.
   */
  lemma {:induction false} LogsSurviveInterleaving<T>(accepts: Acceptance<T>, s: LogState<T>, steps: seq<LogStep<T>>)
    requires IsLogRun(accepts, s, steps)
    ensures Settled(accepts, LogRun(accepts, s, steps))
         == InsertEach(accepts, s.rows, s.taken + s.pending + Added(steps))
    decreases |steps|
  {
    if steps == [] {
      assert s.taken + s.pending + Added(steps) == s.taken + s.pending;
    } else {
      LogsSurviveInterleaving(accepts, LogNext(accepts, s, steps[0]), steps[1..]);
      StepSettles(accepts, s, steps[0], Added(steps[1..]));
    }
  }
}
