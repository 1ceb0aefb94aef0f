/**
 Payment callbacks as concurrent threads: the double-checked table of
 per-key locks, the order rows they read and save, and the credits they give (controller/order.go, model/order.go).
 */
module OrderProtocol {
  import opened Options

  // ----- Entities -----

  datatype Status = Pending | Success | Failed | Closed

  datatype Order = Order(user: int, quota: nat, createdAt: int, gatewayNo: string, status: Status)

  /** What a verified callback carries: the order and the gateway's own number. */
  datatype Notice = Notice(tradeNo: string, gatewayNo: string)

  /** Where a callback stands. Each constructor is the operation it performs next. */
  datatype Stage =
    | Loading                                 // first orderLocks.Load
    | WantingCreate                           // createLock.Lock
    | Rechecking                              // second orderLocks.Load
    | Storing                                 // orderLocks.Store of a new mutex
    | WantingOrder(mutex: nat, creating: bool) // Lock of the order's mutex
    | LeavingCreate                           // deferred createLock.Unlock
    | Reading                                 // GetOrderByTradeNo and the status test
    | Saving(order: Order)                    // order.Update
    | Crediting(order: Order)                 // IncreaseUserQuota
    | Unlocking                               // deferred UnlockOrder
    | Finished

  /** How the crediting of a paid order ended. */
  datatype Outcome = Outcome(tradeNo: string, user: int, quota: nat, credited: bool)

  /**
   The shared state. A mutex is a number; `createLock` and `held` also record
   which callback holds it, which a lock does not know but a proof may.
   `stores` and `outcomes` are histories.
   */
  datatype State = State(
    stages: seq<Stage>,
    createLock: Option<nat>,
    locks: map<string, nat>,
    held: map<nat, nat>,
    mutexes: nat,
    stores: seq<string>,
    orders: map<string, Order>,
    balances: map<int, int>,
    outcomes: seq<Outcome>,
    crashed: bool)

  /** One scheduling choice. `ok` says whether the database call of that turn succeeds. */
  datatype Event =
    | Turn(callback: nat, ok: bool)
    | CloseUnfinished(now: int)
    | Place(tradeNo: string, user: int, quota: nat, createdAt: int)

  function Init(n: nat, orders: map<string, Order>, balances: map<int, int>): State {
    State(seq(n, _ => Loading), None, map[], map[], 0, [], orders, balances, [], false)
  }

  // ----- Steps -----

  predicate Enabled(s: State, i: nat) {
    i < |s.stages| &&
    match s.stages[i]
    case WantingCreate => s.createLock.None?
    case WantingOrder(mutex, _) => mutex !in s.held
    case Finished => false
    case _ => true
  }

  /** Where a turn takes the callback. */
  function NextStage(s: State, stage: Stage, notice: Notice, ok: bool): Stage {
    match stage
    case Loading => Found(s.locks, notice.gatewayNo, false, WantingCreate)
    case WantingCreate => Rechecking
    case Rechecking => Found(s.locks, notice.gatewayNo, true, Storing)
    case Storing => WantingOrder(s.mutexes, true)
    case WantingOrder(_, creating) => if creating then LeavingCreate else Reading
    case LeavingCreate => Reading
    case Reading => Read(s.orders, notice.tradeNo, ok)
    case Saving(order) => if ok then Crediting(order) else Unlocking
    case Crediting(_) => Unlocking
    case _ => Finished
  }

  function Found(locks: map<string, nat>, key: string, creating: bool, otherwise: Stage): Stage {
    if key in locks then WantingOrder(locks[key], creating) else otherwise
  }

  /** What a turn does to the shared state. */
  function Effect(s: State, i: nat, stage: Stage, notice: Notice, ok: bool): State {
    match stage
    case WantingCreate => s.(createLock := Some(i))
    case Storing =>
      s.(locks := s.locks[notice.gatewayNo := s.mutexes], mutexes := s.mutexes + 1,
         stores := s.stores + [notice.gatewayNo])
    case WantingOrder(mutex, _) => s.(held := s.held[mutex := i])
    case LeavingCreate => s.(createLock := None)
    case Saving(order) =>
      if ok then s.(orders := s.orders[notice.tradeNo := Paid(order, notice)]) else s
    case Crediting(order) => Credited(s, notice.tradeNo, order, ok)
    case Unlocking => Unlock(s, notice.gatewayNo)
    case _ => s
  }

  function Advance(s: State, i: nat, notice: Notice, ok: bool): State
    requires Enabled(s, i)
  {
    To(Effect(s, i, s.stages[i], notice, ok), s.stages, i, NextStage(s, s.stages[i], notice, ok))
  }

  function To(s: State, stages: seq<Stage>, i: nat, stage: Stage): State
    requires i < |stages|
  {
    s.(stages := stages[i := stage])
  }

  /** Save writes the whole row the callback has read, with its two new fields. */
  function Paid(order: Order, notice: Notice): Order {
    order.(gatewayNo := notice.gatewayNo, status := Success)
  }

  function Read(orders: map<string, Order>, tradeNo: string, ok: bool): Stage {
    if ok && tradeNo in orders && orders[tradeNo].status == Pending then Saving(orders[tradeNo]) else Unlocking
  }

  /** IncreaseUserQuota: an update of the user's row, which may be missing. */
  function Credited(s: State, tradeNo: string, order: Order, ok: bool): State {
    s.(outcomes := s.outcomes + [Outcome(tradeNo, order.user, order.quota, ok)],
       balances := if ok && order.user in s.balances
                   then s.balances[order.user := s.balances[order.user] + order.quota]
                   else s.balances)
  }

  /** UnlockOrder: releasing a mutex nobody holds stops the program. */
  function Unlock(s: State, key: string): State {
    if key !in s.locks then s
    else if s.locks[key] in s.held then s.(held := s.held - {s.locks[key]})
    else s.(crashed := true)
  }

  const UNPAID_SECONDS := 3 * 3600

  /** CloseUnfinishedOrder: every pending order older than three hours. */
  function Close(orders: map<string, Order>, now: int): map<string, Order> {
    map t | t in orders ::
      if orders[t].status == Pending && orders[t].createdAt < now - UNPAID_SECONDS
      then orders[t].(status := Closed) else orders[t]
  }

  function Step(notices: seq<Notice>, s: State, e: Event): State {
    match e
    case Turn(i, ok) =>
      if i < |notices| && Enabled(s, i) then Advance(s, i, notices[i], ok) else s
    case CloseUnfinished(now) =>
      s.(orders := Close(s.orders, now))
    case Place(tradeNo, user, quota, createdAt) =>
      if tradeNo in s.orders then s
      else s.(orders := s.orders[tradeNo := Order(user, quota, createdAt, "", Pending)])
  }

  function Run(notices: seq<Notice>, s: State, events: seq<Event>): State
    decreases |events|
  {
    if events == [] then s else Run(notices, Step(notices, s, events[0]), events[1..])
  }

  // ----- Locks -----

  predicate HoldsCreate(stage: Stage) {
    stage.Rechecking? || stage.Storing? || (stage.WantingOrder? && stage.creating) || stage.LeavingCreate?
  }

  predicate HoldsOrder(stage: Stage) {
    stage.LeavingCreate? || stage.Reading? || stage.Saving? || stage.Crediting? || stage.Unlocking?
  }

  ghost predicate Owns(notices: seq<Notice>, s: State, i: nat)
    requires i < |notices|
  {
    var key := notices[i].gatewayNo;
    key in s.locks && s.locks[key] in s.held && s.held[s.locks[key]] == i
  }

  ghost predicate Table(s: State) {
    && (forall a, b :: a in s.locks && b in s.locks && s.locks[a] == s.locks[b] ==> a == b)
    && (forall a :: a in s.locks ==> s.locks[a] < s.mutexes)
    && (forall m :: m in s.held ==> m < s.mutexes)
    && (forall a :: a in s.stores <==> a in s.locks)
    && (forall x, y :: 0 <= x < y < |s.stores| ==> s.stores[x] != s.stores[y])
  }

  /** Every held mutex is held by a callback past taking it, for the callback's own key. */
  ghost predicate HeldForNotices(notices: seq<Notice>, s: State)
    requires |s.stages| == |notices|
  {
    forall m :: m in s.held ==> s.held[m] < |notices| && HoldsOrder(s.stages[s.held[m]])
                                && notices[s.held[m]].gatewayNo in s.locks
                                && s.locks[notices[s.held[m]].gatewayNo] == m
  }

  ghost predicate Locking(notices: seq<Notice>, s: State) {
    && |s.stages| == |notices|
    && Table(s)
    && !s.crashed
    && (forall i :: 0 <= i < |notices| ==> (HoldsCreate(s.stages[i]) <==> s.createLock == Some(i)))
    && (s.createLock.Some? ==> s.createLock.value < |notices|)
    && (forall i :: 0 <= i < |notices| ==> (HoldsOrder(s.stages[i]) <==> Owns(notices, s, i)))
    && HeldForNotices(notices, s)
    && (forall i :: 0 <= i < |notices| && s.stages[i].WantingOrder? ==>
          notices[i].gatewayNo in s.locks && s.locks[notices[i].gatewayNo] == s.stages[i].mutex)
    && (forall i :: 0 <= i < |notices| && s.stages[i].Storing? ==> notices[i].gatewayNo !in s.locks)
  }

  /** The lock fields of two states agree. */
  predicate SameLocks(s: State, t: State) {
    s.createLock == t.createLock && s.locks == t.locks && s.held == t.held && s.mutexes == t.mutexes
    && s.stores == t.stores && s.crashed == t.crashed
  }

  /** A turn that takes and releases nothing. */
  lemma MovingOn(notices: seq<Notice>, s: State, t: State, i: nat, stage: Stage)
    requires Locking(notices, s) && i < |notices|
    requires SameLocks(s, t) && t.stages == s.stages[i := stage]
    requires HoldsCreate(stage) == HoldsCreate(s.stages[i]) && HoldsOrder(stage) == HoldsOrder(s.stages[i])
    requires stage.WantingOrder? ==>
               notices[i].gatewayNo in s.locks && s.locks[notices[i].gatewayNo] == stage.mutex
    requires stage.Storing? ==> notices[i].gatewayNo !in s.locks
    ensures Locking(notices, t)
  {
    forall j | 0 <= j < |notices| ensures Owns(notices, t, j) == Owns(notices, s, j) {}
  }

  lemma TakingCreate(notices: seq<Notice>, s: State, t: State, i: nat)
    requires Locking(notices, s) && i < |notices| && s.stages[i].WantingCreate? && s.createLock.None?
    requires t == To(s.(createLock := Some(i)), s.stages, i, Rechecking)
    ensures Locking(notices, t)
  {
    forall j | 0 <= j < |notices| ensures Owns(notices, t, j) == Owns(notices, s, j) {}
  }

  lemma LeavingTheCreateLock(notices: seq<Notice>, s: State, t: State, i: nat)
    requires Locking(notices, s) && i < |notices| && s.stages[i].LeavingCreate?
    requires t == To(s.(createLock := None), s.stages, i, Reading)
    ensures Locking(notices, t)
  {
    forall j | 0 <= j < |notices| ensures Owns(notices, t, j) == Owns(notices, s, j) {}
    forall j | 0 <= j < |notices| ensures !HoldsCreate(t.stages[j]) {
      assert HoldsCreate(s.stages[i]);
    }
  }

  lemma StoringAMutex(notices: seq<Notice>, s: State, t: State, i: nat)
    requires Locking(notices, s) && i < |notices| && s.stages[i].Storing?
    requires t == To(s.(locks := s.locks[notices[i].gatewayNo := s.mutexes], mutexes := s.mutexes + 1,
                        stores := s.stores + [notices[i].gatewayNo]), s.stages, i, WantingOrder(s.mutexes, true))
    ensures Locking(notices, t)
  {
    var key := notices[i].gatewayNo;
    assert HoldsCreate(s.stages[i]);
    forall j | 0 <= j < |notices| ensures Owns(notices, t, j) == Owns(notices, s, j) {}
    StoringInTheTable(s, t, key);
  }

  /** A mutex never used before gets a key of its own. */
  lemma StoringInTheTable(s: State, t: State, key: string)
    requires Table(s) && key !in s.locks && t.held == s.held
    requires t.locks == s.locks[key := s.mutexes] && t.mutexes == s.mutexes + 1 && t.stores == s.stores + [key]
    ensures Table(t)
  {
    forall a ensures a in t.stores <==> a in t.locks {
      assert a in t.stores <==> a in s.stores || a == key;
    }
  }

  lemma TakingAnOrder(notices: seq<Notice>, s: State, t: State, i: nat, mutex: nat, creating: bool)
    requires Locking(notices, s) && i < |notices| && s.stages[i] == WantingOrder(mutex, creating)
    requires mutex !in s.held
    requires t == To(s.(held := s.held[mutex := i]), s.stages, i, if creating then LeavingCreate else Reading)
    ensures Locking(notices, t)
  {
    TakenIsOwned(notices, s, t, i, mutex);
    forall j | 0 <= j < |notices| ensures HoldsCreate(t.stages[j]) <==> t.createLock == Some(j) {
      assert HoldsCreate(t.stages[j]) == HoldsCreate(s.stages[j]);
    }
    assert Table(t);
  }

  lemma TakenIsOwned(notices: seq<Notice>, s: State, t: State, i: nat, mutex: nat)
    requires |s.stages| == |notices| && Table(s) && i < |notices| && mutex !in s.held
    requires notices[i].gatewayNo in s.locks && s.locks[notices[i].gatewayNo] == mutex
    requires forall j :: 0 <= j < |notices| ==> (HoldsOrder(s.stages[j]) <==> Owns(notices, s, j))
    requires !HoldsOrder(s.stages[i])
    requires |t.stages| == |notices| && HoldsOrder(t.stages[i]) && t.locks == s.locks && t.held == s.held[mutex := i]
    requires forall j :: 0 <= j < |notices| && j != i ==> t.stages[j] == s.stages[j]
    ensures forall j :: 0 <= j < |notices| ==> (HoldsOrder(t.stages[j]) <==> Owns(notices, t, j))
  {
    assert notices[i].gatewayNo in s.locks && s.locks[notices[i].gatewayNo] == mutex;
    forall j | 0 <= j < |notices| && j != i ensures Owns(notices, t, j) == Owns(notices, s, j) {}
  }

  lemma ReleasingAnOrder(notices: seq<Notice>, s: State, t: State, i: nat)
    requires Locking(notices, s) && i < |notices| && s.stages[i].Unlocking?
    requires t == To(Unlock(s, notices[i].gatewayNo), s.stages, i, Finished)
    ensures Locking(notices, t)
  {
    assert Owns(notices, s, i);
    ReleasedIsOwned(notices, s, t, i);
    assert Table(t);
  }

  lemma ReleasedIsOwned(notices: seq<Notice>, s: State, t: State, i: nat)
    requires |s.stages| == |notices| && i < |notices| && Owns(notices, s, i)
    requires forall j :: 0 <= j < |notices| ==> (HoldsOrder(s.stages[j]) <==> Owns(notices, s, j))
    requires t.stages == s.stages[i := Finished] && t.locks == s.locks && t.held == s.held - {s.locks[notices[i].gatewayNo]}
    ensures forall j :: 0 <= j < |notices| ==> (HoldsOrder(t.stages[j]) <==> Owns(notices, t, j))
  {
    forall j | 0 <= j < |notices| ensures HoldsOrder(t.stages[j]) <==> Owns(notices, t, j) {
      if j != i {
        assert Owns(notices, t, j) <==> Owns(notices, s, j);
      }
    }
  }

  /** The turns that leave every lock as it is. */
  predicate IsPlain(stage: Stage) {
    stage.Loading? || stage.Rechecking? || stage.Reading? || stage.Saving? || stage.Crediting?
  }

  lemma PlainTurnKeepsLocking(notices: seq<Notice>, s: State, t: State, i: nat, ok: bool)
    requires Locking(notices, s) && i < |notices| && Enabled(s, i) && IsPlain(s.stages[i])
    requires t == Advance(s, i, notices[i], ok)
    ensures Locking(notices, t)
  {
    MovingOn(notices, s, t, i, NextStage(s, s.stages[i], notices[i], ok));
  }

  lemma LockTurnKeepsLocking(notices: seq<Notice>, s: State, t: State, i: nat, ok: bool)
    requires Locking(notices, s) && i < |notices| && Enabled(s, i) && !IsPlain(s.stages[i])
    requires t == Advance(s, i, notices[i], ok)
    ensures Locking(notices, t)
  {
    match s.stages[i]
    case WantingCreate => TakingCreate(notices, s, t, i);
    case Storing => StoringAMutex(notices, s, t, i);
    case WantingOrder(mutex, creating) => TakingAnOrder(notices, s, t, i, mutex, creating);
    case LeavingCreate => LeavingTheCreateLock(notices, s, t, i);
    case Unlocking => ReleasingAnOrder(notices, s, t, i);
  }

  lemma StepKeepsLocking(notices: seq<Notice>, s: State, e: Event)
    requires Locking(notices, s)
    ensures Locking(notices, Step(notices, s, e))
  {
    var t := Step(notices, s, e);
    if e.Turn? && e.callback < |notices| && Enabled(s, e.callback) {
      if IsPlain(s.stages[e.callback]) {
        PlainTurnKeepsLocking(notices, s, t, e.callback, e.ok);
      } else {
        LockTurnKeepsLocking(notices, s, t, e.callback, e.ok);
      }
    } else {
      OtherEventsKeepLocking(notices, s, t);
    }
  }

  lemma OtherEventsKeepLocking(notices: seq<Notice>, s: State, t: State)
    requires Locking(notices, s)
    requires SameLocks(s, t) && s.stages == t.stages
    ensures Locking(notices, t)
  {
    forall j | 0 <= j < |notices| ensures Owns(notices, t, j) == Owns(notices, s, j) {}
  }

  lemma {:induction false} RunKeepsLocking(notices: seq<Notice>, s: State, events: seq<Event>)
    requires Locking(notices, s)
    ensures Locking(notices, Run(notices, s, events))
    decreases |events|
  {
    if events != [] {
      StepKeepsLocking(notices, s, events[0]);
      RunKeepsLocking(notices, Step(notices, s, events[0]), events[1..]);
    }
  }

  /**
   In every run: no key is ever given two mutexes, callbacks of one key never
   overlap between taking and releasing its lock, the creation lock has one
   holder, and no mutex is released that is not held.
   */
  lemma LocksAreSafe(notices: seq<Notice>, orders: map<string, Order>, balances: map<int, int>, events: seq<Event>)
    ensures
      var s := Run(notices, Init(|notices|, orders, balances), events);
      && |s.stages| == |notices|
      && (forall x, y :: 0 <= x < y < |s.stores| ==> s.stores[x] != s.stores[y])
      && (forall i, j :: 0 <= i < j < |notices| && HoldsOrder(s.stages[i]) && HoldsOrder(s.stages[j]) ==>
            notices[i].gatewayNo != notices[j].gatewayNo)
      && (forall i, j :: 0 <= i < j < |notices| ==> !(HoldsCreate(s.stages[i]) && HoldsCreate(s.stages[j])))
      && !s.crashed
  {
    RunKeepsLocking(notices, Init(|notices|, orders, balances), events);
    var s := Run(notices, Init(|notices|, orders, balances), events);
    forall i, j | 0 <= i < j < |notices| && HoldsOrder(s.stages[i]) && HoldsOrder(s.stages[j])
      ensures notices[i].gatewayNo != notices[j].gatewayNo
    {
      assert Owns(notices, s, i) && Owns(notices, s, j);
    }
  }

  // ----- Progress -----

  /** As long as a callback is unfinished, some callback can take its next turn. */
  lemma NeverStuck(notices: seq<Notice>, orders: map<string, Order>, balances: map<int, int>, events: seq<Event>)
    ensures
      var s := Run(notices, Init(|notices|, orders, balances), events);
      (exists i :: 0 <= i < |s.stages| && s.stages[i] != Finished) ==> exists j :: Enabled(s, j)
  {
    var s := Run(notices, Init(|notices|, orders, balances), events);
    RunKeepsLocking(notices, Init(|notices|, orders, balances), events);
    if i :| 0 <= i < |s.stages| && s.stages[i] != Finished {
      var j := SomeoneMoves(notices, s, i);
    }
  }

  /** Whoever an unfinished callback waits for, or whoever that one waits for, can move. */
  lemma SomeoneMoves(notices: seq<Notice>, s: State, i: nat) returns (j: nat)
    requires Locking(notices, s) && i < |notices| && s.stages[i] != Finished
    ensures Enabled(s, j)
  {
    if Enabled(s, i) {
      j := i;
    } else if s.stages[i].WantingOrder? {
      j := s.held[s.stages[i].mutex];
    } else {
      j := s.createLock.value;
      assert HoldsCreate(s.stages[j]);
      if !Enabled(s, j) {
        j := s.held[s.stages[j].mutex];
      }
    }
  }

  /** An upper bound on the turns a callback still has. */
  function TurnsLeft(stage: Stage): nat {
    match stage
    case Loading => 10
    case WantingCreate => 9
    case Rechecking => 8
    case Storing => 7
    case WantingOrder(_, _) => 6
    case LeavingCreate => 5
    case Reading => 4
    case Saving(_) => 3
    case Crediting(_) => 2
    case Unlocking => 1
    case Finished => 0
  }

  function AllTurnsLeft(stages: seq<Stage>): nat {
    if stages == [] then 0 else TurnsLeft(stages[0]) + AllTurnsLeft(stages[1..])
  }

  lemma {:induction false} TurnsLeftAfter(stages: seq<Stage>, i: nat, stage: Stage)
    requires i < |stages|
    ensures AllTurnsLeft(stages[i := stage]) == AllTurnsLeft(stages) - TurnsLeft(stages[i]) + TurnsLeft(stage)
  {
    if i == 0 {
      assert stages[i := stage][1..] == stages[1..];
    } else {
      assert stages[i := stage][1..] == stages[1..][i - 1 := stage];
      TurnsLeftAfter(stages[1..], i - 1, stage);
    }
  }

  /** The turns in a run that were taken and not skipped. */
  function TurnsTaken(notices: seq<Notice>, s: State, events: seq<Event>): nat
    decreases |events|
  {
    if events == [] then 0
    else (if events[0].Turn? && events[0].callback < |notices| && Enabled(s, events[0].callback) then 1 else 0)
         + TurnsTaken(notices, Step(notices, s, events[0]), events[1..])
  }

  /**
   However the callbacks are scheduled, at most ten turns each are taken. With
   NeverStuck: a scheduler that keeps choosing a callback that can move brings
   them all to the end.
   */
  lemma {:induction false} TurnsAreBounded(notices: seq<Notice>, s: State, events: seq<Event>)
    ensures TurnsTaken(notices, s, events) + AllTurnsLeft(Run(notices, s, events).stages) <= AllTurnsLeft(s.stages)
    decreases |events|
  {
    if events != [] {
      var t := Step(notices, s, events[0]);
      TurnsAreBounded(notices, t, events[1..]);
      if events[0].Turn? && events[0].callback < |notices| && Enabled(s, events[0].callback) {
        TurnShortens(s, events[0].callback, notices[events[0].callback], events[0].ok);
      }
    }
  }

  lemma TurnShortens(s: State, i: nat, notice: Notice, ok: bool)
    requires Enabled(s, i)
    ensures AllTurnsLeft(Advance(s, i, notice, ok).stages) < AllTurnsLeft(s.stages)
  {
    TurnsLeftAfter(s.stages, i, NextStage(s, s.stages[i], notice, ok));
  }

  // ----- Credits -----

  predicate Working(stage: Stage) {
    stage.Saving? || stage.Crediting?
  }

  predicate SameRow(a: Order, b: Order) {
    a.user == b.user && a.quota == b.quota && a.createdAt == b.createdAt
  }

  /** A callback can pay an order that is pending at the start, or placed later. */
  predicate Payable(before: map<string, Order>, tradeNo: string) {
    tradeNo in before ==> before[tradeNo].status == Pending
  }

  predicate SameOrder(before: map<string, Order>, a: Notice, b: Notice) {
    a.tradeNo == b.tradeNo && Payable(before, a.tradeNo)
  }

  /** The callbacks of one payable order all carry the same gateway number. */
  ghost predicate OneGateway(notices: seq<Notice>, before: map<string, Order>) {
    forall i, j :: 0 <= i < j < |notices| && SameOrder(before, notices[i], notices[j]) ==>
      notices[i].gatewayNo == notices[j].gatewayNo
  }

  ghost predicate Settled(outcomes: seq<Outcome>, tradeNo: string) {
    exists k :: 0 <= k < |outcomes| && outcomes[k].tradeNo == tradeNo
  }

  ghost predicate Distinct(outcomes: seq<Outcome>) {
    forall k, l :: 0 <= k < l < |outcomes| ==> outcomes[k].tradeNo != outcomes[l].tradeNo
  }

  ghost predicate Rows(before: map<string, Order>, orders: map<string, Order>) {
    && (forall t :: t in before ==> t in orders && SameRow(before[t], orders[t]))
    && (forall t :: t in before && before[t].status != Pending ==> orders[t] == before[t])
  }

  /** What is known of the order a callback is about to save or credit. */
  ghost predicate WorkIsSound(before: map<string, Order>, s: State, stage: Stage, tradeNo: string) {
    Working(stage) ==>
      && tradeNo in s.orders && SameRow(stage.order, s.orders[tradeNo])
      && Payable(before, tradeNo) && !Settled(s.outcomes, tradeNo)
      && (s.orders[tradeNo].status == Success <==> stage.Crediting?)
  }

  ghost predicate OutcomesAreSound(s: State) {
    && Distinct(s.outcomes)
    && forall k :: 0 <= k < |s.outcomes| ==>
         var o := s.outcomes[k];
         o.tradeNo in s.orders && s.orders[o.tradeNo].status == Success
         && s.orders[o.tradeNo].user == o.user && s.orders[o.tradeNo].quota == o.quota
  }

  /** Every order paid during the run is settled or being credited. */
  ghost predicate NothingForgotten(notices: seq<Notice>, before: map<string, Order>, s: State) {
    forall t :: t in s.orders && s.orders[t].status == Success && Payable(before, t) && !Settled(s.outcomes, t) ==>
      exists i :: 0 <= i < |notices| && i < |s.stages| && notices[i].tradeNo == t && s.stages[i].Crediting?
  }

  ghost predicate Accounting(notices: seq<Notice>, before: map<string, Order>, s: State) {
    && |s.stages| == |notices|
    && Rows(before, s.orders)
    && (forall i :: 0 <= i < |notices| ==> WorkIsSound(before, s, s.stages[i], notices[i].tradeNo))
    && OutcomesAreSound(s)
    && NothingForgotten(notices, before, s)
  }

  /** Turns that touch neither orders nor outcomes, among them reading an order. */
  lemma QuietTurnKeepsAccounting(notices: seq<Notice>, before: map<string, Order>, s: State, t: State, i: nat, stage: Stage)
    requires Accounting(notices, before, s) && i < |notices| && !s.stages[i].Crediting?
    requires t.orders == s.orders && t.outcomes == s.outcomes && t.stages == s.stages[i := stage]
    requires WorkIsSound(before, s, stage, notices[i].tradeNo)
    ensures Accounting(notices, before, t)
  {
    forall j | 0 <= j < |notices| ensures WorkIsSound(before, t, t.stages[j], notices[j].tradeNo) {
      assert WorkIsSound(before, s, s.stages[j], notices[j].tradeNo);
    }
    forall n | n in t.orders && t.orders[n].status == Success && Payable(before, n) && !Settled(t.outcomes, n)
      ensures exists j :: 0 <= j < |notices| && j < |t.stages| && notices[j].tradeNo == n && t.stages[j].Crediting?
    {
      var j :| 0 <= j < |notices| && notices[j].tradeNo == n && s.stages[j].Crediting?;
      assert t.stages[j].Crediting?;
    }
  }

  lemma ReadingIsSound(notices: seq<Notice>, before: map<string, Order>, s: State, i: nat, ok: bool)
    requires Accounting(notices, before, s) && i < |notices|
    ensures WorkIsSound(before, s, Read(s.orders, notices[i].tradeNo, ok), notices[i].tradeNo)
  {
  }

  lemma SavingKeepsAccounting(notices: seq<Notice>, before: map<string, Order>, s: State, t: State, i: nat)
    requires Locking(notices, s) && Accounting(notices, before, s) && OneGateway(notices, before)
    requires i < |notices| && s.stages[i].Saving?
    requires t == To(s.(orders := s.orders[notices[i].tradeNo := Paid(s.stages[i].order, notices[i])]),
                     s.stages, i, Crediting(s.stages[i].order))
    ensures Accounting(notices, before, t)
  {
    assert WorkIsSound(before, s, s.stages[i], notices[i].tradeNo);
    SavingKeepsWork(notices, before, s, t, i);
  }

  lemma SavingKeepsWork(notices: seq<Notice>, before: map<string, Order>, s: State, t: State, i: nat)
    requires Locking(notices, s) && Accounting(notices, before, s) && OneGateway(notices, before)
    requires i < |notices| && s.stages[i].Saving?
    requires t == To(s.(orders := s.orders[notices[i].tradeNo := Paid(s.stages[i].order, notices[i])]),
                     s.stages, i, Crediting(s.stages[i].order))
    ensures forall j :: 0 <= j < |notices| ==> WorkIsSound(before, t, t.stages[j], notices[j].tradeNo)
  {
    assert WorkIsSound(before, s, s.stages[i], notices[i].tradeNo);
    forall j | 0 <= j < |notices| ensures WorkIsSound(before, t, t.stages[j], notices[j].tradeNo) {
      if j != i && Working(s.stages[j]) {
        assert WorkIsSound(before, s, s.stages[j], notices[j].tradeNo);
      }
    }
  }

  lemma CreditingKeepsAccounting(notices: seq<Notice>, before: map<string, Order>, s: State, t: State, i: nat, ok: bool)
    requires Locking(notices, s) && Accounting(notices, before, s) && OneGateway(notices, before)
    requires i < |notices| && s.stages[i].Crediting?
    requires t == To(Credited(s, notices[i].tradeNo, s.stages[i].order, ok), s.stages, i, Unlocking)
    ensures Accounting(notices, before, t)
  {
    var n := notices[i].tradeNo;
    assert WorkIsSound(before, s, s.stages[i], n);
    assert t.outcomes == s.outcomes + [Outcome(n, s.stages[i].order.user, s.stages[i].order.quota, ok)];
    SettledAfter(s.outcomes, t.outcomes[|s.outcomes|]);
    CreditingForgetsNothing(notices, before, s, t, i);
    assert OutcomesAreSound(t);
  }

  lemma CreditingForgetsNothing(notices: seq<Notice>, before: map<string, Order>, s: State, t: State, i: nat)
    requires |s.stages| == |notices| && i < |notices| && NothingForgotten(notices, before, s)
    requires t.orders == s.orders && t.stages == s.stages[i := Unlocking]
    requires forall m :: Settled(t.outcomes, m) <==> Settled(s.outcomes, m) || m == notices[i].tradeNo
    ensures NothingForgotten(notices, before, t)
  {
    forall m | m in t.orders && t.orders[m].status == Success && Payable(before, m) && !Settled(t.outcomes, m)
      ensures exists j :: 0 <= j < |notices| && j < |t.stages| && notices[j].tradeNo == m && t.stages[j].Crediting?
    {
      var j :| 0 <= j < |notices| && notices[j].tradeNo == m && s.stages[j].Crediting?;
      assert t.stages[j].Crediting?;
    }
  }

  lemma SettledAfter(outcomes: seq<Outcome>, o: Outcome)
    ensures forall t :: Settled(outcomes + [o], t) <==> Settled(outcomes, t) || t == o.tradeNo
  {
    forall t ensures Settled(outcomes + [o], t) <==> Settled(outcomes, t) || t == o.tradeNo {
      if Settled(outcomes, t) {
        var k :| 0 <= k < |outcomes| && outcomes[k].tradeNo == t;
        assert (outcomes + [o])[k].tradeNo == t;
      }
      assert (outcomes + [o])[|outcomes|] == o;
    }
  }

  lemma TurnKeepsAccounting(notices: seq<Notice>, before: map<string, Order>, s: State, t: State, i: nat, ok: bool)
    requires Locking(notices, s) && Accounting(notices, before, s) && OneGateway(notices, before)
    requires i < |notices| && Enabled(s, i) && t == Advance(s, i, notices[i], ok)
    ensures Accounting(notices, before, t)
  {
    if s.stages[i].Crediting? {
      CreditingKeepsAccounting(notices, before, s, t, i, ok);
    } else if s.stages[i].Saving? && ok {
      SavingKeepsAccounting(notices, before, s, t, i);
    } else {
      var stage := NextStage(s, s.stages[i], notices[i], ok);
      ReadingIsSound(notices, before, s, i, ok);
      QuietEffect(s, i, s.stages[i], notices[i], ok);
      QuietTurnKeepsAccounting(notices, before, s, t, i, stage);
    }
  }

  lemma QuietEffect(s: State, i: nat, stage: Stage, notice: Notice, ok: bool)
    requires !stage.Crediting? && !(stage.Saving? && ok)
    ensures
      var t := Effect(s, i, stage, notice, ok);
      t.orders == s.orders && t.outcomes == s.outcomes && t.balances == s.balances
    ensures
      var next := NextStage(s, stage, notice, ok);
      Working(next) ==> next == Read(s.orders, notice.tradeNo, ok)
  {
  }

  lemma ClosingKeepsAccounting(notices: seq<Notice>, before: map<string, Order>, s: State, t: State, now: int)
    requires Accounting(notices, before, s) && t == s.(orders := Close(s.orders, now))
    ensures Accounting(notices, before, t)
  {
    forall j | 0 <= j < |notices| ensures WorkIsSound(before, t, t.stages[j], notices[j].tradeNo) {
      assert WorkIsSound(before, s, s.stages[j], notices[j].tradeNo);
    }
    forall n | n in t.orders && t.orders[n].status == Success && Payable(before, n) && !Settled(t.outcomes, n)
      ensures exists j :: 0 <= j < |notices| && j < |t.stages| && notices[j].tradeNo == n && t.stages[j].Crediting?
    {
      assert s.orders[n].status == Success;
    }
  }

  lemma PlacingKeepsAccounting(notices: seq<Notice>, before: map<string, Order>, s: State, t: State, n: string, order: Order)
    requires Accounting(notices, before, s) && n !in s.orders && order.status == Pending
    requires t == s.(orders := s.orders[n := order])
    ensures Accounting(notices, before, t)
  {
    forall j | 0 <= j < |notices| ensures WorkIsSound(before, t, t.stages[j], notices[j].tradeNo) {
      assert WorkIsSound(before, s, s.stages[j], notices[j].tradeNo);
    }
    forall m | m in t.orders && t.orders[m].status == Success && Payable(before, m) && !Settled(t.outcomes, m)
      ensures exists j :: 0 <= j < |notices| && j < |t.stages| && notices[j].tradeNo == m && t.stages[j].Crediting?
    {
      assert m in s.orders && s.orders[m].status == Success;
    }
  }

  /** What the outcomes have added to a user's balance. */
  function CreditsTo(outcomes: seq<Outcome>, user: int): nat {
    if outcomes == [] then 0
    else
      var o := outcomes[|outcomes| - 1];
      CreditsTo(outcomes[..|outcomes| - 1], user) + (if o.credited && o.user == user then o.quota else 0)
  }

  ghost predicate Balanced(opening: map<int, int>, s: State) {
    && s.balances.Keys == opening.Keys
    && forall u :: u in opening ==> s.balances[u] == opening[u] + CreditsTo(s.outcomes, u)
  }

  lemma StepKeepsBalance(notices: seq<Notice>, opening: map<int, int>, s: State, e: Event)
    requires Balanced(opening, s)
    ensures Balanced(opening, Step(notices, s, e))
  {
    if e.Turn? && e.callback < |notices| && Enabled(s, e.callback) {
      var stage := s.stages[e.callback];
      if stage.Crediting? {
        CreditedKeepsBalance(opening, s, notices[e.callback].tradeNo, stage.order, e.ok);
      } else {
        SavingKeepsBalances(s, e.callback, stage, notices[e.callback], e.ok);
      }
    }
  }

  lemma CreditedKeepsBalance(opening: map<int, int>, s: State, tradeNo: string, order: Order, ok: bool)
    requires Balanced(opening, s)
    ensures Balanced(opening, Credited(s, tradeNo, order, ok))
  {
    var outcomes := Credited(s, tradeNo, order, ok).outcomes;
    assert outcomes[..|outcomes| - 1] == s.outcomes;
  }

  lemma SavingKeepsBalances(s: State, i: nat, stage: Stage, notice: Notice, ok: bool)
    requires !stage.Crediting?
    ensures
      var t := Effect(s, i, stage, notice, ok);
      t.outcomes == s.outcomes && t.balances == s.balances
  {
  }

  lemma StepKeepsAccounting(notices: seq<Notice>, before: map<string, Order>, s: State, e: Event)
    requires Locking(notices, s) && Accounting(notices, before, s) && OneGateway(notices, before)
    ensures Accounting(notices, before, Step(notices, s, e))
  {
    var t := Step(notices, s, e);
    match e
    case Turn(i, ok) =>
      if i < |notices| && Enabled(s, i) {
        TurnKeepsAccounting(notices, before, s, t, i, ok);
      }
    case CloseUnfinished(now) =>
      ClosingKeepsAccounting(notices, before, s, t, now);
    case Place(n, user, quota, createdAt) =>
      if n !in s.orders {
        PlacingKeepsAccounting(notices, before, s, t, n, Order(user, quota, createdAt, "", Pending));
      }
  }

  lemma {:induction false} RunKeepsAccounting(notices: seq<Notice>, before: map<string, Order>, s: State, events: seq<Event>)
    requires Locking(notices, s) && Accounting(notices, before, s) && OneGateway(notices, before)
    ensures Accounting(notices, before, Run(notices, s, events))
    decreases |events|
  {
    if events != [] {
      StepKeepsLocking(notices, s, events[0]);
      StepKeepsAccounting(notices, before, s, events[0]);
      RunKeepsAccounting(notices, before, Step(notices, s, events[0]), events[1..]);
    }
  }

  lemma {:induction false} RunKeepsBalance(notices: seq<Notice>, opening: map<int, int>, s: State, events: seq<Event>)
    requires Balanced(opening, s)
    ensures Balanced(opening, Run(notices, s, events))
    decreases |events|
  {
    if events != [] {
      StepKeepsBalance(notices, opening, s, events[0]);
      RunKeepsBalance(notices, opening, Step(notices, s, events[0]), events[1..]);
    }
  }

  lemma InitIsSound(notices: seq<Notice>, orders: map<string, Order>, balances: map<int, int>)
    ensures Locking(notices, Init(|notices|, orders, balances))
    ensures Accounting(notices, orders, Init(|notices|, orders, balances))
    ensures Balanced(balances, Init(|notices|, orders, balances))
  {
  }

  /** How often an order's quota was added to its user's balance. */
  function TimesCredited(outcomes: seq<Outcome>, tradeNo: string): nat {
    if outcomes == [] then 0
    else
      var o := outcomes[|outcomes| - 1];
      TimesCredited(outcomes[..|outcomes| - 1], tradeNo) + (if o.credited && o.tradeNo == tradeNo then 1 else 0)
  }

  /** Balances move by exactly the credits given, in every run and whatever the gateway numbers are. */
  lemma BalancesAreAccounted(notices: seq<Notice>, orders: map<string, Order>, balances: map<int, int>, events: seq<Event>, u: int)
    requires u in balances
    ensures
      var s := Run(notices, Init(|notices|, orders, balances), events);
      u in s.balances && s.balances[u] == balances[u] + CreditsTo(s.outcomes, u)
  {
    InitIsSound(notices, orders, balances);
    RunKeepsBalance(notices, balances, Init(|notices|, orders, balances), events);
  }

  /**
   With one gateway number per order: outcomes are for distinct orders, each
   is for an order now marked paid and carries that row's user and quota, and
   once every callback has finished, every order paid in the run has one.
   */
  lemma PaidOrdersSettleOnce(notices: seq<Notice>, orders: map<string, Order>, balances: map<int, int>, events: seq<Event>)
    requires OneGateway(notices, orders)
    ensures
      var s := Run(notices, Init(|notices|, orders, balances), events);
      && OutcomesAreSound(s)
      && ((forall i :: 0 <= i < |s.stages| ==> s.stages[i].Finished?) ==>
            forall t :: t in s.orders && s.orders[t].status == Success && Payable(orders, t) ==> Settled(s.outcomes, t))
  {
    InitIsSound(notices, orders, balances);
    RunKeepsAccounting(notices, orders, Init(|notices|, orders, balances), events);
  }

  lemma {:induction false} DistinctCreditsOnce(outcomes: seq<Outcome>, tradeNo: string)
    requires Distinct(outcomes)
    ensures TimesCredited(outcomes, tradeNo) <= 1
    ensures TimesCredited(outcomes, tradeNo) == 1 ==> Settled(outcomes, tradeNo)
  {
    if outcomes != [] {
      var front, o := outcomes[..|outcomes| - 1], outcomes[|outcomes| - 1];
      DistinctCreditsOnce(front, tradeNo);
      assert outcomes == front + [o];
      SettledAfter(front, o);
    }
  }

  // ----- What one callback achieves -----

  /** Past reading its order, with nothing of it left to save. */
  predicate HasRead(stage: Stage) {
    stage.Crediting? || stage.Unlocking? || stage.Finished?
  }

  /** The order is there, and no longer pending once the callback has read it. */
  predicate Dealt(s: State, i: nat, n: string) {
    i < |s.stages| && n in s.orders && (HasRead(s.stages[i]) ==> s.orders[n].status != Pending)
  }

  lemma StepKeepsDealt(notices: seq<Notice>, s: State, e: Event, i: nat)
    requires i < |notices| == |s.stages| && Dealt(s, i, notices[i].tradeNo) && e != Turn(i, false)
    ensures Dealt(Step(notices, s, e), i, notices[i].tradeNo) && |Step(notices, s, e).stages| == |s.stages|
  {
    StatusStays(notices, s, e, notices[i].tradeNo);
    if e.Turn? && e.callback == i && Enabled(s, i) && !HasRead(s.stages[i]) && HasRead(Step(notices, s, e).stages[i]) {
      ReadsOrSaves(s, i, notices[i], Step(notices, s, e));
    }
  }

  /** A successful turn that brings a callback past its order has found it settled, or pays it. */
  lemma ReadsOrSaves(s: State, i: nat, notice: Notice, t: State)
    requires Enabled(s, i) && notice.tradeNo in s.orders && t == Advance(s, i, notice, true)
    requires !HasRead(s.stages[i]) && HasRead(t.stages[i])
    ensures notice.tradeNo in t.orders && t.orders[notice.tradeNo].status != Pending
  {
  }

  /** No order disappears, and none becomes pending again. */
  lemma StatusStays(notices: seq<Notice>, s: State, e: Event, n: string)
    requires |notices| == |s.stages| && n in s.orders
    ensures n in Step(notices, s, e).orders
    ensures s.orders[n].status != Pending ==> Step(notices, s, e).orders[n].status != Pending
  {
    if e.Turn? && e.callback < |notices| && Enabled(s, e.callback) {
      OrdersAfterTurn(s, e.callback, notices[e.callback], e.ok);
    }
  }

  /** A turn changes no order but the one it saves as paid, and appends to the outcomes only when it credits. */
  lemma OrdersAfterTurn(s: State, i: nat, notice: Notice, ok: bool)
    requires Enabled(s, i)
    ensures
      var t, stage := Advance(s, i, notice, ok), s.stages[i];
      && t.orders == (if stage.Saving? && ok then s.orders[notice.tradeNo := Paid(stage.order, notice)] else s.orders)
      && t.outcomes == (if stage.Crediting? then s.outcomes + [Outcome(notice.tradeNo, stage.order.user, stage.order.quota, ok)]
                        else s.outcomes)
  {
    if !s.stages[i].Crediting? && !(s.stages[i].Saving? && ok) {
      QuietEffect(s, i, s.stages[i], notice, ok);
    }
  }

  lemma {:induction false} RunKeepsDealt(notices: seq<Notice>, s: State, events: seq<Event>, i: nat)
    requires i < |notices| == |s.stages| && Dealt(s, i, notices[i].tradeNo) && Turn(i, false) !in events
    ensures Dealt(Run(notices, s, events), i, notices[i].tradeNo)
    decreases |events|
  {
    if events != [] {
      StepKeepsDealt(notices, s, events[0], i);
      RunKeepsDealt(notices, Step(notices, s, events[0]), events[1..], i);
    }
  }

  /** Once a callback is through with its order, nobody else is working on it. */
  ghost predicate LeftBehind(notices: seq<Notice>, s: State, i: nat)
    requires i < |notices| == |s.stages|
  {
    s.stages[i].Unlocking? || s.stages[i].Finished? ==>
      forall j :: 0 <= j < |notices| && notices[j].tradeNo == notices[i].tradeNo ==> !Working(s.stages[j])
  }

  lemma StepKeepsLeftBehind(notices: seq<Notice>, before: map<string, Order>, s: State, e: Event, i: nat)
    requires Locking(notices, s) && OneGateway(notices, before) && i < |notices| && Payable(before, notices[i].tradeNo)
    requires Dealt(s, i, notices[i].tradeNo) && LeftBehind(notices, s, i) && e != Turn(i, false)
    ensures |Step(notices, s, e).stages| == |s.stages| && LeftBehind(notices, Step(notices, s, e), i)
  {
    if e.Turn? && e.callback < |notices| && Enabled(s, e.callback) {
      if e.callback == i {
        OwnTurnLeavesBehind(notices, before, s, Step(notices, s, e), i);
      } else if (s.stages[i].Unlocking? || s.stages[i].Finished?) && notices[e.callback].tradeNo == notices[i].tradeNo {
        NobodyReturns(s, e.callback, notices[e.callback], e.ok);
      }
    }
  }

  lemma OwnTurnLeavesBehind(notices: seq<Notice>, before: map<string, Order>, s: State, t: State, i: nat)
    requires Locking(notices, s) && OneGateway(notices, before) && i < |notices| && Payable(before, notices[i].tradeNo)
    requires Enabled(s, i) && LeftBehind(notices, s, i) && t == Advance(s, i, notices[i], true)
    ensures LeftBehind(notices, t, i)
  {
    if HoldsOrder(s.stages[i]) {
      forall j | 0 <= j < |notices| && j != i && notices[j].tradeNo == notices[i].tradeNo ensures !Working(s.stages[j]) {
        HoldersDiffer(notices, before, s, i, j);
      }
    }
  }

  /** On an order that is not pending nobody starts to work. */
  lemma NobodyReturns(s: State, j: nat, notice: Notice, ok: bool)
    requires Enabled(s, j) && !Working(s.stages[j])
    requires notice.tradeNo in s.orders && s.orders[notice.tradeNo].status != Pending
    ensures !Working(Advance(s, j, notice, ok).stages[j])
  {
    QuietEffect(s, j, s.stages[j], notice, ok);
  }

  /** Two callbacks of one payable order do not both hold its lock. */
  lemma HoldersDiffer(notices: seq<Notice>, before: map<string, Order>, s: State, i: nat, j: nat)
    requires Locking(notices, s) && OneGateway(notices, before) && i < |notices| && j < |notices| && i != j
    requires SameOrder(before, notices[i], notices[j]) && HoldsOrder(s.stages[i])
    ensures !HoldsOrder(s.stages[j])
  {
    assert Owns(notices, s, i);
    assert notices[i].gatewayNo == notices[j].gatewayNo;
    assert HoldsOrder(s.stages[j]) ==> Owns(notices, s, j);
  }

  lemma {:induction false} RunKeepsLeftBehind(notices: seq<Notice>, before: map<string, Order>, s: State, events: seq<Event>, i: nat)
    requires Locking(notices, s) && OneGateway(notices, before) && i < |notices| && Payable(before, notices[i].tradeNo)
    requires Dealt(s, i, notices[i].tradeNo) && LeftBehind(notices, s, i) && Turn(i, false) !in events
    ensures |Run(notices, s, events).stages| == |s.stages| && LeftBehind(notices, Run(notices, s, events), i)
    decreases |events|
  {
    if events != [] {
      StepKeepsLocking(notices, s, events[0]);
      StepKeepsDealt(notices, s, events[0], i);
      StepKeepsLeftBehind(notices, before, s, events[0], i);
      RunKeepsLeftBehind(notices, before, Step(notices, s, events[0]), events[1..], i);
    }
  }

  /**
   A callback that comes to its end, none of its own database calls failing, leaves no pending order behind
   if the order was there before it read: whether or not its key was in the table of locks already. With
   one gateway number per order, a paid order then also has its outcome, even while other callbacks run.
   */
  lemma FinishedCallbackSettles(notices: seq<Notice>, orders: map<string, Order>, balances: map<int, int>,
                                early: seq<Event>, late: seq<Event>, i: nat)
    requires i < |notices| && Turn(i, false) !in late
    requires
      var s := Run(notices, Init(|notices|, orders, balances), early);
      notices[i].tradeNo in s.orders && i < |s.stages| && !HasRead(s.stages[i])
    ensures
      var s, n := Run(notices, Init(|notices|, orders, balances), early + late), notices[i].tradeNo;
      |s.stages| == |notices| && n in s.orders &&
      (s.stages[i].Finished? ==>
         && s.orders[n].status != Pending
         && (OneGateway(notices, orders) && Payable(orders, n) && s.orders[n].status == Success ==> Settled(s.outcomes, n)))
  {
    var init, n := Init(|notices|, orders, balances), notices[i].tradeNo;
    var s := Run(notices, init, early);
    RunOfConcat(notices, init, early, late);
    InitIsSound(notices, orders, balances);
    RunKeepsLocking(notices, init, early);
    RunKeepsLocking(notices, s, late);
    RunKeepsDealt(notices, s, late, i);
    if OneGateway(notices, orders) && Payable(orders, n) {
      RunKeepsAccounting(notices, orders, init, early + late);
      RunKeepsLeftBehind(notices, orders, s, late, i);
    }
  }

  /** What is being credited is credited, to the user and with the amount of the row that was read. */
  lemma {:induction false} CreditGoesThrough(notices: seq<Notice>, s: State, events: seq<Event>, i: nat)
    requires i < |notices| == |s.stages| && s.stages[i].Crediting? && Turn(i, false) !in events
    ensures
      var t, o := Run(notices, s, events), s.stages[i].order;
      |t.stages| == |s.stages| &&
      (t.stages[i] == s.stages[i] || Outcome(notices[i].tradeNo, o.user, o.quota, true) in t.outcomes)
    decreases |events|
  {
    if events != [] {
      var t := Step(notices, s, events[0]);
      if t.stages[i] == s.stages[i] {
        CreditGoesThrough(notices, t, events[1..], i);
      } else {
        var o := s.stages[i].order;
        assert t.outcomes[|s.outcomes|] == Outcome(notices[i].tradeNo, o.user, o.quota, true);
        OutcomesGrow(notices, t, events[1..]);
      }
    }
  }

  lemma {:induction false} OutcomesGrow(notices: seq<Notice>, s: State, events: seq<Event>)
    ensures s.outcomes <= Run(notices, s, events).outcomes && |Run(notices, s, events).stages| == |s.stages|
    decreases |events|
  {
    if events != [] {
      var e := events[0];
      if e.Turn? && e.callback < |notices| && Enabled(s, e.callback) {
        OrdersAfterTurn(s, e.callback, notices[e.callback], e.ok);
      }
      OutcomesGrow(notices, Step(notices, s, e), events[1..]);
    }
  }

  /** No database call of the run fails. */
  predicate NothingFails(events: seq<Event>) {
    forall e | e in events && e.Turn? :: e.ok
  }

  /** The order is not three hours old when unpaid orders are closed. */
  predicate InTime(events: seq<Event>, order: Order) {
    forall e | e in events && e.CloseUnfinished? :: e.now - order.createdAt <= 10800
  }

  /** Only pending orders more than three hours old are closed, and nothing else about any order changes. */
  lemma ClosedIff(orders: map<string, Order>, now: int, n: string)
    requires n in orders
    ensures n in Close(orders, now)
    ensures Close(orders, now)[n] == orders[n].(status := Close(orders, now)[n].status)
    ensures Close(orders, now)[n].status ==
              if orders[n].status == Pending && now - orders[n].createdAt > 10800 then Closed else orders[n].status
    ensures Close(orders, now).Keys == orders.Keys
  {
  }

  ghost predicate AllCredited(outcomes: seq<Outcome>) {
    forall k :: 0 <= k < |outcomes| ==> outcomes[k].credited
  }

  /** Pending or paid, with the user, amount and time it was placed with. */
  ghost predicate Open(s: State, n: string, order: Order) {
    n in s.orders && SameRow(order, s.orders[n]) && s.orders[n].status in {Pending, Success}
  }

  lemma {:induction false} RunCreditsAll(notices: seq<Notice>, s: State, events: seq<Event>)
    requires NothingFails(events) && AllCredited(s.outcomes)
    ensures AllCredited(Run(notices, s, events).outcomes)
    decreases |events|
  {
    if events != [] {
      var e := events[0];
      assert e in events;
      if e.Turn? && e.callback < |notices| && Enabled(s, e.callback) {
        OrdersAfterTurn(s, e.callback, notices[e.callback], e.ok);
      }
      RunCreditsAll(notices, Step(notices, s, e), events[1..]);
    }
  }

  lemma StepKeepsOpen(notices: seq<Notice>, before: map<string, Order>, s: State, e: Event, n: string, order: Order)
    requires Accounting(notices, before, s) && Open(s, n, order)
    requires e.CloseUnfinished? ==> e.now - order.createdAt <= 10800
    ensures Open(Step(notices, s, e), n, order)
  {
    if e.Turn? && e.callback < |notices| && Enabled(s, e.callback) {
      assert WorkIsSound(before, s, s.stages[e.callback], notices[e.callback].tradeNo);
      OrdersAfterTurn(s, e.callback, notices[e.callback], e.ok);
    }
  }

  lemma {:induction false} RunKeepsOpen(notices: seq<Notice>, before: map<string, Order>, s: State, events: seq<Event>, n: string, order: Order)
    requires Locking(notices, s) && Accounting(notices, before, s) && OneGateway(notices, before)
    requires InTime(events, order) && Open(s, n, order)
    ensures Open(Run(notices, s, events), n, order)
    decreases |events|
  {
    if events != [] {
      assert events[0] in events;
      StepKeepsLocking(notices, s, events[0]);
      StepKeepsAccounting(notices, before, s, events[0]);
      StepKeepsOpen(notices, before, s, events[0], n, order);
      RunKeepsOpen(notices, before, Step(notices, s, events[0]), events[1..], n, order);
    }
  }

  lemma {:induction false} CreditedWhenSettled(outcomes: seq<Outcome>, n: string)
    requires AllCredited(outcomes) && Distinct(outcomes)
    ensures TimesCredited(outcomes, n) == if Settled(outcomes, n) then 1 else 0
  {
    if outcomes != [] {
      var front, o := outcomes[..|outcomes| - 1], outcomes[|outcomes| - 1];
      CreditedWhenSettled(front, n);
      assert outcomes == front + [o];
      SettledAfter(front, o);
    }
  }

  /**
   The promise of the callback: with one gateway number per order and no failing database call, an order
   pending at the start is, as soon as one callback for it has come to its end, either closed or paid and
   credited exactly once; and it is paid unless it was more than three hours old when orders were closed.
   */
  lemma CreditedExactlyOnce(notices: seq<Notice>, orders: map<string, Order>, balances: map<int, int>, events: seq<Event>, i: nat)
    requires OneGateway(notices, orders) && NothingFails(events) && i < |notices|
    requires notices[i].tradeNo in orders && orders[notices[i].tradeNo].status == Pending
    ensures
      var s, n := Run(notices, Init(|notices|, orders, balances), events), notices[i].tradeNo;
      |s.stages| == |notices| && n in s.orders &&
      (s.stages[i].Finished? ==>
         && s.orders[n].status != Pending
         && TimesCredited(s.outcomes, n) == (if s.orders[n].status == Success then 1 else 0)
         && (InTime(events, orders[n]) ==> s.orders[n].status == Success))
  {
    var init, n := Init(|notices|, orders, balances), notices[i].tradeNo;
    assert Turn(i, false) !in events;
    FinishedCallbackSettles(notices, orders, balances, [], events, i);
    assert [] + events == events;
    InitIsSound(notices, orders, balances);
    RunCreditsAll(notices, init, events);
    RunKeepsAccounting(notices, orders, init, events);
    CreditedWhenSettled(Run(notices, init, events).outcomes, n);
    if InTime(events, orders[n]) {
      RunKeepsOpen(notices, orders, init, events, n, orders[n]);
    }
  }

  // ----- Two gateway numbers for one order -----

  function Turns(i: nat, n: nat): seq<Event> {
    seq(n, _ => Turn(i, true))
  }

  lemma {:induction false} RunOfConcat(notices: seq<Notice>, s: State, a: seq<Event>, b: seq<Event>)
    ensures Run(notices, s, a + b) == Run(notices, Run(notices, s, a), b)
    decreases |a|
  {
    if a == [] {
      assert a + b == b;
    } else {
      assert (a + b)[0] == a[0] && (a + b)[1..] == a[1..] + b;
      RunOfConcat(notices, Step(notices, s, a[0]), a[1..], b);
    }
  }

  lemma OneTurn(notices: seq<Notice>, s: State, i: nat, n: nat)
    requires i < |notices| && Enabled(s, i)
    ensures Run(notices, s, Turns(i, n + 1)) == Run(notices, Advance(s, i, notices[i], true), Turns(i, n))
  {
    assert Turns(i, n + 1)[1..] == Turns(i, n);
  }

  /** Alone with a new key, seven turns bring a callback to the save, its lock held. */
  lemma Approach(notices: seq<Notice>, s: State, i: nat)
    requires i < |notices| && i < |s.stages| && s.stages[i].Loading? && s.createLock.None?
    requires notices[i].gatewayNo !in s.locks && s.mutexes !in s.held
    requires notices[i].tradeNo in s.orders && s.orders[notices[i].tradeNo].status == Pending
    ensures Run(notices, s, Turns(i, 7)) == Approached(notices[i], s, i)
  {
    var notice := notices[i];
    OneTurn(notices, s, i, 6);
    var a := Advance(s, i, notice, true);
    assert a == s.(stages := s.stages[i := WantingCreate]);
    OneTurn(notices, a, i, 5);
    var b := Advance(a, i, notice, true);
    ApproachTheStore(notices, s, b, i);
  }

  lemma ApproachTheStore(notices: seq<Notice>, s: State, b: State, i: nat)
    requires i < |notices| && i < |s.stages| && s.createLock.None?
    requires notices[i].gatewayNo !in s.locks && s.mutexes !in s.held
    requires notices[i].tradeNo in s.orders && s.orders[notices[i].tradeNo].status == Pending
    requires b == s.(createLock := Some(i), stages := s.stages[i := Rechecking])
    ensures Run(notices, b, Turns(i, 5)) == Approached(notices[i], s, i)
  {
    var notice := notices[i];
    OneTurn(notices, b, i, 4);
    var c := Advance(b, i, notice, true);
    assert c == b.(stages := s.stages[i := Storing]);
    OneTurn(notices, c, i, 3);
    ApproachTheRow(notices, s, Advance(c, i, notice, true), i);
  }

  function Approached(notice: Notice, s: State, i: nat): State
    requires i < |s.stages| && notice.tradeNo in s.orders
  {
    s.(stages := s.stages[i := Saving(s.orders[notice.tradeNo])], locks := s.locks[notice.gatewayNo := s.mutexes],
       mutexes := s.mutexes + 1, stores := s.stores + [notice.gatewayNo], held := s.held[s.mutexes := i])
  }

  lemma ApproachTheRow(notices: seq<Notice>, s: State, d: State, i: nat)
    requires i < |notices| && i < |s.stages| && s.createLock.None? && s.mutexes !in s.held
    requires notices[i].tradeNo in s.orders && s.orders[notices[i].tradeNo].status == Pending
    requires d == s.(createLock := Some(i), stages := s.stages[i := WantingOrder(s.mutexes, true)],
                     locks := s.locks[notices[i].gatewayNo := s.mutexes], mutexes := s.mutexes + 1,
                     stores := s.stores + [notices[i].gatewayNo])
    ensures Run(notices, d, Turns(i, 3)) == Approached(notices[i], s, i)
  {
    var notice := notices[i];
    OneTurn(notices, d, i, 2);
    var e := Advance(d, i, notice, true);
    assert e == d.(stages := s.stages[i := LeavingCreate], held := s.held[s.mutexes := i]);
    OneTurn(notices, e, i, 1);
    var f := Advance(e, i, notice, true);
    assert f == e.(stages := s.stages[i := Reading], createLock := None);
    OneTurn(notices, f, i, 0);
    assert Advance(f, i, notice, true) == Approached(notice, s, i);
  }

  lemma SaveAndCredit(notices: seq<Notice>, s: State, i: nat)
    requires i < |notices| && i < |s.stages| && s.stages[i].Saving?
    ensures
      var o := s.stages[i].order;
      var t := Run(notices, s, Turns(i, 2));
      && t.stages == s.stages[i := Unlocking]
      && t.outcomes == s.outcomes + [Outcome(notices[i].tradeNo, o.user, o.quota, true)]
  {
    OneTurn(notices, s, i, 1);
    var a := Advance(s, i, notices[i], true);
    assert a.stages == s.stages[i := Crediting(s.stages[i].order)] && a.outcomes == s.outcomes;
    OneTurn(notices, a, i, 0);
  }

  /** Both callbacks read the order while it is pending, and both credit it. */
  lemma BothCredit(notices: seq<Notice>, s: State, i: nat, j: nat)
    requires i < |notices| == |s.stages| && j < |notices| && i != j
    requires s.stages[i].Loading? && s.stages[j].Loading? && s.createLock.None?
    requires s.locks == map[] && s.held == map[] && s.mutexes == 0 && s.outcomes == []
    requires notices[i].tradeNo == notices[j].tradeNo && notices[i].gatewayNo != notices[j].gatewayNo
    requires notices[i].tradeNo in s.orders && s.orders[notices[i].tradeNo].status == Pending
    ensures TimesCredited(Run(notices, s, (Turns(i, 7) + Turns(j, 7)) + (Turns(j, 2) + Turns(i, 2))).outcomes,
                          notices[i].tradeNo) == 2
  {
    var o := s.orders[notices[i].tradeNo];
    Approach(notices, s, i);
    var a := Run(notices, s, Turns(i, 7));
    Approach(notices, a, j);
    var b := Run(notices, a, Turns(j, 7));
    assert b.stages[i] == Saving(o) && b.stages[j] == Saving(o);
    SaveAndCredit(notices, b, j);
    var c := Run(notices, b, Turns(j, 2));
    SaveAndCredit(notices, c, i);
    var d := Run(notices, c, Turns(i, 2));
    RunOfConcat(notices, s, Turns(i, 7) + Turns(j, 7), Turns(j, 2) + Turns(i, 2));
    RunOfConcat(notices, s, Turns(i, 7), Turns(j, 7));
    RunOfConcat(notices, b, Turns(j, 2), Turns(i, 2));
    var last := Outcome(notices[i].tradeNo, o.user, o.quota, true);
    assert d.outcomes[..1] == [last] && d.outcomes == [last, last];
    assert [last][..0] == [];
    assert TimesCredited([last], notices[i].tradeNo) == 1;
  }

  ghost predicate NeverTwice(notices: seq<Notice>, orders: map<string, Order>, balances: map<int, int>) {
    forall events, t :: TimesCredited(Run(notices, Init(|notices|, orders, balances), events).outcomes, t) <= 1
  }

  /**
   No run credits an order twice exactly when the callbacks of each payable
   order agree on its gateway number: the lock is taken on that number, the
   order is found by its trade number.
   */
  lemma CreditedOnceIff(notices: seq<Notice>, orders: map<string, Order>, balances: map<int, int>)
    ensures NeverTwice(notices, orders, balances) <==> OneGateway(notices, orders)
  {
    if OneGateway(notices, orders) {
      forall events, t
        ensures TimesCredited(Run(notices, Init(|notices|, orders, balances), events).outcomes, t) <= 1
      {
        PaidOrdersSettleOnce(notices, orders, balances, events);
        DistinctCreditsOnce(Run(notices, Init(|notices|, orders, balances), events).outcomes, t);
      }
    } else {
      var i, j :| 0 <= i < j < |notices| && SameOrder(orders, notices[i], notices[j])
        && notices[i].gatewayNo != notices[j].gatewayNo;
      var events := CreditsTwice(notices, orders, balances, i, j);
      assert TimesCredited(Run(notices, Init(|notices|, orders, balances), events).outcomes, notices[i].tradeNo) > 1;
    }
  }

  lemma CreditsTwice(notices: seq<Notice>, orders: map<string, Order>, balances: map<int, int>, i: nat, j: nat)
    returns (events: seq<Event>)
    requires i < j < |notices| && SameOrder(orders, notices[i], notices[j])
    requires notices[i].gatewayNo != notices[j].gatewayNo
    ensures TimesCredited(Run(notices, Init(|notices|, orders, balances), events).outcomes, notices[i].tradeNo) == 2
  {
    var init := Init(|notices|, orders, balances);
    var rest := (Turns(i, 7) + Turns(j, 7)) + (Turns(j, 2) + Turns(i, 2));
    if notices[i].tradeNo in orders {
      BothCredit(notices, init, i, j);
      events := rest;
    } else {
      var placed := Place(notices[i].tradeNo, 0, 1, 0);
      BothCredit(notices, Step(notices, init, placed), i, j);
      events := [placed] + rest;
      assert events[0] == placed && events[1..] == rest;
    }
  }
}
