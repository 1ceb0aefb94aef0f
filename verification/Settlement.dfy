/**
 Charging one relayed request (relay/relay_util/quota.go over model/token.go): an estimate is taken
 before the request is sent, given back when it fails, and settled against the real cost when it
 succeeds. A request that is retried runs through this once per attempt.

 All effects are quota calls, so by BatchAccounting they reach the database the same way whether
 batching is on or off. The view of quota values, which may be stale, are a parameter.
 */
module Settlement {
  import opened BatchAccounting

  /** The part of the request context that billing uses, with the channel of the attempt. */
  datatype Session = Session(userId: int, tokenId: int, channelId: int, unlimited: bool)

  /** What the token row says when it is read for the pre-consumption. */
  datatype TokenRow = TokenRow(userId: int, unlimited: bool, remainQuota: int)

  /** The values read while pre-consuming: the cached user quota, the token row, the user's quota. */
  datatype View = View(cachedQuota: int, token: TokenRow, userQuota: int)

  /** The result of a pre-consumption: the amount kept for the settlement and the calls made. */
  datatype Taken = Refused | Taken(preConsumed: int, handled: bool, ops: seq<Op>)

  /** model.PreConsumeTokenQuota: refuse, or charge the token unless unlimited, and the user. */
  function PreConsumeTokenQuota(tokenId: int, quota: int, view: View): (bool, seq<Op>) {
    if quota < 0 then (false, [])
    else if !view.token.unlimited && view.token.remainQuota < quota then (false, [])
    else if view.userQuota < quota then (false, [])
    else (true, (if view.token.unlimited then [] else [DecreaseTokenQuota(tokenId, quota)])
                + [DecreaseUserQuota(view.token.userId, quota)])
  }

  /** model.PostConsumeTokenQuotaWithInfo: charge a positive amount, give back a negative one. */
  function PostConsumeTokenQuota(s: Session, quota: int): seq<Op> {
    if quota == 0 then []
    else if quota > 0 then
      [DecreaseUserQuota(s.userId, quota)] + if s.unlimited then [] else [DecreaseTokenQuota(s.tokenId, quota)]
    else
      [IncreaseUserQuota(s.userId, -quota)] + if s.unlimited then [] else [IncreaseTokenQuota(s.tokenId, -quota)]
  }

  /** Quota.PreQuotaConsumption for an estimate; a user with plenty of quota is not pre-charged. */
  function PreQuotaConsumption(s: Session, estimate: int, view: View): Taken {
    if estimate == 0 then Taken(0, false, [])
    else if view.cachedQuota < estimate then Refused
    else if view.cachedQuota > 100 * estimate then Taken(0, false, [])
    else if estimate > 0 then
      var r := PreConsumeTokenQuota(s.tokenId, estimate, view);
      if r.0 then Taken(estimate, true, r.1) else Refused
    else Taken(estimate, false, [])
  }

  /** Quota.Undo, after a failed attempt. */
  function Undo(s: Session, taken: Taken): seq<Op>
    requires taken.Taken?
  {
    if taken.handled then PostConsumeTokenQuota(s, -taken.preConsumed) else []
  }

  /** Quota.completedQuotaConsumption, after a successful attempt that costs `quota`. */
  function Consume(s: Session, taken: Taken, quota: int): seq<Op>
    requires taken.Taken?
  {
    (if quota > 0 then
       PostConsumeTokenQuota(s, quota - taken.preConsumed) + [UpdateChannelUsedQuota(s.channelId, quota)]
     else [])
    + [UpdateUserUsedQuotaAndRequestCount(s.userId, quota)]
  }

  // ----- What an attempt amounts to -----

  /** The net change of a counter by a series of calls. */
  function Net(ops: seq<Op>, kind: nat, id: int): int {
    Total(RecordsOf(ops), kind, id)
  }

  lemma {:induction false} NetConcat(a: seq<Op>, b: seq<Op>, kind: nat, id: int)
    ensures Net(a + b, kind, id) == Net(a, kind, id) + Net(b, kind, id)
  {
    if a == [] {
      assert a + b == b;
    } else {
      assert (a + b)[1..] == a[1..] + b;
      NetConcat(a[1..], b, kind, id);
      TotalConcat(Records(a[0]), RecordsOf(a[1..] + b), kind, id);
      TotalConcat(Records(a[0]), RecordsOf(a[1..]), kind, id);
    }
  }

  lemma NetOfOne(op: Op, kind: nat, id: int)
    ensures Net([op], kind, id) == Total(Records(op), kind, id)
  {
    assert RecordsOf([op]) == Records(op) + [];
    TotalConcat(Records(op), [], kind, id);
  }

  /** The change of one counter by one call. */
  function Effect(op: Op, kind: nat, id: int): int {
    if op.Refused() || op.id != id then 0 else
    match op
    case IncreaseUserQuota(_, q) => if kind == USER_QUOTA then q else 0
    case DecreaseUserQuota(_, q) => if kind == USER_QUOTA then -q else 0
    case IncreaseTokenQuota(_, q) => if kind == TOKEN_QUOTA then q else 0
    case DecreaseTokenQuota(_, q) => if kind == TOKEN_QUOTA then -q else 0
    case UpdateUserUsedQuotaAndRequestCount(_, q) => if kind == USED_QUOTA then q else if kind == REQUEST_COUNT then 1 else 0
    case UpdateChannelUsedQuota(_, q) => if kind == CHANNEL_USED_QUOTA then q else 0
  }

  lemma NetCons(op: Op, ops: seq<Op>, kind: nat, id: int)
    ensures Net([op] + ops, kind, id) == Effect(op, kind, id) + Net(ops, kind, id)
    ensures Net([], kind, id) == 0
  {
    NetConcat([op], ops, kind, id);
    NetOfOne(op, kind, id);
    TotalOfFew(Records(op), kind, id);
  }

  /** The token row agrees with the request context it was loaded from. */
  predicate Consistent(s: Session, view: View) {
    view.token.userId == s.userId && view.token.unlimited == s.unlimited
  }

  /** `amount` charged to the user, and to the token unless it is unlimited. */
  function Charge(s: Session, amount: int, kind: nat, id: int): int {
    if kind == USER_QUOTA && id == s.userId then -amount
    else if kind == TOKEN_QUOTA && id == s.tokenId && !s.unlimited then -amount
    else 0
  }

  /**
   Refused exactly when the user's cached quota does not cover the estimate, or covers it at most a hundred
   times and the token, unless unlimited, or the user's row does not. What is remembered as taken is the
   estimate, or nothing for a user with more than that.
   */
  lemma PreConsumptionRefusedIff(s: Session, estimate: int, view: View)
    ensures
      var taken, trusted := PreQuotaConsumption(s, estimate, view), view.cachedQuota > 100 * estimate;
      && (taken.Refused? <==>
            && estimate != 0
            && (view.cachedQuota < estimate
                || (!trusted && estimate > 0
                    && (view.userQuota < estimate || (!view.token.unlimited && view.token.remainQuota < estimate)))))
      && (taken.Taken? ==>
            && taken.preConsumed == (if trusted then 0 else estimate)
            && (taken.handled <==> estimate > 0 && !trusted))
  {
  }

  lemma PreConsumptionCharges(s: Session, estimate: int, view: View, kind: nat, id: int)
    requires Consistent(s, view)
    ensures var taken := PreQuotaConsumption(s, estimate, view);
            taken.Taken? ==>
              Net(taken.ops, kind, id) == Charge(s, if taken.handled then taken.preConsumed else 0, kind, id)
  {
    var taken := PreQuotaConsumption(s, estimate, view);
    if taken.Taken? {
      var user := DecreaseUserQuota(s.userId, estimate);
      NetCons(user, [], kind, id);
      assert [user] + [] == [user] && [] + [user] == [user];
      NetCons(DecreaseTokenQuota(s.tokenId, estimate), [user], kind, id);
    }
  }

  lemma PostConsumptionCharges(s: Session, quota: int, kind: nat, id: int)
    ensures Net(PostConsumeTokenQuota(s, quota), kind, id) == Charge(s, quota, kind, id)
  {
    var user := if quota > 0 then DecreaseUserQuota(s.userId, quota) else IncreaseUserQuota(s.userId, -quota);
    var token := if quota > 0 then DecreaseTokenQuota(s.tokenId, quota) else IncreaseTokenQuota(s.tokenId, -quota);
    NetCons(token, [], kind, id);
    assert [token] + [] == [token];
    NetCons(user, [token], kind, id);
    NetCons(user, [], kind, id);
    assert [user] + [] == [user];
  }

  /** A failed attempt leaves every counter as it was. */
  lemma FailedAttemptIsFree(s: Session, estimate: int, view: View, kind: nat, id: int)
    requires Consistent(s, view)
    ensures var taken := PreQuotaConsumption(s, estimate, view);
            taken.Taken? ==> Net(taken.ops + Undo(s, taken), kind, id) == 0
  {
    var taken := PreQuotaConsumption(s, estimate, view);
    if taken.Taken? {
      PreConsumptionCharges(s, estimate, view, kind, id);
      PostConsumptionCharges(s, -taken.preConsumed, kind, id);
      NetConcat(taken.ops, Undo(s, taken), kind, id);
      assert RecordsOf([]) == [];
    }
  }

  /** The used-quota, channel and request counters of a successful attempt. */
  function Usage(s: Session, quota: int, kind: nat, id: int): int {
    if kind == USED_QUOTA && id == s.userId then quota
    else if kind == REQUEST_COUNT && id == s.userId then 1
    else if kind == CHANNEL_USED_QUOTA && id == s.channelId && quota > 0 then quota
    else 0
  }

  lemma ConsumptionCharges(s: Session, taken: Taken, quota: nat, kind: nat, id: int)
    requires taken.Taken?
    ensures Net(Consume(s, taken, quota), kind, id)
         == Charge(s, if quota > 0 then quota - taken.preConsumed else 0, kind, id) + Usage(s, quota, kind, id)
  {
    var post := PostConsumeTokenQuota(s, quota - taken.preConsumed);
    var channel, used := UpdateChannelUsedQuota(s.channelId, quota), UpdateUserUsedQuotaAndRequestCount(s.userId, quota);
    PostConsumptionCharges(s, quota - taken.preConsumed, kind, id);
    NetCons(used, [], kind, id);
    assert [used] + [] == [used];
    if quota > 0 {
      NetCons(channel, [used], kind, id);
      NetConcat(post, [channel] + [used], kind, id);
      assert Consume(s, taken, quota) == post + ([channel] + [used]);
    } else {
      assert Consume(s, taken, quota) == [used];
    }
  }

  /**
   A successful attempt charges its real cost, whatever was estimated; except that an attempt
   whose cost comes out as zero keeps what was taken beforehand.
   */
  lemma SuccessfulAttemptChargesItsCost(s: Session, estimate: nat, view: View, quota: nat, kind: nat, id: int)
    requires Consistent(s, view)
    ensures var taken := PreQuotaConsumption(s, estimate, view);
            taken.Taken? ==>
              Net(taken.ops + Consume(s, taken, quota), kind, id)
              == Charge(s, if quota > 0 then quota else taken.preConsumed, kind, id) + Usage(s, quota, kind, id)
  {
    var taken := PreQuotaConsumption(s, estimate, view);
    if taken.Taken? {
      PreConsumptionCharges(s, estimate, view, kind, id);
      ConsumptionCharges(s, taken, quota, kind, id);
      NetConcat(taken.ops, Consume(s, taken, quota), kind, id);
    }
  }

  // ----- Whole requests and runs of requests -----

  /** One attempt: refused before sending, sent and failed, or sent with success at a cost. */
  datatype Attempt = Attempt(session: Session, estimate: nat, view: View, cost: Outcome)
  datatype Outcome = Fails | Costs(quota: nat)

  function AttemptOps(a: Attempt): seq<Op> {
    var taken := PreQuotaConsumption(a.session, a.estimate, a.view);
    if taken.Refused? then []
    else taken.ops + match a.cost
                     case Fails => Undo(a.session, taken)
                     case Costs(quota) => Consume(a.session, taken, quota)
  }

  function AttemptsOps(attempts: seq<Attempt>): seq<Op> {
    if attempts == [] then [] else AttemptOps(attempts[0]) + AttemptsOps(attempts[1..])
  }

  /** A success of cost zero for which something had been taken: the amount that is never given back. */
  function Kept(a: Attempt): int {
    var taken := PreQuotaConsumption(a.session, a.estimate, a.view);
    if taken.Taken? && a.cost == Costs(0) then taken.preConsumed else 0
  }

  function KeptFrom(attempts: seq<Attempt>, userId: int): int {
    if attempts == [] then 0
    else (if attempts[0].session.userId == userId then Kept(attempts[0]) else 0) + KeptFrom(attempts[1..], userId)
  }

  ghost predicate AllConsistent(attempts: seq<Attempt>) {
    forall a | a in attempts :: Consistent(a.session, a.view)
  }

  lemma AttemptBalance(a: Attempt, userId: int)
    requires Consistent(a.session, a.view)
    ensures Net(AttemptOps(a), USER_QUOTA, userId) + Net(AttemptOps(a), USED_QUOTA, userId)
         == -(if a.session.userId == userId then Kept(a) else 0)
    ensures Kept(a) >= 0
  {
    FailedAttemptIsFree(a.session, a.estimate, a.view, USER_QUOTA, userId);
    FailedAttemptIsFree(a.session, a.estimate, a.view, USED_QUOTA, userId);
    if a.cost.Costs? {
      SuccessfulAttemptChargesItsCost(a.session, a.estimate, a.view, a.cost.quota, USER_QUOTA, userId);
      SuccessfulAttemptChargesItsCost(a.session, a.estimate, a.view, a.cost.quota, USED_QUOTA, userId);
    }
  }

  lemma {:induction false} RunBalance(attempts: seq<Attempt>, userId: int)
    requires AllConsistent(attempts)
    ensures Net(AttemptsOps(attempts), USER_QUOTA, userId) + Net(AttemptsOps(attempts), USED_QUOTA, userId)
         == -KeptFrom(attempts, userId)
    ensures KeptFrom(attempts, userId) >= 0
    ensures KeptFrom(attempts, userId) == 0 <==>
              forall a | a in attempts && a.session.userId == userId :: Kept(a) == 0
  {
    if attempts != [] {
      AttemptBalance(attempts[0], userId);
      RunBalance(attempts[1..], userId);
      NetConcat(AttemptOps(attempts[0]), AttemptsOps(attempts[1..]), USER_QUOTA, userId);
      NetConcat(AttemptOps(attempts[0]), AttemptsOps(attempts[1..]), USED_QUOTA, userId);
      assert attempts == [attempts[0]] + attempts[1..];
    }
  }

  /**
   Over any run of attempts, recorded and flushed in any interleaving, each user's remaining plus
   used quota at the end falls short of the start by exactly what zero-cost successes kept; so it is
   conserved exactly when no success of cost zero had anything taken beforehand.
   */
  lemma UserQuotaConserved(s: State, steps: seq<Step>, attempts: seq<Attempt>, userId: int)
    requires Drained(s) && IsRun(s, steps) && Drained(Run(s, steps))
    requires AllConsistent(attempts) && multiset(Recorded(steps)) == multiset(RecordsOf(AttemptsOps(attempts)))
    requires userId in s.db.users
    ensures userId in Run(s, steps).db.users
    ensures var u, u' := s.db.users[userId], Run(s, steps).db.users[userId];
            u'.quota + u'.usedQuota == u.quota + u.usedQuota - KeptFrom(attempts, userId) &&
            (u'.quota + u'.usedQuota == u.quota + u.usedQuota <==>
               forall a | a in attempts && a.session.userId == userId :: Kept(a) == 0)
  {
    DrainedRunIsImmediate(s, steps, AttemptsOps(attempts));
    ImmediateAllMoves(s.db, AttemptsOps(attempts));
    RunBalance(attempts, userId);
    assert HasRow(s.db, USER_QUOTA, userId) && HasRow(s.db, USED_QUOTA, userId);
  }

  /** Such a success exists: ten units taken, an answer without tokens, and nothing is given back. */
  lemma ZeroCostSuccessKeepsEstimate()
    ensures exists a: Attempt :: Consistent(a.session, a.view) && a.cost == Costs(0) && Kept(a) == 10
  {
    var a := Attempt(Session(1, 2, 3, false), 10, View(20, TokenRow(1, false, 20), 20), Costs(0));
    assert Kept(a) == 10;
  }
}
