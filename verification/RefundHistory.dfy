/**
 Exactly how often a Midjourney task is refunded (controller/midjourney.go:71-232): what the answers of
 one poll do to one task, and what later polls can still do to it. No condition is put on the answers:
 a task may be reported many times, by several channels, and any call may fail.
 */
module RefundHistory {
  import opened Options
  import opened Midjourney

  // ----- One report of one task -----

  /** The report differs from the task as it is held. */
  predicate Changes(task: Task, a: Answer) {
    NeedsUpdate(task, Judged(task, a.report, a.now))
  }

  /** The report fails the task: there is a cause, and at 100% already it says something new. */
  predicate Fails(task: Task, a: Answer) {
    Cause(task, a) && (task.progress != Hundred || a.report.progress != Hundred || NeedsUpdate(task, a.report))
  }

  predicate Repays(task: Task, a: Answer) {
    Fails(task, a) && task.quota > 0 && a.cacheOk && a.creditOk
  }

  /** The task as it is held afterwards. */
  function Held(task: Task, a: Answer): (r: Task)
    ensures r.mjId == task.mjId && SameCharge(r, task)
  {
    var copied := Copied(task, Judged(task, a.report, a.now));
    if !Changes(task, a) then task
    else if Fails(task, a) then copied.(progress := Hundred)
    else copied
  }

  /** The held progress depends on the last report alone: 100% if it said so or if it had a cause. */
  lemma HeldProgress(task: Task, a: Answer)
    ensures Held(task, a).progress == Hundred <==> a.report.progress == Hundred || Cause(task, a)
  {
  }

  /** What handling a report of a known task does to everything but the balances. */
  ghost predicate HandledAs(p: Poll, after: Poll, a: Answer)
    requires a.report.mjId in p.tasks
  {
    var entry := p.tasks[a.report.mjId];
    var next := Entry(entry.id, Held(entry.task, a));
    && after.tasks == p.tasks[a.report.mjId := next]
    && after.ledger.alive
    && after.ledger.rows == (if Changes(entry.task, a) && a.updateOk then p.ledger.rows[entry.id := next.task] else p.ledger.rows)
    && after.ledger.refunds == p.ledger.refunds +
         (if Repays(entry.task, a) then [Refund(entry.id, entry.task.user, entry.task.quota)] else [])
  }

  // ----- What happens to one task in a poll -----

  /** A report, or the failing of all tasks of a channel that is gone. */
  datatype Touch = Told(answer: Answer) | Dropped(mjIds: seq<string>, reason: string)

  function TouchesOf(v: Visit, rows: map<int, Task>, found: seq<int>): seq<Touch> {
    match v
    case Gone(channel, reason, ok) => if ok then [Dropped(IdsOf(rows, found, channel), reason)] else []
    case Silent(_) => []
    case Answering(_, answers) => TellAll(answers)
  }

  function Touches(visits: seq<Visit>, rows: map<int, Task>, found: seq<int>): seq<Touch> {
    if visits == [] then [] else TouchesOf(visits[0], rows, found) + Touches(visits[1..], rows, found)
  }

  function TellAll(answers: seq<Answer>): seq<Touch> {
    if answers == [] then [] else [Told(answers[0])] + TellAll(answers[1..])
  }

  function Apply(p: Poll, t: Touch): Poll {
    if !p.ledger.alive then p
    else match t
      case Told(a) => Handle(p, a)
      case Dropped(mjIds, reason) => p.(ledger := p.ledger.(rows := FailRows(p.ledger.rows, mjIds, reason)))
  }

  function ApplyAll(p: Poll, touches: seq<Touch>): Poll
    decreases |touches|
  {
    if touches == [] then p else ApplyAll(Apply(p, touches[0]), touches[1..])
  }

  lemma {:induction false} ApplyConcat(p: Poll, a: seq<Touch>, b: seq<Touch>)
    ensures ApplyAll(p, a + b) == ApplyAll(ApplyAll(p, a), b)
    decreases |a|
  {
    if a == [] {
      assert a + b == b;
    } else {
      assert (a + b)[0] == a[0] && (a + b)[1..] == a[1..] + b;
      ApplyConcat(Apply(p, a[0]), a[1..], b);
    }
  }

  lemma {:induction false} TellingHandles(p: Poll, answers: seq<Answer>)
    ensures ApplyAll(p, TellAll(answers)) == if p.ledger.alive then HandleAll(p, answers) else p
    decreases |answers|
  {
    if answers != [] {
      var next := Apply(p, Told(answers[0]));
      assert TellAll(answers)[0] == Told(answers[0]) && TellAll(answers)[1..] == TellAll(answers[1..]);
      TellingHandles(next, answers[1..]);
      if p.ledger.alive && !next.ledger.alive {
        DeadHandles(next, answers[1..]);
      }
    }
  }

  lemma {:induction false} VisitsApply(p: Poll, visits: seq<Visit>, rows: map<int, Task>, found: seq<int>)
    ensures VisitAll(p, visits, rows, found) == ApplyAll(p, Touches(visits, rows, found))
    decreases |visits|
  {
    if visits != [] {
      VisitApplies(p, visits[0], rows, found);
      ApplyConcat(p, TouchesOf(visits[0], rows, found), Touches(visits[1..], rows, found));
      VisitsApply(VisitOne(p, visits[0], IdsOf(rows, found, visits[0].channel)), visits[1..], rows, found);
    }
  }

  lemma VisitApplies(p: Poll, v: Visit, rows: map<int, Task>, found: seq<int>)
    ensures ApplyAll(p, TouchesOf(v, rows, found)) == VisitOne(p, v, IdsOf(rows, found, v.channel))
  {
    if v.Gone? && v.ok {
      assert TouchesOf(v, rows, found)[1..] == [];
    } else if v.Answering? {
      TellingHandles(p, v.answers);
    }
  }

  /** The worker stops at the first report of a task it does not hold. */
  function UntilUnknown(known: set<string>, touches: seq<Touch>): seq<Touch> {
    if touches == [] || (touches[0].Told? && touches[0].answer.report.mjId !in known) then []
    else [touches[0]] + UntilUnknown(known, touches[1..])
  }

  predicate Names(t: Touch, m: string) {
    match t
    case Told(a) => a.report.mjId == m
    case Dropped(mjIds, _) => m in mjIds
  }

  function Mine(touches: seq<Touch>, m: string): seq<Touch> {
    if touches == [] then [] else (if Names(touches[0], m) then [touches[0]] else []) + Mine(touches[1..], m)
  }

  /** The task as held in memory, the task as stored, and the number of its refunds. */
  datatype Track = Track(held: Task, row: Task, repaid: nat)

  function Follow(t: Track, touch: Touch): Track {
    match touch
    case Told(a) =>
      Track(Held(t.held, a), if Changes(t.held, a) && a.updateOk then Held(t.held, a) else t.row,
            t.repaid + if Repays(t.held, a) then 1 else 0)
    case Dropped(_, reason) => t.(row := FailedRow(t.row).(failReason := reason))
  }

  function FollowAll(t: Track, touches: seq<Touch>): Track
    decreases |touches|
  {
    if touches == [] then t else FollowAll(Follow(t, touches[0]), touches[1..])
  }

  lemma FollowOneMore(t: Track, touch: Touch, rest: seq<Touch>)
    ensures FollowAll(t, [touch] + rest) == FollowAll(Follow(t, touch), rest)
    ensures FollowAll(t, [] + rest) == FollowAll(t, rest)
  {
    assert ([touch] + rest)[1..] == rest && [] + rest == rest;
  }

  /** The poll holds the task under its Midjourney id, and no other task under the same row. */
  ghost predicate Holds(p: Poll, m: string) {
    && m in p.tasks && p.tasks[m].id in p.ledger.rows
    && p.ledger.rows[p.tasks[m].id].mjId == m
    && SameCharge(p.ledger.rows[p.tasks[m].id], p.tasks[m].task)
    && forall n :: n in p.tasks && n != m ==> p.tasks[n].id != p.tasks[m].id
  }

  ghost function TrackOf(p: Poll, m: string): Track
    requires Holds(p, m)
  {
    Track(p.tasks[m].task, p.ledger.rows[p.tasks[m].id], RefundsOf(p.ledger.refunds, p.tasks[m].id))
  }

  lemma RefundsOfOneMore(refunds: seq<Refund>, r: Refund, repays: bool, id: int)
    ensures RefundsOf(refunds + (if repays then [r] else []), id) == RefundsOf(refunds, id) + if repays && r.id == id then 1 else 0
  {
    assert (refunds + [r])[..|refunds|] == refunds && refunds + [] == refunds;
  }

  lemma HandleFollows(p: Poll, a: Answer, m: string)
    requires Holds(p, m) && p.ledger.alive && a.report.mjId in p.tasks && p.tasks[m].task.mjId == m
    ensures
      var after := Handle(p, a);
      && Holds(after, m) && after.ledger.alive && after.tasks.Keys == p.tasks.Keys
      && after.tasks[m].id == p.tasks[m].id && after.tasks[m].task.mjId == m
      && TrackOf(after, m) == if a.report.mjId == m then Follow(TrackOf(p, m), Told(a)) else TrackOf(p, m)
  {
    HandledFollows(p, Handle(p, a), a, m);
  }

  lemma HandledFollows(p: Poll, after: Poll, a: Answer, m: string)
    requires Holds(p, m) && a.report.mjId in p.tasks && p.tasks[m].task.mjId == m && HandledAs(p, after, a)
    ensures
      && Holds(after, m) && after.tasks.Keys == p.tasks.Keys
      && after.tasks[m].id == p.tasks[m].id && after.tasks[m].task.mjId == m
      && TrackOf(after, m) == if a.report.mjId == m then Follow(TrackOf(p, m), Told(a)) else TrackOf(p, m)
  {
    var entry := p.tasks[a.report.mjId];
    RefundsOfOneMore(p.ledger.refunds, Refund(entry.id, entry.task.user, entry.task.quota), Repays(entry.task, a), p.tasks[m].id);
  }

  lemma DroppingFollows(p: Poll, t: Touch, m: string)
    requires Holds(p, m) && p.ledger.alive && t.Dropped?
    ensures
      var after := Apply(p, t);
      && Holds(after, m) && after.ledger.alive && after.tasks == p.tasks
      && TrackOf(after, m) == if Names(t, m) then Follow(TrackOf(p, m), t) else TrackOf(p, m)
  {
  }

  lemma {:induction false} DeadApplies(p: Poll, touches: seq<Touch>)
    requires !p.ledger.alive
    ensures ApplyAll(p, touches) == p
    decreases |touches|
  {
    if touches != [] {
      DeadApplies(p, touches[1..]);
    }
  }

  /** Other tasks, other channels and the shared ledger do not matter: a task sees only what names it. */
  lemma {:induction false} PollFollows(p: Poll, touches: seq<Touch>, m: string)
    requires Holds(p, m) && p.ledger.alive && p.tasks[m].task.mjId == m
    ensures
      var after := ApplyAll(p, touches);
      && Holds(after, m) && after.tasks[m].id == p.tasks[m].id
      && TrackOf(after, m) == FollowAll(TrackOf(p, m), Mine(UntilUnknown(p.tasks.Keys, touches), m))
    decreases |touches|
  {
    if touches != [] {
      var t, next := touches[0], Apply(p, touches[0]);
      if t.Told? && t.answer.report.mjId !in p.tasks {
        DeadApplies(next, touches[1..]);
      } else {
        if t.Told? {
          HandleFollows(p, t.answer, m);
        } else {
          DroppingFollows(p, t, m);
        }
        PollFollows(next, touches[1..], m);
        var rest := UntilUnknown(p.tasks.Keys, touches[1..]);
        assert UntilUnknown(p.tasks.Keys, touches)[1..] == rest;
        assert Mine([t] + rest, m) == (if Names(t, m) then [t] else []) + Mine(rest, m);
        FollowOneMore(TrackOf(p, m), t, Mine(rest, m));
      }
    }
  }

  // ----- Read off the answers -----

  function NextHeld(held: Task, touch: Touch): Task {
    if touch.Told? then Held(held, touch.answer) else held
  }

  function HeldAfter(held: Task, touches: seq<Touch>): (r: Task)
    ensures SameCharge(r, held) && r.mjId == held.mjId
  {
    if touches == [] then held
    else NextHeld(HeldAfter(held, touches[..|touches| - 1]), touches[|touches| - 1])
  }

  /** The k-th touch is a report that repays the task. */
  predicate RepaysAt(held: Task, touches: seq<Touch>, k: nat)
    requires k < |touches|
  {
    touches[k].Told? && Repays(HeldAfter(held, touches[..k]), touches[k].answer)
  }

  function Repaid(held: Task, touches: seq<Touch>): nat {
    if touches == [] then 0
    else Repaid(held, touches[..|touches| - 1]) + if RepaysAt(held, touches, |touches| - 1) then 1 else 0
  }

  /**
   The last touch that wrote the row left it at 100%: the channel was gone, or a saved report said so or
   had a cause.
   */
  predicate Closed(held: Task, touches: seq<Touch>) {
    touches != [] &&
    var front, last := touches[..|touches| - 1], touches[|touches| - 1];
    match last
    case Dropped(_, _) => true
    case Told(a) =>
      var before := HeldAfter(held, front);
      if Changes(before, a) && a.updateOk then a.report.progress == Hundred || Cause(before, a) else Closed(held, front)
  }

  lemma {:induction false} FollowConcat(t: Track, a: seq<Touch>, b: seq<Touch>)
    ensures FollowAll(t, a + b) == FollowAll(FollowAll(t, a), b)
    decreases |a|
  {
    if a == [] {
      assert a + b == b;
    } else {
      assert (a + b)[0] == a[0] && (a + b)[1..] == a[1..] + b;
      FollowConcat(Follow(t, a[0]), a[1..], b);
    }
  }

  lemma {:induction false} FollowCloses(t: Track, touches: seq<Touch>)
    requires t.row.progress != Hundred
    ensures
      var after := FollowAll(t, touches);
      && after.held == HeldAfter(t.held, touches)
      && after.repaid == t.repaid + Repaid(t.held, touches)
      && (after.row.progress == Hundred <==> Closed(t.held, touches))
  {
    if touches != [] {
      var front, last := touches[..|touches| - 1], touches[|touches| - 1];
      FollowCloses(t, front);
      assert touches == front + [last];
      FollowConcat(t, front, [last]);
      var before := FollowAll(t, front);
      assert [last][1..] == [];
      assert FollowAll(before, [last]) == Follow(before, last);
      if last.Told? {
        HeldProgress(before.held, last.answer);
      }
    }
  }

  lemma {:induction false} RepaidSome(held: Task, touches: seq<Touch>)
    ensures Repaid(held, touches) > 0 <==> exists k :: 0 <= k < |touches| && RepaysAt(held, touches, k)
  {
    if touches != [] {
      var front := touches[..|touches| - 1];
      RepaidSome(held, front);
      forall k | 0 <= k < |front| ensures RepaysAt(held, touches, k) == RepaysAt(held, front, k) {
        assert front[..k] == touches[..k];
      }
    }
  }

  /** No task is repaid twice by these reports. */
  ghost predicate RepaysOnce(held: Task, touches: seq<Touch>) {
    forall j, k :: 0 <= j < k < |touches| ==> !(RepaysAt(held, touches, j) && RepaysAt(held, touches, k))
  }

  lemma {:induction false} RepaidOnceIff(held: Task, touches: seq<Touch>)
    ensures Repaid(held, touches) <= 1 <==> RepaysOnce(held, touches)
  {
    if touches != [] {
      var n := |touches| - 1;
      var front := touches[..n];
      RepaidOnceIff(held, front);
      RepaidSome(held, front);
      forall k | 0 <= k < n ensures RepaysAt(held, touches, k) == RepaysAt(held, front, k) {
        assert front[..k] == touches[..k];
      }
      OnceMore(held, touches, front);
    }
  }

  lemma OnceMore(held: Task, touches: seq<Touch>, front: seq<Touch>)
    requires touches != [] && front == touches[..|touches| - 1]
    requires forall k :: 0 <= k < |front| ==> RepaysAt(held, touches, k) == RepaysAt(held, front, k)
    ensures RepaysOnce(held, touches) <==>
      RepaysOnce(held, front)
      && (RepaysAt(held, touches, |front|) ==> forall k :: 0 <= k < |front| ==> !RepaysAt(held, front, k))
  {
  }

  lemma {:induction false} RepaidNeedsQuota(held: Task, touches: seq<Touch>)
    requires held.quota <= 0
    ensures Repaid(held, touches) == 0
  {
    if touches != [] {
      RepaidNeedsQuota(held, touches[..|touches| - 1]);
    }
  }

  // ----- One poll -----

  /** taskM holds this row under its Midjourney id. */
  predicate HeldIn(l: Ledger, r: Round, id: int)
    requires id in l.rows
  {
    var tasks := IndexOf(l.rows, r.found);
    l.rows[id].mjId in tasks && tasks[l.rows[id].mjId].id == id
  }

  /** What the poll tells about a row, up to a report that ends it. */
  function TouchesIn(l: Ledger, r: Round, id: int): seq<Touch>
    requires id in l.rows
  {
    Mine(UntilUnknown(IndexOf(l.rows, r.found).Keys, Touches(r.visits, l.rows, r.found)), l.rows[id].mjId)
  }

  function Started(l: Ledger, r: Round): Poll {
    var nulls := NullIds(l.rows, r.found);
    Poll(IndexOf(l.rows, r.found), if nulls != [] && r.nullOk then l.(rows := FailIds(l.rows, nulls)) else l)
  }

  lemma PollIsTouches(l: Ledger, r: Round)
    requires l.alive
    ensures PollOnce(l, r) == ApplyAll(Started(l, r), Touches(r.visits, l.rows, r.found)).ledger
  {
    VisitsApply(Started(l, r), r.visits, l.rows, r.found);
  }

  /** A row the poll does not hold is not refunded by it. */
  ghost predicate Unheld(p: Poll, id: int) {
    id in p.ledger.rows && forall n :: n in p.tasks ==> p.tasks[n].id != id
  }

  lemma HandleLeavesUnheld(p: Poll, a: Answer, id: int)
    requires Unheld(p, id) && p.ledger.alive
    ensures
      var after := Handle(p, a);
      && Unheld(after, id) && after.ledger.rows[id] == p.ledger.rows[id]
      && RefundsOf(after.ledger.refunds, id) == RefundsOf(p.ledger.refunds, id)
  {
    if a.report.mjId in p.tasks {
      HandledLeavesUnheld(p, Handle(p, a), a, id);
    }
  }

  lemma HandledLeavesUnheld(p: Poll, after: Poll, a: Answer, id: int)
    requires Unheld(p, id) && a.report.mjId in p.tasks && HandledAs(p, after, a)
    ensures Unheld(after, id) && after.ledger.rows[id] == p.ledger.rows[id]
    ensures RefundsOf(after.ledger.refunds, id) == RefundsOf(p.ledger.refunds, id)
  {
    var entry := p.tasks[a.report.mjId];
    RefundsOfOneMore(p.ledger.refunds, Refund(entry.id, entry.task.user, entry.task.quota), Repays(entry.task, a), id);
  }

  lemma {:induction false} UnheldStays(p: Poll, touches: seq<Touch>, id: int)
    requires Unheld(p, id)
    ensures
      var after := ApplyAll(p, touches);
      && Unheld(after, id)
      && SameCharge(after.ledger.rows[id], p.ledger.rows[id]) && after.ledger.rows[id].mjId == p.ledger.rows[id].mjId
      && RefundsOf(after.ledger.refunds, id) == RefundsOf(p.ledger.refunds, id)
    decreases |touches|
  {
    if touches != [] {
      if p.ledger.alive && touches[0].Told? {
        HandleLeavesUnheld(p, touches[0].answer, id);
      }
      UnheldStays(Apply(p, touches[0]), touches[1..], id);
    }
  }

  lemma StartHolds(l: Ledger, r: Round, id: int)
    requires l.alive && Possible(l, r) && id in l.rows
    ensures
      var p := Started(l, r);
      && id in p.ledger.rows && SameCharge(p.ledger.rows[id], l.rows[id]) && p.ledger.rows[id].mjId == l.rows[id].mjId
      && p.ledger.refunds == l.refunds && p.ledger.alive
      && (HeldIn(l, r, id) ==>
            Holds(p, l.rows[id].mjId) && p.tasks[l.rows[id].mjId] == Entry(id, l.rows[id])
            && p.ledger.rows[id] == l.rows[id] && l.rows[id].progress != Hundred)
      && (!HeldIn(l, r, id) ==> Unheld(p, id))
  {
    IndexHolds(l.rows, r.found);
    NullIdsHold(l.rows, r.found);
  }

  /** What one poll does to one row: as many refunds as repaying reports, and 100% if it was closed last. */
  lemma PollOfTask(l: Ledger, r: Round, id: int)
    requires l.alive && Possible(l, r) && id in l.rows
    ensures
      var after := PollOnce(l, r);
      && id in after.rows && SameCharge(after.rows[id], l.rows[id]) && after.rows[id].mjId == l.rows[id].mjId
      && RefundsOf(after.refunds, id) == RefundsOf(l.refunds, id)
           + (if HeldIn(l, r, id) then Repaid(l.rows[id], TouchesIn(l, r, id)) else 0)
      && (HeldIn(l, r, id) ==> (after.rows[id].progress == Hundred <==> Closed(l.rows[id], TouchesIn(l, r, id))))
  {
    var p, touches := Started(l, r), Touches(r.visits, l.rows, r.found);
    PollIsTouches(l, r);
    StartHolds(l, r, id);
    if HeldIn(l, r, id) {
      PollFollows(p, touches, l.rows[id].mjId);
      FollowCloses(Track(l.rows[id], l.rows[id], RefundsOf(l.refunds, id)), TouchesIn(l, r, id));
    } else {
      UnheldStays(p, touches, id);
    }
  }

  /** In one poll a row is refunded at most once exactly when no two of its reports repay it. */
  lemma RefundedOncePerPollIff(l: Ledger, r: Round, id: int)
    requires l.alive && Possible(l, r) && id in l.rows && HeldIn(l, r, id)
    ensures RefundsOf(PollOnce(l, r).refunds, id) <= RefundsOf(l.refunds, id) + 1
       <==> RepaysOnce(l.rows[id], TouchesIn(l, r, id))
  {
    PollOfTask(l, r, id);
    RepaidOnceIff(l.rows[id], TouchesIn(l, r, id));
  }

  // ----- Whole runs -----

  /** For each event of a run, how many of its reports repay the row as the event finds it. */
  ghost function RepaidInRun(l: Ledger, events: seq<Event>, id: int): (r: seq<nat>)
    ensures |r| == |events|
    decreases |events|
  {
    if events == [] then []
    else [RepaidBy(l, events[0], id)] + RepaidInRun(Next(l, events[0]), events[1..], id)
  }

  function Sum(s: seq<nat>): nat {
    if s == [] then 0 else s[0] + Sum(s[1..])
  }

  lemma {:induction false} SumIsPositiveIff(s: seq<nat>)
    ensures Sum(s) > 0 <==> exists i :: 0 <= i < |s| && s[i] > 0
  {
    if s != [] {
      SumIsPositiveIff(s[1..]);
      assert forall i :: 0 <= i < |s[1..]| ==> s[1..][i] == s[i + 1];
      if i :| 0 <= i < |s| && s[i] > 0 {
        assert i > 0 ==> s[1..][i - 1] > 0;
      }
    }
  }

  lemma {:induction false} SumIsOneIff(s: seq<nat>)
    ensures Sum(s) <= 1 <==>
      (forall i :: 0 <= i < |s| ==> s[i] <= 1) && (forall i, j :: 0 <= i < j < |s| ==> s[i] == 0 || s[j] == 0)
  {
    if s != [] {
      var rest := s[1..];
      SumIsOneIff(rest);
      SumIsPositiveIff(rest);
      assert forall i :: 0 < i < |s| ==> s[i] == rest[i - 1];
      assert forall i :: 0 <= i < |rest| ==> s[i + 1] == rest[i];
    }
  }

  lemma {:induction false} RepaidInRunAt(l: Ledger, events: seq<Event>, id: int, k: nat)
    requires k < |events|
    ensures RepaidInRun(l, events, id)[k] == RepaidBy(Run(l, events[..k]), events[k], id)
    decreases |events|
  {
    if k == 0 {
      assert events[..0] == [];
    } else {
      RepaidInRunAt(Next(l, events[0]), events[1..], id, k - 1);
      assert events[..k][0] == events[0] && events[..k][1..] == events[1..][..k - 1];
    }
  }

  ghost function RepaidBy(l: Ledger, e: Event, id: int): nat {
    if Reaches(l, e, id) then Repaid(l.rows[id], TouchesIn(l, e.round, id)) else 0
  }

  /** The event is a poll of the living worker that holds the row. */
  ghost predicate Reaches(l: Ledger, e: Event, id: int) {
    e.Polled? && l.alive && Possible(l, e.round) && id in l.rows && HeldIn(l, e.round, id)
  }

  lemma NextRefunds(l: Ledger, e: Event, id: int)
    ensures id in l.rows ==> id in Next(l, e).rows
    ensures RefundsOf(Next(l, e).refunds, id) == RefundsOf(l.refunds, id) + RepaidBy(l, e, id)
    ensures id in l.rows ==> SameCharge(Next(l, e).rows[id], l.rows[id]) && Next(l, e).rows[id].mjId == l.rows[id].mjId
  {
    if e.Polled? && l.alive && Possible(l, e.round) {
      if id in l.rows {
        PollOfTask(l, e.round, id);
      } else {
        UnknownIsNotRefunded(l, e.round, id);
      }
    }
  }

  /** A row that does not exist yet is not refunded. */
  lemma UnknownIsNotRefunded(l: Ledger, r: Round, id: int)
    requires l.alive && Possible(l, r) && id !in l.rows
    ensures RefundsOf(PollOnce(l, r).refunds, id) == RefundsOf(l.refunds, id)
  {
    PollIsTouches(l, r);
    IndexHolds(l.rows, r.found);
    AbsentStays(Started(l, r), Touches(r.visits, l.rows, r.found), id);
  }

  lemma {:induction false} AbsentStays(p: Poll, touches: seq<Touch>, id: int)
    requires forall n :: n in p.tasks ==> p.tasks[n].id != id
    ensures RefundsOf(ApplyAll(p, touches).ledger.refunds, id) == RefundsOf(p.ledger.refunds, id)
    decreases |touches|
  {
    if touches != [] {
      var next := Apply(p, touches[0]);
      if p.ledger.alive && touches[0].Told? && touches[0].answer.report.mjId in p.tasks {
        var entry := p.tasks[touches[0].answer.report.mjId];
        RefundsOfOneMore(p.ledger.refunds, Refund(entry.id, entry.task.user, entry.task.quota), Repays(entry.task, touches[0].answer), id);
      }
      AbsentStays(next, touches[1..], id);
    }
  }

  /** Over any run a task is refunded exactly as often as reports repay it. */
  lemma {:induction false} RefundsAreCounted(l: Ledger, events: seq<Event>, id: int)
    ensures RefundsOf(Run(l, events).refunds, id) == RefundsOf(l.refunds, id) + Sum(RepaidInRun(l, events, id))
    decreases |events|
  {
    if events != [] {
      NextRefunds(l, events[0], id);
      RefundsAreCounted(Next(l, events[0]), events[1..], id);
      assert RepaidInRun(l, events, id)[1..] == RepaidInRun(Next(l, events[0]), events[1..], id);
    }
  }

  /** The j-th touch of the k-th event is a report that repays the row as the event finds it. */
  ghost predicate RepaysIn(l: Ledger, events: seq<Event>, id: int, k: nat, j: nat)
    requires k < |events|
  {
    var before := Run(l, events[..k]);
    Reaches(before, events[k], id) &&
    var touches := TouchesIn(before, events[k].round, id);
    j < |touches| && RepaysAt(before.rows[id], touches, j)
  }

  ghost predicate EventRepays(l: Ledger, events: seq<Event>, id: int, k: nat)
    requires k < |events|
  {
    exists j: nat :: RepaysIn(l, events, id, k, j)
  }

  ghost predicate EventRepaysOnce(l: Ledger, events: seq<Event>, id: int, k: nat)
    requires k < |events|
  {
    forall i, j :: 0 <= i < j ==> !(RepaysIn(l, events, id, k, i) && RepaysIn(l, events, id, k, j))
  }

  /** At most one report of the run repays the row: no two in one event, and no two events have one. */
  ghost predicate RepaidAtMostOnce(l: Ledger, events: seq<Event>, id: int) {
    && (forall k :: 0 <= k < |events| ==> EventRepaysOnce(l, events, id, k))
    && (forall k, k' :: 0 <= k < k' < |events| ==> !(EventRepays(l, events, id, k) && EventRepays(l, events, id, k')))
  }

  lemma RepaidAt(l: Ledger, events: seq<Event>, id: int, k: nat)
    requires k < |events|
    ensures RepaidInRun(l, events, id)[k] > 0 <==> EventRepays(l, events, id, k)
    ensures RepaidInRun(l, events, id)[k] <= 1 <==> EventRepaysOnce(l, events, id, k)
  {
    var before := Run(l, events[..k]);
    RepaidInRunAt(l, events, id, k);
    if Reaches(before, events[k], id) {
      RepaidSome(before.rows[id], TouchesIn(before, events[k].round, id));
      RepaidOnceIff(before.rows[id], TouchesIn(before, events[k].round, id));
      SomeAndOnce(l, events, id, k, before.rows[id], TouchesIn(before, events[k].round, id));
    }
  }

  lemma SomeAndOnce(l: Ledger, events: seq<Event>, id: int, k: nat, row: Task, touches: seq<Touch>)
    requires k < |events|
    requires forall j: nat :: RepaysIn(l, events, id, k, j) <==> j < |touches| && RepaysAt(row, touches, j)
    ensures EventRepays(l, events, id, k) <==> exists j :: 0 <= j < |touches| && RepaysAt(row, touches, j)
    ensures EventRepaysOnce(l, events, id, k) <==> RepaysOnce(row, touches)
  {
    if j :| 0 <= j < |touches| && RepaysAt(row, touches, j) {
      assert RepaysIn(l, events, id, k, j);
    }
  }

  /**
   Over any run, whatever is reported by whom and whichever calls fail: a task is refunded at most once
   exactly when at most one report repays it.
   */
  lemma RefundedAtMostOnceIff(l: Ledger, events: seq<Event>, id: int)
    ensures RefundsOf(Run(l, events).refunds, id) <= RefundsOf(l.refunds, id) + 1 <==> RepaidAtMostOnce(l, events, id)
  {
    var counts := RepaidInRun(l, events, id);
    RefundsAreCounted(l, events, id);
    SumIsOneIff(counts);
    forall k | 0 <= k < |events|
      ensures counts[k] > 0 <==> EventRepays(l, events, id, k)
      ensures counts[k] <= 1 <==> EventRepaysOnce(l, events, id, k)
    {
      RepaidAt(l, events, id, k);
    }
  }

  /** No refund without a cause, in any run: a timeout, a reason below 100%, or FAILURE at 100%. */
  lemma RefundsHaveCauses(l: Ledger, events: seq<Event>, id: int) returns (k: nat, j: nat)
    requires RefundsOf(Run(l, events).refunds, id) > RefundsOf(l.refunds, id)
    ensures k < |events| && RepaysIn(l, events, id, k, j)
    ensures
      var before := Run(l, events[..k]);
      var touches := TouchesIn(before, events[k].round, id);
      Cause(HeldAfter(before.rows[id], touches[..j]), touches[j].answer)
  {
    RefundsAreCounted(l, events, id);
    SumIsPositiveIff(RepaidInRun(l, events, id));
    k :| 0 <= k < |events| && RepaidInRun(l, events, id)[k] > 0;
    RepaidAt(l, events, id, k);
    j :| RepaysIn(l, events, id, k, j);
  }

  ghost predicate MayRefundAgain(l: Ledger, id: int) {
    exists events :: RefundsOf(Run(l, events).refunds, id) > RefundsOf(l.refunds, id)
  }

  lemma {:induction false} NothingToRefund(l: Ledger, events: seq<Event>, id: int)
    requires id in l.rows && (l.rows[id].mjId == "" || l.rows[id].quota <= 0)
    ensures Sum(RepaidInRun(l, events, id)) == 0
    decreases |events|
  {
    if events != [] {
      NextRefunds(l, events[0], id);
      if Reaches(l, events[0], id) {
        IndexHolds(l.rows, events[0].round.found);
        RepaidNeedsQuota(l.rows[id], TouchesIn(l, events[0].round, id));
      }
      NothingToRefund(Next(l, events[0]), events[1..], id);
      assert RepaidInRun(l, events, id)[1..] == RepaidInRun(Next(l, events[0]), events[1..], id);
    }
  }

  /** A row can still be refunded exactly while the worker lives and the row is unfinished, has a Midjourney id and was charged. */
  lemma MayRefundAgainIff(l: Ledger, id: int)
    requires id in l.rows
    ensures MayRefundAgain(l, id)
       <==> l.alive && l.rows[id].progress != Hundred && l.rows[id].mjId != "" && l.rows[id].quota > 0
  {
    if l.alive && l.rows[id].progress != Hundred && l.rows[id].mjId != "" && l.rows[id].quota > 0 {
      var a := Failing(l.rows[id].mjId);
      OneFailedSave(l, id, a, 0);
      var events := [Polled(Round([id], true, [Answering(0, [a])]))];
      assert events[1..] == [];
      assert Run(l, events) == PollOnce(l, events[0].round);
      RefundsOfOneMore(l.refunds, Refund(id, l.rows[id].user, l.rows[id].quota), true, id);
    } else {
      forall events ensures RefundsOf(Run(l, events).refunds, id) <= RefundsOf(l.refunds, id) {
        if !l.alive {
          DeadRun(l, events);
        } else if l.rows[id].progress == Hundred {
          FinishedForGood(l, events, id);
        } else {
          NothingToRefund(l, events, id);
          RefundsAreCounted(l, events, id);
        }
      }
    }
  }

  /** A report with a reason below 100%, whose refund succeeds and whose save fails. */
  function Failing(mjId: string): Answer {
    Answer(Report(mjId, "", "", 0, 0, 0, "", Word("x"), Percent("x"), "x", None, None), 0, true, true, false)
  }

  /** After a poll that refunds a row: it is never refunded a second time, whatever follows. */
  ghost predicate RefundedOnceForGood(l: Ledger, r: Round, id: int) {
    forall events :: RefundsOf(Run(PollOnce(l, r), events).refunds, id) <= RefundsOf(l.refunds, id) + 1
  }

  /**
   The refund is the only one, in this poll and in every continuation, exactly when no two reports of the
   poll repay the row, and either the last one to write the row left it at 100% or the worker ended.
   */
  lemma RefundedOnceForGoodIff(l: Ledger, r: Round, id: int)
    requires l.alive && Possible(l, r) && id in l.rows
    requires RefundsOf(PollOnce(l, r).refunds, id) > RefundsOf(l.refunds, id)
    ensures HeldIn(l, r, id)
    ensures RefundedOnceForGood(l, r, id)
       <==> RepaysOnce(l.rows[id], TouchesIn(l, r, id)) && (Closed(l.rows[id], TouchesIn(l, r, id)) || !PollOnce(l, r).alive)
  {
    var after := PollOnce(l, r);
    PollOfTask(l, r, id);
    RefundedOncePerPollIff(l, r, id);
    IndexHolds(l.rows, r.found);
    if l.rows[id].quota <= 0 {
      RepaidNeedsQuota(l.rows[id], TouchesIn(l, r, id));
    }
    MayRefundAgainIff(after, id);
    if RefundedOnceForGood(l, r, id) {
      assert Run(after, []) == after;
    }
  }

  /** With a single report of the row in its poll: the refund is the only one for good exactly if the row was saved. */
  lemma SavedRefundIsFinalIff(l: Ledger, r: Round, id: int, a: Answer)
    requires l.alive && Possible(l, r) && id in l.rows && HeldIn(l, r, id) && TouchesIn(l, r, id) == [Told(a)]
    requires Repays(l.rows[id], a) && PollOnce(l, r).alive
    ensures RefundedOnceForGood(l, r, id) <==> a.updateOk
  {
    var row, touches := l.rows[id], TouchesIn(l, r, id);
    assert touches[..0] == [];
    assert RepaysAt(row, touches, 0);
    PollOfTask(l, r, id);
    RepaidSome(row, touches);
    RefundedOnceForGoodIff(l, r, id);
    assert Closed(row, touches) <==> a.updateOk;
  }

  // ----- The worker's end -----

  lemma {:induction false} AliveIff(p: Poll, touches: seq<Touch>)
    ensures ApplyAll(p, touches).ledger.alive <==>
      p.ledger.alive && forall k :: 0 <= k < |touches| && touches[k].Told? ==> touches[k].answer.report.mjId in p.tasks
    decreases |touches|
  {
    if touches != [] {
      var next := Apply(p, touches[0]);
      if p.ledger.alive && touches[0].Told? && touches[0].answer.report.mjId in p.tasks {
        assert next.tasks.Keys == p.tasks.Keys;
      }
      AliveIff(next, touches[1..]);
      assert forall k :: 0 < k < |touches| ==> touches[k] == touches[1..][k - 1];
    }
  }

  lemma {:induction false} ToldAreAnswers(visits: seq<Visit>, rows: map<int, Task>, found: seq<int>, a: Answer)
    ensures Told(a) in Touches(visits, rows, found) <==> a in AnswersOf(visits)
  {
    if visits != [] {
      ToldAreAnswers(visits[1..], rows, found, a);
      if visits[0].Answering? {
        TellAllMembers(visits[0].answers, a);
      }
    }
  }

  lemma {:induction false} TellAllMembers(answers: seq<Answer>, a: Answer)
    ensures Told(a) in TellAll(answers) <==> a in answers
  {
    if answers != [] {
      TellAllMembers(answers[1..], a);
      assert answers == [answers[0]] + answers[1..];
    }
  }

  lemma {:induction false} IndexedIff(rows: map<int, Task>, found: seq<int>, m: string)
    ensures m in IndexOf(rows, found) <==> m != "" && exists id :: id in found && id in rows && rows[id].mjId == m
  {
    if found != [] {
      var front, last := found[..|found| - 1], found[|found| - 1];
      IndexedIff(rows, front, m);
      assert forall id :: id in found <==> id in front || id == last;
    }
  }

  /**
   The worker survives a poll exactly when every report, of whatever channel, names an unfinished task
   that the poll has found.
   */
  lemma WorkerSurvivesIff(l: Ledger, r: Round)
    ensures PollOnce(l, r).alive <==>
      l.alive && forall a :: a in AnswersOf(r.visits) ==> FoundIn(l, r, a.report.mjId)
  {
    if l.alive {
      var touches := Touches(r.visits, l.rows, r.found);
      PollIsTouches(l, r);
      AliveIff(Started(l, r), touches);
      forall a ensures a in AnswersOf(r.visits) <==> Told(a) in touches {
        ToldAreAnswers(r.visits, l.rows, r.found, a);
      }
      forall a: Answer ensures a.report.mjId in IndexOf(l.rows, r.found) <==> FoundIn(l, r, a.report.mjId) {
        IndexedIff(l.rows, r.found, a.report.mjId);
      }
      assert forall k :: 0 <= k < |touches| && touches[k].Told? ==> touches[k] == Told(touches[k].answer) && touches[k] in touches;
    }
  }

  predicate FoundIn(l: Ledger, r: Round, m: string) {
    m != "" && exists id :: id in r.found && id in l.rows && l.rows[id].mjId == m
  }

  // ----- Two reports of one task -----

  /** A second report repays a task that is held at 100%: a reason below 100%, or a FAILURE that says something new. */
  predicate RepaysAgain(held: Task, b: Report) {
    (b.progress != Hundred && b.failReason != "") || (b.progress == Hundred && b.status == Failure && NeedsUpdate(held, b))
  }

  /**
   Any report b of a task after one that refunded it, in one poll: it refunds again exactly under
   RepaysAgain, and with the saves succeeding it leaves the row at 100% exactly if it says 100% or gives a
   reason. A failure at 100% followed by 50% without a reason thus reopens a refunded task.
   */
  lemma SecondReportIff(p: Poll, a: Answer, b: Answer)
    requires p.ledger.alive && a.report.mjId == b.report.mjId && a.report.mjId in p.tasks
    requires p.tasks[a.report.mjId].id in p.ledger.rows
    requires Refunds(p.tasks[a.report.mjId].task, a) && b.cacheOk && b.creditOk
    ensures
      var entry := p.tasks[a.report.mjId];
      var refund := Refund(entry.id, entry.task.user, entry.task.quota);
      var after := HandleAll(p, [a, b]).ledger;
      && after.refunds == (p.ledger.refunds + [refund]) + (if RepaysAgain(Held(entry.task, a), b.report) then [refund] else [])
      && (a.updateOk && b.updateOk ==>
            entry.id in after.rows &&
            (after.rows[entry.id].progress == Hundred <==> b.report.progress == Hundred || b.report.failReason != ""))
  {
    var m := a.report.mjId;
    var task, once := p.tasks[m].task, Handle(p, a);
    assert [a, b][1..] == [b] && [b][1..] == [];
    assert HandleAll(p, [a, b]) == HandleAll(once, [b]);
    assert HandleAll(once, [b]) == Handle(once, b);
    HeldProgress(task, a);
    HeldProgress(Held(task, a), b);
  }

  /**
   Task ids that are distinct within each channel's answer are not enough: the index of tasks is shared,
   and two channels that answer for the same id refund it twice.
   */
  lemma TwoChannelsRefundTwice(l: Ledger, i: int, j: int, a: Answer, b: Answer)
    requires l.alive && i in l.rows && j in l.rows && l.rows[i].mjId == a.report.mjId == b.report.mjId != ""
    requires l.rows[j].mjId != "" && l.rows[j].mjId != l.rows[i].mjId && l.rows[j].channel != l.rows[i].channel
    requires Refunds(l.rows[i], a) && l.rows[j].progress != Hundred
    requires b.cacheOk && b.creditOk && b.report.progress != Hundred && b.report.failReason != ""
    ensures
      var r := Round([i, j], true, [Answering(l.rows[i].channel, [a]), Answering(l.rows[j].channel, [b])]);
      Possible(l, r) && RefundsOf(PollOnce(l, r).refunds, i) == RefundsOf(l.refunds, i) + 2
  {
    var m, found := a.report.mjId, [i, j];
    var r := Round(found, true, [Answering(l.rows[i].channel, [a]), Answering(l.rows[j].channel, [b])]);
    var tasks := IndexOf(l.rows, found);
    TwoTasks(l.rows, i, j);
    TwoVisits(r.visits, l.rows, found, a, b);
    var start, refund := Started(l, r), Refund(i, l.rows[i].user, l.rows[i].quota);
    PollIsTouches(l, r);
    TellingHandles(start, [a, b]);
    SecondReportIff(start, a, b);
    RefundsOfOneMore(l.refunds, refund, true, i);
    RefundsOfOneMore(l.refunds + [refund], refund, true, i);
  }

  lemma TwoVisits(visits: seq<Visit>, rows: map<int, Task>, found: seq<int>, a: Answer, b: Answer)
    requires |visits| == 2 && visits[0].Answering? && visits[1].Answering? && visits[0].answers == [a] && visits[1].answers == [b]
    ensures Touches(visits, rows, found) == TellAll([a, b])
  {
    assert visits[1..] == [visits[1]] && visits[1..][1..] == [];
    assert [a][1..] == [] && [b][1..] == [] && [a, b][1..] == [b];
    assert TellAll([a]) == [Told(a)] && TellAll([b]) == [Told(b)];
    assert Touches([visits[1]], rows, found) == [Told(b)];
  }

  lemma TwoTasks(rows: map<int, Task>, i: int, j: int)
    requires i in rows && j in rows && rows[i].mjId != "" && rows[j].mjId != "" && rows[j].mjId != rows[i].mjId
    ensures IndexOf(rows, [i, j]) == map[rows[i].mjId := Entry(i, rows[i]), rows[j].mjId := Entry(j, rows[j])]
    ensures NullIds(rows, [i, j]) == []
  {
    assert [i, j][..1] == [i] && [i][..0] == [] && [i, j][1..] == [j] && [j][1..] == [];
    assert IndexOf(rows, [i]) == map[rows[i].mjId := Entry(i, rows[i])];
    assert NullIds(rows, [j]) == [];
  }
}
