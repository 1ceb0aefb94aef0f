/**
 The Midjourney worker: it polls unfinished tasks, copies what the upstream
 reports and refunds the tasks that failed (controller/midjourney.go, model/midjourney.go).
 */
module Midjourney {
  import opened Options

  // ----- Entities -----

  /** The progress column; Hundred is the text "100%", Percent any other text. */
  datatype Progress = Hundred | Percent(text: string)

  /** The status column; Failure is the text "FAILURE", Word any other text. */
  datatype Status = Failure | Word(text: string)

  datatype Task = Task(
    code: int, user: int, mjId: string, promptEn: string, state: string, submitTime: int, startTime: int,
    finishTime: int, imageUrl: string, status: Status, progress: Progress, failReason: string, channel: int,
    quota: int, buttons: string, properties: string)

  /** One item of the upstream's answer. */
  datatype Report = Report(
    mjId: string, promptEn: string, state: string, submitTime: int, startTime: int, finishTime: int,
    imageUrl: string, status: Status, progress: Progress, failReason: string,
    buttons: Option<string>, properties: Option<string>)

  const TIMEOUT_MILLISECONDS := 3_600_000
  const TIMEOUT_REASON := "上游任务超时（超过1小时）"

  /** A report, the clock when it is handled, and which of the calls it leads to succeed. */
  datatype Answer = Answer(report: Report, now: int, cacheOk: bool, creditOk: bool, updateOk: bool)

  datatype Refund = Refund(id: int, user: int, quota: int)

  /** The database, the refunds ever made, and whether the worker still runs. */
  datatype Ledger = Ledger(rows: map<int, Task>, balances: map<int, int>, refunds: seq<Refund>, alive: bool)

  /** A task as the worker holds it in memory. */
  datatype Entry = Entry(id: int, task: Task)

  datatype Poll = Poll(tasks: map<string, Entry>, ledger: Ledger)

  // ----- One report -----

  predicate TimedOut(task: Task, now: int) {
    now - task.submitTime > TIMEOUT_MILLISECONDS && task.progress != Hundred
  }

  /** The report after the one-hour rule, which looks at the stored progress. */
  function Judged(task: Task, report: Report, now: int): Report {
    if TimedOut(task, now) then report.(failReason := TIMEOUT_REASON, status := Failure) else report
  }

  /** checkMjTaskNeedUpdate. */
  predicate NeedsUpdate(task: Task, report: Report) {
    || task.code != 1
    || task.progress != report.progress
    || task.promptEn != report.promptEn
    || task.state != report.state
    || task.submitTime != report.submitTime
    || task.startTime != report.startTime
    || task.finishTime != report.finishTime
    || task.imageUrl != report.imageUrl
    || task.status != report.status
    || task.failReason != report.failReason
    || (task.progress != Hundred && report.failReason != "")
  }

  function Copied(task: Task, report: Report): Task {
    task.(code := 1, progress := report.progress, promptEn := report.promptEn, state := report.state,
          submitTime := report.submitTime, startTime := report.startTime, finishTime := report.finishTime,
          imageUrl := report.imageUrl, status := report.status, failReason := report.failReason,
          properties := if report.properties.Some? then report.properties.value else task.properties,
          buttons := if report.buttons.Some? then report.buttons.value else task.buttons)
  }

  predicate HasFailed(task: Task, report: Report) {
    (task.progress != Hundred && report.failReason != "") || (task.progress == Hundred && task.status == Failure)
  }

  /** The refund of a failed task: skipped when the cache call fails, when nothing was charged, or when it fails. */
  function Refunded(l: Ledger, entry: Entry, a: Answer): Ledger {
    if a.cacheOk && entry.task.quota != 0 && a.creditOk && entry.task.quota >= 0 then
      var user := entry.task.user;
      l.(refunds := l.refunds + [Refund(entry.id, user, entry.task.quota)],
         balances := if user in l.balances then l.balances[user := l.balances[user] + entry.task.quota] else l.balances)
    else l
  }

  function Saved(l: Ledger, entry: Entry, ok: bool): Ledger {
    if ok then l.(rows := l.rows[entry.id := entry.task]) else l
  }

  /** One turn of the loop in MjTaskHandler. A report of an unknown task is a nil dereference. */
  function Handle(p: Poll, a: Answer): Poll {
    if !p.ledger.alive then p
    else if a.report.mjId !in p.tasks then p.(ledger := p.ledger.(alive := false))
    else
      var entry := p.tasks[a.report.mjId];
      var report := Judged(entry.task, a.report, a.now);
      if !NeedsUpdate(entry.task, report) then p
      else Written(p, entry, Copied(entry.task, report), report, a)
  }

  function Written(p: Poll, entry: Entry, copied: Task, report: Report, a: Answer): Poll {
    if HasFailed(copied, report) then
      var failed := Entry(entry.id, copied.(progress := Hundred));
      Poll(p.tasks[a.report.mjId := failed], Saved(Refunded(p.ledger, failed, a), failed, a.updateOk))
    else
      var kept := Entry(entry.id, copied);
      Poll(p.tasks[a.report.mjId := kept], Saved(p.ledger, kept, a.updateOk))
  }

  function HandleAll(p: Poll, answers: seq<Answer>): Poll
    decreases |answers|
  {
    if answers == [] then p else HandleAll(Handle(p, answers[0]), answers[1..])
  }

  // ----- One poll -----

  /** A channel with unfinished tasks: gone (with the text that names it), not answering, or answering. */
  datatype Visit = Gone(channel: int, reason: string, ok: bool) | Silent(channel: int) | Answering(channel: int, answers: seq<Answer>)

  function FailedRow(task: Task): Task {
    task.(status := Failure, progress := Hundred)
  }

  /** MjBulkUpdate: the rows of a channel that is gone are failed without a refund. */
  function FailRows(rows: map<int, Task>, mjIds: seq<string>, reason: string): map<int, Task> {
    map id | id in rows :: if rows[id].mjId in mjIds then FailedRow(rows[id]).(failReason := reason) else rows[id]
  }

  /** MjBulkUpdateByTaskIds. */
  function FailIds(rows: map<int, Task>, ids: seq<int>): map<int, Task> {
    map id | id in rows :: if id in ids then FailedRow(rows[id]) else rows[id]
  }

  function VisitOne(p: Poll, v: Visit, mjIds: seq<string>): Poll {
    if !p.ledger.alive then p
    else
      match v
      case Gone(_, reason, ok) =>
        if ok then p.(ledger := p.ledger.(rows := FailRows(p.ledger.rows, mjIds, reason))) else p
      case Silent(_) => p
      case Answering(_, answers) => HandleAll(p, answers)
  }

  /** The Midjourney ids of a channel's unfinished tasks, in the order they were found. */
  function IdsOf(rows: map<int, Task>, found: seq<int>, channel: int): seq<string> {
    if found == [] then []
    else (if found[0] in rows && rows[found[0]].mjId != "" && rows[found[0]].channel == channel
          then [rows[found[0]].mjId] else []) + IdsOf(rows, found[1..], channel)
  }

  function NullIds(rows: map<int, Task>, found: seq<int>): seq<int> {
    if found == [] then []
    else (if found[0] in rows && rows[found[0]].mjId == "" then [found[0]] else []) + NullIds(rows, found[1..])
  }

  /** taskM: of two tasks with one Midjourney id the later is kept. */
  function IndexOf(rows: map<int, Task>, found: seq<int>): map<string, Entry> {
    if found == [] then map[]
    else
      var last := found[|found| - 1];
      var rest := IndexOf(rows, found[..|found| - 1]);
      if last in rows && rows[last].mjId != "" then rest[rows[last].mjId := Entry(last, rows[last])] else rest
  }

  function VisitAll(p: Poll, visits: seq<Visit>, rows: map<int, Task>, found: seq<int>): Poll
    decreases |visits|
  {
    if visits == [] then p
    else VisitAll(VisitOne(p, visits[0], IdsOf(rows, found, visits[0].channel)), visits[1..], rows, found)
  }

  /** GetAllUnFinishTasks in the order the database chose, the channels in the order the map iteration chose. */
  datatype Round = Round(found: seq<int>, nullOk: bool, visits: seq<Visit>)

  ghost predicate Possible(l: Ledger, r: Round) {
    && (forall i, j :: 0 <= i < j < |r.found| ==> r.found[i] != r.found[j])
    && (forall id :: id in r.found ==> id in l.rows && l.rows[id].progress != Hundred)
  }

  function PollOnce(l: Ledger, r: Round): Ledger {
    if !l.alive then l
    else
      var nulls := NullIds(l.rows, r.found);
      var fixed := if nulls != [] && r.nullOk then l.(rows := FailIds(l.rows, nulls)) else l;
      VisitAll(Poll(IndexOf(l.rows, r.found), fixed), r.visits, l.rows, r.found).ledger
  }

  /** What happens over time: the worker polls, and users submit tasks. */
  datatype Event = Polled(round: Round) | Submitted(id: int, task: Task)

  ghost function Next(l: Ledger, e: Event): Ledger {
    match e
    case Polled(r) => if Possible(l, r) then PollOnce(l, r) else l
    case Submitted(id, task) => if id in l.rows then l else l.(rows := l.rows[id := task])
  }

  ghost function Run(l: Ledger, events: seq<Event>): Ledger
    decreases |events|
  {
    if events == [] then l else Run(Next(l, events[0]), events[1..])
  }

  // ----- When a task is refunded -----

  /** The causes of a refund: an hour has passed, a reason below 100%, or FAILURE at 100%. */
  predicate Cause(task: Task, a: Answer) {
    TimedOut(task, a.now)
    || (a.report.progress != Hundred && a.report.failReason != "")
    || (a.report.progress == Hundred && a.report.status == Failure)
  }

  /**
   An unfinished task is marked failed by a report exactly when there is a
   cause: the test for changes never hides one. The one-hour rule comes
   first, so a success that arrives late is a failure.
   */
  lemma FailsExactlyForCause(p: Poll, a: Answer)
    requires p.ledger.alive && a.report.mjId in p.tasks && p.tasks[a.report.mjId].task.progress != Hundred
    ensures
      var entry := p.tasks[a.report.mjId];
      var after := Handle(p, a);
      after.ledger.refunds == p.ledger.refunds +
        (if Cause(entry.task, a) && a.cacheOk && a.creditOk && entry.task.quota > 0
         then [Refund(entry.id, entry.task.user, entry.task.quota)] else [])
      && (Cause(entry.task, a) ==> after.tasks[a.report.mjId].task.progress == Hundred)
      && (Cause(entry.task, a) && entry.id in p.ledger.rows && p.ledger.rows[entry.id].progress != Hundred ==>
            (after.ledger.rows[entry.id].progress == Hundred <==> a.updateOk))
  {
    var task := p.tasks[a.report.mjId].task;
    var report := Judged(task, a.report, a.now);
    assert |TIMEOUT_REASON| > 0;
    assert Copied(task, report).progress == a.report.progress;
    assert HasFailed(Copied(task, report), report) <==> Cause(task, a);
  }

  /**
   The task takes over everything the report says, the properties and buttons only if the report has some
   and changes anything; whom it belongs to and what it cost stay. A late report counts as the timeout.
   */
  lemma ReportIsTakenOver(p: Poll, a: Answer)
    requires p.ledger.alive && a.report.mjId in p.tasks && p.tasks[a.report.mjId].task.progress != Hundred
    ensures
      var r, before, after := a.report, p.tasks[a.report.mjId], Handle(p, a);
      r.mjId in after.tasks && after.tasks[r.mjId].id == before.id &&
      var task, changes := after.tasks[r.mjId].task, NeedsUpdate(before.task, Judged(before.task, r, a.now));
      && task.mjId == before.task.mjId && task.user == before.task.user && task.channel == before.task.channel
      && task.quota == before.task.quota
      && task.promptEn == r.promptEn && task.state == r.state && task.submitTime == r.submitTime && task.startTime == r.startTime
      && task.finishTime == r.finishTime && task.imageUrl == r.imageUrl && task.code == 1
      && task.status == (if TimedOut(before.task, a.now) then Failure else r.status)
      && task.failReason == (if TimedOut(before.task, a.now) then TIMEOUT_REASON else r.failReason)
      && task.progress == (if Cause(before.task, a) then Hundred else r.progress)
      && task.properties == (if changes && r.properties.Some? then r.properties.value else before.task.properties)
      && task.buttons == (if changes && r.buttons.Some? then r.buttons.value else before.task.buttons)
      && (changes && a.updateOk ==> before.id in after.ledger.rows && after.ledger.rows[before.id] == task)
  {
    assert |TIMEOUT_REASON| > 0;
    var task, report := p.tasks[a.report.mjId].task, Judged(p.tasks[a.report.mjId].task, a.report, a.now);
    assert HasFailed(Copied(task, report), report) <==> Cause(task, a);
  }

  /** The tasks of a channel that is gone are marked failed for the given reason, and no other. */
  lemma GoneChannelFailsRows(rows: map<int, Task>, mjIds: seq<string>, reason: string, id: int)
    requires id in rows
    ensures
      FailRows(rows, mjIds, reason).Keys == rows.Keys &&
      FailRows(rows, mjIds, reason)[id] ==
        if rows[id].mjId in mjIds then rows[id].(status := Failure, progress := Hundred, failReason := reason) else rows[id]
  {
  }

  /**
   A report without a cause is settled by handling it: the row then says what it reported, and the
   same report changes nothing more. The exception is a report whose own submission time, which
   replaces the stored one, is over an hour ago: the second time it is a failure.
   */
  lemma RepeatedReportSettlesIff(p: Poll, a: Answer)
    requires p.ledger.alive && a.report.mjId in p.tasks && p.tasks[a.report.mjId].task.progress != Hundred
    requires !Cause(p.tasks[a.report.mjId].task, a)
    ensures Handle(Handle(p, a), a) == Handle(p, a) <==>
            (a.report.progress == Hundred || a.now - a.report.submitTime <= TIMEOUT_MILLISECONDS)
  {
    var entry := p.tasks[a.report.mjId];
    if NeedsUpdate(entry.task, a.report) {
      var once := Handle(p, a);
      var copied := Copied(entry.task, a.report);
      assert once.tasks[a.report.mjId] == Entry(entry.id, copied);
      assert !NeedsUpdate(copied, a.report);
      if TimedOut(copied, a.now) {
        FailsExactlyForCause(once, a);
      }
    }
  }

  // ----- Refunded once -----

  ghost predicate IsRefunded(refunds: seq<Refund>, id: int) {
    exists k :: 0 <= k < |refunds| && refunds[k].id == id
  }

  predicate SameCharge(a: Task, b: Task) {
    a.user == b.user && a.quota == b.quota
  }

  /** Refunds are for distinct tasks, each stored as finished and charged what was refunded. */
  ghost predicate Sound(l: Ledger) {
    && (forall j, k :: 0 <= j < k < |l.refunds| ==> l.refunds[j].id != l.refunds[k].id)
    && (forall k :: 0 <= k < |l.refunds| ==>
          var r := l.refunds[k];
          r.id in l.rows && l.rows[r.id].progress == Hundred && l.rows[r.id].user == r.user && l.rows[r.id].quota == r.quota)
  }

  /** The tasks in memory while a poll runs; `seen` are those already reported. */
  ghost predicate Underway(p: Poll, seen: set<string>) {
    && Sound(p.ledger)
    && (forall m :: m in p.tasks ==> p.tasks[m].id in p.ledger.rows
                                     && SameCharge(p.tasks[m].task, p.ledger.rows[p.tasks[m].id]))
    && (forall m, n :: m in p.tasks && n in p.tasks && m != n ==> p.tasks[m].id != p.tasks[n].id)
    && (forall m :: m in p.tasks && m !in seen ==> !IsRefunded(p.ledger.refunds, p.tasks[m].id))
  }

  /** Reports of one poll name each task once, and no refund is followed by a failed save. */
  ghost predicate Careful(answers: seq<Answer>, seen: set<string>) {
    && (forall i :: 0 <= i < |answers| ==> answers[i].report.mjId !in seen)
    && (forall i :: 0 <= i < |answers| && answers[i].cacheOk && answers[i].creditOk ==> answers[i].updateOk)
    && (forall i, j :: 0 <= i < j < |answers| ==> answers[i].report.mjId != answers[j].report.mjId)
  }

  function Named(answers: seq<Answer>): set<string> {
    set a | a in answers :: a.report.mjId
  }

  function AnswersOf(visits: seq<Visit>): seq<Answer> {
    if visits == [] then []
    else (if visits[0].Answering? then visits[0].answers else []) + AnswersOf(visits[1..])
  }

  lemma IsRefundedAfter(refunds: seq<Refund>, r: Refund)
    ensures forall id :: IsRefunded(refunds + [r], id) <==> IsRefunded(refunds, id) || id == r.id
  {
    forall id ensures IsRefunded(refunds + [r], id) <==> IsRefunded(refunds, id) || id == r.id {
      if IsRefunded(refunds, id) {
        var k :| 0 <= k < |refunds| && refunds[k].id == id;
        assert (refunds + [r])[k].id == id;
      }
      assert (refunds + [r])[|refunds|] == r;
    }
  }

  lemma SavingKeepsUnderway(p: Poll, m: string, task: Task, ok: bool, seen: set<string>)
    requires Underway(p, seen) && m in p.tasks && m !in seen
    requires SameCharge(task, p.tasks[m].task)
    ensures
      var entry := Entry(p.tasks[m].id, task);
      Underway(Poll(p.tasks[m := entry], Saved(p.ledger, entry, ok)), seen + {m})
  {
  }

  lemma RefundingKeepsUnderway(p: Poll, m: string, task: Task, a: Answer, seen: set<string>)
    requires Underway(p, seen) && m in p.tasks && m !in seen
    requires SameCharge(task, p.tasks[m].task) && task.progress == Hundred
    requires a.cacheOk && a.creditOk ==> a.updateOk
    ensures
      var entry := Entry(p.tasks[m].id, task);
      Underway(Poll(p.tasks[m := entry], Saved(Refunded(p.ledger, entry, a), entry, a.updateOk)), seen + {m})
  {
    var entry := Entry(p.tasks[m].id, task);
    var refunded := Refunded(p.ledger, entry, a);
    if refunded == p.ledger {
      SavingKeepsUnderway(p, m, task, a.updateOk, seen);
    } else {
      var r := Refund(entry.id, task.user, task.quota);
      assert refunded.refunds == p.ledger.refunds + [r];
      IsRefundedAfter(p.ledger.refunds, r);
      assert Saved(refunded, entry, a.updateOk).rows == p.ledger.rows[entry.id := task];
    }
  }

  lemma HandleKeepsUnderway(p: Poll, a: Answer, seen: set<string>)
    requires Underway(p, seen) && a.report.mjId !in seen && (a.cacheOk && a.creditOk ==> a.updateOk)
    ensures Underway(Handle(p, a), seen + {a.report.mjId})
  {
    var m := a.report.mjId;
    if p.ledger.alive && m in p.tasks {
      var task := p.tasks[m].task;
      var report := Judged(task, a.report, a.now);
      var copied := Copied(task, report);
      if NeedsUpdate(task, report) {
        if HasFailed(copied, report) {
          RefundingKeepsUnderway(p, m, copied.(progress := Hundred), a, seen);
        } else {
          SavingKeepsUnderway(p, m, copied, a.updateOk, seen);
        }
      }
    }
  }

  lemma {:induction false} HandleAllKeepsUnderway(p: Poll, answers: seq<Answer>, seen: set<string>)
    requires Underway(p, seen) && Careful(answers, seen)
    ensures Underway(HandleAll(p, answers), seen + Named(answers))
    decreases |answers|
  {
    if answers == [] {
      assert seen + Named(answers) == seen;
    } else {
      var a := answers[0];
      HandleKeepsUnderway(p, a, seen);
      HandleAllKeepsUnderway(Handle(p, a), answers[1..], seen + {a.report.mjId});
      assert answers == [a] + answers[1..];
      assert (seen + {a.report.mjId}) + Named(answers[1..]) == seen + Named(answers);
    }
  }

  lemma FailingRowsKeepsUnderway(p: Poll, rows: map<int, Task>, seen: set<string>)
    requires Underway(p, seen)
    requires rows.Keys == p.ledger.rows.Keys
    requires forall id :: id in rows ==> SameCharge(rows[id], p.ledger.rows[id])
                                         && (p.ledger.rows[id].progress == Hundred ==> rows[id].progress == Hundred)
    ensures Underway(p.(ledger := p.ledger.(rows := rows)), seen)
  {
  }

  lemma CarefulParts(a: seq<Answer>, b: seq<Answer>, seen: set<string>)
    requires Careful(a + b, seen)
    ensures Careful(a, seen) && Careful(b, seen + Named(a))
  {
    var all := a + b;
    assert forall i :: 0 <= i < |b| ==> b[i] == all[|a| + i];
    assert forall i :: 0 <= i < |a| ==> a[i] == all[i];
  }

  lemma {:induction false} VisitsKeepUnderway(p: Poll, visits: seq<Visit>, rows: map<int, Task>, found: seq<int>, seen: set<string>)
    requires Underway(p, seen) && Careful(AnswersOf(visits), seen)
    ensures Sound(VisitAll(p, visits, rows, found).ledger)
    decreases |visits|
  {
    if visits != [] {
      var v := visits[0];
      var mjIds := IdsOf(rows, found, v.channel);
      var rest := AnswersOf(visits[1..]);
      var next := VisitOne(p, v, mjIds);
      if v.Answering? {
        CarefulParts(v.answers, rest, seen);
        if p.ledger.alive {
          HandleAllKeepsUnderway(p, v.answers, seen);
        }
        VisitsKeepUnderway(next, visits[1..], rows, found, seen + Named(v.answers));
      } else {
        assert AnswersOf(visits) == rest;
        FailingRowsKeepsUnderway(p, FailRows(p.ledger.rows, mjIds, if v.Gone? then v.reason else ""), seen);
        VisitsKeepUnderway(next, visits[1..], rows, found, seen);
      }
    }
  }

  lemma {:induction false} IndexHolds(rows: map<int, Task>, found: seq<int>)
    ensures forall m :: m in IndexOf(rows, found) ==>
      var entry := IndexOf(rows, found)[m];
      entry.id in found && entry.id in rows && entry.task == rows[entry.id] && entry.task.mjId == m && m != ""
  {
    if found != [] {
      IndexHolds(rows, found[..|found| - 1]);
      assert forall id :: id in found[..|found| - 1] ==> id in found;
    }
  }

  lemma {:induction false} NullIdsHold(rows: map<int, Task>, found: seq<int>)
    ensures forall id :: id in NullIds(rows, found) ==> id in found && id in rows && rows[id].mjId == ""
  {
    if found != [] {
      NullIdsHold(rows, found[1..]);
    }
  }

  lemma PollKeepsSound(l: Ledger, r: Round)
    requires Sound(l) && Possible(l, r) && Careful(AnswersOf(r.visits), {})
    ensures Sound(PollOnce(l, r))
  {
    if l.alive {
      var nulls := NullIds(l.rows, r.found);
      var start := Poll(IndexOf(l.rows, r.found), l);
      IndexHolds(l.rows, r.found);
      assert Underway(start, {});
      var fixed := if nulls != [] && r.nullOk then FailIds(l.rows, nulls) else l.rows;
      FailingRowsKeepsUnderway(start, fixed, {});
      VisitsKeepUnderway(start.(ledger := l.(rows := fixed)), r.visits, l.rows, r.found, {});
    }
  }

  /**
   Over any run of polls and submissions: refunds are for distinct tasks, each
   of them stored as finished, to the user and of the amount on its row, as
   long as the reports of one poll, all channels together, name each task at
   most once and the save after a refund succeeds.
   */
  lemma {:induction false} RefundedAtMostOnce(l: Ledger, events: seq<Event>)
    requires Sound(l)
    requires forall k :: 0 <= k < |events| && events[k].Polled? ==> Careful(AnswersOf(events[k].round.visits), {})
    ensures Sound(Run(l, events))
    decreases |events|
  {
    if events != [] {
      var e := events[0];
      if e.Polled? && Possible(l, e.round) {
        PollKeepsSound(l, e.round);
      }
      RefundedAtMostOnce(Next(l, e), events[1..]);
    }
  }

  // ----- Finished for good -----

  /** How often a task has been refunded. */
  function RefundsOf(refunds: seq<Refund>, id: int): nat {
    if refunds == [] then 0
    else RefundsOf(refunds[..|refunds| - 1], id) + (if refunds[|refunds| - 1].id == id then 1 else 0)
  }

  ghost predicate Untouchable(p: Poll, id: int) {
    id in p.ledger.rows && p.ledger.rows[id].progress == Hundred && forall m :: m in p.tasks ==> p.tasks[m].id != id
  }

  lemma HandleLeavesFinished(p: Poll, a: Answer, id: int)
    requires Untouchable(p, id)
    ensures Untouchable(Handle(p, a), id)
    ensures RefundsOf(Handle(p, a).ledger.refunds, id) == RefundsOf(p.ledger.refunds, id)
  {
    var after := Handle(p, a).ledger.refunds;
    if after != p.ledger.refunds {
      assert after[..|after| - 1] == p.ledger.refunds;
    }
  }

  lemma {:induction false} HandleAllLeavesFinished(p: Poll, answers: seq<Answer>, id: int)
    requires Untouchable(p, id)
    ensures Untouchable(HandleAll(p, answers), id)
    ensures RefundsOf(HandleAll(p, answers).ledger.refunds, id) == RefundsOf(p.ledger.refunds, id)
    decreases |answers|
  {
    if answers != [] {
      HandleLeavesFinished(p, answers[0], id);
      HandleAllLeavesFinished(Handle(p, answers[0]), answers[1..], id);
    }
  }

  lemma {:induction false} VisitsLeaveFinished(p: Poll, visits: seq<Visit>, rows: map<int, Task>, found: seq<int>, id: int)
    requires Untouchable(p, id)
    ensures Untouchable(VisitAll(p, visits, rows, found), id)
    ensures RefundsOf(VisitAll(p, visits, rows, found).ledger.refunds, id) == RefundsOf(p.ledger.refunds, id)
    decreases |visits|
  {
    if visits != [] {
      if p.ledger.alive && visits[0].Answering? {
        HandleAllLeavesFinished(p, visits[0].answers, id);
      }
      VisitsLeaveFinished(VisitOne(p, visits[0], IdsOf(rows, found, visits[0].channel)), visits[1..], rows, found, id);
    }
  }

  /** A task stored at 100% stays there and is never refunded again, whatever later polls report. */
  lemma {:induction false} FinishedForGood(l: Ledger, events: seq<Event>, id: int)
    requires id in l.rows && l.rows[id].progress == Hundred
    ensures id in Run(l, events).rows && Run(l, events).rows[id].progress == Hundred
    ensures RefundsOf(Run(l, events).refunds, id) == RefundsOf(l.refunds, id)
    decreases |events|
  {
    if events != [] {
      var e := events[0];
      if e.Polled? && Possible(l, e.round) && l.alive {
        IndexHolds(l.rows, e.round.found);
        var nulls := NullIds(l.rows, e.round.found);
        var fixed := if nulls != [] && e.round.nullOk then l.(rows := FailIds(l.rows, nulls)) else l;
        VisitsLeaveFinished(Poll(IndexOf(l.rows, e.round.found), fixed), e.round.visits, l.rows, e.round.found, id);
      }
      FinishedForGood(Next(l, e), events[1..], id);
    }
  }

  // ----- Balances -----

  function RefundedTo(refunds: seq<Refund>, user: int): int {
    if refunds == [] then 0
    else
      var r := refunds[|refunds| - 1];
      RefundedTo(refunds[..|refunds| - 1], user) + (if r.user == user then r.quota else 0)
  }

  /** What the balance would be without the refunds. */
  ghost predicate Balanced(opening: map<int, int>, l: Ledger) {
    && l.balances.Keys == opening.Keys
    && forall u :: u in opening ==> l.balances[u] == opening[u] + RefundedTo(l.refunds, u)
  }

  lemma HandleKeepsBalance(opening: map<int, int>, p: Poll, a: Answer)
    requires Balanced(opening, p.ledger)
    ensures Balanced(opening, Handle(p, a).ledger)
  {
    if p.ledger.alive && a.report.mjId in p.tasks {
      var entry := p.tasks[a.report.mjId];
      var copied := Copied(entry.task, Judged(entry.task, a.report, a.now));
      RefundKeepsBalance(opening, p.ledger, Entry(entry.id, copied.(progress := Hundred)), a);
    }
  }

  lemma RefundKeepsBalance(opening: map<int, int>, l: Ledger, entry: Entry, a: Answer)
    requires Balanced(opening, l)
    ensures Balanced(opening, Refunded(l, entry, a))
  {
    var after := Refunded(l, entry, a);
    if after.refunds != l.refunds {
      assert after.refunds[..|after.refunds| - 1] == l.refunds;
    }
  }

  lemma {:induction false} HandleAllKeepsBalance(opening: map<int, int>, p: Poll, answers: seq<Answer>)
    requires Balanced(opening, p.ledger)
    ensures Balanced(opening, HandleAll(p, answers).ledger)
    decreases |answers|
  {
    if answers != [] {
      HandleKeepsBalance(opening, p, answers[0]);
      HandleAllKeepsBalance(opening, Handle(p, answers[0]), answers[1..]);
    }
  }

  lemma {:induction false} VisitsKeepBalance(opening: map<int, int>, p: Poll, visits: seq<Visit>, rows: map<int, Task>, found: seq<int>)
    requires Balanced(opening, p.ledger)
    ensures Balanced(opening, VisitAll(p, visits, rows, found).ledger)
    decreases |visits|
  {
    if visits != [] {
      if p.ledger.alive && visits[0].Answering? {
        HandleAllKeepsBalance(opening, p, visits[0].answers);
      }
      VisitsKeepBalance(opening, VisitOne(p, visits[0], IdsOf(rows, found, visits[0].channel)), visits[1..], rows, found);
    }
  }

  /** Balances move by the recorded refunds and nothing else, in every run. */
  lemma {:induction false} RefundsAreAccounted(opening: map<int, int>, l: Ledger, events: seq<Event>)
    requires Balanced(opening, l)
    ensures Balanced(opening, Run(l, events))
    decreases |events|
  {
    if events != [] {
      var e := events[0];
      if e.Polled? && Possible(l, e.round) && l.alive {
        var nulls := NullIds(l.rows, e.round.found);
        var fixed := if nulls != [] && e.round.nullOk then l.(rows := FailIds(l.rows, nulls)) else l;
        VisitsKeepBalance(opening, Poll(IndexOf(l.rows, e.round.found), fixed), e.round.visits, l.rows, e.round.found);
      }
      RefundsAreAccounted(opening, Next(l, e), events[1..]);
    }
  }

  // ----- Refunded twice -----

  ghost predicate Refunds(task: Task, a: Answer) {
    task.progress != Hundred && task.quota > 0 && Cause(task, a) && a.cacheOk && a.creditOk
  }

  /**
   The same failing report twice in one poll refunds twice exactly when it
   gives a reason below 100%, or reports a late FAILURE at 100% with a reason
   other than the one-hour text.
   */
  lemma RepeatedReportRefundsTwiceIff(p: Poll, a: Answer)
    requires p.ledger.alive && a.report.mjId in p.tasks && Refunds(p.tasks[a.report.mjId].task, a)
    ensures
      var entry := p.tasks[a.report.mjId];
      var refund := Refund(entry.id, entry.task.user, entry.task.quota);
      HandleAll(p, [a, a]).ledger.refunds == (p.ledger.refunds + [refund]) + [refund] <==>
        ((a.report.progress != Hundred && a.report.failReason != "")
         || (a.report.progress == Hundred && a.report.status == Failure && TimedOut(entry.task, a.now)
             && a.report.failReason != TIMEOUT_REASON))
  {
    var entry := p.tasks[a.report.mjId];
    var once := Handle(p, a);
    FailsExactlyForCause(p, a);
    assert [a, a][1..] == [a] && [a][1..] == [];
    assert HandleAll(p, [a, a]) == HandleAll(once, [a]);
    assert HandleAll(once, [a]) == Handle(once, a);
    var failed := once.tasks[a.report.mjId];
    var judged := Judged(entry.task, a.report, a.now);
    assert failed == Entry(entry.id, Copied(entry.task, judged).(progress := Hundred));
    SecondReport(once, a, entry, judged);
  }

  lemma SecondReport(once: Poll, a: Answer, entry: Entry, judged: Report)
    requires once.ledger.alive && a.report.mjId in once.tasks && Refunds(entry.task, a)
    requires judged == Judged(entry.task, a.report, a.now)
    requires once.tasks[a.report.mjId] == Entry(entry.id, Copied(entry.task, judged).(progress := Hundred))
    ensures
      var refund := Refund(entry.id, entry.task.user, entry.task.quota);
      Handle(once, a).ledger.refunds == once.ledger.refunds + [refund] <==>
        ((a.report.progress != Hundred && a.report.failReason != "")
         || (a.report.progress == Hundred && a.report.status == Failure && TimedOut(entry.task, a.now)
             && a.report.failReason != TIMEOUT_REASON))
  {
    var failed := once.tasks[a.report.mjId].task;
    assert Judged(failed, a.report, a.now) == a.report;
    assert NeedsUpdate(failed, a.report) <==>
      a.report.progress != Hundred || a.report.status != judged.status || a.report.failReason != judged.failReason;
  }

  /** A refund whose save fails is given again by the next poll that brings the same report. */
  lemma FailedSaveRefundsAgain(l: Ledger, id: int, a: Answer, channel: int)
    requires l.alive && id in l.rows && l.rows[id].mjId == a.report.mjId != "" && Refunds(l.rows[id], a) && !a.updateOk
    ensures
      var poll := Polled(Round([id], true, [Answering(channel, [a])]));
      var refund := Refund(id, l.rows[id].user, l.rows[id].quota);
      Run(l, [poll, poll]).refunds == (l.refunds + [refund]) + [refund]
  {
    var r := Round([id], true, [Answering(channel, [a])]);
    OneFailedSave(l, id, a, channel);
    var next := PollOnce(l, r);
    OneFailedSave(next, id, a, channel);
    assert [Polled(r), Polled(r)][1..] == [Polled(r)] && [Polled(r)][1..] == [];
    assert Run(l, [Polled(r), Polled(r)]) == Run(next, [Polled(r)]) == PollOnce(next, r);
  }

  lemma OneFailedSave(l: Ledger, id: int, a: Answer, channel: int)
    requires l.alive && id in l.rows && l.rows[id].mjId == a.report.mjId != "" && Refunds(l.rows[id], a) && !a.updateOk
    ensures
      var r := Round([id], true, [Answering(channel, [a])]);
      Possible(l, r) && PollOnce(l, r).rows == l.rows && PollOnce(l, r).alive
      && PollOnce(l, r).refunds == l.refunds + [Refund(id, l.rows[id].user, l.rows[id].quota)]
  {
    var r := Round([id], true, [Answering(channel, [a])]);
    assert [id][..0] == [] && [id][1..] == [] && r.visits[1..] == [] && [a][1..] == [];
    assert IndexOf(l.rows, [id]) == map[a.report.mjId := Entry(id, l.rows[id])];
    assert NullIds(l.rows, [id]) == [];
    var start := Poll(IndexOf(l.rows, [id]), l);
    FailsExactlyForCause(start, a);
    assert HandleAll(start, [a]) == Handle(start, a);
    assert VisitAll(start, r.visits, l.rows, [id]) == Handle(start, a);
  }

  /** One report of a task the worker does not hold ends it: no later poll changes anything. */
  lemma UnknownReportEndsPolling(p: Poll, before: seq<Answer>, a: Answer, rest: seq<Answer>, events: seq<Event>)
    requires p.ledger.alive && HandleAll(p, before).ledger.alive && a.report.mjId !in HandleAll(p, before).tasks
    ensures
      var l := HandleAll(p, before + ([a] + rest)).ledger;
      && l == HandleAll(p, before).ledger.(alive := false)
      && Run(l, events).refunds == l.refunds && !Run(l, events).alive
      && forall id :: id in l.rows ==> id in Run(l, events).rows && Run(l, events).rows[id] == l.rows[id]
  {
    HandleConcat(p, before, [a] + rest);
    var stopped := Handle(HandleAll(p, before), a);
    assert ([a] + rest)[1..] == rest;
    DeadHandles(stopped, rest);
    DeadRun(stopped.ledger, events);
  }

  lemma {:induction false} HandleConcat(p: Poll, a: seq<Answer>, b: seq<Answer>)
    ensures HandleAll(p, a + b) == HandleAll(HandleAll(p, a), b)
    decreases |a|
  {
    if a == [] {
      assert a + b == b;
    } else {
      assert (a + b)[0] == a[0] && (a + b)[1..] == a[1..] + b;
      HandleConcat(Handle(p, a[0]), a[1..], b);
    }
  }

  lemma {:induction false} DeadHandles(p: Poll, answers: seq<Answer>)
    requires !p.ledger.alive
    ensures HandleAll(p, answers) == p
    decreases |answers|
  {
    if answers != [] {
      DeadHandles(p, answers[1..]);
    }
  }

  lemma {:induction false} DeadRun(l: Ledger, events: seq<Event>)
    requires !l.alive
    ensures Run(l, events).refunds == l.refunds && !Run(l, events).alive
    ensures forall id :: id in l.rows ==> id in Run(l, events).rows && Run(l, events).rows[id] == l.rows[id]
    decreases |events|
  {
    if events != [] {
      DeadRun(Next(l, events[0]), events[1..]);
    }
  }

  // ----- The worker -----

  /** The loop that sorts the unfinished tasks: those without a Midjourney id, and taskM. */
  method IndexTasks(rows: map<int, Task>, found: seq<int>) returns (nullTaskIds: seq<int>, tasks: map<string, Entry>)
    requires forall i :: 0 <= i < |found| ==> found[i] in rows
    ensures nullTaskIds == NullIds(rows, found) && tasks == IndexOf(rows, found)
  {
    nullTaskIds, tasks := [], map[];
    for i := 0 to |found|
      invariant tasks == IndexOf(rows, found[..i])
      invariant nullTaskIds + NullIds(rows, found[i..]) == NullIds(rows, found)
    {
      NextFound(rows, found, i, nullTaskIds);
      var task := rows[found[i]];
      if task.mjId == "" {
        nullTaskIds := nullTaskIds + [found[i]];
      } else {
        tasks := tasks[task.mjId := Entry(found[i], task)];
      }
    }
    assert found[..|found|] == found;
  }

  class Worker {
    var rows: map<int, Task>
    var balances: map<int, int>
    var alive: bool
    ghost var refunds: seq<Refund>
    /** taskM: the tasks of the poll under way, changed in place. */
    var tasks: map<string, Entry>

    ghost function State(): Ledger
      reads this
    {
      Ledger(rows, balances, refunds, alive)
    }

    ghost function Underway(): Poll
      reads this
    {
      Poll(tasks, State())
    }

    constructor (rows: map<int, Task>, balances: map<int, int>)
      ensures State() == Ledger(rows, balances, [], true) && tasks == map[]
    {
      this.rows := rows;
      this.balances := balances;
      alive := true;
      refunds := [];
      tasks := map[];
    }

    /** Everything after the answer of one channel has been parsed. */
    method MjTaskHandler(answers: seq<Answer>)
      requires alive
      modifies this
      ensures Underway() == HandleAll(old(Underway()), answers)
    {
      for i := 0 to |answers|
        invariant alive
        invariant HandleAll(Underway(), answers[i..]) == HandleAll(old(Underway()), answers)
      {
        ghost var was := Underway();
        assert answers[i..][0] == answers[i] && answers[i..][1..] == answers[i + 1..];
        HandleOne(answers[i]);
        assert Underway() == Handle(was, answers[i]);
        if !alive {
          DeadHandles(Underway(), answers[i + 1..]);
          return;
        }
      }
    }

    method HandleOne(a: Answer)
      requires alive
      modifies this
      ensures Underway() == Handle(old(Underway()), a)
    {
      if a.report.mjId !in tasks {
        alive := false;
        return;
      }
      var id, task := tasks[a.report.mjId].id, tasks[a.report.mjId].task;
      var report := a.report;
      if a.now - task.submitTime > TIMEOUT_MILLISECONDS && task.progress != Hundred {
        report := report.(failReason := TIMEOUT_REASON);
        report := report.(status := Failure);
      }
      if !NeedsUpdate(task, report) {
        return;
      }
      task := task.(code := 1);
      task := task.(progress := report.progress, promptEn := report.promptEn, state := report.state,
                    submitTime := report.submitTime, startTime := report.startTime, finishTime := report.finishTime,
                    imageUrl := report.imageUrl, status := report.status, failReason := report.failReason);
      if report.properties.Some? {
        task := task.(properties := report.properties.value);
      }
      if report.buttons.Some? {
        task := task.(buttons := report.buttons.value);
      }
      assert task == Copied(tasks[a.report.mjId].task, report);
      Settle(id, task, report, a);
    }

    /** The refund of a failed task, and the save of its row. */
    method Settle(id: int, copied: Task, report: Report, a: Answer)
      requires alive && a.report.mjId in tasks && tasks[a.report.mjId].id == id
      modifies this
      ensures Underway() == Written(old(Underway()), old(tasks[a.report.mjId]), copied, report, a)
    {
      var task := copied;
      if (task.progress != Hundred && report.failReason != "") || (task.progress == Hundred && task.status == Failure) {
        task := task.(progress := Hundred);
        if a.cacheOk {
          var quota := task.quota;
          if quota != 0 {
            IncreaseUserQuota(id, task.user, quota, a.creditOk);
          }
        }
        assert State() == Refunded(old(State()), Entry(id, task), a);
      }
      tasks := tasks[a.report.mjId := Entry(id, task)];
      if a.updateOk {
        rows := rows[id := task];
      }
    }

    method IncreaseUserQuota(id: int, user: int, quota: int, ok: bool)
      modifies this`balances, this`refunds
      ensures ok && quota >= 0 ==>
        && refunds == old(refunds) + [Refund(id, user, quota)]
        && balances == if user in old(balances) then old(balances)[user := old(balances)[user] + quota] else old(balances)
      ensures !ok || quota < 0 ==> refunds == old(refunds) && balances == old(balances)
    {
      if quota < 0 || !ok {
        return;
      }
      if user in balances {
        balances := balances[user := balances[user] + quota];
      }
      refunds := refunds + [Refund(id, user, quota)];
    }

    /** One turn of the endless loop: `round` holds what the database, the channels and the clock answer. */
    method UpdateMidjourneyTaskBulk(round: Round)
      requires alive && Possible(State(), round)
      modifies this
      ensures State() == PollOnce(old(State()), round)
    {
      var stored := rows;
      assert forall i :: 0 <= i < |round.found| ==> round.found[i] in round.found;
      var nullTaskIds;
      nullTaskIds, tasks := IndexTasks(rows, round.found);
      if |nullTaskIds| > 0 && round.nullOk {
        rows := FailIds(rows, nullTaskIds);
      }
      VisitChannels(round.visits, stored, round.found);
    }

    method VisitChannels(visits: seq<Visit>, stored: map<int, Task>, found: seq<int>)
      requires alive
      modifies this
      ensures Underway() == VisitAll(old(Underway()), visits, stored, found)
    {
      for i := 0 to |visits|
        invariant alive
        invariant VisitAll(Underway(), visits[i..], stored, found) == VisitAll(old(Underway()), visits, stored, found)
      {
        assert visits[i..][0] == visits[i] && visits[i..][1..] == visits[i + 1..];
        match visits[i] {
          case Gone(channel, reason, ok) =>
            if ok {
              rows := FailRows(rows, IdsOf(stored, found, channel), reason);
            }
          case Silent(_) =>
          case Answering(_, answers) =>
            MjTaskHandler(answers);
            if !alive {
              DeadVisits(Underway(), visits[i + 1..], stored, found);
              return;
            }
        }
      }
    }
  }

  lemma NextFound(rows: map<int, Task>, found: seq<int>, i: nat, nulls: seq<int>)
    requires i < |found| && found[i] in rows
    ensures
      var task := rows[found[i]];
      && IndexOf(rows, found[..i + 1]) ==
         (if task.mjId == "" then IndexOf(rows, found[..i]) else IndexOf(rows, found[..i])[task.mjId := Entry(found[i], task)])
      && (if task.mjId == "" then nulls + [found[i]] else nulls) + NullIds(rows, found[i + 1..])
         == nulls + NullIds(rows, found[i..])
  {
    assert found[..i + 1][..i] == found[..i] && found[i..][0] == found[i] && found[i..][1..] == found[i + 1..];
  }

  lemma {:induction false} DeadVisits(p: Poll, visits: seq<Visit>, rows: map<int, Task>, found: seq<int>)
    requires !p.ledger.alive
    ensures VisitAll(p, visits, rows, found) == p
    decreases |visits|
  {
    if visits != [] {
      DeadVisits(p, visits[1..], rows, found);
    }
  }
}
