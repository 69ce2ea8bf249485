/** What one transaction can do to one task row. */
module Fate {
  import opened Wrappers
  import opened Protocol
  import opened Database
  import opened Queue
  import opened Submissions
  import opened Grading
  import opened Lifecycle
  import opened Invariant
  import opened Preservation
  import opened ControlSteps
  import opened Frames

  /** The call presents `token` for task `k`. */
  predicate Presents(op: Op, k: Key, token: Id) {
    match op
    case Heartbeat(j, t, _) => j == k && t == token
    case Finish(g) => g.key == k && g.token == token
    case PollInvitation(g) => g.key == k && g.token == token
    case Fail(g) => g.key == k && g.token == token
    case Postpone(g, _) => g.key == k && g.token == token
    case Defer(g, _) => g.key == k && g.token == token
    case FailPermanently(g) => g.key == k && g.token == token
    case Commit(t) => t.key == k && t.result.token == token
    case _ => false
  }

  /** Closing `p` gives its failed lock, or failed and cancelled work of the choice it freezes,
      another chance. */
  ghost predicate Reopens(s: Db, p: Id, k: Key, status: TaskStatus) {
    && p in s.repos && Due(s, s.repos[p])
    && (|| (k == Key(Lock, p) && status == TaskStatus.Failed)
        || (!s.repos[p].closed && Latest(s.subs, p).Some? && WorkOf(s, Latest(s.subs, p).value, k)
            && status in {TaskStatus.Failed, TaskStatus.Cancelled}))
  }

  /** The calls that queue an ended task `k` again, with a new retry budget. */
  ghost predicate Resets(s: Db, op: Op, k: Key, t: Task) {
    match op
    case Retry(j) => j == k && k.kind != Grade && t.status == TaskStatus.Failed
    case Reprovision(p) => k == Key(Provision, p) && t.status == TaskStatus.Failed
    case Relock(p) => k == Key(Lock, p) && t.status in {TaskStatus.Done, TaskStatus.Failed}
    case PollInvitation(g) =>
      g.key == k && k.kind == Provision && t.token == Some(g.token) && t.status == TaskStatus.Done
    case Close(p) => Reopens(s, p, k, t.status)
    case _ => false
  }

  function Leases(s: Db, op: Op, k: Key): int {
    match op
    case LeaseControl(_, _, j, _, _) => if j == k then 1 else 0
    case LeaseGrade(w, _, _, j, _) => if j == k && !WorkerBusy(s, w.id) then 1 else 0
    case _ => 0
  }

  function Defers(s: Db, op: Op, k: Key): int {
    if op.Defer? && op.g.key == k && Holds(s, k, op.g.token) then 1 else 0
  }

  predicate Active(t: Task) {
    t.status in {Pending, Leased}
  }

  /** Nothing a lease depends on has moved; priority and availability may have. */
  predicate LeaseUntouched(t: Task, t': Task) {
    t' == t.(priority := t'.priority, availableAt := t'.availableAt)
  }

  /** Tokens change only to fresh ones; a live lease moves only for its holder; attempts count
      leases less deferrals; an ended row comes back only by a reset of its own, and until then it
      keeps everything. */
  ghost predicate RowFate(s: Db, op: Op, k: Key, t: Task, t': Task) {
    && (t'.token == t.token || (t'.token.Some? && Fresh(s, t'.token.value)))
    && (Live(t, s.now) && t.token.Some? && !Presents(op, k, t.token.value) ==> LeaseUntouched(t, t'))
    && t'.attempts == (if Resets(s, op, k, t) then 0 else t.attempts + Leases(s, op, k) - Defers(s, op, k))
    && (!Active(t) && Active(t') <==> Resets(s, op, k, t))
    && (!Active(t) && !Resets(s, op, k, t) ==> LeaseUntouched(t, t'))
  }

  /** Where a new fetch comes from. */
  ghost predicate FetchedFor(s: Db, op: Op, x: Id, s': Db) {
    || op.Record? || op.Refill?
    || (op.Select? && op.event in s.events && s.events[op.event].repo in s.repos
        && InRepo(s', x, s.events[op.event].repo))
  }

  ghost predicate Fates(s: Db, op: Op)
    requires Enabled(s, op)
  {
    var s' := Apply(s, op);
    && (forall k :: k in s.tasks ==> k in s'.tasks && RowFate(s, op, k, s.tasks[k], s'.tasks[k]))
    && (forall k :: k in s'.tasks && k !in s.tasks ==>
          s'.tasks[k].attempts == 0 && (k.kind == Snapshot ==> FetchedFor(s, op, k.subject, s')))
  }

  // The row functions, one family at a time.

  /** A call that moves one row at most: only that row's fate is in question. */
  lemma OneRowFates(s: Db, op: Op, k: Key)
    requires Enabled(s, op)
    requires var s' := Apply(s, op);
             && s'.tasks.Keys == s.tasks.Keys
             && (forall j :: j in s.tasks && j != k ==> s'.tasks[j] == s.tasks[j])
             && (k in s.tasks ==> RowFate(s, op, k, s.tasks[k], s'.tasks[k]))
    requires forall j :: j != k ==> Leases(s, op, j) == 0 && Defers(s, op, j) == 0
    requires forall j :: j in s.tasks && j != k ==> !Resets(s, op, j, s.tasks[j])
    ensures Fates(s, op)
  {
    hide Apply, Enabled, Leases, Defers, Resets;
  }

  lemma FateOfHeartbeat(s: Db, op: Op)
    requires op.Heartbeat? && Enabled(s, op)
    ensures Fates(s, op)
  {
    hide Fates;
    OneRowFates(s, op, op.k);
  }

  lemma FateOfFinish(s: Db, op: Op)
    requires (op.Finish? || op.PollInvitation?) && Enabled(s, op)
    ensures Fates(s, op)
  {
    hide Fates;
    OneRowFates(s, op, op.g.key);
  }

  lemma FateOfPostponement(s: Db, op: Op)
    requires op.Postpone? && Enabled(s, op)
    ensures Fates(s, op)
  {
    hide Fates;
    OneRowFates(s, op, op.g.key);
  }

  lemma FateOfFailure(s: Db, op: Op)
    requires Fenced(s) && (op.Fail? || op.Defer?) && Enabled(s, op)
    ensures Fates(s, op)
  {
    hide Fates, Backoff;
    OneRowFates(s, op, op.g.key);
  }

  lemma FateOfPermanent(s: Db, op: Op)
    requires op.FailPermanently? && Enabled(s, op)
    ensures Fates(s, op)
  {
    hide Fates;
    OneRowFates(s, op, op.g.key);
  }

  lemma FateOfRetry(s: Db, op: Op)
    requires op.Retry? && Enabled(s, op)
    ensures Fates(s, op)
  {
    hide Fates;
    OneRowFates(s, op, op.k);
  }

  lemma FateOfRelock(s: Db, op: Op)
    requires op.Relock? && Enabled(s, op)
    ensures Fates(s, op)
  {
    hide Fates;
    OneRowFates(s, op, Key(Lock, op.p));
  }

  lemma FateOfReprovision(s: Db, op: Op)
    requires op.Reprovision? && Enabled(s, op)
    ensures Fates(s, op)
  {
    hide Reset, Queue.Enqueue;
    RequeueRows(s, Key(Provision, op.p), 10);
  }

  lemma FateOfExpiry(s: Db, op: Op)
    requires op.ExpireExhausted? && Enabled(s, op)
    ensures Fates(s, op)
  {
  }

  lemma FateOfLeases(s: Db, op: Op)
    requires Fenced(s) && Enabled(s, op) && (op.LeaseControl? || op.LeaseGrade?)
    ensures Fates(s, op)
  {
    hide WorkerBusy, EnrollmentBusy, Suits, RunInEnrollment, InEnrollment;
  }

  lemma FateOfBystanders(s: Db, op: Op)
    requires Enabled(s, op)
    requires op.Tick? || op.Rollout? || op.Extend? || op.Retain? || op.Examine? || op.SyncFailed?
    ensures Fates(s, op)
  {
    hide Merged, Grading.Examine, Fates;
    SameTasksFates(s, op);
  }

  lemma SameTasksFates(s: Db, op: Op)
    requires Enabled(s, op) && Apply(s, op).tasks == s.tasks
    requires forall k :: Leases(s, op, k) == 0 && Defers(s, op, k) == 0
    requires forall k :: k in s.tasks ==> !Resets(s, op, k, s.tasks[k])
    ensures Fates(s, op)
  {
    hide Apply, Enabled, Leases, Defers, Resets;
  }

  lemma FateOfRequest(s: Db, op: Op)
    requires Enabled(s, op) && op.Request?
    ensures Fates(s, op)
  {
    hide Merged;
  }

  /** A selection queues at most the fetch of the chosen submission. */
  lemma SelectRows(s: Db, event: Id, id: Id)
    requires Base(s)
    ensures var s' := Submissions.Select(s, event, id);
            && s.tasks.Keys <= s'.tasks.Keys
            && (forall k :: k in s.tasks ==> s'.tasks[k] == s.tasks[k])
            && (forall k :: k in s'.tasks && k !in s.tasks ==>
                  && s'.tasks[k].attempts == 0 && event in s.events && s.events[event].repo in s.repos
                  && InRepo(s', k.subject, s.events[event].repo))
  {
    hide Base, MadeFrom;
    if event in s.events && exists x: Id :: MadeFrom(s, event, x) {
      MadeRow(s, event, Made(s, event));
    }
  }

  lemma MadeRow(s: Db, event: Id, x: Id)
    requires Base(s) && MadeFrom(s, event, x)
    ensures event in s.events && InRepo(s, x, s.events[event].repo)
  {
    hide Base;
    EventOf(s, x);
  }

  lemma FateOfSelect(s: Db, op: Op)
    requires Base(s) && Enabled(s, op) && op.Select?
    ensures Fates(s, op)
  {
    hide Base, Submissions.Select, InRepo;
    SelectRows(s, op.event, op.id);
  }

  lemma FateOfSchedule(s: Db, p: Id, picks: set<Id>)
    requires FillsSlots(s, p, picks)
    ensures var s' := ScheduleSnapshots(s, p, picks);
            && (forall k :: k in s.tasks ==>
                  k in s'.tasks && RowFate(s, Op.Refill(p, picks), k, s.tasks[k], s'.tasks[k]))
            && (forall k :: k in s'.tasks && k !in s.tasks ==> s'.tasks[k].attempts == 0)
  {
    hide Latest, Wanted, InEnrollment, FillsSlots;
  }

  /** Freezing a choice moves the rows of its work and no others. */
  lemma FreezeRows(s: Db, p: Id)
    requires p in s.repos
    ensures var s' := Freeze(s, p);
            && s'.tasks.Keys == s.tasks.Keys && s'.now == s.now
            && forall k :: k in s.tasks ==>
                 s'.tasks[k] == if Latest(s.subs, p).Some? && WorkOf(s, Latest(s.subs, p).value, k)
                                then Revive(s.tasks[k], s.now) else s.tasks[k]
  {
    hide Latest, Revive;
  }

  function Requeued(t: Task, now: int): Task {
    t.(status := Pending, attempts := 0, availableAt := now)
  }

  /** Queueing a task again if it failed: only that row moves. */
  lemma RequeueRows(s: Db, j: Key, priority: int)
    ensures var s' := Reset(Queue.Enqueue(s, j, priority), j, {TaskStatus.Failed});
            && s'.tasks.Keys == s.tasks.Keys + {j}
            && (forall k :: k in s.tasks && k != j ==> s'.tasks[k] == s.tasks[k])
            && (j in s.tasks ==>
                  s'.tasks[j] == if s.tasks[j].status == TaskStatus.Failed then Requeued(s.tasks[j], s.now)
                  else s.tasks[j])
            && (j !in s.tasks ==> s'.tasks[j].attempts == 0)
  {
    var s1 := Queue.Enqueue(s, j, priority);
    assert forall k :: k in s.tasks ==> s1.tasks[k] == s.tasks[k];
    assert j !in s.tasks ==> s1.tasks[j].status == Pending && s1.tasks[j].attempts == 0;
  }

  /** What closing does to one row. */
  ghost predicate ClosedRow(s: Db, p: Id, k: Key, t: Task, t': Task) {
    t' == if !Reopens(s, p, k, t.status) then t.(priority := t'.priority, availableAt := t'.availableAt)
          else Requeued(t, s.now).(priority := t'.priority)
  }

  lemma CloseRows(s: Db, p: Id)
    ensures var s' := Submissions.Close(s, p);
            && s.tasks.Keys <= s'.tasks.Keys <= s.tasks.Keys + {Key(Lock, p)}
            && (forall k :: k in s.tasks ==> ClosedRow(s, p, k, s.tasks[k], s'.tasks[k]))
            && (forall k :: k in s'.tasks && k !in s.tasks ==> s'.tasks[k].attempts == 0)
  {
    hide Freeze, Reset, Queue.Enqueue, Latest;
    if p in s.repos && Due(s, s.repos[p]) {
      var s1 := if s.repos[p].closed then s else Freeze(s, p);
      FreezeRows(s, p);
      RequeueRows(s1, Key(Lock, p), 100);
    }
  }

  lemma FateOfClose(s: Db, p: Id)
    ensures Fates(s, Op.Close(p))
  {
    hide Submissions.Close, WorkOf, Latest;
    CloseRows(s, p);
  }

  /** Writing a result ends the presented lease and touches no other row. */
  ghost predicate WroteRow(s: Db, t: Ticket, s': Db) {
    && s.tasks.Keys <= s'.tasks.Keys
    && (forall k :: k in s.tasks ==>
          s'.tasks[k] == s.tasks[k] || (k == t.key && s.tasks[k].token == Some(t.result.token)
                                        && s.tasks[k].status == Leased
              && s'.tasks[k] == s.tasks[k].(status := Done)))
    && (forall k :: k in s'.tasks && k !in s.tasks ==> s'.tasks[k].attempts == 0 && k.kind == Publish)
  }

  lemma WriteRow(s: Db, t: Ticket)
    requires t.key in s.tasks && t.result.run in s.runs
    requires s.tasks[t.key].token == Some(t.result.token) && s.tasks[t.key].status == Leased
    ensures WroteRow(s, t, Write(s, t))
  {
    hide WithResult;
  }

  lemma CommitRow(s: Db, t: Ticket)
    ensures WroteRow(s, t, Grading.Commit(s, t))
  {
    hide Write;
    if Decide(s, t) == Accepted {
      WriteRow(s, t);
    }
  }

  lemma FateOfCommit(s: Db, t: Ticket)
    requires t in s.tickets
    ensures Fates(s, Op.Commit(t))
  {
    hide Grading.Commit;
    CommitRow(s, t);
  }

  lemma EnqueueRows(s: Db, x: Id, regrade: bool, id: Id)
    ensures var s' := Grading.EnqueueRun(s, x, regrade, id);
            && s.tasks.Keys <= s'.tasks.Keys <= s.tasks.Keys + {Key(Grade, id)}
            && (forall k :: k in s.tasks ==>
                  s'.tasks[k] == s.tasks[k] || (s.tasks[k].status == Pending
                                                && s'.tasks[k] == s.tasks[k].(status := Cancelled)))
            && (Key(Grade, id) in s'.tasks && Key(Grade, id) !in s.tasks ==> s'.tasks[Key(Grade, id)].attempts == 0)
  {
    hide MaxAttempt, HasPublicRun, RunSuperseded, SupersedeCancelled;
  }

  lemma FateOfRuns(s: Db, op: Op)
    requires Enabled(s, op) && (op.EnqueueRun? || op.EndSnapshot?)
    ensures Fates(s, op)
  {
    hide Grading.EnqueueRun;
    if op.EnqueueRun? {
      EnqueueRows(s, op.x, op.regrade, op.id);
    } else {
      EnqueueRows(s, op.g.key.subject, false, op.id);
    }
  }

  lemma InsertedFates(s: Db, op: Op)
    requires Enabled(s, op) && (op.SchedulePrivate? || op.RetryPrivate?) && Inserted(s, op.id, Apply(s, op))
    ensures Fates(s, op)
  {
    hide Enabled, Apply;
  }

  lemma FateOfPrivate(s: Db, op: Op)
    requires Enabled(s, op) && (op.SchedulePrivate? || op.RetryPrivate?)
    ensures Fates(s, op)
  {
    hide Grading.SchedulePrivate, Grading.RetryPrivate, Inserted, Fates;
    PrivateFrames(s, if op.SchedulePrivate? then op.p else 0, if op.RetryPrivate? then op.failed else 0, op.id);
    InsertedFates(s, op);
  }

  lemma FateOfRecord(s: Db, op: Op)
    requires op.Record? && Enabled(s, op)
    ensures Fates(s, op)
  {
    hide Receive, ScheduleSnapshots, FillsSlots, Delivered;
    if Recordable(s, op.p, op.sha, op.source) {
      var s1 := Receive(s, op.p, op.sha, op.received, op.source, op.event, op.sub);
      ReceiveTasks(s, op.p, op.sha, op.received, op.source, op.event, op.sub);
      if s1.subs != s.subs {
        FateOfSchedule(s1, op.p, op.picks);
      }
    }
  }

  lemma ReceiveTasks(s: Db, p: Id, sha: string, received: int, source: EventSource, event: Id, sub: Id)
    requires p in s.repos
    ensures var s' := Receive(s, p, sha, received, source, event, sub);
            s'.tasks == s.tasks && s'.now == s.now && s.issued <= s'.issued
  {
    hide RepeatsLatest, Eligible;
  }

  lemma FateOfRefill(s: Db, op: Op)
    requires op.Refill? && Enabled(s, op)
    ensures Fates(s, op)
  {
    hide ScheduleSnapshots, FillsSlots, LeaseUntouched;
    FateOfSchedule(s, op.p, op.picks);
  }

  /** Every transaction treats every task row this way. */
  lemma FateOfAll(s: Db, op: Op)
    requires Inv(s) && Enabled(s, op)
    ensures Fates(s, op)
  {
    hide Fates, Enabled, Apply, Base, References, Exclusive, RunsFollowTasks, Scores, Baselines, Tickets, Closure;
    hide PrivateRuns, Attempts, Receipts, OncePerEvent, Snapshots, Fenced;
    match op
    case Request(_, _, _, _) => FateOfRequest(s, op);
    case Heartbeat(_, _, _) => FateOfHeartbeat(s, op);
    case Finish(_) => FateOfFinish(s, op);
    case PollInvitation(_) => FateOfFinish(s, op);
    case Postpone(_, _) => FateOfPostponement(s, op);
    case Fail(_) => FateOfFailure(s, op);
    case Defer(_, _) => FateOfFailure(s, op);
    case FailPermanently(_) => FateOfPermanent(s, op);
    case Retry(_) => FateOfRetry(s, op);
    case Relock(_) => FateOfRelock(s, op);
    case Reprovision(_) => FateOfReprovision(s, op);
    case ExpireExhausted => FateOfExpiry(s, op);
    case LeaseControl(_, _, _, _, _) => FateOfLeases(s, op);
    case LeaseGrade(_, _, _, _, _) => FateOfLeases(s, op);
    case Select(_, _) => Open(s); FateOfSelect(s, op);
    case Record(_, _, _, _, _, _, _) => FateOfRecord(s, op);
    case Refill(_, _) => FateOfRefill(s, op);
    case Close(p) => FateOfClose(s, p);
    case Commit(t) => CommitEnabled(s, t); FateOfCommit(s, t);
    case EnqueueRun(_, _, _) => FateOfRuns(s, op);
    case EndSnapshot(_, _) => FateOfRuns(s, op);
    case SchedulePrivate(_, _) => FateOfPrivate(s, op);
    case RetryPrivate(_, _) => FateOfPrivate(s, op);
    case _ => FateOfBystanders(s, op);
  }

  lemma CommitEnabled(s: Db, t: Ticket)
    requires Enabled(s, Op.Commit(t))
    ensures t in s.tickets
  {
  }
}
