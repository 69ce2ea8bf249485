/** Which tables a transaction can write. */
module Frames {
  import opened Protocol
  import opened Database
  import opened Queue
  import opened Submissions
  import opened Grading
  import opened Lifecycle

  predicate WritesRuns(op: Op) {
    op.EnqueueRun? || op.EndSnapshot? || op.LeaseGrade? || op.Commit? || op.SchedulePrivate? || op.RetryPrivate?
    || op.SyncFailed?
  }

  predicate WritesRepos(op: Op) {
    op.Request? || op.Rollout? || op.FailPermanently? || op.Record? || op.Close? || op.Extend? || op.Select?
    || op.Commit?
  }

  ghost predicate SameRuns(s: Db, s': Db) {
    s'.runs == s.runs
  }

  ghost predicate SameRepos(s: Db, s': Db) {
    s'.repos == s.repos
  }

  ghost predicate SameReceipts(s: Db, s': Db) {
    s'.events == s.events && s'.subs == s.subs
  }

  ghost predicate Frame(s: Db, op: Op, s': Db) {
    && (!WritesRuns(op) ==> SameRuns(s, s'))
    && (!WritesRepos(op) ==> SameRepos(s, s'))
    && (!op.Record? && !op.Select? && !op.Retain? ==> SameReceipts(s, s'))
    && (op.Retain? ==> s'.events == s.events)
  }

  ghost predicate OnlyTasks(s: Db, s': Db) {
    s' == s.(tasks := s'.tasks)
  }

  lemma HolderFrames(s: Db, k: Key, token: Id, owner: string, g: Grant, until: int)
    ensures OnlyTasks(s, Queue.Heartbeat(s, k, token, owner)) && OnlyTasks(s, Queue.Finish(s, g))
            && OnlyTasks(s, Queue.PollInvitation(s, g))
    ensures OnlyTasks(s, Queue.Fail(s, g)) && OnlyTasks(s, Queue.Postpone(s, g, until))
            && OnlyTasks(s, Queue.Defer(s, g, until))
  {
    hide Backoff, Holds;
  }

  lemma QueueFrames(s: Db, k: Key, priority: int, from: set<TaskStatus>)
    ensures OnlyTasks(s, Queue.ExpireExhausted(s)) && OnlyTasks(s, Queue.Retry(s, k)) && OnlyTasks(s, Reset(s, k, from))
    ensures OnlyTasks(s, Queue.Enqueue(s, k, priority))
  {
    hide Exhausted;
  }

  lemma FlagFrame(s: Db, p: Id)
    ensures FlagReview(s, p) == s.(repos := FlagReview(s, p).repos)
  {
  }

  lemma PermanentFrame(s: Db, g: Grant)
    ensures var s' := Queue.FailPermanently(s, g); SameRuns(s, s') && SameReceipts(s, s')
  {
    hide Live, FlagReview;
    var s1 := if Holds(s, g.key, g.token)
        then s.(tasks := s.tasks[g.key := s.tasks[g.key].(status := TaskStatus.Failed)]) else s;
    if g.key.kind == Snapshot && g.key.subject in s.subs {
      FlagFrame(s1, s.subs[g.key.subject].repo);
    }
  }

  lemma ScheduleFrame(s: Db, p: Id, picks: set<Id>)
    ensures OnlyTasks(s, ScheduleSnapshots(s, p, picks))
  {
    hide Obsolete, IsFinal;
  }

  lemma ReceiveFrame(s: Db, p: Id, sha: string, received: int, source: EventSource, event: Id, sub: Id)
    requires p in s.repos
    ensures SameRuns(s, Receive(s, p, sha, received, source, event, sub))
  {
    hide Eligible, RepeatsLatest, FlagReview;
    FlagFrame(Log(s, p, sha, received, source, event), p);
  }

  lemma RecordFrame(s: Db, p: Id, sha: string, received: int, source: EventSource, event: Id, sub: Id, picks: set<Id>)
    ensures SameRuns(s, Submissions.Record(s, p, sha, received, source, event, sub, picks))
  {
    hide Receive, ScheduleSnapshots, Delivered;
    if Recordable(s, p, sha, source) {
      var s1 := Receive(s, p, sha, received, source, event, sub);
      ReceiveFrame(s, p, sha, received, source, event, sub);
      ScheduleFrame(s1, p, picks);
    }
  }

  lemma FreezeFrame(s: Db, p: Id)
    requires p in s.repos
    ensures var s' := Freeze(s, p);
            && s' == s.(tasks := s'.tasks, repos := s'.repos)
            && s'.repos == s.repos[p := s.repos[p].(closed := true, final := Latest(s.subs, p))]
  {
    hide Latest, WorkOf, Revive;
  }

  /** What closing does besides queueing: it freezes the choice of a due repository. */
  lemma CloseFrame(s: Db, p: Id)
    ensures var s' := Submissions.Close(s, p);
            && s' == s.(tasks := s'.tasks, repos := s'.repos)
            && s'.repos == if p in s.repos && !s.repos[p].closed && Due(s, s.repos[p])
                           then s.repos[p := s.repos[p].(closed := true, final := Latest(s.subs, p))] else s.repos
  {
    hide Latest, Freeze, Reset, Queue.Enqueue;
    if p in s.repos && Due(s, s.repos[p]) {
      FreezeFrame(s, p);
      var s1 := if s.repos[p].closed then s else Freeze(s, p);
      QueueFrames(s1, Key(Lock, p), 100, {});
      QueueFrames(Queue.Enqueue(s1, Key(Lock, p), 100), Key(Lock, p), 100, {TaskStatus.Failed});
    }
  }

  lemma SelectFrame(s: Db, event: Id, id: Id)
    ensures SameRuns(s, Submissions.Select(s, event, id)) && Submissions.Select(s, event, id).events == s.events
  {
    hide MadeFrom;
  }

  lemma EnqueueRunFrame(s: Db, x: Id, regrade: bool, id: Id)
    ensures var s' := Grading.EnqueueRun(s, x, regrade, id); SameRepos(s, s') && SameReceipts(s, s')
  {
    hide MaxAttempt, HasPublicRun, RunSuperseded, CancelDisplaced, SupersedeCancelled, CanEnqueue;
  }

  /** At most one run and its task were added. */
  ghost predicate Inserted(s: Db, id: Id, s': Db) {
    && SameRepos(s, s') && SameReceipts(s, s') && s'.issued <= s.issued + {id}
    && (forall r :: r in s.runs && r != id ==> r in s'.runs && s'.runs[r] == s.runs[r])
    && s.tasks.Keys <= s'.tasks.Keys <= s.tasks.Keys + {Key(Grade, id)}
    && (forall k :: k in s.tasks ==> s'.tasks[k] == s.tasks[k])
    && (Key(Grade, id) in s'.tasks && Key(Grade, id) !in s.tasks ==> s'.tasks[Key(Grade, id)].attempts == 0)
  }

  lemma InsertedTables(s: Db, id: Id, s': Db)
    requires Inserted(s, id, s')
    ensures SameRepos(s, s') && SameReceipts(s, s')
  {
  }

  lemma InsertFrame(s: Db, x: Id, revision: Revision, attempt: nat, b: Id, id: Id)
    ensures Inserted(s, id, InsertPrivate(s, x, revision, attempt, b, id))
  {
    hide BaselineAdmitted;
  }

  lemma PrivateFrames(s: Db, p: Id, failed: Id, id: Id)
    ensures Inserted(s, id, Grading.SchedulePrivate(s, p, id))
    ensures Inserted(s, id, Grading.RetryPrivate(s, failed, id))
  {
    hide MaxAttempt, IsTop, InsertPrivate, PrivateReady;
    if exists b: Id :: PrivateReady(s, p, b) {
      ReadyRow(s, p);
      InsertFrame(s, s.repos[p].final.value, s.repos[p].gradingRevision, MaxAttempt(s.runs, s.repos[p].final.value) + 1,
                  ReadyBaseline(s, p), id);
    }
    if failed in s.runs && s.runs[failed].baseline.Some? {
      var run := s.runs[failed];
      InsertFrame(s, run.submission, run.revision, run.attempt + 1, run.baseline.value, id);
    }
  }

  lemma ReadyRow(s: Db, p: Id)
    requires exists b: Id :: PrivateReady(s, p, b)
    ensures p in s.repos && s.repos[p].final.Some?
  {
    var b: Id :| PrivateReady(s, p, b);
  }

  lemma WriteFrame(s: Db, t: Ticket)
    requires t.key in s.tasks && t.result.run in s.runs
    ensures var s' := Write(s, t); SameRepos(s, s') && SameReceipts(s, s')
  {
    hide WithResult;
  }

  lemma CommitFrame(s: Db, t: Ticket)
    ensures SameReceipts(s, Grading.Commit(s, t))
  {
    hide Write, FlagReview;
    if Decide(s, t) == Accepted {
      WriteFrame(s, t);
      if t.result.status == Invalidated && s.runs[t.result.run].submission in s.subs {
        FlagFrame(Write(s, t), s.subs[s.runs[t.result.run].submission].repo);
      }
    }
  }

  lemma ExtendFrame(s: Db, p: Id, d: int)
    ensures var s' := Submissions.Extend(s, p, d); SameRuns(s, s') && SameReceipts(s, s')
  {
  }

  lemma RolloutFrame(s: Db, p: Id, v: Revision)
    ensures var s' := RolloutTo(s, p, v); SameRuns(s, s') && SameReceipts(s, s')
  {
    hide Merged;
  }

  lemma RetainFrame(s: Db, x: Id, digest: string)
    ensures var s' := Submissions.Retain(s, x, digest); SameRuns(s, s') && SameRepos(s, s') && s'.events == s.events
  {
  }

  lemma SyncFrame(s: Db)
    ensures var s' := Grading.SyncFailed(s); SameRepos(s, s') && SameReceipts(s, s')
  {
  }

  lemma RequestFrame(s: Db, p: Id, e: Id, a: Id, v: Revision)
    ensures var s' := RequestRepo(s, p, e, a, v); SameRuns(s, s') && SameReceipts(s, s')
  {
  }

  lemma LeaseFrame(s: Db, w: Worker, k: Key, token: Id)
    requires k in s.tasks && k.subject in s.runs
    ensures var s' := Grading.LeaseGrade(s, w, k, token); SameRepos(s, s') && SameReceipts(s, s')
  {
    hide WorkerBusy, LeaseRow;
  }

  lemma ExaminedFrame(s: Db, w: Worker, k: Key, result: RunResult)
    ensures Examined(s, w, k, result) == s.(tickets := Examined(s, w, k, result).tickets)
  {
    hide Grading.Examine;
  }

  lemma GranteeFrame(s: Db, k: Key, owner: string, token: Id)
    requires k in s.tasks
    ensures var s' := Grantee(s, k, owner, token); SameRuns(s, s') && SameRepos(s, s') && SameReceipts(s, s')
  {
    hide LeaseRow;
  }

  lemma TasksOnly(s: Db, s': Db)
    requires OnlyTasks(s, s')
    ensures SameRuns(s, s') && SameRepos(s, s') && SameReceipts(s, s')
  {
  }

  /** Calls of a lease holder and resets. */
  predicate TaskCall(op: Op) {
    op.Heartbeat? || op.Finish? || op.PollInvitation? || op.Fail? || op.Postpone? || op.Defer? || op.ExpireExhausted?
    || op.Retry?
    || op.Reprovision? || op.Relock?
  }

  lemma TaskCalls(s: Db, op: Op)
    requires Enabled(s, op) && TaskCall(op)
    ensures OnlyTasks(s, Apply(s, op))
  {
    hide Queue.Enqueue, Queue.ExpireExhausted, Reset, Queue.Heartbeat, Queue.Finish, Queue.PollInvitation;
    hide Queue.Fail, Queue.Postpone, Queue.Defer, Queue.Retry;
    match op
    case Heartbeat(k, token, owner) => HolderFrames(s, k, token, owner, Grant(k, token, owner, 0), 0);
    case Finish(g) => HolderFrames(s, g.key, g.token, "", g, 0);
    case PollInvitation(g) => HolderFrames(s, g.key, g.token, "", g, 0);
    case Fail(g) => HolderFrames(s, g.key, g.token, "", g, 0);
    case Postpone(g, until) => HolderFrames(s, g.key, g.token, "", g, until);
    case Defer(g, until) => HolderFrames(s, g.key, g.token, "", g, until);
    case ExpireExhausted => QueueFrames(s, Key(Lock, 0), 0, {});
    case Retry(k) => QueueFrames(s, k, 0, {});
    case Reprovision(p) =>
      QueueFrames(s, Key(Provision, p), 10, {});
      QueueFrames(Queue.Enqueue(s, Key(Provision, p), 10), Key(Provision, p), 10, {TaskStatus.Failed});
    case Relock(p) => QueueFrames(s, Key(Lock, p), 0, {TaskStatus.Done, TaskStatus.Failed});
  }

  lemma LeaseRows(s: Db, op: Op)
    requires Enabled(s, op)
    ensures op.LeaseControl? ==> op.k in s.tasks
    ensures op.LeaseGrade? ==> op.k in s.tasks && op.k.subject in s.runs
  {
    hide Ready, Suits, EnrollmentBusy;
  }

  lemma FrameOfRuns(s: Db, op: Op)
    requires Enabled(s, op) && WritesRuns(op)
    ensures Frame(s, op, Apply(s, op))
  {
    hide Grading.EnqueueRun, CanEnqueue, Grading.LeaseGrade, Grading.Commit, Grading.SchedulePrivate;
    hide Grading.RetryPrivate, Grading.SyncFailed, FirstOf, GradeCandidates, Inserted;
    LeaseRows(s, op);
    match op
    case EnqueueRun(x, regrade, id) => EnqueueRunFrame(s, x, regrade, id);
    case EndSnapshot(g, id) => EnqueueRunFrame(s, g.key.subject, false, id);
    case LeaseGrade(w, _, _, k, token) => LeaseFrame(s, w, k, token);
    case Commit(t) => CommitFrame(s, t);
    case SchedulePrivate(p, id) => PrivateFrames(s, p, 0, id); InsertedTables(s, id, Apply(s, op));
    case RetryPrivate(failed, id) => PrivateFrames(s, 0, failed, id); InsertedTables(s, id, Apply(s, op));
    case SyncFailed => SyncFrame(s);
  }

  lemma FrameOfRows(s: Db, op: Op)
    requires Enabled(s, op) && !WritesRuns(op) && !TaskCall(op)
    ensures Frame(s, op, Apply(s, op))
  {
    hide Grantee, RequestRepo, RolloutTo, Queue.FailPermanently, Submissions.Record, ScheduleSnapshots;
    hide FillsSlots, Receive, Submissions.Close, Submissions.Extend, Submissions.Select, Submissions.Retain;
    hide Examined, FirstOf, Candidates, OnlyTasks;
    LeaseRows(s, op);
    match op
    case Tick(_) =>
    case Request(p, e, a, v) => RequestFrame(s, p, e, a, v);
    case Rollout(p, v) => RolloutFrame(s, p, v);
    case LeaseControl(_, _, k, owner, token) => GranteeFrame(s, k, owner, token);
    case FailPermanently(g) => PermanentFrame(s, g);
    case Record(p, sha, received, source, event, sub, picks) =>
      RecordFrame(s, p, sha, received, source, event, sub, picks);
    case Refill(p, picks) => ScheduleFrame(s, p, picks); TasksOnly(s, ScheduleSnapshots(s, p, picks));
    case Close(p) => CloseFrame(s, p);
    case Extend(p, d) => ExtendFrame(s, p, d);
    case Select(event, id) => SelectFrame(s, event, id);
    case Retain(x, digest) => RetainFrame(s, x, digest);
    case Examine(w, k, result) => ExaminedFrame(s, w, k, result);
  }

  /** No transaction writes a table outside its frame. */
  lemma FrameOf(s: Db, op: Op)
    requires Enabled(s, op)
    ensures Frame(s, op, Apply(s, op))
  {
    hide Enabled, Apply, SameRuns, SameRepos, SameReceipts, OnlyTasks;
    if WritesRuns(op) {
      FrameOfRuns(s, op);
    } else if TaskCall(op) {
      TaskCalls(s, op);
      TasksOnly(s, Apply(s, op));
    } else {
      FrameOfRows(s, op);
    }
  }

  // ---- one repository ----

  predicate SelectsIn(s: Db, op: Op, p: Id) {
    op.Select? && op.event in s.events && s.events[op.event].repo == p
  }

  predicate Freezes(s: Db, op: Op, p: Id) {
    op.Close? && op.p == p && p in s.repos && !s.repos[p].closed && Due(s, s.repos[p])
  }

  /** What a transaction can do to one repository row. */
  ghost predicate RepoFate(s: Db, op: Op, p: Id, r: Database.Repo, r': Database.Repo) {
    && (op.Rollout? && op.p == p ==> r' == r.(gradingRevision := Merged(r.revision, op.published)))
    && (!(op.Rollout? && op.p == p) ==> r'.gradingRevision == r.gradingRevision)
    && (Freezes(s, op, p) ==> r' == r.(closed := true, final := Latest(s.subs, p)))
    && (!Freezes(s, op, p) ==> r'.closed == r.closed)
    && (!Freezes(s, op, p) && !SelectsIn(s, op, p) ==> r'.final == r.final)
  }

  ghost predicate Fated(s: Db, op: Op, p: Id, s': Db) {
    p in s.repos && p in s'.repos && RepoFate(s, op, p, s.repos[p], s'.repos[p])
  }

  /** At most the review flag has changed. */
  ghost predicate Flagged(s: Db, s': Db) {
    && s'.repos.Keys == s.repos.Keys
    && forall p :: p in s.repos ==> s'.repos[p] == s.repos[p].(needsReview := s'.repos[p].needsReview)
  }

  lemma FlagOnly(s: Db, p: Id)
    ensures Flagged(s, FlagReview(s, p))
  {
  }

  lemma PermanentFlags(s: Db, g: Grant)
    ensures Flagged(s, Queue.FailPermanently(s, g))
  {
    hide Live, FlagReview;
    var s1 := if Holds(s, g.key, g.token)
        then s.(tasks := s.tasks[g.key := s.tasks[g.key].(status := TaskStatus.Failed)]) else s;
    if g.key.kind == Snapshot && g.key.subject in s.subs {
      FlagOnly(s1, s.subs[g.key.subject].repo);
    }
  }

  lemma CommitFlags(s: Db, t: Ticket)
    ensures Flagged(s, Grading.Commit(s, t))
  {
    hide Write, FlagReview;
    if Decide(s, t) == Accepted {
      WriteFrame(s, t);
      if t.result.status == Invalidated && s.runs[t.result.run].submission in s.subs {
        FlagOnly(Write(s, t), s.subs[s.runs[t.result.run].submission].repo);
      }
    }
  }

  lemma ReceiveFlags(s: Db, p: Id, sha: string, received: int, source: EventSource, event: Id, sub: Id)
    requires p in s.repos
    ensures Flagged(s, Receive(s, p, sha, received, source, event, sub))
  {
    hide Eligible, RepeatsLatest, FlagReview;
    FlagOnly(Log(s, p, sha, received, source, event), p);
  }

  lemma RecordFlags(s: Db, p: Id, sha: string, received: int, source: EventSource, event: Id, sub: Id, picks: set<Id>)
    ensures Flagged(s, Submissions.Record(s, p, sha, received, source, event, sub, picks))
  {
    hide Receive, ScheduleSnapshots, Delivered;
    if Recordable(s, p, sha, source) {
      ReceiveFlags(s, p, sha, received, source, event, sub);
      ScheduleFrame(Receive(s, p, sha, received, source, event, sub), p, picks);
    }
  }

  lemma SelectRepos(s: Db, event: Id, id: Id, p: Id)
    requires p in s.repos
    ensures var s' := Submissions.Select(s, event, id);
            && p in s'.repos && s'.repos[p] ==
               s.repos[p].(final := s'.repos[p].final, needsReview := s'.repos[p].needsReview)
            && (!(event in s.events && s.events[event].repo == p) ==> s'.repos[p] == s.repos[p])
  {
    hide MadeFrom;
  }

  lemma RowRepos(s: Db, p: Id, q: Id, d: int, v: Revision)
    requires p in s.repos
    ensures var s' := Submissions.Extend(s, q, d);
            p in s'.repos && s'.repos[p] == s.repos[p].(extension := s'.repos[p].extension)
    ensures var s' := RolloutTo(s, q, v);
            p in s'.repos && s'.repos[p] == if p == q
              then s.repos[p].(gradingRevision := Merged(s.repos[p].revision, v)) else s.repos[p]
  {
    hide Merged;
  }

  lemma RequestRepos(s: Db, p: Id, q: Id, e: Id, a: Id, v: Revision)
    requires p in s.repos && p != q
    ensures var s' := RequestRepo(s, q, e, a, v); p in s'.repos && s'.repos[p] == s.repos[p]
  {
  }

  lemma StepIs(s: Db, op: Op)
    requires Enabled(s, op)
    ensures op.Request? ==> Apply(s, op) == RequestRepo(s, op.p, op.enrollment, op.assignment, op.revision)
    ensures op.Rollout? ==> Apply(s, op) == RolloutTo(s, op.p, op.published)
    ensures op.FailPermanently? ==> Apply(s, op) == Queue.FailPermanently(s, op.g)
    ensures op.Record? ==>
              Apply(s, op) == Submissions.Record(s, op.p, op.sha, op.received, op.source, op.event, op.sub, op.picks)
    ensures op.Close? ==> Apply(s, op) == Submissions.Close(s, op.p)
    ensures op.Extend? ==> Apply(s, op) == Submissions.Extend(s, op.p, op.deadline)
    ensures op.Select? ==> Apply(s, op) == Submissions.Select(s, op.event, op.id)
    ensures op.Retain? ==> Apply(s, op) == Submissions.Retain(s, op.x, op.digest)
    ensures op.Commit? ==> Apply(s, op) == Grading.Commit(s, op.ticket)
  {
    hide RequestRepo, RolloutTo, Queue.FailPermanently, Submissions.Record, Submissions.Close;
    hide Submissions.Extend, Submissions.Select, Submissions.Retain, Grading.Commit, FillsSlots, FirstOf;
    hide Candidates, GradeCandidates, CanEnqueue;
  }

  /** Every transaction treats every repository row this way. */
  lemma RepoFateOf(s: Db, op: Op, p: Id)
    requires Enabled(s, op) && p in s.repos && (op.Request? ==> op.p != p)
    ensures Fated(s, op, p, Apply(s, op))
  {
    hide Enabled, Apply, RequestRepo, RolloutTo, Queue.FailPermanently, Submissions.Record, Submissions.Close;
    hide Submissions.Extend, Submissions.Select, Grading.Commit, Merged, Latest;
    StepIs(s, op);
    match op
    case Request(q, e, a, v) => RequestRepos(s, p, q, e, a, v);
    case Rollout(q, v) => RowRepos(s, p, q, 0, v);
    case FailPermanently(g) => PermanentFlags(s, g);
    case Record(q, sha, received, source, event, sub, picks) =>
      RecordFlags(s, q, sha, received, source, event, sub, picks);
    case Close(q) => CloseFrame(s, q);
    case Extend(q, d) => RowRepos(s, p, q, d, s.repos[p].revision);
    case Select(event, id) => SelectRepos(s, event, id, p);
    case Commit(t) => CommitFlags(s, t);
    case _ => FrameOf(s, op);
  }
}
