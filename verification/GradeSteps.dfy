/** Closure and grading transactions keep the invariant. */
module GradeSteps {
  import opened Wrappers
  import opened Protocol
  import opened Database
  import opened Queue
  import opened Submissions
  import opened Grading
  import opened Invariant
  import opened Preservation
  import opened ControlSteps

  lemma SameRuns(s: Db, s': Db)
    requires Scores(s) && Baselines(s) && Attempts(s) && Tickets(s) && s'.runs == s.runs && s'.tickets == s.tickets
    ensures Scores(s') && Baselines(s') && Attempts(s') && Tickets(s')
  {
  }

  // ---- exhausted leases ----

  lemma ExpireRows(s: Db)
    requires Fenced(s)
    ensures var s' := Queue.ExpireExhausted(s); Fenced(s') && RowsKept(s, s') && NoNewLease(s, s') && Extends(s, s')
  {
  }

  lemma ExpireBase(s: Db)
    requires Base(s)
    ensures Base(Queue.ExpireExhausted(s))
  {
    hide Base, References;
    BaseReferences(s);
    ExpireReferences(s);
    KeepBase(s, Queue.ExpireExhausted(s));
  }

  lemma ExpireReferences(s: Db)
    requires References(s)
    ensures References(Queue.ExpireExhausted(s))
  {
  }

  lemma ExpireRuns(s: Db)
    requires RunsFollowTasks(s)
    ensures RunsFollowTasks(Queue.ExpireExhausted(s))
  {
  }

  lemma ExpirePrivate(s: Db)
    requires PrivateRuns(s)
    ensures PrivateRuns(Queue.ExpireExhausted(s))
  {
    var s' := Queue.ExpireExhausted(s);
    assert forall r :: GaveUp(s, r) ==> GaveUp(s', r);
    assert forall x :: RepoClosed(s, x) ==> RepoClosed(s', x);
  }

  lemma ExpireKeeps(s: Db)
    requires Inv(s)
    ensures Kept(s, Queue.ExpireExhausted(s))
  {
    hide *;
    var s' := Queue.ExpireExhausted(s);
    Open(s);
    ExpireBase(s);
    BaseReferences(s');
    ExpireRows(s);
    KeepExclusive(s, s');
    ExpireRuns(s);
    ExpirePrivate(s);
    ExpireShape(s);
    SameRuns(s, s');
    KeepSnapshotRows(s, s');
    Assemble(s, s');
  }

  lemma ExpireShape(s: Db)
    ensures var s' := Queue.ExpireExhausted(s); s'.runs == s.runs && s'.tickets == s.tickets && NoneDone(s, s')
  {
  }

  /** No snapshot task is finished and no snapshot lease reaches its end. */
  ghost predicate NoneDone(s: Db, s': Db) {
    && s'.processed == s.processed
    && forall k :: k in s'.tasks && k.kind == Snapshot && s'.tasks[k].status == Done ==>
         k in s.tasks && s.tasks[k].status == Done
  }

  lemma KeepSnapshotRows(s: Db, s': Db)
    requires Snapshots(s) && Extends(s, s') && NoneDone(s, s')
    ensures Snapshots(s')
  {
    KeepSnapshots(s, s');
  }

  // ---- closure ----

  lemma CloseRepoBase(s: Db, p: Id, final: Option<Id>)
    requires Base(s) && p in s.repos && !s.repos[p].closed && Due(s, s.repos[p])
    requires final.Some? ==> InRepo(s, final.value, p)
    ensures var s' := CloseRepo(s, p, final); Base(s') && Extends(s, s') && Bystander(s, s') && SameHistory(s, s')
  {
    hide References, Closure, Receipts, OncePerEvent, Extends;
    CloseRepoReferences(s, p, final);
    CloseRepoClosure(s, p, final);
    CloseRepoReceipts(s, p, final);
    CloseRepoExtends(s, p, final);
  }

  lemma CloseRepoReferences(s: Db, p: Id, final: Option<Id>)
    requires References(s) && p in s.repos
    ensures References(CloseRepo(s, p, final))
  {
  }

  lemma CloseRepoClosure(s: Db, p: Id, final: Option<Id>)
    requires Closure(s) && p in s.repos && Due(s, s.repos[p])
    requires final.Some? ==> InRepo(s, final.value, p)
    ensures Closure(CloseRepo(s, p, final))
  {
  }

  lemma CloseRepoReceipts(s: Db, p: Id, final: Option<Id>)
    requires References(s) && Receipts(s) && p in s.repos && !s.repos[p].closed && References(CloseRepo(s, p, final))
    ensures Receipts(CloseRepo(s, p, final))
  {
  }

  lemma CloseRepoExtends(s: Db, p: Id, final: Option<Id>)
    requires p in s.repos && !s.repos[p].closed && Due(s, s.repos[p])
    ensures Extends(s, CloseRepo(s, p, final))
  {
  }

  lemma ReviveRows(s: Db, x: Id)
    requires Fenced(s)
    ensures var s' := ReviveWork(s, x); Fenced(s') && NoNewLease(s, s') && Extends(s, s') && NoneDone(s, s')
  {
    var s' := ReviveWork(s, x);
    assert RowsKept(s, s');
  }

  lemma ReviveBase(s: Db, x: Id)
    requires Base(s)
    ensures Base(ReviveWork(s, x))
  {
    hide Base, References;
    BaseReferences(s);
    ReviveReferences(s, x);
    KeepBase(s, ReviveWork(s, x));
  }

  lemma ReviveReferences(s: Db, x: Id)
    requires References(s)
    ensures References(ReviveWork(s, x))
  {
  }

  lemma ReviveRuns(s: Db, x: Id)
    requires RunsFollowTasks(s)
    ensures RunsFollowTasks(ReviveWork(s, x))
  {
  }

  ghost predicate OnlyPublic(s: Db, x: Id) {
    forall r :: r in s.runs && s.runs[r].submission == x ==> s.runs[r].baseline.None?
  }

  lemma RevivePrivate(s: Db, x: Id)
    requires PrivateRuns(s) && OnlyPublic(s, x)
    ensures PrivateRuns(ReviveWork(s, x))
  {
    var s' := ReviveWork(s, x);
    assert forall r :: r in s.runs && s.runs[r].baseline.Some? && GaveUp(s, r) ==> GaveUp(s', r);
    assert forall y :: RepoClosed(s, y) ==> RepoClosed(s', y);
  }

  lemma ReviveKeeps(s: Db, x: Id)
    requires Inv(s) && OnlyPublic(s, x)
    ensures Kept(s, ReviveWork(s, x))
  {
    hide *;
    var s' := ReviveWork(s, x);
    Open(s);
    ReviveBase(s, x);
    BaseReferences(s');
    ReviveRows(s, x);
    KeepExclusive(s, s');
    ReviveRuns(s, x);
    RevivePrivate(s, x);
    ReviveShape(s, x);
    SameRuns(s, s');
    KeepSnapshotRows(s, s');
    Assemble(s, s');
  }

  lemma ReviveShape(s: Db, x: Id)
    ensures var s' := ReviveWork(s, x); s'.runs == s.runs && s'.tickets == s.tickets
  {
  }

  /** Before its repository closes, a submission has only public runs. */
  lemma OpenIsPublic(s: Db, p: Id, x: Id)
    requires PrivateRuns(s) && p in s.repos && !s.repos[p].closed && InRepo(s, x, p)
    ensures OnlyPublic(CloseRepo(s, p, Some(x)), x)
  {
  }

  lemma FreezeKeeps(s: Db, p: Id)
    requires Inv(s) && p in s.repos && !s.repos[p].closed && Due(s, s.repos[p])
    ensures Kept(s, Freeze(s, p))
  {
    hide Inv, Kept, Base, Fenced, PrivateRuns, CloseRepo, ReviveWork, Latest, OnlyPublic, Extends, Bystander;
    var final := Latest(s.subs, p);
    var s1 := CloseRepo(s, p, final);
    Open(s);
    CloseRepoBase(s, p, final);
    BystanderKeeps(s, s1);
    if final.Some? {
      KeptInv(s, s1);
      OpenIsPublic(s, p, final.value);
      ReviveKeeps(s1, final.value);
      ThenKept(s, s1, Freeze(s, p));
    }
  }

  lemma CloseKeeps(s: Db, p: Id)
    requires Inv(s)
    ensures Kept(s, Submissions.Close(s, p))
  {
    hide Inv, Kept, Freeze, Reset, Queue.Enqueue, Fenced;
    Open(s);
    SameState(s);
    TaskStepKeeps(s, s);
    if p in s.repos && Due(s, s.repos[p]) {
      var s1 := if s.repos[p].closed then s else Freeze(s, p);
      if !s.repos[p].closed {
        FreezeKeeps(s, p);
      }
      KeptInv(s, s1);
      RequeueKeeps(s1, Key(Lock, p), 100);
      ThenKept(s, s1, Submissions.Close(s, p));
    }
  }

  // ---- leasing a run ----

  lemma LeaseableRun(s: Db, k: Key)
    requires RunsFollowTasks(s) && PrivateRuns(s) && k in s.tasks && k.kind == Grade && Ready(s.tasks[k], s.now)
             && k.subject in s.runs
    ensures s.runs[k.subject].result.None?
    ensures s.runs[k.subject].baseline.Some? ==> !RetryableStatus(s.runs[k.subject].status)
  {
    assert k == Key(Grade, k.subject);
  }

  /** The row changes of a grade lease. */
  function Started(s: Db, k: Key, worker: string, token: Id): Db
    requires k in s.tasks && k.subject in s.runs
  {
    Grantee(s, k, worker, token).(runs := s.runs[k.subject := s.runs[k.subject].(status := Running)])
  }

  lemma StartedBase(s: Db, k: Key, worker: string, token: Id)
    requires Base(s) && k in s.tasks && k.subject in s.runs
    ensures Base(Started(s, k, worker, token))
  {
    hide Base, References;
    BaseReferences(s);
    StartedReferences(s, k, worker, token);
    KeepBase(s, Started(s, k, worker, token));
  }

  lemma StartedReferences(s: Db, k: Key, worker: string, token: Id)
    requires References(s) && k in s.tasks && k.subject in s.runs
    ensures References(Started(s, k, worker, token))
  {
  }

  lemma StartedRows(s: Db, k: Key, worker: string, token: Id)
    requires Fenced(s) && k in s.tasks && k.kind == Grade && k.subject in s.runs && Ready(s.tasks[k], s.now)
             && Fresh(s, token)
    ensures var s' := Started(s, k, worker, token); Fenced(s') && Extends(s, s') && NoneDone(s, s')
  {
    GranteeFenced(s, k, worker, token);
    GranteeExtends(s, k, worker, token);
  }

  lemma StartedRuns(s: Db, k: Key, worker: string, token: Id)
    requires RunsFollowTasks(s) && k in s.tasks && k.kind == Grade && k.subject in s.runs && Ready(s.tasks[k], s.now)
    requires s.runs[k.subject].result.None?
    ensures RunsFollowTasks(Started(s, k, worker, token))
  {
    assert k == Key(Grade, k.subject);
  }

  lemma StartedColumns(s: Db, k: Key, worker: string, token: Id)
    requires Scores(s) && Baselines(s) && Attempts(s) && k in s.tasks && k.subject in s.runs
             && s.runs[k.subject].result.None?
    ensures var s' := Started(s, k, worker, token); Scores(s') && Baselines(s') && Attempts(s')
  {
    var s' := Started(s, k, worker, token);
    assert forall x, n :: HasAttempt(s.runs, x, n) ==> HasAttempt(s'.runs, x, n) by {
      forall x, n | HasAttempt(s.runs, x, n) ensures HasAttempt(s'.runs, x, n) {
        var q :| q in s.runs && s.runs[q].submission == x && s.runs[q].attempt == n;
        assert q in s'.runs && s'.runs[q].submission == x && s'.runs[q].attempt == n;
      }
    }
  }

  lemma StartedTickets(s: Db, k: Key, worker: string, token: Id)
    requires Tickets(s) && k in s.tasks && k.subject in s.runs
    ensures Tickets(Started(s, k, worker, token))
  {
  }

  lemma StartedPrivate(s: Db, k: Key, worker: string, token: Id)
    requires PrivateRuns(s) && k in s.tasks && k.kind == Grade && k.subject in s.runs
             && s.tasks[k].status != TaskStatus.Failed
    requires s.runs[k.subject].baseline.Some? ==> !RetryableStatus(s.runs[k.subject].status)
    ensures PrivateRuns(Started(s, k, worker, token))
  {
    var s' := Started(s, k, worker, token);
    assert forall r :: GaveUp(s, r) ==> GaveUp(s', r);
    assert forall x :: RepoClosed(s, x) ==> RepoClosed(s', x);
    assert forall q, r :: Precedes(s'.runs, q, r) ==> Precedes(s.runs, q, r);
  }

  lemma NoConflict(s: Db, j: Key, k: Key, worker: string)
    requires References(s) && LiveGrade(s, j) && k.subject in s.runs
    requires !WorkerBusy(s, worker) && !EnrollmentBusy(s, EnrollmentOf(s, k.subject))
    ensures s.tasks[j].owner != worker && j.subject in s.runs
            && EnrollmentOf(s, j.subject) != EnrollmentOf(s, k.subject)
  {
    assert RunInEnrollment(s, j.subject, EnrollmentOf(s, j.subject));
  }

  lemma StartedExclusive(s: Db, k: Key, worker: string, token: Id)
    requires References(s) && Exclusive(s) && k in s.tasks && k.kind == Grade && k.subject in s.runs
    requires References(Started(s, k, worker, token))
    requires !WorkerBusy(s, worker) && !EnrollmentBusy(s, EnrollmentOf(s, k.subject))
    ensures Exclusive(Started(s, k, worker, token))
  {
    hide WorkerBusy, EnrollmentBusy;
    var s' := Started(s, k, worker, token);
    forall j | LiveGrade(s, j)
      ensures s.tasks[j].owner != worker && EnrollmentOf(s, j.subject) != EnrollmentOf(s, k.subject)
    {
      NoConflict(s, j, k, worker);
    }
    forall i, j | LiveGrade(s', i) && LiveGrade(s', j) &&
                  (s'.tasks[i].owner == s'.tasks[j].owner || EnrollmentOf(s', i.subject) == EnrollmentOf(s', j.subject))
      ensures i == j
    {
      assert i != k ==> LiveGrade(s, i);
      assert j != k ==> LiveGrade(s, j);
    }
  }

  lemma LeaseGradeKeeps(s: Db, w: Worker, k: Key, token: Id)
    requires Inv(s) && Fresh(s, token)
    requires k in s.tasks && k.kind == Grade && k.subject in s.runs && Ready(s.tasks[k], s.now)
    requires RunInRows(s, k.subject) && !EnrollmentBusy(s, EnrollmentOf(s, k.subject))
    ensures Kept(s, Grading.LeaseGrade(s, w, k, token))
  {
    hide *;
    Open(s);
    LeaseGradeIs(s, w, k, token);
    if WorkerBusy(s, w.id) {
      SameState(s);
      TaskStepKeeps(s, s);
    } else {
      var s' := Started(s, k, w.id, token);
      LeaseableRun(s, k);
      ReadyStatus(s, k);
      StartedBase(s, k, w.id, token);
      BaseReferences(s');
      StartedRows(s, k, w.id, token);
      StartedRuns(s, k, w.id, token);
      StartedColumns(s, k, w.id, token);
      StartedTickets(s, k, w.id, token);
      StartedPrivate(s, k, w.id, token);
      StartedExclusive(s, k, w.id, token);
      KeepSnapshotRows(s, s');
      Assemble(s, s');
    }
  }

  ghost predicate RunInRows(s: Db, r: Id) {
    r in s.runs && s.runs[r].submission in s.subs && s.subs[s.runs[r].submission].repo in s.repos
  }

  lemma ReadyStatus(s: Db, k: Key)
    requires k in s.tasks && Ready(s.tasks[k], s.now)
    ensures s.tasks[k].status != TaskStatus.Failed
  {
  }

  lemma LeaseGradeIs(s: Db, w: Worker, k: Key, token: Id)
    requires k in s.tasks && k.subject in s.runs
    ensures Grading.LeaseGrade(s, w, k, token) == if WorkerBusy(s, w.id) then s else Started(s, k, w.id, token)
  {
  }

  // ---- accepting a result ----

  /** A lease describes the run of its task and the pinned baseline. */
  lemma LeaseDescribes(s: Db, w: Worker, k: Key, token: Id)
    requires OwnedLease(s, w, k, token, true).Some?
    ensures var lease := OwnedLease(s, w, k, token, true).value;
            && k.kind == Grade && k.subject in s.runs && lease.run == k.subject
            && lease.revision == s.runs[k.subject].revision
            && (lease.baseline.None? <==> s.runs[k.subject].baseline.None?)
            && (lease.baseline.Some? ==>
                  var b := s.runs[k.subject].baseline.value;
                  b in s.runs && BaselinePoints(s.runs[b]) == Some(lease.baseline.value.points))
  {
    hide Sound, Live;
  }

  lemma ExamineTicket(s: Db, w: Worker, k: Key, result: RunResult)
    requires Scores(s) && Baselines(s) && Grading.Examine(s, w, k, result).Continue?
    ensures var t := Grading.Examine(s, w, k, result).ticket;
            && t.key == Key(Grade, t.result.run) && t.result.run in s.runs
            && ScoresAllowed(s.runs, s.runs[t.result.run], t.result.status, t.points, t.publicPoints)
  {
    hide OwnedLease, ValidateResult;
    LeaseDescribes(s, w, k, result.token);
  }

  lemma ExamineBase(s: Db, w: Worker, k: Key, result: RunResult)
    requires Base(s)
    ensures var s' := Examined(s, w, k, result);
            Base(s') && Extends(s, s') && Bystander(s, s') && s'.processed == s.processed
  {
    hide Grading.Examine, Base, References;
    BaseReferences(s);
    ExamineReferences(s, w, k, result);
    KeepBase(s, Examined(s, w, k, result));
  }

  lemma ExamineReferences(s: Db, w: Worker, k: Key, result: RunResult)
    requires References(s)
    ensures References(Examined(s, w, k, result))
  {
    hide Grading.Examine;
  }

  lemma ExamineTickets(s: Db, w: Worker, k: Key, result: RunResult)
    requires Scores(s) && Baselines(s) && Tickets(s)
    ensures Tickets(Examined(s, w, k, result))
  {
    hide Grading.Examine, Scores, Baselines, ScoresAllowed;
    if Grading.Examine(s, w, k, result).Continue? {
      ExamineTicket(s, w, k, result);
    }
  }

  lemma ExamineKeeps(s: Db, w: Worker, k: Key, result: RunResult)
    requires Inv(s)
    ensures Kept(s, Examined(s, w, k, result))
  {
    hide *;
    var s' := Examined(s, w, k, result);
    Open(s);
    ExamineBase(s, w, k, result);
    BaseReferences(s');
    BystanderQuiet(s, s');
    BystanderFenced(s, s');
    BystanderSnapshots(s, s');
    QuietLive(s, s');
    KeepExclusive(s, s');
    KeepRunsFollowTasks(s, s');
    KeepPrivateRuns(s, s');
    KeepRunColumns(s, s');
    ExamineTickets(s, w, k, result);
    Assemble(s, s');
  }

  /** The ticket's task is leased, so its run has no result and no private run rests on it. */
  ghost predicate Acceptable(s: Db, t: Ticket) {
    && t.key == Key(Grade, t.result.run) && t.result.run in s.runs && t.key in s.tasks
    && s.tasks[t.key].status == Leased && s.runs[t.result.run].status == Running && s.runs[t.result.run].result.None?
    && ScoresAllowed(s.runs, s.runs[t.result.run], t.result.status, t.points, t.publicPoints)
  }

  lemma AcceptableTicket(s: Db, t: Ticket)
    requires RunsFollowTasks(s) && Tickets(s) && t in s.tickets && Decide(s, t) == Accepted
    ensures Acceptable(s, t)
  {
    hide ScoresAllowed;
  }

  /** The row changes of an accepted result. */
  ghost predicate Written(s: Db, t: Ticket, s': Db)
    requires t.key in s.tasks && t.result.run in s.runs
  {
    && s' == s.(runs := s'.runs, tasks := s'.tasks)
    && s'.runs == s.runs[t.result.run := WithResult(s.runs[t.result.run], t)]
    && Key(Publish, t.result.run) in s'.tasks
    && s'.tasks.Keys == s.tasks.Keys + {Key(Publish, t.result.run)}
    && s'.tasks[t.key] == s.tasks[t.key].(status := TaskStatus.Done)
    && (forall k :: k in s.tasks && k != t.key ==> s'.tasks[k] == s.tasks[k])
    && (Key(Publish, t.result.run) !in s.tasks ==> NewRow(s'.tasks[Key(Publish, t.result.run)]))
  }

  lemma WriteIsWritten(s: Db, t: Ticket)
    requires t.key == Key(Grade, t.result.run) && t.key in s.tasks && t.result.run in s.runs
    ensures Written(s, t, Write(s, t))
  {
  }

  lemma WriteReferences(s: Db, t: Ticket, s': Db)
    requires References(s) && t.key.kind == Grade && t.key in s.tasks && t.result.run in s.runs && Written(s, t, s')
    ensures References(s')
  {
  }

  lemma WriteFenced(s: Db, t: Ticket, s': Db)
    requires Fenced(s) && t.key in s.tasks && t.result.run in s.runs && Written(s, t, s')
    ensures Fenced(s')
  {
    assert RowsKept(s, s');
  }

  lemma WriteRows(s: Db, t: Ticket, s': Db)
    requires t.key.kind == Grade && t.key in s.tasks && t.result.run in s.runs && Written(s, t, s')
    ensures Extends(s, s') && NoNewLease(s, s') && NoneDone(s, s') && SameBase(s, s')
  {
  }

  lemma WriteRuns(s: Db, t: Ticket, s': Db)
    requires RunsFollowTasks(s) && t.key == Key(Grade, t.result.run) && t.key in s.tasks && t.result.run in s.runs
    requires s.tasks[t.key].status == Leased && Written(s, t, s')
    ensures RunsFollowTasks(s')
  {
    hide RunsWait, ResultsDone, ResultsShown, Written;
    WriteWait(s, t, s');
    WriteDone(s, t, s');
    WriteShown(s, t, s');
  }

  lemma WriteWait(s: Db, t: Ticket, s': Db)
    requires RunsWait(s) && t.key == Key(Grade, t.result.run) && t.key in s.tasks && t.result.run in s.runs
             && Written(s, t, s')
    ensures RunsWait(s')
  {
  }

  lemma WriteDone(s: Db, t: Ticket, s': Db)
    requires ResultsDone(s) && t.key == Key(Grade, t.result.run) && t.key in s.tasks && t.result.run in s.runs
             && Written(s, t, s')
    ensures ResultsDone(s')
  {
  }

  lemma WriteShown(s: Db, t: Ticket, s': Db)
    requires ResultsShown(s) && t.key in s.tasks && t.result.run in s.runs && Written(s, t, s')
    ensures ResultsShown(s')
  {
  }

  /** Scores of other runs and tickets never refer to a run without a result. */
  lemma WriteTickets(s: Db, t: Ticket, s': Db)
    requires Scores(s) && Baselines(s) && Tickets(s) && Acceptable(s, t) && Written(s, t, s')
    ensures Tickets(s')
  {
    assert s.runs[t.result.run].points.None?;
  }

  lemma WriteScores(s: Db, t: Ticket, s': Db)
    requires Scores(s) && Baselines(s) && Acceptable(s, t) && Written(s, t, s')
    ensures Scores(s') && Baselines(s')
  {
    assert s.runs[t.result.run].points.None?;
    assert forall r :: r in s.runs && s.runs[r].baseline.Some? ==> s.runs[r].baseline.value != t.result.run;
  }

  lemma WriteAttempts(s: Db, t: Ticket)
    requires Attempts(s) && Acceptable(s, t)
    ensures Attempts(Write(s, t))
  {
    hide ScoresAllowed;
    SameAttempts(s, Write(s, t));
  }

  lemma SameAttempts(s: Db, s': Db)
    requires Attempts(s) && s'.runs.Keys == s.runs.Keys && RunsKept(s, s')
    ensures Attempts(s')
  {
    forall x, n | HasAttempt(s.runs, x, n)
      ensures HasAttempt(s'.runs, x, n)
    {
      var q :| q in s.runs && s.runs[q].submission == x && s.runs[q].attempt == n;
      assert q in s'.runs && s'.runs[q].submission == x && s'.runs[q].attempt == n;
    }
  }

  lemma WriteEnds(s: Db, t: Ticket, s': Db)
    requires PrivateEnds(s) && Acceptable(s, t) && Written(s, t, s')
    ensures PrivateEnds(s')
  {
    hide ScoresAllowed;
    assert forall r :: GaveUp(s, r) ==> GaveUp(s', r);
    assert forall x :: RepoClosed(s, x) ==> RepoClosed(s', x);
  }

  lemma WriteOrder(s: Db, t: Ticket, s': Db)
    requires PrivateOrder(s) && Acceptable(s, t) && Written(s, t, s')
    ensures PrivateOrder(s')
  {
    hide ScoresAllowed;
    assert forall q, r :: Precedes(s'.runs, q, r) ==> Precedes(s.runs, q, r);
  }

  lemma WritePrivate(s: Db, t: Ticket, s': Db)
    requires PrivateRuns(s) && Acceptable(s, t) && Written(s, t, s')
    ensures PrivateRuns(s')
  {
    hide Acceptable, Written, PrivateEnds, PrivateOrder;
    AcceptableRows(s, t);
    WriteEnds(s, t, s');
    WriteOrder(s, t, s');
  }

  lemma WriteKeeps(s: Db, t: Ticket)
    requires Inv(s) && Acceptable(s, t)
    ensures Kept(s, Write(s, t))
  {
    hide *;
    AcceptableRows(s, t);
    var s' := Write(s, t);
    Open(s);
    WriteIsWritten(s, t);
    WriteReferences(s, t, s');
    WriteRows(s, t, s');
    KeepBase(s, s');
    WriteFenced(s, t, s');
    KeepExclusive(s, s');
    WriteRuns(s, t, s');
    WriteScores(s, t, s');
    WriteTickets(s, t, s');
    WriteAttempts(s, t);
    WritePrivate(s, t, s');
    KeepSnapshotRows(s, s');
    Assemble(s, s');
  }

  lemma AcceptableRows(s: Db, t: Ticket)
    requires Acceptable(s, t)
    ensures t.key == Key(Grade, t.result.run) && t.key in s.tasks && t.result.run in s.runs
            && s.tasks[t.key].status == Leased
  {
    hide ScoresAllowed;
  }

  lemma CommitKeeps(s: Db, t: Ticket)
    requires Inv(s) && t in s.tickets
    ensures Kept(s, Grading.Commit(s, t))
  {
    hide Inv, Kept, RunsFollowTasks, Tickets, Acceptable, Write, FlagReview, Fenced;
    Open(s);
    if Decide(s, t) == Accepted {
      AcceptableTicket(s, t);
      WriteKeeps(s, t);
      if t.result.status == Invalidated && s.runs[t.result.run].submission in s.subs {
        KeptInv(s, Write(s, t));
        FlagReviewKeeps(Write(s, t), s.subs[s.runs[t.result.run].submission].repo);
        ThenKept(s, Write(s, t), Grading.Commit(s, t));
      }
    } else {
      SameState(s);
      TaskStepKeeps(s, s);
    }
  }
}
