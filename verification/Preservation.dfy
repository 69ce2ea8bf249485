/** Each transaction keeps the invariant. Most of them only move task rows; those share one lemma. */
module Preservation {
  import opened Database
  import opened Queue
  import opened Grading
  import opened Invariant

  // ---- what never changes ----

  ghost predicate RunKept(r: Database.Run, r': Database.Run) {
    r'.submission == r.submission && r'.revision == r.revision && r'.attempt == r.attempt && r'.baseline == r.baseline
  }

  ghost predicate RepoKept(r: Database.Repo, r': Database.Repo) {
    && r'.enrollment == r.enrollment && r'.assignment == r.assignment && r'.revision == r.revision
    && (r.closed ==> r'.closed && r'.extension == r.extension)
    && r.Deadline() <= r'.Deadline()
  }

  ghost predicate SubmissionKept(x: Submission, x': Submission) {
    x' == x.(source := x'.source) && (x.source.Some? ==> x'.source == x.source)
  }

  ghost predicate RunsKept(s: Db, s': Db) {
    forall r :: r in s.runs ==> r in s'.runs && RunKept(s.runs[r], s'.runs[r])
  }

  ghost predicate SubmissionsKept(s: Db, s': Db) {
    forall x :: x in s.subs ==> x in s'.subs && SubmissionKept(s.subs[x], s'.subs[x])
  }

  ghost predicate ReposKept(s: Db, s': Db) {
    forall p :: p in s.repos ==> p in s'.repos && RepoKept(s.repos[p], s'.repos[p])
  }

  ghost predicate EventsKept(s: Db, s': Db) {
    forall e :: e in s.events ==> e in s'.events && s'.events[e] == s.events[e]
  }

  /** Rows are never deleted and their historical columns never rewritten; time does not run back. */
  ghost predicate Extends(s: Db, s': Db) {
    && s.now <= s'.now && s.issued <= s'.issued && s.grants <= s'.grants
    && s.tasks.Keys <= s'.tasks.Keys
    && RunsKept(s, s') && SubmissionsKept(s, s') && ReposKept(s, s') && EventsKept(s, s')
  }

  // ---- how task rows move ----

  /** A row that no lease call touched: its token stays, and it is not leased unless it was. */
  ghost predicate RowKept(t: Task, t': Task) {
    && t'.token == t.token
    && 0 <= t'.attempts <= MAX_ATTEMPTS
    && (t'.status == Leased ==> t.status == Leased && t'.attempts == t.attempts && t'.owner == t.owner)
  }

  ghost predicate NewRow(t: Task) {
    t.status == Pending && t.attempts == 0 && t.token.None?
  }

  ghost predicate RowsKept(s: Db, s': Db) {
    && s.tasks.Keys <= s'.tasks.Keys
    && (forall k :: k in s.tasks ==> RowKept(s.tasks[k], s'.tasks[k]))
    && (forall k :: k in s'.tasks && k !in s.tasks ==> NewRow(s'.tasks[k]))
  }

  /** A grade row whose status, owner and liveness are not renewed by anyone but its holder. */
  ghost predicate GradeRowKept(t: Task, t': Task, now: int, now': int) {
    t'.status == t.status && t'.owner == t.owner && (Live(t', now') ==> Live(t, now))
  }

  /** No grading happened: runs are untouched and grade rows keep their status. */
  ghost predicate GradeQuiet(s: Db, s': Db) {
    && s'.runs == s.runs
    && (forall k: Key :: k.kind in {Grade, Publish} ==> (k in s'.tasks <==> k in s.tasks))
    && (forall k :: k in s.tasks && k.kind == Grade ==> GradeRowKept(s.tasks[k], s'.tasks[k], s.now, s'.now))
  }

  ghost predicate NoNewLease(s: Db, s': Db) {
    forall k :: LiveGrade(s', k) ==> LiveGrade(s, k) && s.tasks[k].owner == s'.tasks[k].owner
  }

  lemma KeepExclusive(s: Db, s': Db)
    requires References(s) && Exclusive(s) && References(s') && Extends(s, s')
    requires NoNewLease(s, s')
    ensures Exclusive(s')
  {
    forall j, k | LiveGrade(s', j) && LiveGrade(s', k) &&
                  (s'.tasks[j].owner == s'.tasks[k].owner || EnrollmentOf(s', j.subject) == EnrollmentOf(s', k.subject))
      ensures j == k
    {
      assert LiveGrade(s, j) && LiveGrade(s, k);
      assert EnrollmentOf(s, j.subject) == EnrollmentOf(s', j.subject);
      assert EnrollmentOf(s, k.subject) == EnrollmentOf(s', k.subject);
    }
  }

  lemma KeepPrivateRuns(s: Db, s': Db)
    requires PrivateRuns(s) && Extends(s, s') && GradeQuiet(s, s')
    ensures PrivateRuns(s')
  {
    forall q, r | Precedes(s'.runs, q, r)
      ensures RetryableStatus(s'.runs[q].status)
    {
      assert Precedes(s.runs, q, r);
    }
    forall r | r in s'.runs && s'.runs[r].baseline.Some?
      ensures RepoClosed(s', s'.runs[r].submission)
    {
      assert RepoClosed(s, s.runs[r].submission);
    }
    forall r | r in s'.runs && s'.runs[r].baseline.Some? && s'.runs[r].status.Finished? && s'.runs[r].result.None?
      ensures GaveUp(s', r)
    {
      assert GaveUp(s, r);
    }
  }

  lemma KeepRunsFollowTasks(s: Db, s': Db)
    requires RunsFollowTasks(s) && GradeQuiet(s, s')
    ensures RunsFollowTasks(s')
  {
  }

  lemma KeepTickets(s: Db, s': Db)
    requires Tickets(s) && GradeQuiet(s, s') && s'.tickets == s.tickets
    ensures Tickets(s')
  {
  }

  /** Steps that grade nothing keep every statement about grading. */
  lemma KeepGrading(s: Db, s': Db)
    requires Inv(s) && References(s') && Extends(s, s') && GradeQuiet(s, s') && s'.tickets == s.tickets
    ensures Exclusive(s') && RunsFollowTasks(s') && Scores(s') && Baselines(s') && Tickets(s') && PrivateRuns(s')
            && Attempts(s')
  {
    hide *;
    Open(s);
    QuietLive(s, s');
    KeepExclusive(s, s');
    KeepRunsFollowTasks(s, s');
    KeepTickets(s, s');
    KeepPrivateRuns(s, s');
    KeepRunColumns(s, s');
  }

  lemma QuietLive(s: Db, s': Db)
    requires GradeQuiet(s, s')
    ensures NoNewLease(s, s')
  {
  }

  lemma KeepRunColumns(s: Db, s': Db)
    requires Scores(s) && Baselines(s) && Attempts(s) && GradeQuiet(s, s')
    ensures Scores(s') && Baselines(s') && Attempts(s')
  {
  }

  lemma KeepCaptured(s: Db, s': Db, x: Id)
    requires Captured(s, x) && RunsKept(s, s') && SubmissionsKept(s, s')
    ensures Captured(s', x)
  {
    var r :| r in s.runs && s.runs[r].submission == x && s.runs[r].baseline.None?;
    assert r in s'.runs && s'.runs[r].submission == x && s'.runs[r].baseline.None?;
  }

  lemma KeepSnapshots(s: Db, s': Db)
    requires Snapshots(s) && RunsKept(s, s') && SubmissionsKept(s, s')
    requires forall g :: g in s'.processed && g !in s.processed ==>
               g.key.kind == Snapshot && Captured(s', g.key.subject)
    requires forall k :: k in s'.tasks && k.kind == Snapshot && s'.tasks[k].status == Done ==>
               (k in s.tasks && s.tasks[k].status == Done) || Captured(s', k.subject)
    ensures Snapshots(s')
  {
    forall g | g in s'.processed && g in s.processed
      ensures g.key.kind == Snapshot && Captured(s', g.key.subject)
    {
      KeepCaptured(s, s', g.key.subject);
    }
    forall k | k in s'.tasks && k.kind == Snapshot && s'.tasks[k].status == Done
      ensures Captured(s', k.subject)
    {
      if k in s.tasks && s.tasks[k].status == Done {
        KeepCaptured(s, s', k.subject);
      }
    }
  }

  // ---- steps that only move task rows ----

  ghost predicate NewControlRow(s: Db, k: Key) {
    k.kind in {Provision, Lock} || (k.kind == Snapshot && k.subject in s.subs)
  }

  ghost predicate TaskStep(s: Db, s': Db) {
    && s' == s.(tasks := s'.tasks)
    && RowsKept(s, s')
    && (forall k :: k in s'.tasks && k !in s.tasks ==> NewControlRow(s, k))
    && (forall k :: k in s.tasks && k.kind == Grade ==> GradeRowKept(s.tasks[k], s'.tasks[k], s.now, s.now))
    && (forall k :: k in s.tasks && k.kind == Snapshot && s'.tasks[k].status == Done && s.tasks[k].status != Done
          ==> Captured(s, k.subject))
  }

  lemma TaskStepReferences(s: Db, s': Db)
    requires References(s) && TaskStep(s, s')
    ensures References(s')
  {
  }

  lemma TaskStepQuiet(s: Db, s': Db)
    requires TaskStep(s, s')
    ensures Extends(s, s') && GradeQuiet(s, s') && s'.tickets == s.tickets
  {
  }

  lemma TaskStepSnapshots(s: Db, s': Db)
    requires Snapshots(s) && TaskStep(s, s')
    ensures Snapshots(s')
  {
    forall k | k in s'.tasks && k.kind == Snapshot && s'.tasks[k].status == Done
           && !(k in s.tasks && s.tasks[k].status == Done)
      ensures Captured(s', k.subject)
    {
      assert Captured(s, k.subject);
      KeepCaptured(s, s', k.subject);
    }
    KeepSnapshots(s, s');
  }

  lemma TaskStepFenced(s: Db, s': Db)
    requires Fenced(s) && TaskStep(s, s')
    ensures Fenced(s')
  {
  }

  lemma TaskStepBase(s: Db, s': Db)
    requires Base(s) && TaskStep(s, s')
    ensures Base(s')
  {
    hide Base, References, RowsKept;
    BaseReferences(s);
    TaskStepReferences(s, s');
    KeepBase(s, s');
  }

  ghost predicate SameBase(s: Db, s': Db) {
    s'.subs == s.subs && s'.repos == s.repos && s'.events == s.events && s.now <= s'.now
  }

  lemma KeepBase(s: Db, s': Db)
    requires Base(s) && References(s') && SameBase(s, s')
    ensures Base(s')
  {
    hide OncePerEvent;
  }

  // ---- assembling the invariant ----

  /** Rows that refer to each other without grading. */
  ghost predicate Base(s: Db) {
    References(s) && Closure(s) && Receipts(s) && OncePerEvent(s.subs)
  }

  ghost predicate Kept(s: Db, s': Db) {
    Inv(s') && Extends(s, s')
  }

  lemma Open(s: Db)
    requires Inv(s)
    ensures Base(s) && References(s) && Fenced(s) && Exclusive(s) && RunsFollowTasks(s) && Scores(s) && Baselines(s)
            && Tickets(s)
    ensures Closure(s) && PrivateRuns(s) && Attempts(s) && Snapshots(s)
  {
    hide References, Fenced, Exclusive, RunsFollowTasks, Scores, Baselines, Tickets, Closure, PrivateRuns;
    hide Attempts, Receipts, OncePerEvent, Snapshots;
  }

  lemma Assemble(s: Db, s': Db)
    requires Extends(s, s') && Base(s') && Fenced(s') && Exclusive(s')
    requires RunsFollowTasks(s') && Scores(s') && Baselines(s') && Tickets(s') && PrivateRuns(s') && Attempts(s')
             && Snapshots(s')
    ensures Kept(s, s')
  {
    hide References, Fenced, Exclusive, RunsFollowTasks, Scores, Baselines, Tickets, Closure, PrivateRuns;
    hide Attempts, Receipts, OncePerEvent, Snapshots, Extends;
  }

  lemma BaseReferences(s: Db)
    requires Base(s)
    ensures References(s)
  {
    hide References, Closure, Receipts, OncePerEvent;
  }

  lemma TaskStepKeeps(s: Db, s': Db)
    requires Inv(s) && TaskStep(s, s')
    ensures Kept(s, s')
  {
    hide *;
    Open(s);
    TaskStepBase(s, s');
    BaseReferences(s');
    TaskStepQuiet(s, s');
    KeepGrading(s, s');
    TaskStepFenced(s, s');
    TaskStepSnapshots(s, s');
    Assemble(s, s');
  }

  /** A step that neither moves task rows nor grades. */
  ghost predicate Bystander(s: Db, s': Db) {
    s'.tasks == s.tasks && s'.runs == s.runs && s'.grants == s.grants
  }

  ghost predicate SameHistory(s: Db, s': Db) {
    s'.tickets == s.tickets && s'.processed == s.processed
  }

  lemma BystanderQuiet(s: Db, s': Db)
    requires Extends(s, s') && Bystander(s, s')
    ensures GradeQuiet(s, s')
  {
  }

  lemma BystanderFenced(s: Db, s': Db)
    requires Fenced(s) && Extends(s, s') && Bystander(s, s') && s'.processed == s.processed
    ensures Fenced(s')
  {
  }

  lemma BystanderSnapshots(s: Db, s': Db)
    requires Snapshots(s) && Extends(s, s') && Bystander(s, s') && s'.processed == s.processed
    ensures Snapshots(s')
  {
    KeepSnapshots(s, s');
  }

  lemma HistoryFields(s: Db, s': Db)
    requires SameHistory(s, s')
    ensures s'.tickets == s.tickets && s'.processed == s.processed
  {
  }

  lemma BystanderKeeps(s: Db, s': Db)
    requires Inv(s) && Base(s') && Extends(s, s') && Bystander(s, s') && SameHistory(s, s')
    ensures Kept(s, s')
  {
    hide *;
    Open(s);
    HistoryFields(s, s');
    BaseReferences(s');
    BystanderQuiet(s, s');
    KeepGrading(s, s');
    BystanderFenced(s, s');
    BystanderSnapshots(s, s');
    Assemble(s, s');
  }

  lemma ExtendsTransitive(s: Db, s1: Db, s2: Db)
    requires Extends(s, s1) && Extends(s1, s2)
    ensures Extends(s, s2)
  {
    assert forall r :: r in s.runs ==> RunKept(s.runs[r], s1.runs[r]);
    assert forall x :: x in s.subs ==> SubmissionKept(s.subs[x], s1.subs[x]);
    assert forall p :: p in s.repos ==> RepoKept(s.repos[p], s1.repos[p]);
  }

  lemma ThenKept(s: Db, s1: Db, s2: Db)
    requires Kept(s, s1) && Kept(s1, s2)
    ensures Kept(s, s2)
  {
    hide Inv, Extends;
    ExtendsTransitive(s, s1, s2);
  }
}
