/** What every reachable database state satisfies. */
module Invariant {
  import opened Wrappers
  import opened Protocol
  import opened Database
  import opened Queue
  import opened Grading

  /** Foreign keys, and every stored UUID was drawn once. */
  ghost predicate References(s: Db) {
    && (forall k :: k in s.tasks && k.kind == Grade ==> k.subject in s.runs)
    && (forall k :: k in s.tasks && k.kind == Snapshot ==> k.subject in s.subs)
    && (forall r :: r in s.runs ==> r in s.issued && s.runs[r].submission in s.subs)
    && (forall r :: r in s.runs ==> s.subs[s.runs[r].submission].source.Some?)
    && (forall x :: x in s.subs ==> x in s.issued && s.subs[x].repo in s.repos && s.subs[x].event in s.events)
    && (forall p :: p in s.repos ==> p in s.issued)
    && (forall e :: e in s.events ==> e in s.issued)
  }

  /** Leases: attempts stay within budget, a lease has its token, and the record of a lease that
      was handed out agrees with the row for as long as the row carries its token. */
  ghost predicate Fenced(s: Db) {
    && (forall k :: k in s.tasks ==> 0 <= s.tasks[k].attempts <= MAX_ATTEMPTS)
    && (forall k :: k in s.tasks && s.tasks[k].status == Leased ==> s.tasks[k].attempts >= 1 && s.tasks[k].token.Some?)
    && (forall k :: k in s.tasks && s.tasks[k].token.Some? ==> s.tasks[k].token.value in s.issued)
    && (forall g :: g in s.grants ==> g.token in s.issued && g.key in s.tasks)
    && (forall g :: g in s.grants && s.tasks[g.key].token == Some(g.token) && s.tasks[g.key].status == Leased
          ==> s.tasks[g.key].attempts == g.attempts && s.tasks[g.key].owner == g.owner)
    && s.processed <= s.grants
  }

  ghost predicate LiveGrade(s: Db, k: Key) {
    k in s.tasks && k.kind == Grade && Live(s.tasks[k], s.now)
  }

  ghost function EnrollmentOf(s: Db, r: Id): Id
    requires r in s.runs && s.runs[r].submission in s.subs && s.subs[s.runs[r].submission].repo in s.repos
  {
    s.repos[s.subs[s.runs[r].submission].repo].enrollment
  }

  /** At most one live grade lease per worker and at most one per enrollment. */
  ghost predicate Exclusive(s: Db)
    requires References(s)
  {
    forall j, k ::
      && LiveGrade(s, j) && LiveGrade(s, k)
      && (s.tasks[j].owner == s.tasks[k].owner || EnrollmentOf(s, j.subject) == EnrollmentOf(s, k.subject))
      ==> j == k
  }

  /** A waiting run has a waiting task, and a leased task has a running run. */
  ghost predicate RunsWait(s: Db) {
    && (forall r :: r in s.runs && s.runs[r].status == Queued ==>
          Key(Grade, r) in s.tasks && s.tasks[Key(Grade, r)].status == Pending)
    && (forall k :: k in s.tasks && k.kind == Grade && s.tasks[k].status == Leased ==>
          k.subject in s.runs && s.runs[k.subject].status == Running)
  }

  /** A grade task is done exactly when its run has a result, and exactly then it is published. */
  ghost predicate ResultsDone(s: Db) {
    && (forall k :: k in s.tasks && k.kind == Grade && s.tasks[k].status == Done ==>
          k.subject in s.runs && s.runs[k.subject].result.Some?)
    && (forall r :: r in s.runs && s.runs[r].result.Some? ==>
          Key(Grade, r) in s.tasks && s.tasks[Key(Grade, r)].status == Done && Key(Publish, r) in s.tasks)
    && (forall k :: k in s.tasks && k.kind == Publish ==> k.subject in s.runs && s.runs[k.subject].result.Some?)
  }

  /** Only synchronization ends a run without a result, and only as an infrastructure failure. */
  ghost predicate ResultsShown(s: Db) {
    && (forall r :: r in s.runs && s.runs[r].result.Some? ==>
          s.runs[r].status == Finished(s.runs[r].result.value.status) && s.runs[r].report == s.runs[r].result)
    && (forall r :: r in s.runs && s.runs[r].status.Finished? && s.runs[r].status.outcome != InfrastructureFailed ==>
          s.runs[r].result.Some?)
  }

  /** Run rows and grade tasks move together. */
  ghost predicate RunsFollowTasks(s: Db) {
    RunsWait(s) && ResultsDone(s) && ResultsShown(s)
  }

  /** The score columns that an outcome allows. */
  ghost predicate ScoresAllowed(runs: map<Id, Database.Run>, run: Database.Run, outcome: ResultStatus,
                                points: Option<int>, publicPoints: Option<int>)
  {
    && (points.Some? <==> outcome == Completed)
    && (points.Some? ==> 0 <= points.value <= run.revision.assignment.maxPoints)
    && (outcome == Invalidated ==> run.baseline.Some?)
    && (run.baseline.None? ==> publicPoints == points)
    && (run.baseline.Some? ==>
          run.baseline.value in runs && runs[run.baseline.value].points.Some?
          && publicPoints == runs[run.baseline.value].points)
  }

  ghost predicate Scores(s: Db) {
    forall r :: r in s.runs ==>
      if s.runs[r].result.None? then s.runs[r].points.None? && s.runs[r].publicPoints.None?
      else ScoresAllowed(s.runs, s.runs[r], s.runs[r].result.value.status, s.runs[r].points, s.runs[r].publicPoints)
  }

  /** A baseline is a completed public run of the same submission. */
  ghost predicate Baselines(s: Db) {
    forall r :: r in s.runs && s.runs[r].baseline.Some? ==>
      var b := s.runs[r].baseline.value;
      && b in s.runs && s.runs[b].baseline.None? && s.runs[b].submission == s.runs[r].submission
      && s.runs[b].result.Some? && s.runs[b].status == Finished(Completed)
  }

  ghost predicate Tickets(s: Db) {
    forall t :: t in s.tickets ==>
      && t.key == Key(Grade, t.result.run) && t.result.run in s.runs
      && ScoresAllowed(s.runs, s.runs[t.result.run], t.result.status, t.points, t.publicPoints)
  }

  ghost predicate Closure(s: Db) {
    && (forall p :: p in s.repos && s.repos[p].closed ==> s.repos[p].Deadline() < s.now)
    && (forall p :: p in s.repos && s.repos[p].final.Some? ==>
          s.repos[p].closed && InRepo(s, s.repos[p].final.value, p))
  }

  ghost predicate RepoClosed(s: Db, x: Id) {
    x in s.subs && s.subs[x].repo in s.repos && s.repos[s.subs[x].repo].closed
  }

  /** A run that no later step can change again although it never got a result. */
  ghost predicate GaveUp(s: Db, r: Id) {
    Key(Grade, r) in s.tasks && s.tasks[Key(Grade, r)].status == Failed
  }

  /** Two private runs of one adjustment: same baseline, same grader revision. */
  ghost predicate Precedes(runs: map<Id, Database.Run>, q: Id, r: Id) {
    && q in runs && r in runs && runs[q].baseline.Some? && runs[q].baseline == runs[r].baseline
    && runs[q].revision == runs[r].revision && runs[q].attempt < runs[r].attempt
  }

  /** Private runs belong to closed repositories and are never superseded; one that ended without
      a result has a task that failed for good. */
  ghost predicate PrivateEnds(s: Db) {
    && (forall r :: r in s.runs && s.runs[r].baseline.Some? ==>
          RepoClosed(s, s.runs[r].submission) && s.runs[r].status != Superseded && Key(Grade, r) in s.tasks)
    && (forall r :: r in s.runs && s.runs[r].baseline.Some? && s.runs[r].status.Finished? && s.runs[r].result.None? ==>
          GaveUp(s, r))
  }

  /** All runs of one adjustment but its last have failed. */
  ghost predicate PrivateOrder(s: Db) {
    forall q, r :: Precedes(s.runs, q, r) ==> RetryableStatus(s.runs[q].status)
  }

  ghost predicate PrivateRuns(s: Db) {
    PrivateEnds(s) && PrivateOrder(s)
  }

  ghost predicate HasAttempt(runs: map<Id, Database.Run>, x: Id, n: int) {
    exists q :: q in runs && runs[q].submission == x && runs[q].attempt == n
  }

  ghost predicate SameAttempt(q: Database.Run, r: Database.Run) {
    q.submission == r.submission && q.attempt == r.attempt
  }

  /** The attempts of a submission are distinct and reach down to 1 without a gap. */
  ghost predicate Attempts(s: Db) {
    && (forall r :: r in s.runs ==> s.runs[r].attempt >= 1)
    && (forall r :: r in s.runs && s.runs[r].attempt > 1 ==>
          HasAttempt(s.runs, s.runs[r].submission, s.runs[r].attempt - 1))
    && (forall q, r :: q in s.runs && r in s.runs && SameAttempt(s.runs[q], s.runs[r]) ==> q == r)
  }

  predicate SameEvent(x: Submission, y: Submission) {
    x.event == y.event
  }

  /** `event_id` is unique among submissions. */
  ghost predicate OncePerEvent(subs: map<Id, Submission>) {
    forall x, y :: x in subs && y in subs && SameEvent(subs[x], subs[y]) ==> x == y
  }

  /** Submissions copy their receipt; eligible receipts lie in the window; an open
      repository has only submissions made from eligible receipts. */
  ghost predicate Receipts(s: Db)
    requires References(s)
  {
    && (forall e :: e in s.events && s.events[e].eligible ==>
          && s.events[e].repo in s.repos
          && (var r := s.repos[s.events[e].repo];
              r.revision.assignment.opensAt <= s.events[e].receivedAt <= r.Deadline()))
    && (forall x :: x in s.subs ==>
          var e := s.events[s.subs[x].event];
          e.repo == s.subs[x].repo && e.sha == s.subs[x].sha && e.receivedAt == s.subs[x].receivedAt)
    && (forall x :: x in s.subs && !s.repos[s.subs[x].repo].closed ==> s.events[s.subs[x].event].eligible)
  }

  ghost predicate Captured(s: Db, x: Id) {
    x in s.subs && s.subs[x].source.Some? && HasPublicRun(s.runs, x)
  }

  ghost predicate Snapshots(s: Db) {
    && (forall g :: g in s.processed ==> g.key.kind == Snapshot && Captured(s, g.key.subject))
    && (forall k :: k in s.tasks && k.kind == Snapshot && s.tasks[k].status == Done ==> Captured(s, k.subject))
  }

  ghost predicate Inv(s: Db) {
    && References(s) && Fenced(s) && Exclusive(s)
    && RunsFollowTasks(s) && Scores(s) && Baselines(s) && Tickets(s)
    && Closure(s) && PrivateRuns(s) && Attempts(s) && Receipts(s) && OncePerEvent(s.subs) && Snapshots(s)
  }
}
