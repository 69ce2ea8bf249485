/** Worker-scoped leasing, provenance validation, and atomic result acceptance. */
module Grading {
  import opened Wrappers
  import Protocol
  import Config
  import opened Database
  import opened Queue

  const MAX_FEEDBACK_RUNS := 200

  datatype Worker = Worker(id: string, profiles: set<string>, caps: Config.Resources)

  predicate RunInEnrollment(s: Db, r: Id, e: Id) {
    r in s.runs && InEnrollment(s, s.runs[r].submission, e)
  }

  predicate WorkerBusy(s: Db, worker: string) {
    exists k :: k in s.tasks && k.kind == Grade && s.tasks[k].owner == worker && Live(s.tasks[k], s.now)
  }

  predicate EnrollmentBusy(s: Db, e: Id) {
    exists k :: k in s.tasks && k.kind == Grade && Live(s.tasks[k], s.now) && RunInEnrollment(s, k.subject, e)
  }

  predicate Suits(w: Worker, requested: set<string>, r: Database.Run) {
    && r.revision.assignment.executionProfile in w.profiles * requested
    && r.revision.assignment.resources.Fits(w.caps)
  }

  /** The grade tasks a worker may be given. */
  function GradeCandidates(s: Db, w: Worker, requested: set<string>, locked: set<Key>): set<Key> {
    set k | k in s.tasks && k.kind == Grade && k !in locked && Ready(s.tasks[k], s.now)
            && k.subject in s.runs && Suits(w, requested, s.runs[k.subject])
            && s.runs[k.subject].submission in s.subs && s.subs[s.runs[k.subject].submission].repo in s.repos
            && !EnrollmentBusy(s, s.repos[s.subs[s.runs[k.subject].submission].repo].enrollment)
  }

  function LeaseGrade(s: Db, w: Worker, k: Key, token: Id): Db
    requires k in s.tasks && k.subject in s.runs
  {
    if WorkerBusy(s, w.id) then s
    else
      Grantee(s, k, w.id, token).(runs := s.runs[k.subject := s.runs[k.subject].(status := Running)])
  }

  /** The lease a worker still owns; with `allowDone`, also one whose result was accepted. */
  function OwnedLease(s: Db, w: Worker, k: Key, token: Id, allowDone: bool): Option<Protocol.Lease> {
    if !(k in s.tasks && k.kind == Grade && k.subject in s.runs) then None
    else
      var t, run := s.tasks[k], s.runs[k.subject];
      if !(run.submission in s.subs && s.subs[run.submission].repo in s.repos) then None
      else
        var sub := s.subs[run.submission];
        var repo := s.repos[sub.repo];
        if !(t.token == Some(token) && t.owner == w.id && (Live(t, s.now) || (allowDone && t.status == Done))) then None
        else if run.baseline.Some? && !(repo.Deadline() < s.now) then None
        else if sub.source.None? || !Protocol.Sound(run.revision) then None
        else if !(run.revision.assignment.executionProfile in w.profiles
                  && run.revision.assignment.resources.Fits(w.caps)) then None
        else if run.baseline.None? then
          Some(Protocol.Lease(k.subject, token, t.leaseUntil, sub.sha, run.revision, sub.source.value, None))
        else if run.baseline.value !in s.runs || BaselinePoints(s.runs[run.baseline.value]).None? then None
        else
          Some(Protocol.Lease(k.subject, token, t.leaseUntil, sub.sha, run.revision, sub.source.value,
               Some(Protocol.PublicBaseline(run.baseline.value, BaselinePoints(s.runs[run.baseline.value]).value,
                                            repo.Deadline()))))
  }

  /** `COALESCE(public_points, points)` of the pinned public run. */
  function BaselinePoints(b: Database.Run): Option<int> {
    if b.publicPoints.Some? then b.publicPoints else b.points
  }

  datatype Acceptance = Refused | Replayed | Continue(ticket: Ticket)

  /** First phase: ownership, validation and the replay test, reading only. */
  function Examine(s: Db, w: Worker, k: Key, result: Protocol.RunResult): Acceptance {
    match OwnedLease(s, w, k, result.token, true)
    case None => Refused
    case Some(lease) =>
      match Protocol.ValidateResult(result, lease)
      case None => Refused
      case Some(points) =>
        if result.run !in s.runs then Refused
        else if s.runs[result.run].result.Some? then
          if s.runs[result.run].result.value == result then Replayed else Refused
        else
          Continue(Ticket(k, w.id, result, points,
                          if lease.baseline.Some? then Some(lease.baseline.value.points) else points))
  }

  function Examined(s: Db, w: Worker, k: Key, result: Protocol.RunResult): Db {
    match Examine(s, w, k, result)
    case Continue(ticket) => s.(tickets := s.tickets + {ticket})
    case _ => s
  }

  datatype Outcome = Accepted | AlreadyAccepted | Conflict

  /** What the second phase answers for a ticket of the first. */
  function Decide(s: Db, t: Ticket): Outcome {
    if !(t.key in s.tasks && t.result.run in s.runs) then Conflict
    else
      var task := s.tasks[t.key];
      if task.token != Some(t.result.token) || task.owner != t.worker then Conflict
      else if task.status == Done then
        if s.runs[t.result.run].result == Some(t.result) then AlreadyAccepted else Conflict
      else if Live(task, s.now) then Accepted
      else Conflict
  }

  function WithResult(run: Database.Run, t: Ticket): Database.Run {
    run.(status := Finished(t.result.status), points := t.points, publicPoints := t.publicPoints,
         report := Some(t.result), result := Some(t.result))
  }

  /** The result, the finished task and the publication task. */
  function Write(s: Db, t: Ticket): Db
    requires t.key in s.tasks && t.result.run in s.runs
  {
    Enqueue(s.(runs := s.runs[t.result.run := WithResult(s.runs[t.result.run], t)],
               tasks := s.tasks[t.key := s.tasks[t.key].(status := Done)]),
            Key(Publish, t.result.run), 30)
  }

  /** Second phase, in one transaction; an invalidated score also asks for review. */
  function Commit(s: Db, t: Ticket): Db {
    if Decide(s, t) != Accepted then s
    else if t.result.status == Protocol.Invalidated && s.runs[t.result.run].submission in s.subs then
      FlagReview(Write(s, t), s.subs[s.runs[t.result.run].submission].repo)
    else Write(s, t)
  }

  /** Public runs of a repository that count against its feedback budget. */
  function FeedbackRuns(s: Db, p: Id): set<Id> {
    set r | r in s.runs && s.runs[r].baseline.None? && s.runs[r].status != Superseded
            && InRepo(s, s.runs[r].submission, p)
  }

  ghost predicate RunSuperseded(s: Db, x: Id, regrade: bool)
    requires x in s.subs && s.subs[x].repo in s.repos
  {
    var p := s.subs[x].repo;
    var r := s.repos[p];
    && !regrade
    && !(r.closed && r.final == Some(x))
    && (r.closed || Latest(s.subs, p) != Some(x) || |FeedbackRuns(s, p)| >= MAX_FEEDBACK_RUNS)
  }

  /** Pending public grading of the repository's other submissions. */
  predicate Displaced(s: Db, x: Id, k: Key)
    requires x in s.subs
  {
    && k in s.tasks && k.kind == Grade && s.tasks[k].status == Pending
    && k.subject in s.runs && s.runs[k.subject].baseline.None?
    && s.runs[k.subject].submission != x && InRepo(s, s.runs[k.subject].submission, s.subs[x].repo)
  }

  function CancelDisplaced(s: Db, x: Id): map<Key, Task>
    requires x in s.subs
  {
    map k | k in s.tasks :: if Displaced(s, x, k) then s.tasks[k].(status := Cancelled) else s.tasks[k]
  }

  function SupersedeCancelled(runs: map<Id, Database.Run>, tasks: map<Key, Task>): map<Id, Database.Run> {
    map r | r in runs ::
      if runs[r].status == Queued && Key(Grade, r) in tasks && tasks[Key(Grade, r)].status == Cancelled
      then runs[r].(status := Superseded) else runs[r]
  }

  predicate CanEnqueue(s: Db, x: Id) {
    x in s.subs && s.subs[x].source.Some? && s.subs[x].repo in s.repos
  }

  function AddRun(s: Db, id: Id, run: Database.Run): Db {
    s.(runs := s.runs[id := run], issued := s.issued + {id})
  }

  /** Queue a new public run and let it displace pending feedback of older submissions. */
  function QueueRun(s: Db, x: Id, id: Id, run: Database.Run, priority: int): Db
    requires x in s.subs
  {
    var s1 := AddRun(s, id, run);
    var tasks := CancelDisplaced(s1, x);
    Enqueue(s1.(tasks := tasks, runs := SupersedeCancelled(s1.runs, tasks)), Key(Grade, id), priority)
  }

  function NewRun(x: Id, revision: Protocol.Revision, attempt: nat, status: RunStatus,
                  baseline: Option<Id>): Database.Run {
    Database.Run(x, revision, attempt, status, None, None, None, None, baseline)
  }

  ghost function EnqueueRun(s: Db, x: Id, regrade: bool, id: Id): Db {
    if !CanEnqueue(s, x) || (!regrade && HasPublicRun(s.runs, x)) then s
    else
      var r := s.repos[s.subs[x].repo];
      var attempt := MaxAttempt(s.runs, x) + 1;
      if RunSuperseded(s, x, regrade) then AddRun(s, id, NewRun(x, r.gradingRevision, attempt, Superseded, None))
      else
        QueueRun(s, x, id, NewRun(x, r.gradingRevision, attempt, Queued, None),
                 if r.closed && r.final == Some(x) then 100 else 0)
  }

  /** The trigger `validate_private_run` on inserts into `grading_runs`. */
  predicate BaselineAdmitted(s: Db, x: Id, b: Id) {
    && b in s.runs && s.runs[b].submission == x && x in s.subs && s.subs[x].repo in s.repos
    && s.runs[b].baseline.None? && s.runs[b].status == Finished(Protocol.Completed) && s.runs[b].points.Some?
    && s.repos[s.subs[x].repo].Deadline() < s.now
  }

  /** A private run on a pinned baseline; the trigger can refuse the row. */
  function InsertPrivate(s: Db, x: Id, revision: Protocol.Revision, attempt: nat, b: Id, id: Id): Db {
    if !BaselineAdmitted(s, x, b) then s
    else
      Enqueue(AddRun(s, id, NewRun(x, revision, attempt, Queued, Some(b))), Key(Grade, id), 100)
  }

  predicate Scheduled(s: Db, b: Id, revision: Protocol.Revision) {
    exists r :: r in s.runs && s.runs[r].baseline == Some(b) && s.runs[r].revision == revision
  }

  ghost predicate PrivateReady(s: Db, p: Id, b: Id) {
    && p in s.repos
    && s.repos[p].Deadline() < s.now && s.repos[p].final.Some?
    && IsLastPublic(s.runs, s.repos[p].final.value, b)
    && s.runs[b].status == Finished(Protocol.Completed) && s.runs[b].points.Some?
    && s.repos[p].gradingRevision.HasPrivateCommand()
    && !Scheduled(s, b, s.repos[p].gradingRevision)
  }

  ghost function ReadyBaseline(s: Db, p: Id): (b: Id)
    requires exists b: Id :: PrivateReady(s, p, b)
    ensures PrivateReady(s, p, b)
  {
    var b: Id :| PrivateReady(s, p, b); b
  }

  /** The per-repository transaction of `enqueue_private`, after its `close`. */
  ghost function SchedulePrivate(s: Db, p: Id, id: Id): Db {
    if exists b: Id :: PrivateReady(s, p, b) then
      var b := ReadyBaseline(s, p);
      InsertPrivate(s, s.repos[p].final.value, s.repos[p].gradingRevision,
                    MaxAttempt(s.runs, s.repos[p].final.value) + 1, b, id)
    else s
  }

  predicate RetryableStatus(status: RunStatus) {
    status in {Finished(Protocol.InfrastructureFailed), Finished(Protocol.TimedOut)}
  }

  ghost function RetryPrivate(s: Db, failed: Id, id: Id): Db {
    if failed in s.runs && IsTop(s.runs, s.runs[failed].submission, failed)
       && s.runs[failed].baseline.Some? && RetryableStatus(s.runs[failed].status) then
      var run := s.runs[failed];
      InsertPrivate(s, run.submission, run.revision, run.attempt + 1, run.baseline.value, id)
    else s
  }

  /** Daily synchronization: runs whose grade task gave up. */
  function SyncFailed(s: Db): Db {
    s.(runs := map r | r in s.runs ::
         if s.runs[r].status in {Queued, Running} && Key(Grade, r) in s.tasks && s.tasks[Key(Grade, r)].status == Failed
         then s.runs[r].(status := Finished(Protocol.InfrastructureFailed)) else s.runs[r])
  }
}
