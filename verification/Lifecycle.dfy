/** Every transaction of the grading lifecycle as one atomic step, and runs of such steps. */
module Lifecycle {
  import opened Wrappers
  import opened Protocol
  import opened Database
  import opened Queue
  import opened Submissions
  import opened Grading

  datatype Op =
    | Tick(seconds: nat)
    | Request(p: Id, enrollment: Id, assignment: Id, revision: Revision)
    | Rollout(p: Id, published: Revision)
    | LeaseControl(kinds: set<Kind>, locked: set<Key>, k: Key, owner: string, token: Id)
    | Heartbeat(k: Key, token: Id, owner: string)
    | Finish(g: Grant)
    | PollInvitation(g: Grant)
    | Fail(g: Grant)
    | Postpone(g: Grant, until: int)
    | Defer(g: Grant, until: int)
    | FailPermanently(g: Grant)
    | ExpireExhausted
    | Retry(k: Key)
    | Reprovision(p: Id)
    | Relock(p: Id)
    | Record(p: Id, sha: string, received: int, source: EventSource, event: Id, sub: Id, picks: set<Id>)
    | Refill(p: Id, picks: set<Id>)
    | Close(p: Id)
    | Extend(p: Id, deadline: int)
    | Select(event: Id, id: Id)
    | Retain(x: Id, digest: string)
    | EnqueueRun(x: Id, regrade: bool, id: Id)
    | EndSnapshot(g: Grant, id: Id)
    | LeaseGrade(w: Worker, requested: set<string>, locked: set<Key>, k: Key, token: Id)
    | Examine(w: Worker, k: Key, result: RunResult)
    | Commit(ticket: Ticket)
    | SchedulePrivate(p: Id, id: Id)
    | RetryPrivate(failed: Id, id: Id)
    | SyncFailed

  ghost function RequestRepo(s: Db, p: Id, enrollment: Id, assignment: Id, revision: Revision): Db {
    if (exists q :: q in s.repos && s.repos[q].enrollment == enrollment && s.repos[q].assignment == assignment)
       || !(revision.assignment.opensAt <= s.now <= revision.assignment.deadline) then s
    else
      var repo := Repo(enrollment, assignment, revision, revision, false, None, None, false);
      Queue.Enqueue(s.(repos := s.repos[p := repo],
                       issued := s.issued + {p}),
                    Key(Provision, p), 10)
  }

  function RolloutTo(s: Db, p: Id, published: Revision): Db {
    if p in s.repos then
      s.(repos := s.repos[p := s.repos[p].(gradingRevision := Merged(s.repos[p].revision, published))])
    else s
  }

  /** What the environment guarantees: UUIDs are fresh, control workers lease control kinds only
      and present records they were given, and `LIMIT` queries answer as ordered. */
  ghost predicate Enabled(s: Db, op: Op) {
    match op
    case Request(p, _, _, _) => Fresh(s, p)
    case LeaseControl(kinds, locked, k, _, token) =>
      Fresh(s, token) && Grade !in kinds && FirstOf(s, Candidates(s, kinds, locked), k)
    case Finish(g) => ControlGrant(s, g) && (g.key.kind == Snapshot ==> g in s.processed)
    case PollInvitation(g) => ControlGrant(s, g)
    case Fail(g) => ControlGrant(s, g)
    case Postpone(g, _) => ControlGrant(s, g)
    case Defer(g, _) => ControlGrant(s, g)
    case FailPermanently(g) => ControlGrant(s, g)
    case Record(p, sha, received, source, event, sub, picks) =>
      && Fresh(s, event) && Fresh(s, sub) && event != sub
      && (Recordable(s, p, sha, source) && Receive(s, p, sha, received, source, event, sub).subs != s.subs ==>
            FillsSlots(Receive(s, p, sha, received, source, event, sub), p, picks))
    case Refill(p, picks) => FillsSlots(s, p, picks)
    case Select(_, id) => Fresh(s, id)
    case EnqueueRun(_, _, id) => Fresh(s, id)
    case EndSnapshot(g, id) =>
      Fresh(s, id) && ControlGrant(s, g) && g.key.kind == Snapshot && CanEnqueue(s, g.key.subject)
    case LeaseGrade(w, requested, locked, k, token) =>
      Fresh(s, token) && FirstOf(s, GradeCandidates(s, w, requested, locked), k)
    case Commit(ticket) => ticket in s.tickets
    case SchedulePrivate(_, id) => Fresh(s, id)
    case RetryPrivate(_, id) => Fresh(s, id)
    case _ => true
  }

  predicate ControlGrant(s: Db, g: Grant) {
    g in s.grants && g.key.kind != Grade
  }

  ghost predicate FillsSlots(s: Db, p: Id, picks: set<Id>) {
    p in s.repos ==> Picked(CancelObsolete(s, s.repos[p].enrollment), s.repos[p].enrollment, picks)
  }

  ghost function Apply(s: Db, op: Op): Db
    requires Enabled(s, op)
  {
    match op
    case Tick(n) => s.(now := s.now + n)
    case Request(p, e, a, v) => RequestRepo(s, p, e, a, v)
    case Rollout(p, v) => RolloutTo(s, p, v)
    case LeaseControl(_, _, k, owner, token) => Grantee(s, k, owner, token)
    case Heartbeat(k, token, owner) => Queue.Heartbeat(s, k, token, owner)
    case Finish(g) => Queue.Finish(s, g)
    case PollInvitation(g) => Queue.PollInvitation(s, g)
    case Fail(g) => Queue.Fail(s, g)
    case Postpone(g, until) => Queue.Postpone(s, g, until)
    case Defer(g, until) => Queue.Defer(s, g, until)
    case FailPermanently(g) => Queue.FailPermanently(s, g)
    case ExpireExhausted => Queue.ExpireExhausted(s)
    case Retry(k) => Queue.Retry(s, k)
    case Reprovision(p) => Reset(Queue.Enqueue(s, Key(Provision, p), 10), Key(Provision, p), {Failed})
    case Relock(p) => Reset(s, Key(Lock, p), {Done, Failed})
    case Record(p, sha, received, source, event, sub, picks) =>
      Submissions.Record(s, p, sha, received, source, event, sub, picks)
    case Refill(p, picks) => ScheduleSnapshots(s, p, picks)
    case Close(p) => Submissions.Close(s, p)
    case Extend(p, d) => Submissions.Extend(s, p, d)
    case Select(event, id) => Submissions.Select(s, event, id)
    case Retain(x, digest) => Submissions.Retain(s, x, digest)
    case EnqueueRun(x, regrade, id) => Grading.EnqueueRun(s, x, regrade, id)
    case EndSnapshot(g, id) => Grading.EnqueueRun(s, g.key.subject, false, id).(processed := s.processed + {g})
    case LeaseGrade(w, _, _, k, token) => Grading.LeaseGrade(s, w, k, token)
    case Examine(w, k, result) => Examined(s, w, k, result)
    case Commit(ticket) => Grading.Commit(s, ticket)
    case SchedulePrivate(p, id) => Grading.SchedulePrivate(s, p, id)
    case RetryPrivate(failed, id) => Grading.RetryPrivate(s, failed, id)
    case SyncFailed => Grading.SyncFailed(s)
  }

  /** `ops` can be performed one after the other from `s`. */
  ghost predicate Legal(s: Db, ops: seq<Op>)
    decreases |ops|
  {
    ops == [] || (Enabled(s, ops[0]) && Legal(Apply(s, ops[0]), ops[1..]))
  }

  ghost function Exec(s: Db, ops: seq<Op>): Db
    requires Legal(s, ops)
    decreases |ops|
  {
    if ops == [] then s else Exec(Apply(s, ops[0]), ops[1..])
  }
}
