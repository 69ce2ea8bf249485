/** The rows of the grading database and the queries its transactions share. */
module Database {
  import opened Wrappers
  import opened Protocol

  /** A UUID. Fresh ones are arbitrary, so their order says nothing about their age. */
  type Id = nat

  datatype Kind = Provision | Snapshot | Grade | Publish | Lock

  /** The unique `dedup_key` of a task, "kind:subject"; the payload holds the same subject. */
  datatype Key = Key(kind: Kind, subject: Id)

  datatype TaskStatus = Pending | Leased | Done | Failed | Cancelled

  /** `owner` and `leaseUntil` mean nothing until `token` is set by the first lease. */
  datatype Task = Task(
    priority: int,
    status: TaskStatus,
    attempts: int,
    availableAt: int,
    owner: string,
    token: Option<Id>,
    leaseUntil: int)

  datatype RunStatus =
    | Queued | Running | Superseded
    | Finished(outcome: ResultStatus)

  datatype Run = Run(
    submission: Id,
    revision: Revision,
    attempt: nat,
    status: RunStatus,
    points: Option<int>,
    publicPoints: Option<int>,
    report: Option<RunResult>,
    result: Option<RunResult>,
    baseline: Option<Id>)

  datatype Submission = Submission(repo: Id, event: Id, sha: string, receivedAt: int, source: Option<string>)

  /** Who reported a commit; a webhook names its delivery. */
  datatype EventSource = Webhook(delivery: Id) | Registration | Reconciliation

  datatype Event = Event(repo: Id, sha: string, receivedAt: int, source: EventSource, eligible: bool)

  /** A student repository with its optional extension row. */
  datatype Repo = Repo(
    enrollment: Id,
    assignment: Id,
    revision: Revision,
    gradingRevision: Revision,
    closed: bool,
    final: Option<Id>,
    extension: Option<int>,
    needsReview: bool)
  {
    function Deadline(): int {
      if extension.Some? then extension.value else revision.assignment.deadline
    }
  }

  /** What a lease call handed to a worker: the task record it will present later. */
  datatype Grant = Grant(key: Key, token: Id, owner: string, attempts: int)

  /** What the first phase of result acceptance carries into the second. */
  datatype Ticket = Ticket(
    key: Key,
    worker: string,
    result: RunResult,
    points: Option<int>,
    publicPoints: Option<int>)

  /** One database state. The last four fields are history: the UUIDs drawn so far, the leases
      handed out, the acceptances between their two phases, and the snapshot leases whose work
      has reached its end. */
  datatype Db = Db(
    now: int,
    tasks: map<Key, Task>,
    runs: map<Id, Run>,
    subs: map<Id, Submission>,
    events: map<Id, Event>,
    repos: map<Id, Repo>,
    issued: set<Id>,
    grants: set<Grant>,
    tickets: set<Ticket>,
    processed: set<Grant>)

  const EMPTY := Db(0, map[], map[], map[], map[], map[], {}, {}, {}, {})

  predicate Live(t: Task, now: int) {
    t.status == Leased && t.leaseUntil > now
  }

  /** Task `k` is leased under `token` and the lease has not run out. */
  predicate Holds(s: Db, k: Key, token: Id) {
    k in s.tasks && s.tasks[k].token == Some(token) && Live(s.tasks[k], s.now)
  }

  predicate InRepo(s: Db, x: Id, p: Id) {
    x in s.subs && s.subs[x].repo == p
  }

  predicate InEnrollment(s: Db, x: Id, e: Id) {
    x in s.subs && s.subs[x].repo in s.repos && s.repos[s.subs[x].repo].enrollment == e
  }

  /** The order of `received_at DESC, id DESC`. */
  predicate Newer(subs: map<Id, Submission>, x: Id, y: Id)
    requires x in subs && y in subs
  {
    subs[x].receivedAt > subs[y].receivedAt || (subs[x].receivedAt == subs[y].receivedAt && x > y)
  }

  ghost predicate IsLatest(subs: map<Id, Submission>, p: Id, x: Id) {
    && x in subs && subs[x].repo == p
    && forall y :: y in subs && subs[y].repo == p && y != x ==> Newer(subs, x, y)
  }

  /** `SELECT id FROM submissions WHERE repository_id=p ORDER BY received_at DESC,id DESC LIMIT 1` */
  ghost function Latest(subs: map<Id, Submission>, p: Id): (r: Option<Id>)
    ensures r.Some? ==> IsLatest(subs, p, r.value)
    ensures r.None? ==> forall x :: x in subs ==> subs[x].repo != p
  {
    var mine := set x | x in subs && subs[x].repo == p;
    if mine == {} then
      assert forall x :: x in subs && subs[x].repo == p ==> x in mine;
      None
    else
      LatestExists(subs, p, mine);
      var x: Id :| IsLatest(subs, p, x);
      Some(x)
  }

  lemma {:induction false} NewestOf(subs: map<Id, Submission>, some: set<Id>) returns (x: Id)
    requires some != {} && forall y :: y in some ==> y in subs
    ensures x in some && forall y :: y in some && y != x ==> Newer(subs, x, y)
  {
    var z :| z in some;
    var rest := some - {z};
    assert some == rest + {z};
    if rest == {} {
      x := z;
    } else {
      var w := NewestOf(subs, rest);
      x := if Newer(subs, z, w) then z else w;
    }
  }

  lemma LatestExists(subs: map<Id, Submission>, p: Id, mine: set<Id>)
    requires mine == (set x | x in subs && subs[x].repo == p) && mine != {}
    ensures exists x: Id :: IsLatest(subs, p, x)
  {
    var x := NewestOf(subs, mine);
    assert IsLatest(subs, p, x);
  }

  lemma LatestIs(subs: map<Id, Submission>, p: Id, x: Id)
    requires IsLatest(subs, p, x)
    ensures Latest(subs, p) == Some(x)
  {
    assert subs[x].repo == p;
  }

  ghost predicate IsTop(runs: map<Id, Run>, x: Id, r: Id) {
    && r in runs && runs[r].submission == x
    && forall q :: q in runs && runs[q].submission == x ==> runs[q].attempt <= runs[r].attempt
  }

  lemma {:induction false} TopOf(runs: map<Id, Run>, some: set<Id>) returns (r: Id)
    requires some != {} && forall q :: q in some ==> q in runs
    ensures r in some && forall q :: q in some ==> runs[q].attempt <= runs[r].attempt
  {
    var z :| z in some;
    var rest := some - {z};
    assert some == rest + {z};
    if rest == {} {
      r := z;
    } else {
      var w := TopOf(runs, rest);
      r := if runs[z].attempt > runs[w].attempt then z else w;
    }
  }

  /** `SELECT COALESCE(max(attempt),0) FROM grading_runs WHERE submission_id=x` */
  ghost function MaxAttempt(runs: map<Id, Run>, x: Id): (n: nat)
    ensures forall q :: q in runs && runs[q].submission == x ==> runs[q].attempt <= n
    ensures n > 0 ==> exists r :: IsTop(runs, x, r) && runs[r].attempt == n
  {
    var mine := set r | r in runs && runs[r].submission == x;
    if mine == {} then
      assert forall r :: r in runs && runs[r].submission == x ==> r in mine;
      0
    else
      assert exists r: Id :: IsTop(runs, x, r) by {
        var r := TopOf(runs, mine);
        assert IsTop(runs, x, r);
      }
      var r: Id :| IsTop(runs, x, r);
      runs[r].attempt
  }

  /** The last public run of a submission, by attempt. */
  ghost predicate IsLastPublic(runs: map<Id, Run>, x: Id, r: Id) {
    && r in runs && runs[r].submission == x && runs[r].baseline.None?
    && forall q :: q in runs && runs[q].submission == x && runs[q].baseline.None?
                   ==> runs[q].attempt <= runs[r].attempt
  }

  ghost predicate HasPublicRun(runs: map<Id, Run>, x: Id) {
    exists r :: r in runs && runs[r].submission == x && runs[r].baseline.None?
  }
}
