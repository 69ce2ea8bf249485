/** What closing does, and what every repository is owed: provisioning once, a lock once closed. */
module Closing {
  import opened Wrappers
  import opened Protocol
  import opened Database
  import opened Queue
  import opened Submissions
  import opened Grading
  import opened Lifecycle
  import opened Invariant
  import opened Preservation
  import opened ControlSteps
  import opened Frames
  import opened Theorems

  // ---- one close ----

  /** Closing a repository that is due queues its lock, and gives a failed one another chance. */
  lemma LockQueued(s: Db, p: Id)
    requires p in s.repos && s.repos[p].Deadline() < s.now
    ensures var k, s' := Key(Lock, p), Submissions.Close(s, p);
            && k in s'.tasks
            && s'.tasks[k] ==
               if k !in s.tasks then Task(100, Pending, 0, s.now, "", None, 0)
               else if s.tasks[k].status == TaskStatus.Failed then
                 s.tasks[k].(status := Pending, attempts := 0, availableAt := s.now)
               else s.tasks[k]
  {
    hide Freeze;
    if !s.repos[p].closed {
      FreezeLeaves(s, p, Key(Lock, p));
    }
  }

  lemma FreezeLeaves(s: Db, p: Id, k: Key)
    requires p in s.repos && k.kind == Lock
    ensures var s' := Freeze(s, p); s'.now == s.now && (k in s'.tasks <==> k in s.tasks)
    ensures k in s.tasks ==> Freeze(s, p).tasks[k] == s.tasks[k]
  {
    hide Latest;
  }

  /** The repository is closed with the newest submission, or none, as its final one; a closed
      repository keeps its choice. */
  lemma Chosen(s: Db, p: Id)
    requires p in s.repos && s.repos[p].Deadline() < s.now
    ensures var r' := Submissions.Close(s, p).repos[p];
            && r' == s.repos[p].(closed := true, final := r'.final)
            && (s.repos[p].closed ==> r'.final == s.repos[p].final)
            && (!s.repos[p].closed && r'.final.Some? ==> IsLatest(s.subs, p, r'.final.value))
            && (!s.repos[p].closed && r'.final.None? ==> forall x :: x in s.subs ==> s.subs[x].repo != p)
  {
    hide Submissions.Close, Latest;
    CloseFrame(s, p);
  }

  /** The work of the submission that becomes final is put in front, also if it had failed or been
      cancelled; nothing else moves but the lock. */
  lemma FinalWorkFirst(s: Db, p: Id, x: Id, k: Key)
    requires p in s.repos && s.repos[p].Deadline() < s.now && !s.repos[p].closed && IsLatest(s.subs, p, x)
    requires k in s.tasks && k != Key(Lock, p)
    ensures var s' := Submissions.Close(s, p);
            && k in s'.tasks
            && s'.tasks[k] ==
               if (k == Key(Snapshot, x)) || (k.kind == Grade && k.subject in s.runs
                                              && s.runs[k.subject].submission == x)
               then
                 if s.tasks[k].status in {TaskStatus.Failed, Cancelled}
                 then s.tasks[k].(priority := 100, availableAt := s.now, status := Pending, attempts := 0)
                 else s.tasks[k].(priority := 100, availableAt := s.now)
               else s.tasks[k]
  {
    hide Latest;
    LatestIs(s.subs, p, x);
  }

  /** Before the deadline has passed, and without the repository, nothing happens. */
  lemma NotDue(s: Db, p: Id)
    requires p in s.repos ==> s.now <= s.repos[p].Deadline()
    ensures Submissions.Close(s, p) == s
  {
  }

  // ---- one request ----

  /** A student gets a repository exactly within the exercise's window and if it has none yet; it
      starts open, under its own definition, and is provisioned. */
  lemma Requested(s: Db, p: Id, e: Id, a: Id, v: Revision)
    requires Inv(s) && Fresh(s, p)
    ensures var s' := RequestRepo(s, p, e, a, v);
            && (p in s'.repos <==>
                && v.assignment.opensAt <= s.now <= v.assignment.deadline
                && forall q :: q in s.repos ==> s.repos[q].enrollment != e || s.repos[q].assignment != a)
            && (p in s'.repos ==>
                  && s'.repos == s.repos[p := Repo(e, a, v, v, false, None, None, false)]
                  && Key(Provision, p) in s'.tasks
                  && (Key(Provision, p) !in s.tasks ==>
                        s'.tasks[Key(Provision, p)] == Task(10, Pending, 0, s.now, "", None, 0)))
            && (p !in s'.repos ==> s' == s)
  {
    hide Inv;
    Open(s);
  }

  // ---- every reachable state ----

  /** Every repository is provisioned, every closed one is locked, and a student has one repository
      for an exercise. */
  ghost predicate Furnished(s: Db) {
    && (forall p :: p in s.repos ==> Key(Provision, p) in s.tasks)
    && (forall p :: p in s.repos && s.repos[p].closed ==> Key(Lock, p) in s.tasks)
    && (forall p, q :: p in s.repos && q in s.repos && SameWork(s.repos[p], s.repos[q]) ==> p == q)
  }

  predicate SameWork(r: Database.Repo, r': Database.Repo) {
    r.enrollment == r'.enrollment && r.assignment == r'.assignment
  }

  lemma RequestFurnishes(s: Db, op: Op)
    requires Furnished(s) && op.Request? && Enabled(s, op)
    ensures Furnished(Apply(s, op))
  {
  }

  lemma SelectKeys(s: Db, event: Id, id: Id)
    ensures Submissions.Select(s, event, id).repos.Keys == s.repos.Keys
  {
    hide MadeFrom;
  }

  lemma NoNewRepos(s: Db, op: Op)
    requires Enabled(s, op) && !op.Request?
    ensures Apply(s, op).repos.Keys == s.repos.Keys
  {
    hide Enabled, Apply, Queue.FailPermanently, Submissions.Record, Submissions.Close, Submissions.Select;
    hide Grading.Commit, Merged;
    StepIs(s, op);
    match op
    case FailPermanently(g) => PermanentFlags(s, g);
    case Record(q, sha, received, source, event, sub, picks) =>
      RecordFlags(s, q, sha, received, source, event, sub, picks);
    case Close(q) => CloseFrame(s, q);
    case Select(event, id) => SelectKeys(s, event, id);
    case Commit(t) => CommitFlags(s, t);
    case _ => FrameOf(s, op);
  }

  lemma NewlyClosed(s: Db, op: Op, p: Id)
    requires Enabled(s, op) && !op.Request? && p in s.repos && p in Apply(s, op).repos
    requires !s.repos[p].closed && Apply(s, op).repos[p].closed
    ensures op == Op.Close(p) && s.repos[p].Deadline() < s.now && Key(Lock, p) in Apply(s, op).tasks
  {
    hide Enabled, Apply, Submissions.Close, Latest, Merged;
    RepoFateOf(s, op, p);
    StepIs(s, op);
    LockQueued(s, p);
  }

  lemma FurnishedStep(s: Db, op: Op)
    requires Inv(s) && Enabled(s, op) && Furnished(s)
    ensures Furnished(Apply(s, op))
  {
    hide Inv, Enabled, Apply, RunsKept, SubmissionsKept, EventsKept, Fated;
    if op.Request? {
      RequestFurnishes(s, op);
    } else {
      var s' := Apply(s, op);
      NoNewRepos(s, op);
      Step(s, op);
      forall p | p in s'.repos && s'.repos[p].closed && !s.repos[p].closed
        ensures Key(Lock, p) in s'.tasks
      {
        NewlyClosed(s, op, p);
      }
    }
  }

  lemma {:induction false} FurnishedFor(s: Db, ops: seq<Op>)
    requires Inv(s) && Legal(s, ops) && Furnished(s)
    ensures Furnished(Exec(s, ops))
    decreases |ops|
  {
    hide Inv, Kept, Enabled, Apply, Legal, Furnished;
    if ops != [] {
      Unfold(s, ops);
      Step(s, ops[0]);
      KeptInv(s, Apply(s, ops[0]));
      FurnishedStep(s, ops[0]);
      FurnishedFor(Apply(s, ops[0]), ops[1..]);
    }
  }

  lemma EmptyFurnished()
    ensures Furnished(EMPTY)
  {
  }

  /** In every reachable state a closed repository has its lock task and every repository its
      provisioning task. */
  lemma ClosedIsLocked(ops: seq<Op>, p: Id)
    requires Legal(EMPTY, ops) && p in Exec(EMPTY, ops).repos
    ensures var s := Exec(EMPTY, ops);
            Key(Provision, p) in s.tasks && (s.repos[p].closed ==> Key(Lock, p) in s.tasks)
  {
    hide Inv, Legal, Exec;
    NoSteps(EMPTY);
    Reachable([]);
    EmptyFurnished();
    FurnishedFor(EMPTY, ops);
  }

  /** In every reachable state a student has at most one repository for an exercise. */
  lemma OneEach(ops: seq<Op>, p: Id, q: Id)
    requires Legal(EMPTY, ops)
    requires var s := Exec(EMPTY, ops);
             && p in s.repos && q in s.repos && s.repos[p].enrollment == s.repos[q].enrollment
             && s.repos[p].assignment == s.repos[q].assignment
    ensures p == q
  {
    hide Inv, Legal, Exec;
    NoSteps(EMPTY);
    Reachable([]);
    EmptyFurnished();
    FurnishedFor(EMPTY, ops);
    assert SameWork(Exec(EMPTY, ops).repos[p], Exec(EMPTY, ops).repos[q]);
  }
}
