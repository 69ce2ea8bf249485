/** Safety of whole runs: what holds in every reachable state, and what no later step undoes. */
module Theorems {
  import opened Wrappers
  import opened Database
  import opened Queue
  import opened Submissions
  import opened Grading
  import opened Lifecycle
  import opened Invariant
  import opened Preservation
  import opened ControlSteps
  import opened GradeSteps
  import opened RunSteps
  import opened Fate

  // ---- runs ----

  lemma NoSteps(s: Db)
    ensures Legal(s, []) && Exec(s, []) == s
  {
  }

  lemma Unfold(s: Db, ops: seq<Op>)
    requires ops != [] && Legal(s, ops)
    ensures Enabled(s, ops[0]) && Legal(Apply(s, ops[0]), ops[1..])
    ensures Exec(s, ops) == Exec(Apply(s, ops[0]), ops[1..])
  {
    hide Enabled, Apply;
  }

  lemma Fold(s: Db, ops: seq<Op>)
    requires ops != [] && Enabled(s, ops[0]) && Legal(Apply(s, ops[0]), ops[1..])
    ensures Legal(s, ops) && Exec(s, ops) == Exec(Apply(s, ops[0]), ops[1..])
  {
    hide Enabled, Apply;
  }

  lemma {:induction false} OneMoreStep(s: Db, ops: seq<Op>, op: Op)
    requires Legal(s, ops) && Enabled(Exec(s, ops), op)
    ensures Legal(s, ops + [op]) && Exec(s, ops + [op]) == Apply(Exec(s, ops), op)
    decreases |ops|
  {
    hide Enabled, Apply;
    if ops == [] {
      assert [op][1..] == [];
      assert [] + [op] == [op];
    } else {
      assert (ops + [op])[1..] == ops[1..] + [op];
      OneMoreStep(Apply(s, ops[0]), ops[1..], op);
    }
  }

  // ---- the invariant over runs ----

  lemma LeaseControlEnabled(s: Db, op: Op)
    requires op.LeaseControl? && Enabled(s, op)
    ensures op.k in s.tasks && op.k.kind != Grade && Ready(s.tasks[op.k], s.now) && Fresh(s, op.token)
    ensures Apply(s, op) == Grantee(s, op.k, op.owner, op.token)
  {
    hide Ready, Grantee;
  }

  lemma LeaseGradeEnabled(s: Db, op: Op)
    requires op.LeaseGrade? && Enabled(s, op)
    ensures op.k in s.tasks && op.k.kind == Grade && Ready(s.tasks[op.k], s.now) && Fresh(s, op.token)
            && RunInRows(s, op.k.subject)
    ensures !EnrollmentBusy(s, EnrollmentOf(s, op.k.subject))
    ensures Apply(s, op) == Grading.LeaseGrade(s, op.w, op.k, op.token)
  {
    hide Ready, EnrollmentBusy, Suits, WorkerBusy;
  }

  /** Every transaction keeps the invariant and never rewrites history. */
  lemma Step(s: Db, op: Op)
    requires Inv(s) && Enabled(s, op)
    ensures Kept(s, Apply(s, op))
  {
    hide Inv, Kept, Grantee, RequestRepo, RolloutTo, Queue.Enqueue, Queue.FailPermanently;
    hide Queue.ExpireExhausted, Reset, Submissions.Record, ScheduleSnapshots, FillsSlots, Receive;
    hide Submissions.Close, Submissions.Extend, Submissions.Select, Submissions.Retain, Grading.EnqueueRun;
    hide CanEnqueue, Grading.LeaseGrade, Examined, Grading.Commit, Grading.SchedulePrivate;
    hide Grading.RetryPrivate, Grading.SyncFailed, FirstOf, Candidates, GradeCandidates;
    match op
    case Tick(n) => TickKeeps(s, n);
    case Request(p, e, a, v) => RequestKeeps(s, p, e, a, v);
    case Rollout(p, v) => RolloutKeeps(s, p, v);
    case LeaseControl(_, _, k, owner, token) => LeaseControlEnabled(s, op); LeaseControlKeeps(s, k, owner, token);
    case Heartbeat(_, _, _) => OneRowKeeps(s, op);
    case Finish(_) => OneRowKeeps(s, op);
    case PollInvitation(_) => OneRowKeeps(s, op);
    case Fail(_) => OneRowKeeps(s, op);
    case Postpone(_, _) => OneRowKeeps(s, op);
    case Defer(_, _) => OneRowKeeps(s, op);
    case FailPermanently(g) => FailPermanentlyKeeps(s, g);
    case ExpireExhausted => ExpireKeeps(s);
    case Retry(_) => OneRowKeeps(s, op);
    case Reprovision(p) => RequeueKeeps(s, Key(Provision, p), 10);
    case Relock(_) => OneRowKeeps(s, op);
    case Record(p, sha, received, source, event, sub, picks) =>
      RecordKeeps(s, p, sha, received, source, event, sub, picks);
    case Refill(p, picks) => RefillKeeps(s, p, picks);
    case Close(p) => CloseKeeps(s, p);
    case Extend(p, d) => ExtendKeeps(s, p, d);
    case Select(event, id) => SelectKeeps(s, event, id);
    case Retain(x, digest) => RetainKeeps(s, x, digest);
    case EnqueueRun(x, regrade, id) => EnqueueRunKeeps(s, x, regrade, id);
    case EndSnapshot(g, id) => EndSnapshotKeeps(s, g, id);
    case LeaseGrade(w, _, _, k, token) => LeaseGradeEnabled(s, op); LeaseGradeKeeps(s, w, k, token);
    case Examine(w, k, result) => ExamineKeeps(s, w, k, result);
    case Commit(t) => CommitKeeps(s, t);
    case SchedulePrivate(p, id) => SchedulePrivateKeeps(s, p, id);
    case RetryPrivate(failed, id) => RetryPrivateKeeps(s, failed, id);
    case SyncFailed => SyncKeeps(s);
  }

  lemma ExtendsSelf(s: Db)
    ensures Extends(s, s)
  {
  }

  lemma {:induction false} Safe(s: Db, ops: seq<Op>)
    requires Inv(s) && Legal(s, ops)
    ensures Inv(Exec(s, ops)) && Extends(s, Exec(s, ops))
    decreases |ops|
  {
    hide Inv, Extends, Kept, Enabled, Apply;
    if ops == [] {
      ExtendsSelf(s);
    } else {
      var s1 := Apply(s, ops[0]);
      Step(s, ops[0]);
      KeptInv(s, s1);
      Safe(s1, ops[1..]);
      ExtendsTransitive(s, s1, Exec(s, ops));
    }
  }

  lemma InitiallyInv()
    ensures Inv(EMPTY)
  {
    hide *;
    InitialRows();
    InitialBase();
    InitialRuns();
    ExtendsSelf(EMPTY);
    Assemble(EMPTY, EMPTY);
    KeptInv(EMPTY, EMPTY);
  }

  lemma InitialRows()
    ensures References(EMPTY) && Fenced(EMPTY) && Exclusive(EMPTY) && Snapshots(EMPTY)
  {
  }

  lemma InitialBase()
    requires References(EMPTY)
    ensures Base(EMPTY)
  {
    hide References;
  }

  lemma InitialRuns()
    ensures RunsFollowTasks(EMPTY) && Scores(EMPTY) && Baselines(EMPTY) && Tickets(EMPTY) && PrivateRuns(EMPTY)
            && Attempts(EMPTY)
  {
  }

  /** Every state reachable from an empty database satisfies the invariant. */
  lemma Reachable(ops: seq<Op>)
    requires Legal(EMPTY, ops)
    ensures Inv(Exec(EMPTY, ops))
  {
    hide Inv, Extends;
    InitiallyInv();
    Safe(EMPTY, ops);
  }

  // ---- fencing ----

  /** Of the calls that present the token, the run has heartbeats only. */
  ghost predicate OnlyHeartbeats(ops: seq<Op>, k: Key, token: Id) {
    forall i :: 0 <= i < |ops| && Presents(ops[i], k, token) ==> ops[i].Heartbeat?
  }

  /** The end of a lease as its holder can compute it: every heartbeat of his renews it. */
  function Renewed(s: Db, op: Op, k: Key, token: Id, owner: string, until: int): int {
    if op == Op.Heartbeat(k, token, owner) then s.now + LEASE_SECONDS else until
  }

  ghost function Expiry(s: Db, ops: seq<Op>, k: Key, token: Id, owner: string, until: int): int
    requires Legal(s, ops)
    decreases |ops|
  {
    if ops == [] then until
    else Expiry(Apply(s, ops[0]), ops[1..], k, token, owner, Renewed(s, ops[0], k, token, owner, until))
  }

  /** The clock never reaches that end. */
  ghost predicate InTime(s: Db, ops: seq<Op>, k: Key, token: Id, owner: string, until: int)
    requires Legal(s, ops)
    decreases |ops|
  {
    && s.now < until
    && (ops != [] ==> InTime(Apply(s, ops[0]), ops[1..], k, token, owner, Renewed(s, ops[0], k, token, owner, until)))
  }

  /** A holder that heartbeats in time keeps its lease through every run: nobody else can take the
      task, its owner or its attempt away, and the row expires exactly when the holder thinks. */
  lemma {:induction false} LeaseHolds(s: Db, ops: seq<Op>, k: Key, token: Id)
    requires Inv(s) && Legal(s, ops) && Holds(s, k, token) && OnlyHeartbeats(ops, k, token)
    requires InTime(s, ops, k, token, s.tasks[k].owner, s.tasks[k].leaseUntil)
    ensures var s' := Exec(s, ops);
            && Holds(s', k, token)
            && s'.tasks[k].owner == s.tasks[k].owner && s'.tasks[k].attempts == s.tasks[k].attempts
            && s'.tasks[k].leaseUntil == Expiry(s, ops, k, token, s.tasks[k].owner, s.tasks[k].leaseUntil)
    decreases |ops|
  {
    hide Inv, Extends, Kept, Enabled, Apply, Legal, Fates, OnlyHeartbeats, Renewed;
    if ops != [] {
      StepOfLease(s, ops, k, token);
      LeaseHolds(Apply(s, ops[0]), ops[1..], k, token);
    }
  }

  lemma HeartbeatRow(s: Db, op: Op, k: Key, token: Id)
    requires op.Heartbeat? && Holds(s, k, token) && Presents(op, k, token)
    ensures Enabled(s, op)
    ensures var s1 := Apply(s, op);
            && s1.now == s.now && k in s1.tasks
            && s1.tasks[k] == s.tasks[k].(leaseUntil := Renewed(s, op, k, token, s.tasks[k].owner,
                                                                s.tasks[k].leaseUntil))
  {
  }

  lemma StepOfLease(s: Db, ops: seq<Op>, k: Key, token: Id)
    requires ops != [] && Inv(s) && Legal(s, ops) && Holds(s, k, token) && OnlyHeartbeats(ops, k, token)
    requires InTime(s, ops, k, token, s.tasks[k].owner, s.tasks[k].leaseUntil)
    ensures Enabled(s, ops[0])
    ensures var s1 := Apply(s, ops[0]);
            && Inv(s1) && Legal(s1, ops[1..]) && Exec(s, ops) == Exec(s1, ops[1..])
            && Holds(s1, k, token) && OnlyHeartbeats(ops[1..], k, token)
            && s1.tasks[k].owner == s.tasks[k].owner && s1.tasks[k].attempts == s.tasks[k].attempts
            && s1.tasks[k].leaseUntil == Renewed(s, ops[0], k, token, s.tasks[k].owner, s.tasks[k].leaseUntil)
  {
    hide Inv, Kept, Extends, Enabled, Apply, Legal, Exec, Presents;
    Unfold(s, ops);
    Step(s, ops[0]);
    var s1 := Apply(s, ops[0]);
    KeptInv(s, s1);
    FateOfAll(s, ops[0]);
    assert RowFate(s, ops[0], k, s.tasks[k], s1.tasks[k]);
    if Presents(ops[0], k, token) {
      HeartbeatRow(s, ops[0], k, token);
    } else {
      NoRenewal(s, ops[0], k, token);
    }
    assert InTime(s1, ops[1..], k, token, s.tasks[k].owner,
                  Renewed(s, ops[0], k, token, s.tasks[k].owner, s.tasks[k].leaseUntil));
  }

  lemma NoRenewal(s: Db, op: Op, k: Key, token: Id)
    requires !Presents(op, k, token)
    ensures forall owner, until :: Renewed(s, op, k, token, owner, until) == until
  {
  }

  /** A token that is no longer (or not yet) on the row never gets there again, and nothing that
      presents it changes the row. */
  lemma {:induction false} StaleTokenInert(s: Db, ops: seq<Op>, k: Key, token: Id)
    requires Inv(s) && Legal(s, ops) && k in s.tasks && s.tasks[k].token != Some(token) && token in s.issued
    ensures var s' := Exec(s, ops); k in s'.tasks && s'.tasks[k].token != Some(token)
    ensures forall op :: Enabled(Exec(s, ops), op) && Presents(op, k, token) ==>
              k in Apply(Exec(s, ops), op).tasks && Apply(Exec(s, ops), op).tasks[k] == Exec(s, ops).tasks[k]
    decreases |ops|
  {
    hide Inv, Kept, Enabled, Apply, Legal, Presents, RunsKept, SubmissionsKept, ReposKept, EventsKept;
    if ops == [] {
      forall op | Enabled(s, op) && Presents(op, k, token)
        ensures k in Apply(s, op).tasks && Apply(s, op).tasks[k] == s.tasks[k]
      {
        StaleCall(s, op, k, token);
      }
    } else {
      Unfold(s, ops);
      var s1 := Apply(s, ops[0]);
      Step(s, ops[0]);
      KeptInv(s, s1);
      FateOfAll(s, ops[0]);
      assert RowFate(s, ops[0], k, s.tasks[k], s1.tasks[k]);
      StaleTokenInert(s1, ops[1..], k, token);
    }
  }

  lemma StaleCall(s: Db, op: Op, k: Key, token: Id)
    requires k in s.tasks && s.tasks[k].token != Some(token) && Enabled(s, op) && Presents(op, k, token)
    ensures k in Apply(s, op).tasks && Apply(s, op).tasks[k] == s.tasks[k]
  {
    hide Backoff, FillsSlots, FirstOf, Candidates, GradeCandidates, CanEnqueue;
  }
}
