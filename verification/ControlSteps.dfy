/** Queue, receipt and closure transactions keep the invariant. */
module ControlSteps {
  import opened Wrappers
  import opened Protocol
  import opened Database
  import opened Queue
  import opened Submissions
  import opened Lifecycle
  import opened Invariant
  import opened Preservation

  // ---- queue ----

  lemma UpdateRow(s: Db, k: Key, t: Task)
    requires Fenced(s) && k in s.tasks && RowKept(s.tasks[k], t)
    requires k.kind == Grade ==> GradeRowKept(s.tasks[k], t, s.now, s.now)
    requires k.kind == Snapshot && t.status == Done && s.tasks[k].status != Done ==> Captured(s, k.subject)
    ensures TaskStep(s, s.(tasks := s.tasks[k := t]))
  {
    hide Captured;
  }

  lemma AddRow(s: Db, k: Key, priority: int)
    requires Fenced(s) && NewControlRow(s, k)
    ensures TaskStep(s, Queue.Enqueue(s, k, priority))
  {
    hide Captured;
  }

  lemma SameState(s: Db)
    requires Fenced(s)
    ensures TaskStep(s, s)
  {
    hide Captured;
  }

  /** The operations of a worker that holds the task, and the operator's own. */
  predicate MovesOneRow(op: Op) {
    op.Heartbeat? || op.Finish? || op.PollInvitation? || op.Fail? || op.Postpone? || op.Defer? || op.Retry?
    || op.Relock?
  }

  ghost function MovedKey(op: Op): Key
    requires MovesOneRow(op)
  {
    match op
    case Heartbeat(k, _, _) => k
    case Retry(k) => k
    case Relock(p) => Key(Lock, p)
    case Finish(g) => g.key
    case PollInvitation(g) => g.key
    case Fail(g) => g.key
    case Postpone(g, _) => g.key
    case Defer(g, _) => g.key
  }

  lemma HolderRow(s: Db, op: Op)
    requires Fenced(s) && Snapshots(s) && (op.Fail? || op.Postpone? || op.Defer? || op.Heartbeat?) && Enabled(s, op)
    ensures TaskStep(s, Apply(s, op))
  {
    hide Captured, TaskStep;
    var k := MovedKey(op);
    if k in s.tasks {
      var t := Apply(s, op).tasks[k];
      assert Apply(s, op) == s || Apply(s, op) == s.(tasks := s.tasks[k := t]);
      if Apply(s, op) != s {
        UpdateRow(s, k, t);
      } else {
        SameState(s);
      }
    } else {
      SameState(s);
    }
  }

  lemma EndRow(s: Db, op: Op)
    requires Fenced(s) && Snapshots(s) && (op.Finish? || op.PollInvitation? || op.Retry? || op.Relock?)
             && Enabled(s, op)
    ensures TaskStep(s, Apply(s, op))
  {
    hide Captured, TaskStep;
    var k := MovedKey(op);
    if k in s.tasks {
      var t := Apply(s, op).tasks[k];
      assert Apply(s, op) == s || Apply(s, op) == s.(tasks := s.tasks[k := t]);
      if Apply(s, op) != s {
        UpdateRow(s, k, t);
      } else {
        SameState(s);
      }
    } else {
      SameState(s);
    }
  }

  lemma OneRow(s: Db, op: Op)
    requires Fenced(s) && Snapshots(s) && MovesOneRow(op) && Enabled(s, op)
    ensures TaskStep(s, Apply(s, op))
  {
    hide TaskStep, Fenced, Snapshots, Enabled, Apply;
    if op.Fail? || op.Postpone? || op.Defer? || op.Heartbeat? {
      HolderRow(s, op);
    } else {
      EndRow(s, op);
    }
  }

  lemma OneRowKeeps(s: Db, op: Op)
    requires Inv(s) && MovesOneRow(op) && Enabled(s, op)
    ensures Kept(s, Apply(s, op))
  {
    hide *;
    Open(s);
    OneRow(s, op);
    TaskStepKeeps(s, Apply(s, op));
  }

  lemma ResetIsTaskStep(s: Db, k: Key, from: set<TaskStatus>)
    requires Fenced(s) && k.kind in {Provision, Lock}
    ensures TaskStep(s, Reset(s, k, from))
  {
    hide Captured;
  }

  /** Enqueue a control task if it is missing and give it another chance if it failed. */
  lemma RequeueKeeps(s: Db, k: Key, priority: int)
    requires Inv(s) && k.kind in {Provision, Lock}
    ensures Kept(s, Reset(Queue.Enqueue(s, k, priority), k, {TaskStatus.Failed}))
  {
    hide *;
    Open(s);
    ControlKinds(s, k);
    AddRow(s, k, priority);
    var s1 := Queue.Enqueue(s, k, priority);
    TaskStepKeeps(s, s1);
    KeptInv(s, s1);
    Open(s1);
    ResetIsTaskStep(s1, k, {TaskStatus.Failed});
    TaskStepKeeps(s1, Reset(s1, k, {TaskStatus.Failed}));
    ThenKept(s, s1, Reset(s1, k, {TaskStatus.Failed}));
  }

  lemma ControlKinds(s: Db, k: Key)
    requires k.kind in {Provision, Lock}
    ensures NewControlRow(s, k)
  {
  }

  lemma KeptInv(s: Db, s': Db)
    requires Kept(s, s')
    ensures Inv(s') && Extends(s, s')
  {
    hide Inv, Extends;
  }

  // ---- leasing a control task ----

  lemma GranteeFenced(s: Db, k: Key, owner: string, token: Id)
    requires Fenced(s) && k in s.tasks && Ready(s.tasks[k], s.now) && Fresh(s, token)
    ensures Fenced(Grantee(s, k, owner, token))
  {
  }

  lemma GranteeBase(s: Db, k: Key, owner: string, token: Id)
    requires Base(s) && k in s.tasks
    ensures Base(Grantee(s, k, owner, token))
  {
    hide OncePerEvent;
  }

  lemma GranteeExtends(s: Db, k: Key, owner: string, token: Id)
    requires k in s.tasks
    ensures Extends(s, Grantee(s, k, owner, token))
  {
  }

  lemma GranteeSnapshots(s: Db, k: Key, owner: string, token: Id)
    requires Snapshots(s) && k in s.tasks
    ensures Snapshots(Grantee(s, k, owner, token))
  {
    KeepSnapshots(s, Grantee(s, k, owner, token));
  }

  lemma GranteeQuiet(s: Db, k: Key, owner: string, token: Id)
    requires k in s.tasks && k.kind != Grade
    ensures GradeQuiet(s, Grantee(s, k, owner, token)) && Grantee(s, k, owner, token).tickets == s.tickets
  {
  }

  lemma LeaseControlKeeps(s: Db, k: Key, owner: string, token: Id)
    requires Inv(s) && k in s.tasks && k.kind != Grade && Ready(s.tasks[k], s.now) && Fresh(s, token)
    ensures Kept(s, Grantee(s, k, owner, token))
  {
    hide *;
    var s' := Grantee(s, k, owner, token);
    Open(s);
    GranteeBase(s, k, owner, token);
    BaseReferences(s');
    GranteeExtends(s, k, owner, token);
    GranteeQuiet(s, k, owner, token);
    GranteeFenced(s, k, owner, token);
    GranteeSnapshots(s, k, owner, token);
    KeepGrading(s, s');
    Assemble(s, s');
  }

  // ---- repositories and the clock ----

  ghost predicate RepoStep(s: Db, s': Db) {
    && s' == s.(repos := s'.repos) && s'.repos.Keys == s.repos.Keys
    && forall p :: p in s.repos ==>
         && RepoKept(s.repos[p], s'.repos[p])
         && s'.repos[p].closed == s.repos[p].closed && s'.repos[p].final == s.repos[p].final
  }

  lemma RepoStepReferences(s: Db, s': Db)
    requires References(s) && RepoStep(s, s')
    ensures References(s')
  {
  }

  lemma RepoStepBase(s: Db, s': Db)
    requires Base(s) && RepoStep(s, s')
    ensures Base(s')
  {
    hide OncePerEvent;
    RepoStepReferences(s, s');
  }

  lemma RepoStepExtends(s: Db, s': Db)
    requires RepoStep(s, s')
    ensures Extends(s, s') && Bystander(s, s') && SameHistory(s, s')
  {
  }

  lemma RepoStepKeeps(s: Db, s': Db)
    requires Inv(s) && RepoStep(s, s')
    ensures Kept(s, s')
  {
    hide *;
    Open(s);
    RepoStepBase(s, s');
    RepoStepExtends(s, s');
    BystanderKeeps(s, s');
  }

  lemma TickKeeps(s: Db, n: nat)
    requires Inv(s)
    ensures Kept(s, s.(now := s.now + n))
  {
    hide *;
    Open(s);
    TickBase(s, n);
    TickExtends(s, n);
    BystanderKeeps(s, s.(now := s.now + n));
  }

  lemma TickBase(s: Db, n: nat)
    requires Base(s)
    ensures Base(s.(now := s.now + n))
  {
    hide OncePerEvent;
    var s' := s.(now := s.now + n);
    assert References(s');
  }

  lemma TickExtends(s: Db, n: nat)
    ensures var s' := s.(now := s.now + n); Extends(s, s') && Bystander(s, s') && SameHistory(s, s')
  {
  }

  lemma FlagReviewKeeps(s: Db, p: Id)
    requires Inv(s)
    ensures Kept(s, FlagReview(s, p))
  {
    hide Inv, Kept;
    assert RepoStep(s, FlagReview(s, p));
    RepoStepKeeps(s, FlagReview(s, p));
  }

  lemma FailedRow(s: Db, g: Grant) returns (s1: Db)
    requires Inv(s) && ControlGrant(s, g)
    ensures Kept(s, s1)
    ensures s1.subs == s.subs
    ensures Queue.FailPermanently(s, g) ==
            if g.key.kind == Snapshot && g.key.subject in s.subs then FlagReview(s1, s.subs[g.key.subject].repo) else s1
  {
    hide Inv, Fenced, Kept, TaskStep, Captured, FlagReview;
    Open(s);
    s1 := if Holds(s, g.key, g.token) then s.(tasks := s.tasks[g.key := s.tasks[g.key].(status := TaskStatus.Failed)])
      else s;
    if Holds(s, g.key, g.token) {
      FencedRow(s, g.key);
      UpdateRow(s, g.key, s.tasks[g.key].(status := TaskStatus.Failed));
    } else {
      SameState(s);
    }
    TaskStepKeeps(s, s1);
  }

  lemma FencedRow(s: Db, k: Key)
    requires Fenced(s) && k in s.tasks
    ensures 0 <= s.tasks[k].attempts <= MAX_ATTEMPTS
  {
  }

  lemma FailPermanentlyKeeps(s: Db, g: Grant)
    requires Inv(s) && ControlGrant(s, g)
    ensures Kept(s, Queue.FailPermanently(s, g))
  {
    hide *;
    var s1 := FailedRow(s, g);
    KeptInv(s, s1);
    if g.key.kind == Snapshot && g.key.subject in s.subs {
      FlagReviewKeeps(s1, s.subs[g.key.subject].repo);
      ThenKept(s, s1, FlagReview(s1, s.subs[g.key.subject].repo));
    }
  }

  function WithRepo(s: Db, p: Id, r: Database.Repo): Db {
    s.(repos := s.repos[p := r], issued := s.issued + {p})
  }

  lemma WithRepoBase(s: Db, p: Id, r: Database.Repo)
    requires Base(s) && Fresh(s, p) && !r.closed && r.final.None?
    ensures Base(WithRepo(s, p, r))
  {
    hide OncePerEvent;
    assert p !in s.repos;
    assert References(WithRepo(s, p, r));
  }

  lemma WithRepoExtends(s: Db, p: Id, r: Database.Repo)
    requires References(s) && Fresh(s, p)
    ensures var s' := WithRepo(s, p, r); Extends(s, s') && Bystander(s, s') && SameHistory(s, s')
  {
    assert p !in s.repos;
  }

  lemma RequestKeeps(s: Db, p: Id, e: Id, a: Id, v: Revision)
    requires Inv(s) && Fresh(s, p)
    ensures Kept(s, RequestRepo(s, p, e, a, v))
  {
    hide Inv, Kept, Fenced, TaskStep, Base, Bystander, Extends, References;
    var s' := RequestRepo(s, p, e, a, v);
    Open(s);
    if s' == s {
      SameState(s);
      TaskStepKeeps(s, s);
    } else {
      var r := Repo(e, a, v, v, false, None, None, false);
      var s1 := WithRepo(s, p, r);
      WithRepoBase(s, p, r);
      WithRepoExtends(s, p, r);
      BystanderKeeps(s, s1);
      KeptInv(s, s1);
      Open(s1);
      AddRow(s1, Key(Provision, p), 10);
      TaskStepKeeps(s1, s');
      ThenKept(s, s1, s');
    }
  }

  lemma ExtendKeeps(s: Db, p: Id, d: int)
    requires Inv(s)
    ensures Kept(s, Submissions.Extend(s, p, d))
  {
    hide Inv, Kept;
    assert RepoStep(s, Submissions.Extend(s, p, d));
    RepoStepKeeps(s, Submissions.Extend(s, p, d));
  }

  lemma RolloutKeeps(s: Db, p: Id, v: Revision)
    requires Inv(s)
    ensures Kept(s, RolloutTo(s, p, v))
  {
    hide Inv, Kept, Merged;
    assert RepoStep(s, RolloutTo(s, p, v));
    RepoStepKeeps(s, RolloutTo(s, p, v));
  }

  // ---- receipts ----

  lemma LogBase(s: Db, p: Id, sha: string, received: int, source: EventSource, event: Id)
    requires Base(s) && p in s.repos && Fresh(s, event)
    ensures var s' := Log(s, p, sha, received, source, event);
            Base(s') && Extends(s, s') && Bystander(s, s') && SameHistory(s, s')
  {
    hide OncePerEvent;
    assert event !in s.events;
    assert References(Log(s, p, sha, received, source, event));
  }

  lemma RegisterReferences(s: Db, event: Id, sub: Id)
    requires References(s) && event in s.events && s.events[event].repo in s.repos && Fresh(s, sub)
    ensures References(Register(s, event, sub)) && Extends(s, Register(s, event, sub))
            && Bystander(s, Register(s, event, sub))
    ensures SameHistory(s, Register(s, event, sub))
  {
    assert sub !in s.subs;
  }

  /** No submission was made from the event yet. */
  ghost predicate Unregistered(s: Db, event: Id) {
    forall x: Id :: !MadeFrom(s, event, x)
  }

  lemma FreshUnregistered(s: Db, event: Id)
    requires References(s) && Fresh(s, event)
    ensures Unregistered(s, event)
  {
  }

  lemma RegisterBase(s: Db, event: Id, sub: Id)
    requires Base(s) && event in s.events && s.events[event].repo in s.repos && Fresh(s, sub)
    requires s.events[event].eligible || s.repos[s.events[event].repo].closed
    requires Unregistered(s, event)
    ensures Base(Register(s, event, sub))
  {
    hide References, Closure, Receipts, OncePerEvent, Register, Unregistered;
    RegisterReferences(s, event, sub);
    RegisterClosure(s, event, sub);
    RegisterReceipts(s, event, sub);
    RegisterOnce(s, event, sub);
  }

  lemma RegisterClosure(s: Db, event: Id, sub: Id)
    requires References(s) && Closure(s) && event in s.events && Fresh(s, sub)
    ensures Closure(Register(s, event, sub))
  {
  }

  lemma RegisterReceipts(s: Db, event: Id, sub: Id)
    requires References(s) && Receipts(s) && event in s.events && s.events[event].repo in s.repos && Fresh(s, sub)
    requires s.events[event].eligible || s.repos[s.events[event].repo].closed
    requires References(Register(s, event, sub))
    ensures Receipts(Register(s, event, sub))
  {
  }

  lemma RegisterOnce(s: Db, event: Id, sub: Id)
    requires OncePerEvent(s.subs) && Unregistered(s, event) && event in s.events
    ensures OncePerEvent(Register(s, event, sub).subs)
  {
    var s' := Register(s, event, sub);
    forall x, y | x in s'.subs && y in s'.subs && SameEvent(s'.subs[x], s'.subs[y])
      ensures x == y
    {
      assert !MadeFrom(s, event, x) && !MadeFrom(s, event, y);
      assert x != sub && y != sub ==> SameEvent(s.subs[x], s.subs[y]);
    }
  }

  lemma LogKeeps(s: Db, p: Id, sha: string, received: int, source: EventSource, event: Id)
    requires Inv(s) && p in s.repos && Fresh(s, event)
    ensures Kept(s, Log(s, p, sha, received, source, event))
  {
    hide *;
    Open(s);
    LogBase(s, p, sha, received, source, event);
    BystanderKeeps(s, Log(s, p, sha, received, source, event));
  }

  lemma RegisterKeeps(s: Db, event: Id, sub: Id)
    requires Inv(s) && event in s.events && s.events[event].repo in s.repos && Fresh(s, sub)
    requires s.events[event].eligible || s.repos[s.events[event].repo].closed
    requires Unregistered(s, event)
    ensures Kept(s, Register(s, event, sub))
  {
    hide *;
    Open(s);
    RegisterBase(s, event, sub);
    RegisterReferences(s, event, sub);
    BystanderKeeps(s, Register(s, event, sub));
  }

  lemma ReceiveKeeps(s: Db, p: Id, sha: string, received: int, source: EventSource, event: Id, sub: Id)
    requires Inv(s) && p in s.repos && Fresh(s, event) && Fresh(s, sub) && event != sub
    ensures Kept(s, Receive(s, p, sha, received, source, event, sub))
  {
    hide Inv, Kept, RepeatsLatest, FlagReview, Register, Eligible, References, Base;
    var s1 := Log(s, p, sha, received, source, event);
    Open(s);
    FreshUnregistered(s, event);
    assert forall x: Id :: MadeFrom(s1, event, x) <==> MadeFrom(s, event, x);
    LogKeeps(s, p, sha, received, source, event);
    KeptInv(s, s1);
    var s' := Receive(s, p, sha, received, source, event, sub);
    if s' == FlagReview(s1, p) {
      FlagReviewKeeps(s1, p);
      ThenKept(s, s1, s');
    } else if s' != s1 {
      RegisterKeeps(s1, event, sub);
      ThenKept(s, s1, s');
    }
  }

  lemma PicksKnown(s: Db, p: Id, picks: set<Id>)
    requires p in s.repos && FillsSlots(s, p, picks)
    ensures picks <= s.subs.Keys
  {
    hide Unfetched, FetchedBefore, ActiveFetches, InEnrollment, Obsolete;
    assert picks <= Waiting(CancelObsolete(s, s.repos[p].enrollment), s.repos[p].enrollment);
  }

  lemma ScheduleIsTaskStep(s: Db, p: Id, picks: set<Id>)
    requires Fenced(s) && FillsSlots(s, p, picks)
    ensures TaskStep(s, ScheduleSnapshots(s, p, picks))
  {
    hide Captured, FillsSlots, CancelObsolete, Fenced;
    if p in s.repos {
      var s1 := CancelObsolete(s, s.repos[p].enrollment);
      CancelIsTaskStep(s, s.repos[p].enrollment);
      PicksKnown(s, p, picks);
      QueueFetchesIsTaskStep(s1, picks);
    } else {
      SameState(s);
    }
  }

  lemma CancelIsTaskStep(s: Db, e: Id)
    requires Fenced(s)
    ensures TaskStep(s, CancelObsolete(s, e)) && Fenced(CancelObsolete(s, e))
  {
    hide Latest, Captured, Wanted, InEnrollment;
  }

  lemma QueueFetchesIsTaskStep(s: Db, picks: set<Id>)
    requires Fenced(s) && forall x :: x in picks ==> x in s.subs
    ensures TaskStep(s, QueueFetches(s, picks))
  {
    hide Latest, Captured;
  }

  lemma RecordKeeps(s: Db, p: Id, sha: string, received: int, source: EventSource, event: Id, sub: Id, picks: set<Id>)
    requires Inv(s) && Enabled(s, Op.Record(p, sha, received, source, event, sub, picks))
    ensures Kept(s, Submissions.Record(s, p, sha, received, source, event, sub, picks))
  {
    hide Inv, Kept, Receive, ScheduleSnapshots, FillsSlots, Delivered, Fenced;
    Open(s);
    if Recordable(s, p, sha, source) {
      var s1 := Receive(s, p, sha, received, source, event, sub);
      ReceiveKeeps(s, p, sha, received, source, event, sub);
      if s1.subs != s.subs {
        KeptInv(s, s1);
        RefillKeeps(s1, p, picks);
        ThenKept(s, s1, ScheduleSnapshots(s1, p, picks));
      }
    } else {
      SameState(s);
      TaskStepKeeps(s, s);
    }
  }

  lemma RefillKeeps(s: Db, p: Id, picks: set<Id>)
    requires Inv(s) && FillsSlots(s, p, picks)
    ensures Kept(s, ScheduleSnapshots(s, p, picks))
  {
    hide *;
    Open(s);
    ScheduleIsTaskStep(s, p, picks);
    TaskStepKeeps(s, ScheduleSnapshots(s, p, picks));
  }

  lemma RetainExtends(s: Db, x: Id, digest: string)
    ensures var s' := Submissions.Retain(s, x, digest); Extends(s, s') && Bystander(s, s') && SameHistory(s, s')
  {
    var s' := Submissions.Retain(s, x, digest);
    assert SubmissionsKept(s, s') && RunsKept(s, s') && ReposKept(s, s');
  }

  lemma RetainReferences(s: Db, x: Id, digest: string)
    requires References(s)
    ensures References(Submissions.Retain(s, x, digest))
  {
  }

  lemma RetainOnce(s: Db, x: Id, digest: string)
    requires OncePerEvent(s.subs)
    ensures OncePerEvent(Submissions.Retain(s, x, digest).subs)
  {
    var subs := Submissions.Retain(s, x, digest).subs;
    assert forall y, z :: y in subs && z in subs && SameEvent(subs[y], subs[z]) ==> SameEvent(s.subs[y], s.subs[z]);
  }

  lemma RetainBase(s: Db, x: Id, digest: string)
    requires Base(s)
    ensures Base(Submissions.Retain(s, x, digest))
  {
    hide OncePerEvent, References, Receipts, Closure;
    RetainReferences(s, x, digest);
    RetainOnce(s, x, digest);
    RetainReceipts(s, x, digest);
  }

  /** Only sources differ. */
  ghost predicate SourcesOnly(s: Db, s': Db) {
    && s' == s.(subs := s'.subs) && s'.subs.Keys == s.subs.Keys
    && forall y :: y in s.subs ==> s'.subs[y] == s.subs[y].(source := s'.subs[y].source)
  }

  lemma SourcesReceipts(s: Db, s': Db)
    requires SourcesOnly(s, s') && References(s) && References(s') && Receipts(s)
    ensures Receipts(s')
  {
  }

  lemma SourcesClosure(s: Db, s': Db)
    requires SourcesOnly(s, s') && Closure(s)
    ensures Closure(s')
  {
  }

  lemma RetainReceipts(s: Db, x: Id, digest: string)
    requires References(s) && Receipts(s) && Closure(s) && References(Submissions.Retain(s, x, digest))
    ensures Receipts(Submissions.Retain(s, x, digest)) && Closure(Submissions.Retain(s, x, digest))
  {
    hide References, Receipts, Closure;
    SourcesReceipts(s, Submissions.Retain(s, x, digest));
    SourcesClosure(s, Submissions.Retain(s, x, digest));
  }

  lemma RetainKeeps(s: Db, x: Id, digest: string)
    requires Inv(s)
    ensures Kept(s, Submissions.Retain(s, x, digest))
  {
    hide *;
    Open(s);
    RetainBase(s, x, digest);
    RetainExtends(s, x, digest);
    BystanderKeeps(s, Submissions.Retain(s, x, digest));
  }

  // ---- selection ----

  lemma MakeFinalBase(s: Db, p: Id, x: Id)
    requires Base(s) && p in s.repos && s.repos[p].closed && InRepo(s, x, p)
    ensures Base(MakeFinal(s, p, x))
  {
    hide OncePerEvent;
    assert References(MakeFinal(s, p, x));
  }

  lemma MakeFinalExtends(s: Db, p: Id, x: Id)
    requires p in s.repos
    ensures var s' := MakeFinal(s, p, x); Extends(s, s') && Bystander(s, s') && SameHistory(s, s')
  {
  }

  lemma ChooseKeeps(s: Db, p: Id, x: Id)
    requires Inv(s) && p in s.repos && s.repos[p].closed && InRepo(s, x, p)
    ensures Kept(s, Queue.Enqueue(MakeFinal(s, p, x), Key(Snapshot, x), 100))
  {
    hide *;
    Open(s);
    var s1 := MakeFinal(s, p, x);
    MakeFinalBase(s, p, x);
    MakeFinalExtends(s, p, x);
    BystanderKeeps(s, s1);
    KeptInv(s, s1);
    Open(s1);
    FinalRow(s, p, x);
    AddRow(s1, Key(Snapshot, x), 100);
    TaskStepKeeps(s1, Queue.Enqueue(s1, Key(Snapshot, x), 100));
    ThenKept(s, s1, Queue.Enqueue(s1, Key(Snapshot, x), 100));
  }

  lemma FinalRow(s: Db, p: Id, x: Id)
    requires p in s.repos && InRepo(s, x, p)
    ensures NewControlRow(MakeFinal(s, p, x), Key(Snapshot, x))
  {
  }

  lemma EventOf(s: Db, x: Id)
    requires Base(s) && x in s.subs
    ensures s.subs[x].event in s.events && s.events[s.subs[x].event].repo == s.subs[x].repo
  {
    hide OncePerEvent;
  }

  lemma SelectKeeps(s: Db, event: Id, id: Id)
    requires Inv(s) && Fresh(s, id)
    ensures Kept(s, Submissions.Select(s, event, id))
  {
    hide Inv, Kept, Base, Fenced, MakeFinal, Queue.Enqueue;
    Open(s);
    if event in s.events && s.events[event].repo in s.repos && s.repos[s.events[event].repo].closed {
      var p := s.events[event].repo;
      if exists x: Id :: MadeFrom(s, event, x) {
        var x := Made(s, event);
        EventOf(s, x);
        ChooseKeeps(s, p, x);
      } else {
        var s1 := Register(s, event, id);
        RegisterKeeps(s, event, id);
        KeptInv(s, s1);
        ChooseKeeps(s1, p, id);
        ThenKept(s, s1, Submissions.Select(s, event, id));
      }
    } else {
      SameState(s);
      TaskStepKeeps(s, s);
    }
  }
}
