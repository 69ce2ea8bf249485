/** Numbering, budgeting and displacement of public runs. */
module RunQueue {
  import opened Wrappers
  import opened Sets
  import opened Protocol
  import opened Database
  import opened Queue
  import opened Grading
  import opened Lifecycle
  import opened Invariant
  import opened Preservation
  import opened RunSteps
  import opened Theorems
  import opened Results

  lemma {:induction false} AttemptsBelow(s: Db, x: Id, n: nat)
    requires Attempts(s) && 1 <= n <= MaxAttempt(s.runs, x)
    ensures HasAttempt(s.runs, x, n)
    decreases MaxAttempt(s.runs, x) - n
  {
    hide MaxAttempt, IsTop;
    if n == MaxAttempt(s.runs, x) {
      MaxAttempted(s, x);
    } else {
      AttemptsBelow(s, x, n + 1);
      var q :| q in s.runs && s.runs[q].submission == x && s.runs[q].attempt == n + 1;
    }
  }

  lemma AttemptsAt(s: Db, x: Id, n: int)
    requires Inv(s)
    ensures HasAttempt(s.runs, x, n) <==> 1 <= n <= MaxAttempt(s.runs, x)
    ensures forall q, r ::
              q in s.runs && r in s.runs && s.runs[q].submission == x && SameAttempt(s.runs[q], s.runs[r]) ==> q == r
  {
    hide MaxAttempt, IsTop, References, Fenced, Exclusive, RunsFollowTasks, Scores, Baselines, Tickets, Closure;
    hide PrivateRuns, Receipts, OncePerEvent, Snapshots;
    if 1 <= n <= MaxAttempt(s.runs, x) {
      AttemptsBelow(s, x, n);
    }
  }

  /** In every reachable state the attempts of a submission are exactly 1, …, n, each used once. */
  lemma AttemptsExact(ops: seq<Op>, x: Id, n: int)
    requires Legal(EMPTY, ops)
    ensures var s := Exec(EMPTY, ops); HasAttempt(s.runs, x, n) <==> 1 <= n <= MaxAttempt(s.runs, x)
    ensures var s := Exec(EMPTY, ops);
            forall q, r ::
                     q in s.runs && r in s.runs && s.runs[q].submission == x && SameAttempt(s.runs[q], s.runs[r]) ==>
                       q == r
  {
    hide Inv, Legal, Exec, MaxAttempt, HasAttempt;
    Reachable(ops);
    AttemptsAt(Exec(EMPTY, ops), x, n);
  }

  function FeedbackCap(n: nat): nat {
    if n < MAX_FEEDBACK_RUNS then MAX_FEEDBACK_RUNS else n
  }

  lemma FeedbackGrows(s: Db, x: Id, id: Id, run: Database.Run, d: set<Key>, s': Db, p: Id)
    requires RunAdded(s, id, run, d, s')
    ensures FeedbackRuns(s', p) <= FeedbackRuns(s, p) + {id}
  {
  }

  lemma SupersededIsFree(s: Db, id: Id, run: Database.Run, p: Id)
    requires run.status == Superseded && id !in s.runs
    ensures FeedbackRuns(AddRun(s, id, run), p) == FeedbackRuns(s, p)
  {
  }

  /** Automatic feedback of a submission that is not final never lifts the repository's runs above
      two hundred, unless more exist already. */
  lemma FeedbackCapped(s: Db, x: Id, id: Id)
    requires Inv(s) && Fresh(s, id) && CanEnqueue(s, x)
    requires var r := s.repos[s.subs[x].repo]; !(r.closed && r.final == Some(x))
    ensures var p := s.subs[x].repo;
            |FeedbackRuns(Grading.EnqueueRun(s, x, false, id), p)| <= FeedbackCap(|FeedbackRuns(s, p)|)
  {
    hide Inv, References, RunsFollowTasks, MaxAttempt, HasPublicRun, FeedbackRuns, AddRun, QueueRun, RunAdded;
    hide DisplacedKeys, Latest;
    Open(s);
    var p := s.subs[x].repo;
    var r := s.repos[p];
    var attempt := MaxAttempt(s.runs, x) + 1;
    NewId(s, id);
    if !HasPublicRun(s.runs, x) {
      if RunSuperseded(s, x, false) {
        SupersededIsFree(s, id, NewRun(x, r.gradingRevision, attempt, Superseded, None), p);
      } else {
        var run := NewRun(x, r.gradingRevision, attempt, Queued, None);
        var s' := Grading.EnqueueRun(s, x, false, id);
        QueueRunAdds(s, x, id, run, 0);
        FeedbackGrows(s, x, id, run, DisplacedKeys(s, x), s', p);
        SubsetSize(FeedbackRuns(s', p), FeedbackRuns(s, p) + {id});
        UnionSize(FeedbackRuns(s, p), {id});
      }
    }
  }

  /** Task `k` waits to grade a public run of repository `p`, for a submission other than `x`. */
  ghost predicate PendingForOther(s: Db, p: Id, x: Id, k: Key) {
    && k in s.tasks && k.kind == Grade && s.tasks[k].status == Pending
    && k.subject in s.runs && s.runs[k.subject].baseline.None?
    && InRepo(s, s.runs[k.subject].submission, p) && s.runs[k.subject].submission != x
  }

  /** After a run is queued, all pending public grading of the repository is for its submission. */
  lemma PendingBelongs(s: Db, x: Id, regrade: bool, id: Id, k: Key)
    requires Inv(s) && Fresh(s, id) && CanEnqueue(s, x) && !RunSuperseded(s, x, regrade)
    requires regrade || !HasPublicRun(s.runs, x)
    ensures !PendingForOther(Grading.EnqueueRun(s, x, regrade, id), s.subs[x].repo, x, k)
  {
    hide Inv, References, RunsFollowTasks, MaxAttempt, HasPublicRun, QueueRun, RunSuperseded, RunAdded;
    hide DisplacedKeys, PendingForOther;
    Open(s);
    var r := s.repos[s.subs[x].repo];
    var run := NewRun(x, r.gradingRevision, MaxAttempt(s.runs, x) + 1, Queued, None);
    NewId(s, id);
    QueueRunAdds(s, x, id, run, if r.closed && r.final == Some(x) then 100 else 0);
    QueuedPending(s, x, id, run, Grading.EnqueueRun(s, x, regrade, id), k);
  }

  lemma QueuedPending(s: Db, x: Id, id: Id, run: Database.Run, s': Db, k: Key)
    requires x in s.subs && RunAdded(s, id, run, DisplacedKeys(s, x), s') && run.submission == x && References(s)
    ensures !PendingForOther(s', s.subs[x].repo, x, k)
  {
    NewId(s, id);
    if k in s.tasks && k != Key(Grade, id) && k.kind == Grade {
      assert s'.tasks[k] == if k in DisplacedKeys(s, x) then s.tasks[k].(status := Cancelled) else s.tasks[k];
    }
  }

  // ---- which runs are queued ----

  /** A run that is wanted waits at the priority of its submission; any other only records that it
      was not. Both carry the repository's grading revision and the next attempt. */
  lemma QueuedIff(s: Db, x: Id, regrade: bool, id: Id)
    requires Inv(s) && Fresh(s, id) && x in s.subs && s.subs[x].source.Some?
    requires regrade || forall r :: r in s.runs && s.runs[r].submission == x ==> s.runs[r].baseline.Some?
    ensures s.subs[x].repo in s.repos
    ensures var p, s' := s.subs[x].repo, Grading.EnqueueRun(s, x, regrade, id);
            var frozen := s.repos[p].closed && s.repos[p].final == Some(x);
            var feedback := set q | q in s.runs && s.runs[q].baseline.None? && s.runs[q].status != Superseded
                                    && InRepo(s, s.runs[q].submission, p);
            var wanted := regrade || frozen || (!s.repos[p].closed && IsLatest(s.subs, p, x) && |feedback| < 200);
            && id in s'.runs
            && s'.runs[id] == Database.Run(x, s.repos[p].gradingRevision, s'.runs[id].attempt,
                                           if wanted then Queued else Superseded, None, None, None, None, None)
            && (if wanted then
                  && Key(Grade, id) in s'.tasks
                  && s'.tasks[Key(Grade, id)] == Task(if frozen then 100 else 0, Pending, 0, s.now, "", None, 0)
                else s'.tasks == s.tasks && Key(Grade, id) !in s'.tasks)
  {
    hide Inv, References, RunsFollowTasks, Fenced, MaxAttempt, Displaced, Latest, Attempts;
    Open(s);
    SourceRepo(s, x);
    NewId(s, id);
    var p := s.subs[x].repo;
    LatestIff(s, p, x);
    assert FeedbackRuns(s, p) == set q | q in s.runs && s.runs[q].baseline.None? && s.runs[q].status != Superseded
                                         && InRepo(s, s.runs[q].submission, p);
  }

  lemma SourceRepo(s: Db, x: Id)
    requires References(s) && x in s.subs
    ensures s.subs[x].repo in s.repos
  {
  }

  lemma LatestIff(s: Db, p: Id, x: Id)
    ensures Latest(s.subs, p) == Some(x) <==> IsLatest(s.subs, p, x)
  {
    if IsLatest(s.subs, p, x) {
      LatestIs(s.subs, p, x);
    }
  }

  /** The attempt is the next one of the submission. */
  lemma NextInLine(s: Db, x: Id, regrade: bool, id: Id)
    requires Inv(s) && Fresh(s, id) && x in s.subs && s.subs[x].source.Some?
    requires regrade || forall r :: r in s.runs && s.runs[r].submission == x ==> s.runs[r].baseline.Some?
    ensures var s' := Grading.EnqueueRun(s, x, regrade, id);
            && id in s'.runs
            && (forall q :: q in s.runs && s.runs[q].submission == x ==> s.runs[q].attempt < s'.runs[id].attempt)
            && (s'.runs[id].attempt == 1 || HasAttempt(s.runs, x, s'.runs[id].attempt - 1))
  {
    hide *;
    Open(s);
    SourceRepo(s, x);
    EnqueueIs(s, x, regrade, id);
    var r := s.repos[s.subs[x].repo];
    var attempt := MaxAttempt(s.runs, x) + 1;
    RowOfAdded(s, x, id, NewRun(x, r.gradingRevision, attempt, Superseded, None));
    RowOfQueued(s, x, id, NewRun(x, r.gradingRevision, attempt, Queued, None),
                if r.closed && r.final == Some(x) then 100 else 0);
    NewRunAttempt(x, r.gradingRevision, attempt);
    if MaxAttempt(s.runs, x) > 0 {
      MaxAttempted(s, x);
    }
  }

  lemma NewRunAttempt(x: Id, v: Revision, attempt: nat)
    ensures forall status, baseline :: NewRun(x, v, attempt, status, baseline).attempt == attempt
  {
  }

  lemma RowOfAdded(s: Db, x: Id, id: Id, run: Database.Run)
    ensures var s' := AddRun(s, id, run); id in s'.runs && s'.runs[id] == run
  {
  }

  lemma RowOfQueued(s: Db, x: Id, id: Id, run: Database.Run, priority: int)
    requires x in s.subs
    ensures var s' := QueueRun(s, x, id, run, priority);
            id in s'.runs && s'.runs[id].attempt == run.attempt
  {
    hide Displaced;
  }

  /** Nothing is queued twice for feedback, and nothing without a source. */
  lemma NothingQueued(s: Db, x: Id, regrade: bool, id: Id)
    requires x !in s.subs || s.subs[x].source.None?
             || (!regrade && exists r :: r in s.runs && s.runs[r].submission == x && s.runs[r].baseline.None?)
    ensures Grading.EnqueueRun(s, x, regrade, id) == s
  {
  }

  /** Queueing a run takes nothing from others but the waiting feedback it displaces. */
  lemma OnlyDisplacedChange(s: Db, x: Id, regrade: bool, id: Id)
    requires Inv(s) && Fresh(s, id) && x in s.subs && s.subs[x].source.Some?
    requires regrade || forall r :: r in s.runs && s.runs[r].submission == x ==> s.runs[r].baseline.Some?
    ensures var p, s' := s.subs[x].repo, Grading.EnqueueRun(s, x, regrade, id);
            var queued := Key(Grade, id) in s'.tasks;
            && (forall k :: k in s.tasks ==>
                  && k in s'.tasks
                  && s'.tasks[k] == if queued && PendingForOther(s, p, x, k) then s.tasks[k].(status := Cancelled)
                                    else s.tasks[k])
            && (forall r :: r in s.runs ==>
                  && r in s'.runs
                  && s'.runs[r] ==
                     if queued && s.runs[r].status == Queued && PendingForOther(s, p, x, Key(Grade, r))
                     then s.runs[r].(status := Superseded) else s.runs[r])
  {
    hide *;
    Open(s);
    SourceRepo(s, x);
    NewId(s, id);
    EnqueueIs(s, x, regrade, id);
    var r := s.repos[s.subs[x].repo];
    var run := NewRun(x, r.gradingRevision, MaxAttempt(s.runs, x) + 1, Queued, None);
    var priority := if r.closed && r.final == Some(x) then 100 else 0;
    RunIs(x, r.gradingRevision, MaxAttempt(s.runs, x) + 1);
    QueueRunAdds(s, x, id, run, priority);
    DisplacedFrame(s, x, id, run, QueueRun(s, x, id, run, priority));
    AddedAlone(s, id, NewRun(x, r.gradingRevision, MaxAttempt(s.runs, x) + 1, Superseded, None));
  }

  lemma RunIs(x: Id, v: Revision, attempt: nat)
    ensures NewRun(x, v, attempt, Queued, None).status == Queued
  {
  }

  lemma AddedAlone(s: Db, id: Id, run: Database.Run)
    requires id !in s.runs && Key(Grade, id) !in s.tasks
    ensures var s' := AddRun(s, id, run);
            && s'.tasks == s.tasks && Key(Grade, id) !in s'.tasks
            && forall r :: r in s.runs ==> r in s'.runs && s'.runs[r] == s.runs[r]
  {
  }

  lemma EnqueueIs(s: Db, x: Id, regrade: bool, id: Id)
    requires x in s.subs && s.subs[x].source.Some? && s.subs[x].repo in s.repos
    requires regrade || forall r :: r in s.runs && s.runs[r].submission == x ==> s.runs[r].baseline.Some?
    ensures var r := s.repos[s.subs[x].repo];
            Grading.EnqueueRun(s, x, regrade, id) ==
            if RunSuperseded(s, x, regrade) then
              AddRun(s, id, NewRun(x, r.gradingRevision, MaxAttempt(s.runs, x) + 1, Superseded, None))
            else
              QueueRun(s, x, id, NewRun(x, r.gradingRevision, MaxAttempt(s.runs, x) + 1, Queued, None),
                       if r.closed && r.final == Some(x) then 100 else 0)
  {
    hide RunSuperseded, QueueRun, AddRun, MaxAttempt;
  }

  lemma DisplacedFrame(s: Db, x: Id, id: Id, run: Database.Run, s': Db)
    requires x in s.subs && RunAdded(s, id, run, DisplacedKeys(s, x), s') && id !in s.runs && Key(Grade, id) !in s.tasks
    ensures Key(Grade, id) in s'.tasks
    ensures forall k :: k in s.tasks ==>
              && k in s'.tasks
              && s'.tasks[k] == if PendingForOther(s, s.subs[x].repo, x, k) then s.tasks[k].(status := Cancelled)
                                else s.tasks[k]
    ensures forall r :: r in s.runs ==>
              && r in s'.runs
              && s'.runs[r] ==
                 if s.runs[r].status == Queued && PendingForOther(s, s.subs[x].repo, x, Key(Grade, r))
                 then s.runs[r].(status := Superseded) else s.runs[r]
  {
    hide RunAdded;
    assert forall k :: k in DisplacedKeys(s, x) <==> PendingForOther(s, s.subs[x].repo, x, k);
    AddedColumns(s, id, run, DisplacedKeys(s, x), s');
  }

  lemma AddedColumns(s: Db, id: Id, run: Database.Run, d: set<Key>, s': Db)
    requires RunAdded(s, id, run, d, s') && id !in s.runs && Key(Grade, id) !in s.tasks
    ensures Key(Grade, id) in s'.tasks && s.tasks.Keys <= s'.tasks.Keys && s.runs.Keys <= s'.runs.Keys
    ensures forall k :: k in s.tasks ==> s'.tasks[k] == if k in d then s.tasks[k].(status := Cancelled) else s.tasks[k]
    ensures forall r :: r in s.runs ==>
              s'.runs[r] == if s.runs[r].status == Queued && Key(Grade, r) in d then s.runs[r].(status := Superseded)
                            else s.runs[r]
  {
  }

  // ---- which adjustments are scheduled ----

  /** A private run is scheduled if and only if the repository is due with a final submission, its
      last public run `b` is completed with points, its definition has a private command, and no run
      has this baseline and this grader revision yet. */
  lemma ScheduledIff(s: Db, p: Id, b: Id, id: Id)
    requires Inv(s) && Fresh(s, id) && p in s.repos && s.repos[p].final.Some?
    requires b in s.runs && s.runs[b].submission == s.repos[p].final.value && s.runs[b].baseline.None?
    requires forall q :: q in s.runs && s.runs[q].submission == s.runs[b].submission && s.runs[q].baseline.None? ==>
               s.runs[q].attempt <= s.runs[b].attempt
    ensures var v, s' := s.repos[p].gradingRevision, Grading.SchedulePrivate(s, p, id);
            && (s' != s <==>
                && s.repos[p].Deadline() < s.now
                && s.runs[b].status == Finished(Completed) && s.runs[b].points.Some?
                && v.grader.Some? && v.grader.value.workflow.Some? && v.grader.value.workflow.value.privateCommand.Some?
                && forall r :: r in s.runs ==> s.runs[r].baseline != Some(b) || s.runs[r].revision != v)
            && (s' != s ==> Adjusts(s, s.runs[b].submission, v, b, id, s'))
  {
    hide *;
    Open(s);
    LastIs(s, s.repos[p].final.value, b);
    ReadyIff(s, p, b);
    OnlyLast(s, p, b);
    ScheduleIs(s, p, b, id);
    if PrivateReady(s, p, b) {
      TriggerAt(s, p, b, b);
      SomeAttempt(s, b);
      InsertAdjusts(s, s.repos[p].final.value, s.repos[p].gradingRevision, b, id);
    }
  }

  lemma LastIs(s: Db, x: Id, b: Id)
    requires b in s.runs && s.runs[b].submission == x && s.runs[b].baseline.None?
    requires forall q :: q in s.runs && s.runs[q].submission == x && s.runs[q].baseline.None? ==>
               s.runs[q].attempt <= s.runs[b].attempt
    ensures IsLastPublic(s.runs, x, b)
  {
  }

  lemma ReadyIff(s: Db, p: Id, b: Id)
    requires p in s.repos && s.repos[p].final.Some? && IsLastPublic(s.runs, s.repos[p].final.value, b)
    ensures b in s.runs
    ensures var v := s.repos[p].gradingRevision;
            PrivateReady(s, p, b) <==>
              && s.repos[p].Deadline() < s.now
              && s.runs[b].status == Finished(Completed) && s.runs[b].points.Some?
              && v.grader.Some? && v.grader.value.workflow.Some? && v.grader.value.workflow.value.privateCommand.Some?
              && forall r :: r in s.runs ==> s.runs[r].baseline != Some(b) || s.runs[r].revision != v
  {
  }

  lemma ScheduleIs(s: Db, p: Id, b: Id, id: Id)
    requires forall c: Id :: PrivateReady(s, p, c) ==> c == b
    ensures Grading.SchedulePrivate(s, p, id) ==
            if PrivateReady(s, p, b) then
              InsertPrivate(s, s.repos[p].final.value, s.repos[p].gradingRevision,
                            MaxAttempt(s.runs, s.repos[p].final.value) + 1, b, id)
            else s
  {
    hide PrivateReady, InsertPrivate;
  }

  lemma SomeAttempt(s: Db, b: Id)
    requires Attempts(s) && b in s.runs
    ensures MaxAttempt(s.runs, s.runs[b].submission) >= 1
  {
  }

  lemma OnlyLast(s: Db, p: Id, b: Id)
    requires Attempts(s) && p in s.repos && s.repos[p].final.Some? && IsLastPublic(s.runs, s.repos[p].final.value, b)
    ensures forall c: Id :: PrivateReady(s, p, c) ==> c == b
  {
    forall c: Id | PrivateReady(s, p, c)
      ensures c == b
    {
      assert SameAttempt(s.runs[b], s.runs[c]);
    }
  }

  /** Nothing is scheduled without a final submission or without a public run of it. */
  lemma NothingScheduled(s: Db, p: Id, id: Id)
    requires p in s.repos && s.repos[p].final.Some? ==>
               forall r :: r in s.runs && s.runs[r].submission == s.repos[p].final.value ==> s.runs[r].baseline.Some?
    ensures Grading.SchedulePrivate(s, p, id) == s
  {
    assert forall b: Id :: !PrivateReady(s, p, b);
  }

  /** One private run was added: waiting, pinned to baseline and revision, next in line, at 100. */
  ghost predicate Adjusts(s: Db, x: Id, v: Revision, b: Id, id: Id, s': Db) {
    && s' == s.(runs := s'.runs, tasks := s'.tasks, issued := s.issued + {id})
    && id in s'.runs && s'.runs == s.runs[id := s'.runs[id]]
    && s'.runs[id] == Database.Run(x, v, s'.runs[id].attempt, Queued, None, None, None, None, Some(b))
    && (forall q :: q in s.runs && s.runs[q].submission == x ==> s.runs[q].attempt < s'.runs[id].attempt)
    && HasAttempt(s.runs, x, s'.runs[id].attempt - 1)
    && s'.tasks == s.tasks[Key(Grade, id) := Task(100, Pending, 0, s.now, "", None, 0)]
  }

  lemma InsertAdjusts(s: Db, x: Id, v: Revision, b: Id, id: Id)
    requires References(s) && Fresh(s, id) && BaselineAdmitted(s, x, b) && MaxAttempt(s.runs, x) >= 1
    ensures var s' := InsertPrivate(s, x, v, MaxAttempt(s.runs, x) + 1, b, id);
            && Adjusts(s, x, v, b, id, s') && s' != s && s'.runs[id].attempt == MaxAttempt(s.runs, x) + 1
  {
    hide References, MaxAttempt;
    NewId(s, id);
    MaxAttempted(s, x);
  }

  /** A private run is repeated if and only if it is the last run of its submission and ended as an
      infrastructure failure or timed out. */
  lemma RetriedIff(s: Db, failed: Id, id: Id)
    requires Inv(s) && Fresh(s, id) && failed in s.runs
    ensures var run, s' := s.runs[failed], Grading.RetryPrivate(s, failed, id);
            && (s' != s <==>
                && run.baseline.Some? && run.status in {Finished(InfrastructureFailed), Finished(TimedOut)}
                && forall q :: q in s.runs && s.runs[q].submission == run.submission ==>
                     s.runs[q].attempt <= run.attempt)
            && (s' != s ==> Adjusts(s, run.submission, run.revision, run.baseline.value, id, s')
                            && s'.runs[id].attempt == run.attempt + 1)
  {
    hide *;
    Open(s);
    var run := s.runs[failed];
    RetryIs(s, failed, id);
    if run.baseline.Some? && IsTop(s.runs, run.submission, failed) {
      TriggerAt(s, 0, 0, failed);
      TopAttempt(s, run.submission, failed);
      InsertAdjusts(s, run.submission, run.revision, run.baseline.value, id);
    }
  }

  lemma RetryIs(s: Db, failed: Id, id: Id)
    requires failed in s.runs
    ensures var run := s.runs[failed];
            var last := IsTop(s.runs, run.submission, failed);
            && (last <==> forall q :: q in s.runs && s.runs[q].submission == run.submission ==>
                            s.runs[q].attempt <= run.attempt)
            && Grading.RetryPrivate(s, failed, id) ==
               if run.baseline.Some? && run.status in {Finished(InfrastructureFailed), Finished(TimedOut)} && last then
                 InsertPrivate(s, run.submission, run.revision, run.attempt + 1, run.baseline.value, id)
               else s
  {
    hide InsertPrivate;
  }

  lemma TopAttempt(s: Db, x: Id, r: Id)
    requires Attempts(s) && IsTop(s.runs, x, r)
    ensures MaxAttempt(s.runs, x) == s.runs[r].attempt >= 1
  {
  }
}
