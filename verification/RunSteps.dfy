/** Transactions that create runs keep the invariant. */
module RunSteps {
  import opened Wrappers
  import opened Protocol
  import opened Database
  import opened Queue
  import opened Grading
  import opened Lifecycle
  import opened Invariant
  import opened Preservation
  import opened ControlSteps
  import opened GradeSteps

  /** A run as it is inserted. */
  ghost predicate Blank(s: Db, run: Database.Run) {
    && run.points.None? && run.publicPoints.None? && run.report.None? && run.result.None?
    && run.submission in s.subs && s.subs[run.submission].source.Some?
    && run.attempt == MaxAttempt(s.runs, run.submission) + 1
  }

  /** Pending public grading that a new run may displace. */
  ghost predicate Displaceable(s: Db, d: set<Key>) {
    forall k :: k in d ==> k in s.tasks && k.kind == Grade && s.tasks[k].status == Pending
                           && k.subject in s.runs && s.runs[k.subject].baseline.None?
  }

  /** A queued run was inserted with its task; the tasks in `d` were cancelled and their runs superseded. */
  ghost predicate RunAdded(s: Db, id: Id, run: Database.Run, d: set<Key>, s': Db) {
    && Fresh(s, id) && run.status == Queued
    && s' == s.(runs := s'.runs, tasks := s'.tasks, issued := s.issued + {id})
    && s'.runs.Keys == s.runs.Keys + {id} && s'.runs[id] == run
    && s'.tasks.Keys == s.tasks.Keys + {Key(Grade, id)} && NewRow(s'.tasks[Key(Grade, id)])
    && (forall k :: k in s.tasks && k != Key(Grade, id) ==>
          s'.tasks[k] == if k in d then s.tasks[k].(status := Cancelled) else s.tasks[k])
    && (forall r :: r in s.runs && r != id ==>
          s'.runs[r] == if s.runs[r].status == Queued && Key(Grade, r) in d then s.runs[r].(status := Superseded)
            else s.runs[r])
  }

  lemma NewId(s: Db, id: Id)
    requires References(s) && Fresh(s, id)
    ensures id !in s.runs && Key(Grade, id) !in s.tasks
  {
  }

  lemma AddedReferences(s: Db, id: Id, run: Database.Run, d: set<Key>, s': Db)
    requires References(s) && RunAdded(s, id, run, d, s')
    requires run.submission in s.subs && s.subs[run.submission].source.Some?
    ensures References(s')
  {
    NewId(s, id);
  }

  lemma AddedFenced(s: Db, id: Id, run: Database.Run, d: set<Key>, s': Db)
    requires Fenced(s) && Key(Grade, id) !in s.tasks && RunAdded(s, id, run, d, s')
    ensures Fenced(s')
  {
    assert RowsKept(s, s');
  }

  lemma AddedRows(s: Db, id: Id, run: Database.Run, d: set<Key>, s': Db)
    requires RunAdded(s, id, run, d, s') && Displaceable(s, d) && id !in s.runs && Key(Grade, id) !in s.tasks
    ensures Extends(s, s') && NoNewLease(s, s') && NoneDone(s, s') && SameBase(s, s')
  {
    assert RunsKept(s, s');
  }

  lemma AddedWait(s: Db, id: Id, run: Database.Run, d: set<Key>, s': Db)
    requires RunsWait(s) && RunAdded(s, id, run, d, s')
    requires id !in s.runs && Key(Grade, id) !in s.tasks && Displaceable(s, d)
    ensures RunsWait(s')
  {
  }

  lemma AddedDone(s: Db, id: Id, run: Database.Run, d: set<Key>, s': Db)
    requires ResultsDone(s) && RunAdded(s, id, run, d, s') && run.result.None?
    requires id !in s.runs && Key(Grade, id) !in s.tasks && Displaceable(s, d)
    ensures ResultsDone(s')
  {
    forall k | k in s'.tasks && (k.kind == Publish || (k.kind == Grade && s'.tasks[k].status == Done))
      ensures k.subject in s'.runs && s'.runs[k.subject].result.Some?
    {
      assert k in s.tasks && k.subject in s.runs;
    }
    forall r | r in s'.runs && s'.runs[r].result.Some?
      ensures Key(Grade, r) in s'.tasks && s'.tasks[Key(Grade, r)].status == Done && Key(Publish, r) in s'.tasks
    {
      assert r in s.runs && s.runs[r].result.Some? && Key(Grade, r) !in d;
    }
  }

  lemma AddedShown(s: Db, id: Id, run: Database.Run, d: set<Key>, s': Db)
    requires ResultsShown(s) && RunAdded(s, id, run, d, s') && run.result.None? && id !in s.runs
    ensures ResultsShown(s')
  {
  }

  lemma AddedRuns(s: Db, id: Id, run: Database.Run, d: set<Key>, s': Db)
    requires RunsFollowTasks(s) && RunAdded(s, id, run, d, s') && run.result.None?
    requires id !in s.runs && Key(Grade, id) !in s.tasks && Displaceable(s, d)
    ensures RunsFollowTasks(s')
  {
    hide RunsWait, ResultsDone, ResultsShown, RunAdded, Displaceable;
    AddedWait(s, id, run, d, s');
    AddedDone(s, id, run, d, s');
    AddedShown(s, id, run, d, s');
  }

  lemma AddedScores(s: Db, id: Id, run: Database.Run, d: set<Key>, s': Db)
    requires Scores(s) && Tickets(s) && RunAdded(s, id, run, d, s') && id !in s.runs
    requires run.result.None? && run.points.None? && run.publicPoints.None?
    ensures Scores(s') && Tickets(s')
  {
    hide Scores, Tickets, RunAdded;
    AddedResults(s, id, run, d, s');
    SameScores(s, s');
  }

  lemma AddedResults(s: Db, id: Id, run: Database.Run, d: set<Key>, s': Db)
    requires RunAdded(s, id, run, d, s') && id !in s.runs
    ensures RunsKept(s, s') && ResultsKept(s, s') && s'.tickets == s.tickets
    ensures forall r :: r in s'.runs && r !in s.runs ==> s'.runs[r] == run
  {
  }

  /** Score columns of stored runs are untouched, so everything said about them still holds. */
  lemma SameScores(s: Db, s': Db)
    requires Scores(s) && Tickets(s) && s'.tickets == s.tickets && RunsKept(s, s') && ResultsKept(s, s')
    requires forall r :: r in s'.runs && r !in s.runs ==>
               s'.runs[r].result.None? && s'.runs[r].points.None? && s'.runs[r].publicPoints.None?
    ensures Scores(s') && Tickets(s')
  {
    assert forall r, o, p, q :: r in s.runs && ScoresAllowed(s.runs, s.runs[r], o, p, q) ==>
             ScoresAllowed(s'.runs, s'.runs[r], o, p, q);
  }

  ghost predicate ResultsKept(s: Db, s': Db) {
    forall r :: r in s.runs ==>
      && r in s'.runs
      && s'.runs[r].points == s.runs[r].points && s'.runs[r].publicPoints == s.runs[r].publicPoints
      && s'.runs[r].result == s.runs[r].result && s'.runs[r].report == s.runs[r].report
  }

  lemma AddedBaselines(s: Db, id: Id, run: Database.Run, d: set<Key>, s': Db)
    requires Baselines(s) && RunAdded(s, id, run, d, s') && id !in s.runs
    requires run.baseline.Some? ==> BaselineUsable(s, run)
    ensures Baselines(s')
  {
  }

  ghost predicate BaselineUsable(s: Db, run: Database.Run)
    requires run.baseline.Some?
  {
    var b := run.baseline.value;
    b in s.runs && s.runs[b].baseline.None? && s.runs[b].submission == run.submission && s.runs[b].result.Some?
    && s.runs[b].status == Finished(Completed)
  }

  lemma KeepHasAttempt(s: Db, s': Db)
    requires RunsKept(s, s')
    ensures forall x, n :: HasAttempt(s.runs, x, n) ==> HasAttempt(s'.runs, x, n)
  {
    forall x, n | HasAttempt(s.runs, x, n)
      ensures HasAttempt(s'.runs, x, n)
    {
      var q :| q in s.runs && s.runs[q].submission == x && s.runs[q].attempt == n;
      assert q in s'.runs && s'.runs[q].submission == x && s'.runs[q].attempt == n;
    }
  }

  lemma MaxAttempted(s: Db, x: Id)
    requires MaxAttempt(s.runs, x) > 0
    ensures HasAttempt(s.runs, x, MaxAttempt(s.runs, x))
  {
    var top := MaxAttempt(s.runs, x);
    var r :| IsTop(s.runs, x, r) && s.runs[r].attempt == top;
  }

  lemma NextAttempt(s: Db, s': Db, id: Id)
    requires Attempts(s) && id !in s.runs && s'.runs.Keys == s.runs.Keys + {id} && RunsKept(s, s')
    requires s'.runs[id].attempt == MaxAttempt(s.runs, s'.runs[id].submission) + 1
    ensures Attempts(s')
  {
    hide HasAttempt, MaxAttempt, IsTop;
    var x := s'.runs[id].submission;
    KeepHasAttempt(s, s');
    if MaxAttempt(s.runs, x) > 0 {
      MaxAttempted(s, x);
    }
    forall q, r | q in s'.runs && r in s'.runs && SameAttempt(s'.runs[q], s'.runs[r])
      ensures q == r
    {
      if q != id && r != id {
        assert SameAttempt(s.runs[q], s.runs[r]);
      }
    }
  }

  ghost predicate PrivateSlot(s: Db, run: Database.Run) {
    run.baseline.Some? ==>
      && RepoClosed(s, run.submission)
      && forall q :: q in s.runs && s.runs[q].baseline == run.baseline && s.runs[q].revision == run.revision
           ==> RetryableStatus(s.runs[q].status) && s.runs[q].attempt < run.attempt
  }

  lemma AddedEnds(s: Db, id: Id, run: Database.Run, d: set<Key>, s': Db)
    requires PrivateEnds(s) && RunAdded(s, id, run, d, s') && id !in s.runs && Key(Grade, id) !in s.tasks
             && Displaceable(s, d)
    requires run.baseline.Some? ==> RepoClosed(s, run.submission)
    ensures PrivateEnds(s')
  {
    AddedRowsPrivate(s, id, run, d, s');
    hide RunAdded, Displaceable;
  }

  lemma AddedRowsPrivate(s: Db, id: Id, run: Database.Run, d: set<Key>, s': Db)
    requires RunAdded(s, id, run, d, s') && id !in s.runs && Key(Grade, id) !in s.tasks && Displaceable(s, d)
    ensures forall r :: GaveUp(s, r) ==> GaveUp(s', r)
    ensures forall r :: r in s'.runs ==>
              if r == id then s'.runs[r] == run
              else
                && r in s.runs && (s.runs[r].baseline.Some? ==> s'.runs[r] == s.runs[r])
                && s'.runs[r].baseline == s.runs[r].baseline
    ensures s.tasks.Keys <= s'.tasks.Keys && Key(Grade, id) in s'.tasks && s'.subs == s.subs && s'.repos == s.repos
            && run.status == Queued
  {
  }

  lemma AddedOrder(s: Db, id: Id, run: Database.Run, d: set<Key>, s': Db)
    requires PrivateOrder(s) && RunAdded(s, id, run, d, s') && id !in s.runs && Displaceable(s, d)
             && PrivateSlot(s, run)
    ensures PrivateOrder(s')
  {
    forall q, r | Precedes(s'.runs, q, r)
      ensures RetryableStatus(s'.runs[q].status)
    {
      if q != id && r != id {
        assert Precedes(s.runs, q, r);
      }
    }
  }

  lemma AddedPrivate(s: Db, id: Id, run: Database.Run, d: set<Key>, s': Db)
    requires PrivateRuns(s) && RunAdded(s, id, run, d, s') && id !in s.runs && Key(Grade, id) !in s.tasks
             && Displaceable(s, d) && PrivateSlot(s, run)
    ensures PrivateRuns(s')
  {
    hide PrivateEnds, PrivateOrder, RunAdded, Displaceable;
    AddedEnds(s, id, run, d, s');
    AddedOrder(s, id, run, d, s');
  }

  lemma AddedKeeps(s: Db, id: Id, run: Database.Run, d: set<Key>, s': Db)
    requires Inv(s) && RunAdded(s, id, run, d, s') && Displaceable(s, d) && Blank(s, run) && PrivateSlot(s, run)
    requires run.baseline.Some? ==> BaselineUsable(s, run)
    ensures Kept(s, s')
  {
    hide *;
    Open(s);
    AddedShape(s, id, run, d, s');
    AddedReferences(s, id, run, d, s');
    AddedFenced(s, id, run, d, s');
    AddedRows(s, id, run, d, s');
    KeepBase(s, s');
    KeepExclusive(s, s');
    AddedRuns(s, id, run, d, s');
    AddedScores(s, id, run, d, s');
    AddedBaselines(s, id, run, d, s');
    ExtendsRuns(s, s');
    NextAttempt(s, s', id);
    AddedPrivate(s, id, run, d, s');
    KeepSnapshotRows(s, s');
    Assemble(s, s');
  }

  lemma ExtendsRuns(s: Db, s': Db)
    requires Extends(s, s')
    ensures RunsKept(s, s')
  {
    hide RunsKept, SubmissionsKept, ReposKept, EventsKept;
  }

  lemma AddedShape(s: Db, id: Id, run: Database.Run, d: set<Key>, s': Db)
    requires References(s) && RunAdded(s, id, run, d, s') && Blank(s, run)
    ensures id !in s.runs && Key(Grade, id) !in s.tasks
    ensures s'.runs.Keys == s.runs.Keys + {id} && s'.runs[id] == run
    ensures run.result.None? && run.points.None? && run.publicPoints.None?
    ensures run.submission in s.subs && s.subs[run.submission].source.Some?
    ensures run.attempt == MaxAttempt(s.runs, run.submission) + 1
  {
    hide MaxAttempt;
    NewId(s, id);
  }

  // ---- public runs ----

  function DisplacedKeys(s: Db, x: Id): set<Key>
    requires x in s.subs
  {
    set k | k in s.tasks && Displaced(s, x, k)
  }

  lemma QueueRunAdds(s: Db, x: Id, id: Id, run: Database.Run, priority: int)
    requires References(s) && RunsFollowTasks(s) && Fresh(s, id) && x in s.subs && run.status == Queued
    ensures RunAdded(s, id, run, DisplacedKeys(s, x), QueueRun(s, x, id, run, priority))
    ensures Displaceable(s, DisplacedKeys(s, x))
  {
    hide RunsFollowTasks, References, Displaced;
    NewId(s, id);
    SameDisplaced(s, x, id, run);
    OnlyDisplaced(s, x, id, run);
    DisplacedCanBe(s, x);
  }

  lemma DisplacedCanBe(s: Db, x: Id)
    requires x in s.subs
    ensures Displaceable(s, DisplacedKeys(s, x))
  {
  }

  lemma SameDisplaced(s: Db, x: Id, id: Id, run: Database.Run)
    requires References(s) && id !in s.runs && x in s.subs
    ensures forall k :: k in s.tasks ==> (Displaced(AddRun(s, id, run), x, k) <==> Displaced(s, x, k))
  {
  }

  /** A waiting run is superseded exactly when its task was displaced. */
  lemma OnlyDisplaced(s: Db, x: Id, id: Id, run: Database.Run)
    requires References(s) && RunsFollowTasks(s) && id !in s.runs && x in s.subs
    ensures var tasks := CancelDisplaced(AddRun(s, id, run), x);
            forall r :: r in s.runs && s.runs[r].status == Queued ==>
              (Key(Grade, r) in tasks && (tasks[Key(Grade, r)].status == Cancelled <==>
                                          Key(Grade, r) in DisplacedKeys(s, x)))
  {
    hide ResultsDone, ResultsShown, References;
    SameDisplaced(s, x, id, run);
  }

  lemma SupersededKeeps(s: Db, id: Id, run: Database.Run)
    requires Inv(s) && Fresh(s, id) && Blank(s, run) && run.status == Superseded && run.baseline.None?
    ensures Kept(s, AddRun(s, id, run))
  {
    hide *;
    Open(s);
    var s' := AddRun(s, id, run);
    NewId(s, id);
    BareReferences(s, id, run);
    BareRows(s, id, run);
    KeepBase(s, s');
    BareRuns(s, id, run);
    BarePrivate(s, id, run);
    KeepExclusive(s, s');
    SameScores(s, s');
    BareShape(s, id, run);
    ExtendsRuns(s, s');
    NextAttempt(s, s', id);
    KeepSnapshotRows(s, s');
    BareFenced(s, id, run);
    Assemble(s, s');
  }

  lemma BareShape(s: Db, id: Id, run: Database.Run)
    requires Blank(s, run)
    ensures var s' := AddRun(s, id, run);
            s'.runs.Keys == s.runs.Keys + {id} && s'.runs[id].attempt == MaxAttempt(s.runs, s'.runs[id].submission) + 1
  {
    hide MaxAttempt;
  }

  lemma BareReferences(s: Db, id: Id, run: Database.Run)
    requires References(s) && id !in s.runs && Blank(s, run)
    ensures References(AddRun(s, id, run))
  {
    hide MaxAttempt;
  }

  lemma BareFenced(s: Db, id: Id, run: Database.Run)
    requires Fenced(s)
    ensures Fenced(AddRun(s, id, run))
  {
  }

  lemma BareRows(s: Db, id: Id, run: Database.Run)
    requires id !in s.runs && Blank(s, run)
    ensures var s' := AddRun(s, id, run);
            && Extends(s, s') && NoNewLease(s, s') && NoneDone(s, s') && SameBase(s, s') && RunsKept(s, s')
            && ResultsKept(s, s')
            && s'.tickets == s.tickets
            && forall r :: r in s'.runs && r !in s.runs ==>
                 s'.runs[r].result.None? && s'.runs[r].points.None? && s'.runs[r].publicPoints.None?
  {
    hide MaxAttempt;
  }

  lemma BareRuns(s: Db, id: Id, run: Database.Run)
    requires RunsFollowTasks(s) && Baselines(s) && id !in s.runs && run.status == Superseded && run.baseline.None?
             && Blank(s, run)
    ensures var s' := AddRun(s, id, run); RunsFollowTasks(s') && Baselines(s')
  {
    hide MaxAttempt, RunsWait, ResultsDone, ResultsShown;
    BareWait(s, id, run);
    BareResults(s, id, run);
  }

  lemma BareWait(s: Db, id: Id, run: Database.Run)
    requires RunsWait(s) && id !in s.runs && run.status == Superseded
    ensures RunsWait(AddRun(s, id, run))
  {
  }

  lemma BareResults(s: Db, id: Id, run: Database.Run)
    requires ResultsDone(s) && ResultsShown(s) && id !in s.runs && run.status == Superseded && run.result.None?
    ensures ResultsDone(AddRun(s, id, run)) && ResultsShown(AddRun(s, id, run))
  {
  }

  lemma BarePrivate(s: Db, id: Id, run: Database.Run)
    requires PrivateRuns(s) && id !in s.runs && run.baseline.None?
    ensures PrivateRuns(AddRun(s, id, run))
  {
    var s' := AddRun(s, id, run);
    assert forall r :: GaveUp(s, r) ==> GaveUp(s', r);
    assert forall q, r :: Precedes(s'.runs, q, r) ==> Precedes(s.runs, q, r);
  }

  lemma NewRunBlank(s: Db, x: Id, revision: Revision, status: RunStatus, baseline: Option<Id>)
    requires x in s.subs && s.subs[x].source.Some?
    ensures Blank(s, NewRun(x, revision, MaxAttempt(s.runs, x) + 1, status, baseline))
  {
  }

  lemma PublicSlot(s: Db, run: Database.Run)
    requires run.baseline.None?
    ensures PrivateSlot(s, run)
  {
  }

  lemma EnqueueRunKeeps(s: Db, x: Id, regrade: bool, id: Id)
    requires Inv(s) && Fresh(s, id)
    ensures Kept(s, Grading.EnqueueRun(s, x, regrade, id))
  {
    hide Inv, Kept, References, RunsFollowTasks, Fenced, MaxAttempt, HasPublicRun, RunSuperseded, AddRun;
    hide QueueRun, DisplacedKeys, Blank, RunAdded, PrivateSlot, Displaceable;
    Open(s);
    var s' := Grading.EnqueueRun(s, x, regrade, id);
    if !CanEnqueue(s, x) || (!regrade && HasPublicRun(s.runs, x)) {
      SameState(s);
      TaskStepKeeps(s, s);
    } else {
      var r := s.repos[s.subs[x].repo];
      var attempt := MaxAttempt(s.runs, x) + 1;
      if RunSuperseded(s, x, regrade) {
        NewRunBlank(s, x, r.gradingRevision, Superseded, None);
        SupersededKeeps(s, id, NewRun(x, r.gradingRevision, attempt, Superseded, None));
      } else {
        var run := NewRun(x, r.gradingRevision, attempt, Queued, None);
        NewRunBlank(s, x, r.gradingRevision, Queued, None);
        QueueRunAdds(s, x, id, run, if r.closed && r.final == Some(x) then 100 else 0);
        PublicSlot(s, run);
        AddedKeeps(s, id, run, DisplacedKeys(s, x), s');
      }
    }
  }

  // ---- private runs ----

  lemma InsertAdds(s: Db, x: Id, revision: Revision, attempt: nat, b: Id, id: Id)
    requires References(s) && Fresh(s, id) && BaselineAdmitted(s, x, b)
    ensures RunAdded(s, id, NewRun(x, revision, attempt, Queued, Some(b)), {},
                     InsertPrivate(s, x, revision, attempt, b, id))
  {
    NewId(s, id);
  }

  lemma InsertKeeps(s: Db, x: Id, revision: Revision, attempt: nat, b: Id, id: Id)
    requires Inv(s) && Fresh(s, id) && x in s.subs && attempt == MaxAttempt(s.runs, x) + 1
    requires PrivateSlot(s, NewRun(x, revision, attempt, Queued, Some(b)))
    ensures Kept(s, InsertPrivate(s, x, revision, attempt, b, id))
  {
    hide Inv, Kept, References, Fenced, RunsFollowTasks, Scores, MaxAttempt, Blank, RunAdded, PrivateSlot;
    hide Displaceable, BaselineUsable, BaselineAdmitted;
    Open(s);
    if BaselineAdmitted(s, x, b) {
      var run := NewRun(x, revision, attempt, Queued, Some(b));
      AdmittedBaseline(s, x, b, run);
      NewRunBlank(s, x, revision, Queued, Some(b));
      InsertAdds(s, x, revision, attempt, b, id);
      NothingDisplaced(s);
      AddedKeeps(s, id, run, {}, InsertPrivate(s, x, revision, attempt, b, id));
    } else {
      SameState(s);
      TaskStepKeeps(s, s);
    }
  }

  lemma NothingDisplaced(s: Db)
    ensures Displaceable(s, {})
  {
  }

  lemma AdmittedBaseline(s: Db, x: Id, b: Id, run: Database.Run)
    requires References(s) && Scores(s) && BaselineAdmitted(s, x, b) && run.submission == x && run.baseline == Some(b)
    ensures BaselineUsable(s, run) && s.subs[x].source.Some?
  {
  }

  lemma ScheduleSlot(s: Db, p: Id, b: Id)
    requires Base(s) && Baselines(s) && PrivateReady(s, p, b)
    ensures var x := s.repos[p].final.value; x in s.subs && s.runs[b].submission == x
    ensures var x := s.repos[p].final.value;
            PrivateSlot(s, NewRun(x, s.repos[p].gradingRevision, MaxAttempt(s.runs, x) + 1, Queued, Some(b)))
  {
    hide MaxAttempt, Receipts;
  }

  lemma SchedulePrivateKeeps(s: Db, p: Id, id: Id)
    requires Inv(s) && Fresh(s, id)
    ensures Kept(s, Grading.SchedulePrivate(s, p, id))
  {
    hide Inv, Kept, Base, Fenced, Baselines, PrivateReady, PrivateSlot, MaxAttempt, InsertPrivate;
    Open(s);
    if exists b: Id :: PrivateReady(s, p, b) {
      var b := ReadyBaseline(s, p);
      ReadyRepo(s, p, b);
      ScheduleSlot(s, p, b);
      var x := s.repos[p].final.value;
      InsertKeeps(s, x, s.repos[p].gradingRevision, MaxAttempt(s.runs, x) + 1, b, id);
    } else {
      SameState(s);
      TaskStepKeeps(s, s);
    }
  }

  lemma ReadyRepo(s: Db, p: Id, b: Id)
    requires PrivateReady(s, p, b)
    ensures p in s.repos && s.repos[p].final.Some?
  {
  }

  /** All runs of one adjustment but its last have failed, so the retried one was the last. */
  lemma RetrySlot(s: Db, failed: Id)
    requires Baselines(s) && PrivateRuns(s) && Attempts(s) && RunInRows(s, failed)
    requires IsTop(s.runs, s.runs[failed].submission, failed) && s.runs[failed].baseline.Some?
             && RetryableStatus(s.runs[failed].status)
    ensures var run := s.runs[failed];
            PrivateSlot(s, NewRun(run.submission, run.revision, run.attempt + 1, Queued, run.baseline))
    ensures s.runs[failed].attempt == MaxAttempt(s.runs, s.runs[failed].submission)
  {
    var run := s.runs[failed];
    forall q | q in s.runs && s.runs[q].baseline == run.baseline && s.runs[q].revision == run.revision
      ensures RetryableStatus(s.runs[q].status) && s.runs[q].attempt < run.attempt + 1
    {
      assert s.runs[q].submission == run.submission;
      if s.runs[q].attempt < run.attempt {
        assert Precedes(s.runs, q, failed);
      } else {
        assert SameAttempt(s.runs[q], run);
      }
    }
  }

  lemma RetryPrivateKeeps(s: Db, failed: Id, id: Id)
    requires Inv(s) && Fresh(s, id)
    ensures Kept(s, Grading.RetryPrivate(s, failed, id))
  {
    hide Inv, Kept, Base, Fenced, References, Baselines, PrivateRuns, Attempts, IsTop, PrivateSlot, MaxAttempt;
    hide InsertPrivate, RetryableStatus;
    Open(s);
    if failed in s.runs && IsTop(s.runs, s.runs[failed].submission, failed) && s.runs[failed].baseline.Some?
       && RetryableStatus(s.runs[failed].status) {
      RunRows(s, failed);
      RetrySlot(s, failed);
      var run := s.runs[failed];
      InsertKeeps(s, run.submission, run.revision, run.attempt + 1, run.baseline.value, id);
    } else {
      SameState(s);
      TaskStepKeeps(s, s);
    }
  }

  lemma RunRows(s: Db, r: Id)
    requires References(s) && r in s.runs
    ensures RunInRows(s, r)
  {
  }

  // ---- runs that gave up ----

  ghost predicate Abandoned(s: Db, r: Id)
    requires r in s.runs
  {
    s.runs[r].status in {Queued, Running} && Key(Grade, r) in s.tasks
    && s.tasks[Key(Grade, r)].status == TaskStatus.Failed
  }

  /** Runs whose grade task failed for good were marked, and nothing else changed. */
  ghost predicate Marked(s: Db, s': Db) {
    && s' == s.(runs := s'.runs) && s'.runs.Keys == s.runs.Keys
    && forall r :: r in s.runs ==>
         s'.runs[r] == if Abandoned(s, r) then s.runs[r].(status := Finished(InfrastructureFailed)) else s.runs[r]
  }

  lemma SyncMarks(s: Db)
    ensures Marked(s, Grading.SyncFailed(s))
  {
  }

  lemma MarkedRows(s: Db, s': Db)
    requires Marked(s, s')
    ensures Extends(s, s') && NoNewLease(s, s') && NoneDone(s, s') && SameBase(s, s') && RunsKept(s, s')
            && ResultsKept(s, s')
    ensures s'.tickets == s.tickets && s'.runs.Keys == s.runs.Keys
  {
  }

  lemma MarkedReferences(s: Db, s': Db)
    requires References(s) && Marked(s, s')
    ensures References(s')
  {
    hide Abandoned;
    assert forall r :: r in s'.runs ==> s'.runs[r].submission == s.runs[r].submission;
  }

  lemma MarkedFenced(s: Db, s': Db)
    requires Fenced(s) && Marked(s, s')
    ensures Fenced(s')
  {
    hide Abandoned;
  }

  lemma MarkedRuns(s: Db, s': Db)
    requires RunsFollowTasks(s) && Marked(s, s')
    ensures RunsFollowTasks(s')
  {
    hide ResultsShown, Marked, RunsWait, ResultsDone;
    MarkedWait(s, s');
    MarkedShown(s, s');
  }

  lemma MarkedWait(s: Db, s': Db)
    requires RunsWait(s) && Marked(s, s')
    ensures RunsWait(s')
  {
  }

  lemma MarkedShown(s: Db, s': Db)
    requires ResultsDone(s) && ResultsShown(s) && Marked(s, s')
    ensures ResultsDone(s') && ResultsShown(s')
  {
  }

  lemma MarkedPrivate(s: Db, s': Db)
    requires PrivateRuns(s) && Baselines(s) && Marked(s, s')
    ensures PrivateRuns(s') && Baselines(s')
  {
    hide PrivateEnds, PrivateOrder, Marked;
    MarkedEnds(s, s');
    MarkedOrder(s, s');
  }

  lemma MarkedEnds(s: Db, s': Db)
    requires PrivateEnds(s) && Baselines(s) && Marked(s, s')
    ensures PrivateEnds(s') && Baselines(s')
  {
    assert forall r :: GaveUp(s, r) ==> GaveUp(s', r);
  }

  lemma MarkedOrder(s: Db, s': Db)
    requires PrivateOrder(s) && Marked(s, s')
    ensures PrivateOrder(s')
  {
    assert forall q, r :: Precedes(s'.runs, q, r) ==> Precedes(s.runs, q, r);
  }

  lemma SyncKeeps(s: Db)
    requires Inv(s)
    ensures Kept(s, Grading.SyncFailed(s))
  {
    hide *;
    var s' := Grading.SyncFailed(s);
    Open(s);
    SyncMarks(s);
    MarkedRows(s, s');
    MarkedReferences(s, s');
    MarkedFenced(s, s');
    KeepBase(s, s');
    KeepExclusive(s, s');
    MarkedRuns(s, s');
    MarkedPrivate(s, s');
    MarkedShape(s, s');
    SameScores(s, s');
    SameAttempts(s, s');
    KeepSnapshotRows(s, s');
    Assemble(s, s');
  }

  lemma MarkedShape(s: Db, s': Db)
    requires s'.runs.Keys == s.runs.Keys
    ensures forall r :: r in s'.runs && r !in s.runs ==>
              s'.runs[r].result.None? && s'.runs[r].points.None? && s'.runs[r].publicPoints.None?
  {
  }

  // ---- the end of a source fetch ----

  lemma PublicRunExists(s: Db, x: Id, id: Id)
    requires CanEnqueue(s, x) && References(s) && Fresh(s, id)
    ensures HasPublicRun(Grading.EnqueueRun(s, x, false, id).runs, x)
  {
    hide MaxAttempt, RunSuperseded, IsTop;
    NewId(s, id);
    var s' := Grading.EnqueueRun(s, x, false, id);
    if !HasPublicRun(s.runs, x) {
      assert id in s'.runs && s'.runs[id].submission == x && s'.runs[id].baseline.None?;
    }
  }

  function Process(s: Db, g: Grant): Db {
    s.(processed := s.processed + {g})
  }

  lemma ProcessBase(s: Db, g: Grant)
    requires Base(s)
    ensures var s' := Process(s, g); Base(s') && Extends(s, s') && Bystander(s, s')
  {
    hide Base, References;
    BaseReferences(s);
    ProcessReferences(s, g);
    KeepBase(s, Process(s, g));
  }

  lemma ProcessReferences(s: Db, g: Grant)
    requires References(s)
    ensures References(Process(s, g))
  {
  }

  lemma ProcessRows(s: Db, g: Grant)
    requires Fenced(s) && Snapshots(s) && g in s.grants && g.key.kind == Snapshot && Captured(s, g.key.subject)
    ensures Fenced(Process(s, g)) && Snapshots(Process(s, g)) && Process(s, g).tickets == s.tickets
  {
    var s' := Process(s, g);
    assert forall x :: Captured(s, x) ==> Captured(s', x);
  }

  lemma ProcessKeeps(s: Db, g: Grant)
    requires Inv(s) && g in s.grants && g.key.kind == Snapshot && Captured(s, g.key.subject)
    ensures Kept(s, Process(s, g))
  {
    hide *;
    var s' := Process(s, g);
    Open(s);
    ProcessBase(s, g);
    BaseReferences(s');
    ProcessRows(s, g);
    BystanderQuiet(s, s');
    KeepGrading(s, s');
    Assemble(s, s');
  }

  lemma EndSnapshotKeeps(s: Db, g: Grant, id: Id)
    requires Inv(s) && Enabled(s, Op.EndSnapshot(g, id))
    ensures Kept(s, Apply(s, Op.EndSnapshot(g, id)))
  {
    hide Inv, Kept, References, Fenced, Base, Extends, Grading.EnqueueRun, HasPublicRun;
    Open(s);
    var s1 := Grading.EnqueueRun(s, g.key.subject, false, id);
    EnqueueRunKeeps(s, g.key.subject, false, id);
    KeptInv(s, s1);
    PublicRunExists(s, g.key.subject, id);
    SourceKept(s, s1, g);
    EnqueueRunFrame(s, g.key.subject, id);
    ProcessKeeps(s1, g);
    ThenKept(s, s1, Process(s1, g));
  }

  lemma EnqueueRunFrame(s: Db, x: Id, id: Id)
    ensures Grading.EnqueueRun(s, x, false, id).processed == s.processed
  {
    hide MaxAttempt, RunSuperseded, IsTop, CancelDisplaced, SupersedeCancelled;
  }

  lemma SourceKept(s: Db, s1: Db, g: Grant)
    requires Extends(s, s1) && CanEnqueue(s, g.key.subject) && g in s.grants && HasPublicRun(s1.runs, g.key.subject)
    ensures Captured(s1, g.key.subject) && g in s1.grants
  {
  }
}
