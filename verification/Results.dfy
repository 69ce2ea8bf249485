/** Results are written once; private adjustment happens once; closure is final. */
module Results {
  import opened Wrappers
  import opened Protocol
  import opened Database
  import opened Queue
  import opened Submissions
  import opened Grading
  import opened Lifecycle
  import opened Invariant
  import opened Preservation
  import opened ControlSteps
  import opened GradeSteps
  import opened RunSteps
  import opened Fate
  import opened Theorems
  import opened Frames

  // ---- write-once results ----

  /** A run that has ended and whose task is over. */
  ghost predicate Settled(s: Db, r: Id) {
    && r in s.runs && s.runs[r].status.Finished?
    && Key(Grade, r) in s.tasks && s.tasks[Key(Grade, r)].status in {TaskStatus.Done, TaskStatus.Failed}
  }

  /** Whoever leases, accepts, queues or synchronizes: a settled run keeps its whole row. */
  lemma SettledKept(s: Db, op: Op, r: Id)
    requires Inv(s) && Enabled(s, op) && Settled(s, r)
    ensures r in Apply(s, op).runs && Apply(s, op).runs[r] == s.runs[r]
  {
    hide Inv, Enabled, Apply, References, RunsFollowTasks, Tickets, Fenced, Settled, Grading.Commit;
    Open(s);
    SettledRow(s, r);
    if op.LeaseGrade? {
      LeaseGradeEnabled(s, op);
      LeaseLeavesRun(s, op.w, op.k, op.token, r);
    } else if op.Commit? {
      CommitEnabled(s, op.ticket);
      CommitLeavesRun(s, op.ticket, r);
      StepIs(s, op);
    } else if op.EnqueueRun? || op.EndSnapshot? || op.SchedulePrivate? || op.RetryPrivate? {
      NewRunsLeaveRun(s, op, r);
    } else if op.SyncFailed? {
      SyncLeavesRun(s, r);
    } else {
      FrameOf(s, op);
    }
  }

  lemma LeaseLeavesRun(s: Db, w: Worker, k: Key, token: Id, r: Id)
    requires Settled(s, r)
    requires k in s.tasks && k.kind == Grade && k.subject in s.runs && Ready(s.tasks[k], s.now)
    ensures Grading.LeaseGrade(s, w, k, token).runs[r] == s.runs[r]
  {
    hide WorkerBusy;
    assert k == Key(Grade, k.subject);
  }

  lemma CommitLeavesRun(s: Db, t: Ticket, r: Id)
    requires RunsFollowTasks(s) && Tickets(s) && t in s.tickets && Settled(s, r)
    ensures r in Grading.Commit(s, t).runs && Grading.Commit(s, t).runs[r] == s.runs[r]
  {
    hide ScoresAllowed, RunsFollowTasks, Tickets, Decide, WithResult, FlagReview, Queue.Enqueue;
    if Decide(s, t) == Accepted {
      AcceptableTicket(s, t);
      WriteLeavesRun(s, t, r);
    }
  }

  lemma WriteLeavesRun(s: Db, t: Ticket, r: Id)
    requires t.key in s.tasks && t.result.run in s.runs && r in s.runs && r != t.result.run
    ensures r in Write(s, t).runs && Write(s, t).runs[r] == s.runs[r]
    ensures forall p :: FlagReview(Write(s, t), p).runs == Write(s, t).runs
  {
  }

  lemma SyncLeavesRun(s: Db, r: Id)
    requires Settled(s, r)
    ensures var s' := Apply(s, Op.SyncFailed); r in s'.runs && s'.runs[r] == s.runs[r]
  {
  }

  lemma EnqueueLeavesRun(s: Db, x: Id, regrade: bool, id: Id, r: Id)
    requires References(s) && Fresh(s, id) && Settled(s, r)
    ensures var s' := Grading.EnqueueRun(s, x, regrade, id); r in s'.runs && s'.runs[r] == s.runs[r]
  {
    hide MaxAttempt, IsTop, RunSuperseded, HasPublicRun, CancelDisplaced;
    NewId(s, id);
  }

  lemma NewRunsLeaveRun(s: Db, op: Op, r: Id)
    requires References(s) && Enabled(s, op) && Settled(s, r)
    requires op.EnqueueRun? || op.EndSnapshot? || op.SchedulePrivate? || op.RetryPrivate?
    ensures r in Apply(s, op).runs && Apply(s, op).runs[r] == s.runs[r]
  {
    hide Grading.SchedulePrivate, Grading.RetryPrivate, Grading.EnqueueRun, CanEnqueue, Settled, References;
    NewId(s, op.id);
    SettledRow(s, r);
    PrivateFrames(s, if op.SchedulePrivate? then op.p else 0, if op.RetryPrivate? then op.failed else 0, op.id);
    if op.EnqueueRun? {
      EnqueueLeavesRun(s, op.x, op.regrade, op.id, r);
    } else if op.EndSnapshot? {
      EnqueueLeavesRun(s, op.g.key.subject, false, op.id, r);
    }
  }

  lemma SettledRow(s: Db, r: Id)
    requires Settled(s, r)
    ensures r in s.runs
  {
  }

  lemma ResultSettled(s: Db, r: Id)
    requires Inv(s) && r in s.runs && s.runs[r].result.Some?
    ensures Settled(s, r)
  {
    hide Exclusive, Scores, Baselines, Tickets, Closure, PrivateRuns, Attempts, Receipts, OncePerEvent, Snapshots;
    hide Fenced, References;
  }

  /** From its result on, a run never changes again, whatever happens. */
  lemma {:induction false} WrittenOnce(s: Db, ops: seq<Op>, r: Id)
    requires Inv(s) && Legal(s, ops) && r in s.runs && s.runs[r].result.Some?
    ensures var s' := Exec(s, ops); r in s'.runs && s'.runs[r] == s.runs[r]
    decreases |ops|
  {
    hide Inv, Kept, Enabled, Apply, Legal;
    if ops != [] {
      Unfold(s, ops);
      var s1 := Apply(s, ops[0]);
      Step(s, ops[0]);
      KeptInv(s, s1);
      ResultSettled(s, r);
      SettledKept(s, ops[0], r);
      WrittenOnce(s1, ops[1..], r);
    }
  }

  lemma ExaminedAgain(s: Db, w: Worker, k: Key, result: RunResult)
    requires result.run in s.runs && s.runs[result.run].result.Some?
    ensures Grading.Examine(s, w, k, result) in {Refused, Replayed}
    ensures Grading.Examine(s, w, k, result) == Replayed ==> s.runs[result.run].result == Some(result)
    ensures Examined(s, w, k, result) == s
  {
    hide OwnedLease, ValidateResult;
  }

  lemma CommittedAgain(s: Db, t: Ticket)
    requires Inv(s) && t in s.tickets && t.result.run in s.runs && s.runs[t.result.run].result.Some?
    ensures Decide(s, t) == AlreadyAccepted ==> s.runs[t.result.run].result == Some(t.result)
    ensures s.runs[t.result.run].result != Some(t.result) ==> Decide(s, t) == Conflict
    ensures Grading.Commit(s, t) == s
  {
    hide Inv, RunsFollowTasks, Tickets;
    Open(s);
    ReplayDecision(s, t);
  }

  /** Once a result is stored, every result presented for the run later has no effect in the first
      phase, whatever happened in between, and only the stored one is not refused. */
  lemma Replay(s: Db, ops: seq<Op>, r: Id, w: Worker, k: Key, result: RunResult)
    requires Inv(s) && Legal(s, ops) && r in s.runs && s.runs[r].result.Some? && result.run == r
    ensures var s' := Exec(s, ops); var a := Grading.Examine(s', w, k, result);
            && Examined(s', w, k, result) == s'
            && a in {Refused, Replayed} && (a == Replayed ==> s.runs[r].result == Some(result))
  {
    hide Inv, Extends, Legal, Exec, Grading.Examine, Examined;
    WrittenOnce(s, ops, r);
    ExaminedAgain(Exec(s, ops), w, k, result);
  }

  /** The second phase has no effect either, for any acceptance that was still under way. */
  lemma LateCommit(s: Db, ops: seq<Op>, t: Ticket)
    requires Inv(s) && Legal(s, ops) && t.result.run in s.runs && s.runs[t.result.run].result.Some?
    requires t in Exec(s, ops).tickets
    ensures var s' := Exec(s, ops);
            && Grading.Commit(s', t) == s'
            && (s.runs[t.result.run].result != Some(t.result) ==> Decide(s', t) == Conflict)
            && (Decide(s', t) == AlreadyAccepted ==> s.runs[t.result.run].result == Some(t.result))
  {
    hide Inv, Extends, Legal, Exec, Grading.Commit, Decide;
    WrittenOnce(s, ops, t.result.run);
    Safe(s, ops);
    CommittedAgain(Exec(s, ops), t);
  }

  // The identical result is acknowledged.

  /** The row of a finished grade task still carries the lease under which it was finished. */
  ghost predicate FinishedUnder(s: Db, k: Key, token: Id, owner: string) {
    && k in s.tasks && k.kind == Grade && s.tasks[k].status == Done
    && s.tasks[k].token == Some(token) && s.tasks[k].owner == owner
  }

  lemma FinishedStep(s: Db, op: Op, k: Key, token: Id, owner: string)
    requires Inv(s) && Enabled(s, op) && FinishedUnder(s, k, token, owner)
    ensures FinishedUnder(Apply(s, op), k, token, owner)
  {
    hide Inv, Enabled, Apply;
    FateOfAll(s, op);
    assert RowFate(s, op, k, s.tasks[k], Apply(s, op).tasks[k]);
    NotReset(s, op, k, s.tasks[k]);
  }

  lemma NotReset(s: Db, op: Op, k: Key, t: Task)
    requires k.kind == Grade && t.status == Done
    ensures !Resets(s, op, k, t)
  {
    hide Latest;
  }

  lemma {:induction false} FinishedFor(s: Db, ops: seq<Op>, k: Key, token: Id, owner: string)
    requires Inv(s) && Legal(s, ops) && FinishedUnder(s, k, token, owner)
    ensures FinishedUnder(Exec(s, ops), k, token, owner)
    decreases |ops|
  {
    hide Inv, Kept, Enabled, Apply, Legal, FinishedUnder;
    if ops != [] {
      Unfold(s, ops);
      Step(s, ops[0]);
      KeptInv(s, Apply(s, ops[0]));
      FinishedStep(s, ops[0], k, token, owner);
      FinishedFor(Apply(s, ops[0]), ops[1..], k, token, owner);
    }
  }

  /** Leases that validate the same results. */
  predicate Alike(l: Lease, l': Lease) {
    && l'.run == l.run && l'.token == l.token && l'.sha == l.sha && l'.revision == l.revision
    && (l'.baseline.Some? <==> l.baseline.Some?)
    && (l.baseline.Some? ==> l'.baseline.value.points == l.baseline.value.points)
  }

  lemma AlikeValidates(result: RunResult, l: Lease, l': Lease)
    requires Alike(l, l')
    ensures ValidateResult(result, l') == ValidateResult(result, l)
  {
    hide Protocol.Sound;
  }

  /** What `OwnedLease` reads of a run besides its task. */
  lemma OwnedAgain(s: Db, s': Db, w: Worker, k: Key, token: Id)
    requires OwnedLease(s, w, k, token, true).Some? && Extends(s, s') && FinishedUnder(s', k, token, w.id)
    requires s'.runs[k.subject].baseline.Some? ==>
               && s'.subs[s'.runs[k.subject].submission].repo in s'.repos
               && s'.repos[s'.subs[s'.runs[k.subject].submission].repo].Deadline() < s'.now
               && s'.runs[k.subject].baseline.value in s.runs && s'.runs[k.subject].baseline.value in s'.runs
               && s'.runs[s'.runs[k.subject].baseline.value] == s.runs[s'.runs[k.subject].baseline.value]
    ensures OwnedLease(s', w, k, token, true).Some?
    ensures Alike(OwnedLease(s, w, k, token, true).value, OwnedLease(s', w, k, token, true).value)
  {
    hide Protocol.Sound, EventsKept;
  }

  lemma EnqueueRunTickets(s: Db, x: Id, regrade: bool, id: Id)
    ensures Grading.EnqueueRun(s, x, regrade, id).tickets == s.tickets
  {
    hide MaxAttempt, CanEnqueue, RunSuperseded, HasPublicRun, CancelDisplaced, SupersedeCancelled;
  }

  lemma TicketsOfRuns(s: Db, op: Op)
    requires Enabled(s, op) && (op.EnqueueRun? || op.EndSnapshot?)
    ensures Apply(s, op).tickets == s.tickets
  {
    hide CanEnqueue, Grading.EnqueueRun;
    match op {
      case EnqueueRun(x, regrade, id) => EnqueueRunTickets(s, x, regrade, id);
      case EndSnapshot(g, id) => EnqueueRunTickets(s, g.key.subject, false, id);
    }
  }

  lemma TicketsOfPrivate(s: Db, op: Op)
    requires Enabled(s, op) && (op.SchedulePrivate? || op.RetryPrivate? || op.SyncFailed?)
    ensures Apply(s, op).tickets == s.tickets
  {
    hide MaxAttempt, IsTop, PrivateReady, BaselineAdmitted;
  }

  lemma TicketsOfGrading(s: Db, op: Op)
    requires Enabled(s, op) && (op.LeaseGrade? || op.Commit?)
    ensures Apply(s, op).tickets == s.tickets
  {
    hide FirstOf, GradeCandidates, WorkerBusy, Decide, WithResult, LeaseRow;
  }

  lemma CloseTickets(s: Db, p: Id)
    ensures Submissions.Close(s, p).tickets == s.tickets
  {
    hide Latest, WorkOf, Revive, Due;
  }

  lemma SelectTickets(s: Db, event: Id, id: Id)
    ensures Submissions.Select(s, event, id).tickets == s.tickets
  {
    hide MadeFrom;
  }

  predicate OfReceipts(op: Op) {
    op.Record? || op.Refill? || op.Close? || op.Select?
  }

  lemma ScheduleTickets(s: Db, p: Id, picks: set<Id>)
    ensures ScheduleSnapshots(s, p, picks).tickets == s.tickets
  {
    hide Obsolete, IsFinal;
  }

  lemma RecordTickets(s: Db, p: Id, sha: string, received: int, source: EventSource, event: Id, sub: Id, picks: set<Id>)
    ensures Submissions.Record(s, p, sha, received, source, event, sub, picks).tickets == s.tickets
  {
    hide ScheduleSnapshots, Delivered, Eligible, RepeatsLatest, Latest;
    if Recordable(s, p, sha, source) {
      ScheduleTickets(Receive(s, p, sha, received, source, event, sub), p, picks);
    }
  }

  lemma TicketsOfReceipts(s: Db, op: Op)
    requires Enabled(s, op) && OfReceipts(op)
    ensures Apply(s, op).tickets == s.tickets
  {
    hide ScheduleSnapshots, Submissions.Record, Submissions.Close, Submissions.Select, FillsSlots, Recordable, Receive;
    match op {
      case Record(p, sha, received, source, event, sub, picks) =>
        RecordTickets(s, p, sha, received, source, event, sub, picks);
      case Refill(p, picks) => ScheduleTickets(s, p, picks);
      case Close(p) => CloseTickets(s, p);
      case Select(event, id) => SelectTickets(s, event, id);
    }
  }

  lemma TicketsOfRows(s: Db, op: Op)
    requires Enabled(s, op) && !WritesRuns(op) && !TaskCall(op) && !OfReceipts(op)
    ensures s.tickets <= Apply(s, op).tickets
  {
    hide Holds, FirstOf, Candidates, Merged, Grading.Examine, LeaseRow;
  }

  /** An acceptance under way stays under way. */
  lemma TicketsGrow(s: Db, op: Op)
    requires Enabled(s, op)
    ensures s.tickets <= Apply(s, op).tickets
  {
    hide Enabled, Apply;
    if op.LeaseGrade? || op.Commit? {
      TicketsOfGrading(s, op);
    } else if op.EnqueueRun? || op.EndSnapshot? {
      TicketsOfRuns(s, op);
    } else if op.SchedulePrivate? || op.RetryPrivate? || op.SyncFailed? {
      TicketsOfPrivate(s, op);
    } else if TaskCall(op) {
      TaskCalls(s, op);
    } else if OfReceipts(op) {
      TicketsOfReceipts(s, op);
    } else {
      TicketsOfRows(s, op);
    }
  }

  lemma {:induction false} TicketsKept(s: Db, ops: seq<Op>, t: Ticket)
    requires Legal(s, ops) && t in s.tickets
    ensures t in Exec(s, ops).tickets
    decreases |ops|
  {
    hide Enabled, Apply, Legal;
    if ops != [] {
      Unfold(s, ops);
      TicketsGrow(s, ops[0]);
      TicketsKept(Apply(s, ops[0]), ops[1..], t);
    }
  }

  lemma FirstPhase(s: Db, w: Worker, k: Key, result: RunResult, t: Ticket)
    requires Inv(s) && Grading.Examine(s, w, k, result) == Continue(t)
    ensures OwnedLease(s, w, k, result.token, true).Some?
    ensures ValidateResult(result, OwnedLease(s, w, k, result.token, true).value).Some?
    ensures var s1 := Examined(s, w, k, result); Kept(s, s1) && s1.runs == s.runs && t in s1.tickets
    ensures t.key == k && t.worker == w.id && t.result == result && k.subject == result.run && k.kind == Grade
            && k.subject in s.runs
  {
    hide Inv, Kept, ValidateResult, Protocol.Sound;
    ExamineKeeps(s, w, k, result);
  }

  lemma SecondPhase(s: Db, t: Ticket)
    requires Inv(s) && t in s.tickets && Decide(s, t) == Accepted && t.key.kind == Grade
    ensures var c := Grading.Commit(s, t);
            && Kept(s, c) && FinishedUnder(c, t.key, t.result.token, t.worker)
            && t.result.run in c.runs && c.runs[t.result.run].result == Some(t.result)
  {
    hide Inv, Kept;
    CommitKeeps(s, t);
  }

  lemma AcknowledgedAt(s: Db, s': Db, w: Worker, k: Key, result: RunResult, t: Ticket)
    requires Inv(s) && Grading.Examine(s, w, k, result) == Continue(t) && Inv(s') && Extends(s, s')
    requires FinishedUnder(s', k, result.token, w.id) && result.run in s'.runs
             && s'.runs[result.run].result == Some(result)
    requires s.runs[k.subject].baseline.Some? ==>
               && s.runs[k.subject].baseline.value in s.runs && s.runs[k.subject].baseline.value in s'.runs
               && s'.runs[s.runs[k.subject].baseline.value] == s.runs[s.runs[k.subject].baseline.value]
    ensures Grading.Examine(s', w, k, result) == Replayed && Decide(s', t) == AlreadyAccepted
  {
    hide Inv, OwnedLease, ValidateResult, SubmissionsKept, ReposKept, EventsKept, Closure, PrivateRuns, Alike;
    FirstPhase(s, w, k, result, t);
    if s'.runs[k.subject].baseline.Some? {
      Open(s');
      PrivateIsDue(s', k.subject);
    }
    OwnedAgain(s, s', w, k, result.token);
    AlikeValidates(result, OwnedLease(s, w, k, result.token, true).value,
                   OwnedLease(s', w, k, result.token, true).value);
  }

  lemma BaselineHasResult(s: Db, r: Id)
    requires Baselines(s) && r in s.runs && s.runs[r].baseline.Some?
    ensures s.runs[r].baseline.value in s.runs && s.runs[s.runs[r].baseline.value].result.Some?
  {
  }

  /** A worker that never heard back can ask again: after its result passed the first phase and was
      accepted by the second, with anything in between, presenting it once more is acknowledged in
      both phases, whatever else has happened since. */
  lemma Acknowledged(s: Db, mid: seq<Op>, rest: seq<Op>, w: Worker, k: Key, result: RunResult, t: Ticket)
    requires Inv(s) && Grading.Examine(s, w, k, result) == Continue(t)
    requires Legal(Examined(s, w, k, result), mid) && Decide(Exec(Examined(s, w, k, result), mid), t) == Accepted
    requires Legal(Grading.Commit(Exec(Examined(s, w, k, result), mid), t), rest)
    ensures var s' := Exec(Grading.Commit(Exec(Examined(s, w, k, result), mid), t), rest);
            Grading.Examine(s', w, k, result) == Replayed && Decide(s', t) == AlreadyAccepted
  {
    hide *;
    FirstPhase(s, w, k, result, t);
    var s1 := Examined(s, w, k, result);
    KeptInv(s, s1);
    Safe(s1, mid);
    TicketsKept(s1, mid, t);
    var m := Exec(s1, mid);
    SecondPhase(m, t);
    var c := Grading.Commit(m, t);
    KeptInv(m, c);
    Safe(c, rest);
    var s' := Exec(c, rest);
    FinishedFor(c, rest, k, result.token, w.id);
    WrittenOnce(c, rest, result.run);
    ExtendsTransitive(s, s1, m);
    ExtendsTransitive(s, m, c);
    ExtendsTransitive(s, c, s');
    if s.runs[k.subject].baseline.Some? {
      Open(s);
      BaselineHasResult(s, k.subject);
      var b := s.runs[k.subject].baseline.value;
      WrittenOnce(s1, mid, b);
      CommitKeepsResult(m, t, b);
      WrittenOnce(c, rest, b);
    }
    AcknowledgedAt(s, s', w, k, result, t);
  }

  lemma CommitKeepsResult(s: Db, t: Ticket, b: Id)
    requires Inv(s) && t in s.tickets && b in s.runs && s.runs[b].result.Some?
    ensures var c := Grading.Commit(s, t); b in c.runs && c.runs[b] == s.runs[b]
  {
    hide Inv, Grading.Commit, RunsFollowTasks, Tickets, Settled;
    Open(s);
    ResultSettled(s, b);
    CommitLeavesRun(s, t, b);
  }

  lemma ReplayDecision(s: Db, t: Ticket)
    requires RunsFollowTasks(s) && Tickets(s) && t in s.tickets && s.runs[t.result.run].result.Some?
    ensures Decide(s, t) != Accepted
  {
    hide ScoresAllowed;
  }

  lemma ResultDoneAt(s: Db, r: Id)
    requires Inv(s) && r in s.runs
    ensures s.runs[r].result.Some? <==> Key(Grade, r) in s.tasks && s.tasks[Key(Grade, r)].status == Done
    ensures s.runs[r].result.Some? <==> Key(Publish, r) in s.tasks
    ensures s.runs[r].status == Queued ==> Key(Grade, r) in s.tasks && s.tasks[Key(Grade, r)].status == Pending
  {
    hide Exclusive, Scores, Baselines, Tickets, Closure, PrivateRuns, Attempts, Receipts, OncePerEvent, Snapshots;
    hide Fenced;
  }

  /** In every reachable state a run has a result exactly when its grade task is done, exactly then
      it is to be published, and a waiting run has a waiting task. */
  lemma ResultIffDone(ops: seq<Op>, r: Id)
    requires Legal(EMPTY, ops) && r in Exec(EMPTY, ops).runs
    ensures var s := Exec(EMPTY, ops);
            s.runs[r].result.Some? <==> Key(Grade, r) in s.tasks && s.tasks[Key(Grade, r)].status == Done
    ensures var s := Exec(EMPTY, ops); s.runs[r].result.Some? <==> Key(Publish, r) in s.tasks
    ensures var s := Exec(EMPTY, ops);
            s.runs[r].status == Queued ==> Key(Grade, r) in s.tasks && s.tasks[Key(Grade, r)].status == Pending
  {
    hide Inv, Legal, Exec;
    Reachable(ops);
    ResultDoneAt(Exec(EMPTY, ops), r);
  }

  // ---- private adjustment ----

  lemma PrivateSettled(s: Db, r: Id)
    requires Inv(s) && r in s.runs && s.runs[r].baseline.Some? && s.runs[r].status.Finished?
    ensures Settled(s, r)
  {
    hide Exclusive, Scores, Baselines, Tickets, Closure, Attempts, Receipts, OncePerEvent, Snapshots, Fenced;
    hide References, PrivateOrder;
  }

  /** A private run that ended, with or without a result, never changes again. */
  lemma {:induction false} AdjustmentEnds(s: Db, ops: seq<Op>, r: Id)
    requires Inv(s) && Legal(s, ops) && r in s.runs && s.runs[r].baseline.Some? && s.runs[r].status.Finished?
    ensures var s' := Exec(s, ops); r in s'.runs && s'.runs[r] == s.runs[r]
    decreases |ops|
  {
    hide Inv, Kept, Enabled, Apply, Legal;
    if ops != [] {
      Unfold(s, ops);
      var s1 := Apply(s, ops[0]);
      Step(s, ops[0]);
      KeptInv(s, s1);
      PrivateSettled(s, r);
      SettledKept(s, ops[0], r);
      AdjustmentEnds(s1, ops[1..], r);
    }
  }

  /** Of all runs that adjust one public result with one grader revision, only the last attempt can
      be anything but failed, in every reachable state; and what they adjust is never itself adjusted. */
  lemma AdjustedOnce(ops: seq<Op>, q: Id, r: Id)
    requires Legal(EMPTY, ops)
    requires var s := Exec(EMPTY, ops);
             && q in s.runs && r in s.runs && q != r && s.runs[q].baseline.Some?
             && s.runs[q].baseline == s.runs[r].baseline && s.runs[q].revision == s.runs[r].revision
    ensures var s := Exec(EMPTY, ops);
            && (if s.runs[q].attempt < s.runs[r].attempt then RetryableStatus(s.runs[q].status)
                else RetryableStatus(s.runs[r].status))
            && s.runs[q].baseline.value in s.runs && s.runs[s.runs[q].baseline.value].baseline.None?
  {
    hide Inv, Legal, Exec, Baselines, PrivateRuns, Attempts;
    Reachable(ops);
    var s := Exec(EMPTY, ops);
    Open(s);
    AdjustmentOrder(s, q, r);
  }

  lemma AdjustmentOrder(s: Db, q: Id, r: Id)
    requires Baselines(s) && PrivateRuns(s) && Attempts(s)
    requires q in s.runs && r in s.runs && q != r && s.runs[q].baseline.Some?
    requires s.runs[q].baseline == s.runs[r].baseline && s.runs[q].revision == s.runs[r].revision
    ensures if s.runs[q].attempt < s.runs[r].attempt then RetryableStatus(s.runs[q].status)
            else RetryableStatus(s.runs[r].status)
    ensures s.runs[q].baseline.value in s.runs && s.runs[s.runs[q].baseline.value].baseline.None?
  {
    hide PrivateEnds;
    assert !SameAttempt(s.runs[q], s.runs[r]);
    if s.runs[q].attempt < s.runs[r].attempt {
      assert Precedes(s.runs, q, r);
    } else {
      assert Precedes(s.runs, r, q);
    }
  }

  lemma TriggerAt(s: Db, p: Id, b: Id, failed: Id)
    requires Inv(s)
    ensures PrivateReady(s, p, b) ==> BaselineAdmitted(s, s.repos[p].final.value, b)
    ensures failed in s.runs && s.runs[failed].baseline.Some? ==>
              BaselineAdmitted(s, s.runs[failed].submission, s.runs[failed].baseline.value)
  {
    hide Exclusive, RunsWait, ResultsDone, Tickets, Attempts, Receipts, OncePerEvent, Snapshots, Fenced, PrivateOrder;
  }

  /** The database trigger never refuses a private run that the code decided to insert. */
  lemma TriggerAdmits(ops: seq<Op>, p: Id, b: Id, failed: Id)
    requires Legal(EMPTY, ops)
    ensures var s := Exec(EMPTY, ops); PrivateReady(s, p, b) ==> BaselineAdmitted(s, s.repos[p].final.value, b)
    ensures var s := Exec(EMPTY, ops);
            failed in s.runs && s.runs[failed].baseline.Some? ==>
              BaselineAdmitted(s, s.runs[failed].submission, s.runs[failed].baseline.value)
  {
    hide Inv, Legal, Exec, PrivateReady, BaselineAdmitted;
    Reachable(ops);
    TriggerAt(Exec(EMPTY, ops), p, b, failed);
  }

  // ---- provenance of scores ----

  lemma ProvenanceAt(s: Db, r: Id)
    requires Inv(s) && r in s.runs
    ensures s.runs[r].points.Some? <==> s.runs[r].status == Finished(Completed)
    ensures s.runs[r].points.Some? ==> 0 <= s.runs[r].points.value <= s.runs[r].revision.assignment.maxPoints
    ensures s.runs[r].baseline.None? ==>
              s.runs[r].publicPoints == s.runs[r].points && s.runs[r].status != Finished(Invalidated)
    ensures s.runs[r].baseline.Some? && s.runs[r].result.Some? ==>
              var b := s.runs[r].baseline.value;
              && b in s.runs && s.runs[b].baseline.None? && s.runs[b].submission == s.runs[r].submission
              && s.runs[b].status == Finished(Completed) && s.runs[r].publicPoints == s.runs[b].points
  {
    hide Exclusive, Tickets, Attempts, Receipts, OncePerEvent, Snapshots, Fenced, PrivateRuns, Closure, References;
  }

  /** Where a stored score comes from. */
  lemma Provenance(ops: seq<Op>, r: Id)
    requires Legal(EMPTY, ops) && r in Exec(EMPTY, ops).runs
    ensures var s := Exec(EMPTY, ops); s.runs[r].points.Some? <==> s.runs[r].status == Finished(Completed)
    ensures var s := Exec(EMPTY, ops);
            s.runs[r].points.Some? ==> 0 <= s.runs[r].points.value <= s.runs[r].revision.assignment.maxPoints
    ensures var s := Exec(EMPTY, ops);
            s.runs[r].baseline.None? ==>
              s.runs[r].publicPoints == s.runs[r].points && s.runs[r].status != Finished(Invalidated)
    ensures var s := Exec(EMPTY, ops);
            s.runs[r].baseline.Some? && s.runs[r].result.Some? ==>
              var b := s.runs[r].baseline.value;
              && b in s.runs && s.runs[b].baseline.None? && s.runs[b].submission == s.runs[r].submission
              && s.runs[b].status == Finished(Completed) && s.runs[r].publicPoints == s.runs[b].points
  {
    hide Inv, Legal, Exec;
    Reachable(ops);
    ProvenanceAt(Exec(EMPTY, ops), r);
  }

  // ---- closure ----

  ghost predicate SameFinal(s: Db, s': Db, p: Id) {
    p in s.repos ==> p in s'.repos && s'.repos[p].final == s.repos[p].final
  }

  /** Once a repository is closed, only an instructor's selection for it changes its final submission. */
  lemma FinalKept(s: Db, op: Op, p: Id)
    requires Inv(s) && Enabled(s, op) && p in s.repos && s.repos[p].closed && !SelectsIn(s, op, p)
    ensures SameFinal(s, Apply(s, op), p)
  {
    hide Inv, Enabled, Apply, References, Merged, Latest;
    Open(s);
    NotRequested(s, op, p);
    RepoFateOf(s, op, p);
  }

  lemma NotRequested(s: Db, op: Op, p: Id)
    requires References(s) && Enabled(s, op) && p in s.repos
    ensures op.Request? ==> op.p != p
  {
  }

  /** No selection for `p` along the run. */
  ghost predicate NoSelection(s: Db, ops: seq<Op>, p: Id)
    requires Legal(s, ops)
    decreases |ops|
  {
    ops == [] || (!SelectsIn(s, ops[0], p) && NoSelection(Apply(s, ops[0]), ops[1..], p))
  }

  /** Closure is a one-way freeze of deadline, state and choice. */
  lemma {:induction false} Frozen(s: Db, ops: seq<Op>, p: Id)
    requires Inv(s) && Legal(s, ops) && p in s.repos && s.repos[p].closed
    ensures var s' := Exec(s, ops);
            && p in s'.repos && s'.repos[p].closed && s'.repos[p].Deadline() == s.repos[p].Deadline()
            && s'.repos[p].Deadline() < s'.now
            && (NoSelection(s, ops, p) ==> s'.repos[p].final == s.repos[p].final)
    decreases |ops|
  {
    hide Inv, Kept, Enabled, Apply, Legal, RunsKept, SubmissionsKept, EventsKept, Closure;
    if ops == [] {
      Open(s);
      ClosedIsDue(s, p);
    } else {
      Unfold(s, ops);
      var s1 := Apply(s, ops[0]);
      Step(s, ops[0]);
      KeptInv(s, s1);
      if !SelectsIn(s, ops[0], p) {
        FinalKept(s, ops[0], p);
      }
      Frozen(s1, ops[1..], p);
    }
  }

  lemma ClosedIsDue(s: Db, p: Id)
    requires Closure(s) && p in s.repos && s.repos[p].closed
    ensures s.repos[p].Deadline() < s.now
  {
  }

  /** The deadline in force never moves back; a successful extension moves it forward. */
  lemma DeadlineAdvances(s: Db, ops: seq<Op>, p: Id, d: int)
    requires Inv(s) && Legal(s, ops) && p in s.repos
    ensures p in Exec(s, ops).repos && s.repos[p].Deadline() <= Exec(s, ops).repos[p].Deadline()
    ensures var s' := Submissions.Extend(s, p, d);
            s' != s <==> !s.repos[p].closed && d > s.repos[p].Deadline() && d > s.now
    ensures var s' := Submissions.Extend(s, p, d); s' != s ==> s'.repos[p].Deadline() == d
  {
    hide Inv, Legal, Exec, RunsKept, SubmissionsKept, EventsKept;
    Safe(s, ops);
    assert Submissions.Extend(s, p, d) != s ==> Submissions.Extend(s, p, d).repos[p] != s.repos[p];
  }

  /** A private run passes the deadline test of `owned_lease` from its creation on, forever. */
  lemma PrivateStaysDue(s: Db, ops: seq<Op>, r: Id)
    requires Inv(s) && Legal(s, ops) && r in s.runs && s.runs[r].baseline.Some?
    ensures var s' := Exec(s, ops);
            && r in s'.runs && s'.runs[r].baseline == s.runs[r].baseline && s'.runs[r].submission in s'.subs
            && s'.subs[s'.runs[r].submission].repo in s'.repos
            && s'.repos[s'.subs[s'.runs[r].submission].repo].Deadline() < s'.now
  {
    hide Inv, Legal, Exec, Closure, PrivateEnds, SubmissionsKept, EventsKept, ReposKept;
    Safe(s, ops);
    var s' := Exec(s, ops);
    Open(s');
    PrivateIsDue(s', r);
  }

  lemma PrivateIsDue(s: Db, r: Id)
    requires Closure(s) && PrivateRuns(s) && r in s.runs && s.runs[r].baseline.Some?
    ensures s.runs[r].submission in s.subs && s.subs[s.runs[r].submission].repo in s.repos
    ensures s.repos[s.subs[s.runs[r].submission].repo].Deadline() < s.now
  {
    hide PrivateOrder;
  }

  /** Live grade leases are exclusive in every reachable state. */
  lemma OneLiveLease(ops: seq<Op>, j: Key, k: Key)
    requires Legal(EMPTY, ops)
    requires var s := Exec(EMPTY, ops); LiveGrade(s, j) && LiveGrade(s, k)
    ensures var s := Exec(EMPTY, ops); RunInRows(s, j.subject) && RunInRows(s, k.subject)
    ensures var s := Exec(EMPTY, ops);
            s.tasks[j].owner == s.tasks[k].owner || EnrollmentOf(s, j.subject) == EnrollmentOf(s, k.subject) ==> j == k
  {
    hide Inv, Legal, Exec, Exclusive, References, LiveGrade;
    Reachable(ops);
    Open(Exec(EMPTY, ops));
    ExclusivePair(Exec(EMPTY, ops), j, k);
  }

  lemma ExclusivePair(s: Db, j: Key, k: Key)
    requires References(s) && Exclusive(s) && LiveGrade(s, j) && LiveGrade(s, k)
    ensures RunInRows(s, j.subject) && RunInRows(s, k.subject)
    ensures s.tasks[j].owner == s.tasks[k].owner || EnrollmentOf(s, j.subject) == EnrollmentOf(s, k.subject) ==> j == k
  {
  }
}
