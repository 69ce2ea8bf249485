/** When a repository is flagged for review, and what the sweeps of the queue leave behind. */
module Reviews {
  import opened Wrappers
  import opened Text
  import opened Protocol
  import opened Database
  import opened Queue
  import opened Submissions
  import opened Grading
  import opened Lifecycle
  import opened Frames

  // ---- the review flag ----

  /** A permanently failed fetch, a receipt that comes too late or only by reconciliation, and an
      invalidated score ask for review. */
  ghost predicate Raises(s: Db, op: Op, p: Id)
    requires p in s.repos
  {
    match op
    case FailPermanently(g) => g.key.kind == Snapshot && InRepo(s, g.key.subject, p)
    case Record(q, sha, received, source, _, _, _) =>
      && q == p && ValidHex(sha, 40)
      && !(source.Webhook? && exists e :: e in s.events && s.events[e].repo == p && s.events[e].source == source)
      && (source == Reconciliation || s.repos[p].closed || (source.Webhook? && received > s.repos[p].Deadline()))
    case Commit(t) =>
      && t.result.status == Invalidated && t.key in s.tasks && t.result.run in s.runs
      && s.tasks[t.key].token == Some(t.result.token) && s.tasks[t.key].owner == t.worker
      && s.tasks[t.key].status == Leased && s.tasks[t.key].leaseUntil > s.now
      && InRepo(s, s.runs[t.result.run].submission, p)
    case _ => false
  }

  /** An instructor's choice settles the review. */
  predicate Clears(s: Db, op: Op, p: Id)
    requires p in s.repos
  {
    op.Select? && op.event in s.events && s.events[op.event].repo == p && s.repos[p].closed
  }

  ghost predicate FlagFollows(s: Db, op: Op, p: Id, s': Db)
    requires p in s.repos
  {
    && p in s'.repos
    && s'.repos[p].needsReview == (Raises(s, op, p) || (s.repos[p].needsReview && !Clears(s, op, p)))
  }

  lemma PermanentReview(s: Db, g: Grant, p: Id)
    requires p in s.repos
    ensures FlagFollows(s, Op.FailPermanently(g), p, Queue.FailPermanently(s, g))
  {
    hide Holds;
  }

  lemma ReceiveReview(s: Db, q: Id, sha: string, received: int, source: EventSource, event: Id, sub: Id, p: Id)
    requires q in s.repos && p in s.repos
    ensures var s' := Receive(s, q, sha, received, source, event, sub);
            && p in s'.repos
            && s'.repos[p].needsReview ==
               (s.repos[p].needsReview
                || (q == p && (source == Reconciliation || s.repos[p].closed
                               || (source.Webhook? && received > s.repos[p].Deadline()))))
  {
    hide RepeatsLatest;
  }

  lemma RecordReview(s: Db, op: Op, p: Id)
    requires op.Record? && p in s.repos
    ensures FlagFollows(s, op, p,
                        Submissions.Record(s, op.p, op.sha, op.received, op.source, op.event, op.sub, op.picks))
  {
    hide Receive, ScheduleSnapshots, ValidHex;
    if Recordable(s, op.p, op.sha, op.source) {
      var s1 := Receive(s, op.p, op.sha, op.received, op.source, op.event, op.sub);
      ReceiveReview(s, op.p, op.sha, op.received, op.source, op.event, op.sub, p);
      ScheduleFrame(s1, op.p, op.picks);
    }
  }

  lemma CommitReview(s: Db, t: Ticket, p: Id)
    requires p in s.repos
    ensures FlagFollows(s, Op.Commit(t), p, Grading.Commit(s, t))
  {
    hide WithResult;
  }

  lemma SelectReview(s: Db, event: Id, id: Id, p: Id)
    requires p in s.repos
    ensures FlagFollows(s, Op.Select(event, id), p, Submissions.Select(s, event, id))
  {
    hide MadeFrom;
  }

  lemma OtherReview(s: Db, op: Op, p: Id)
    requires Enabled(s, op) && p in s.repos && (op.Rollout? || op.Close? || op.Extend?)
    ensures FlagFollows(s, op, p, Apply(s, op))
  {
    hide Submissions.Close, Merged, Latest;
    match op
    case Rollout(q, v) => RowRepos(s, p, q, 0, v);
    case Close(q) => CloseFrame(s, q);
    case Extend(q, d) => RowRepos(s, p, q, d, s.repos[p].revision);
  }

  lemma RequestReview(s: Db, op: Op, p: Id)
    requires Enabled(s, op) && p in s.repos && op.Request? && op.p != p
    ensures FlagFollows(s, op, p, Apply(s, op))
  {
    RequestRepos(s, p, op.p, op.enrollment, op.assignment, op.revision);
  }

  /** Every transaction raises and clears the flag exactly so. */
  lemma FlagOf(s: Db, op: Op, p: Id)
    requires Enabled(s, op) && p in s.repos && (op.Request? ==> op.p != p)
    ensures FlagFollows(s, op, p, Apply(s, op))
  {
    hide Enabled, Apply, Queue.FailPermanently, Submissions.Record, Submissions.Select, Grading.Commit;
    hide FlagFollows;
    StepIs(s, op);
    match op
    case Request(_, _, _, _) => RequestReview(s, op, p);
    case FailPermanently(g) => PermanentReview(s, g, p);
    case Record(_, _, _, _, _, _, _) => RecordReview(s, op, p);
    case Commit(t) => CommitReview(s, t, p);
    case Select(event, id) => SelectReview(s, event, id, p);
    case _ =>
      if WritesRepos(op) {
        OtherReview(s, op, p);
      } else {
        QuietReview(s, op, p);
      }
  }

  lemma QuietReview(s: Db, op: Op, p: Id)
    requires Enabled(s, op) && p in s.repos && !WritesRepos(op)
    ensures FlagFollows(s, op, p, Apply(s, op))
  {
    hide Enabled, Apply;
    FrameOf(s, op);
  }

  // ---- the sweeps ----

  /** After the sweep no lease without attempts left has run out, and only such leases failed. */
  lemma NoneExhausted(s: Db, k: Key)
    requires k in s.tasks
    ensures var t, t' := s.tasks[k], Queue.ExpireExhausted(s).tasks[k];
            && !(t'.status == Leased && t'.leaseUntil < s.now && t'.attempts >= 8)
            && (t' != t <==> t.status == Leased && t.leaseUntil < s.now && t.attempts >= 8)
            && (t' != t ==> t' == t.(status := TaskStatus.Failed))
  {
  }

  /** After synchronization no run waits for a task that failed for good, and only such runs ended. */
  lemma NoneAbandoned(s: Db, r: Id)
    requires r in s.runs
    ensures var run, run' := s.runs[r], Grading.SyncFailed(s).runs[r];
            var failed := Key(Grade, r) in s.tasks && s.tasks[Key(Grade, r)].status == TaskStatus.Failed;
            && !(failed && run'.status in {Queued, Running})
            && (run' != run <==> failed && run.status in {Queued, Running})
            && (run' != run ==> run' == run.(status := RunStatus.Finished(InfrastructureFailed)))
    ensures Grading.SyncFailed(s).tasks == s.tasks && Grading.SyncFailed(s).runs.Keys == s.runs.Keys
  {
  }
}
