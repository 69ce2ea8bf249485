/** Which results are accepted, and what acceptance stores. */
module Acceptance {
  import opened Wrappers
  import opened Text
  import opened Protocol
  import opened Database
  import opened Queue
  import opened Grading
  import opened Invariant
  import opened Preservation
  import opened Results

  /** The worker owns grade task `k` under the token, live or already done, and the run's definition
      is sound and fits the worker. */
  predicate Owns(s: Db, w: Worker, k: Key, token: Id) {
    && k in s.tasks && k.kind == Grade && k.subject in s.runs
    && s.tasks[k].token == Some(token) && s.tasks[k].owner == w.id
    && ((s.tasks[k].status == Leased && s.now < s.tasks[k].leaseUntil) || s.tasks[k].status == Done)
    && (var v := s.runs[k.subject].revision;
        && Sound(v) && v.assignment.executionProfile in w.profiles
        && v.assignment.resources.cpu <= w.caps.cpu && v.assignment.resources.memoryGib <= w.caps.memoryGib
        && v.assignment.resources.storageGib <= w.caps.storageGib)
  }

  /** The baseline a private run is compared with. */
  function BaselineOf(s: Db, r: Id): Option<PublicBaseline>
    requires r in s.runs && s.runs[r].submission in s.subs && s.subs[s.runs[r].submission].repo in s.repos
    requires s.runs[r].baseline.Some? ==>
               s.runs[r].baseline.value in s.runs && s.runs[s.runs[r].baseline.value].points.Some?
  {
    if s.runs[r].baseline.None? then None
    else
      var b := s.runs[r].baseline.value;
      Some(PublicBaseline(b, s.runs[b].points.value, s.repos[s.subs[s.runs[r].submission].repo].Deadline()))
  }

  /** What the rows of a run refer to in every reachable state. */
  lemma RunRows(s: Db, r: Id)
    requires Inv(s) && r in s.runs
    ensures s.runs[r].submission in s.subs && s.subs[s.runs[r].submission].repo in s.repos
    ensures s.subs[s.runs[r].submission].source.Some?
    ensures s.runs[r].baseline.Some? ==>
              && s.runs[r].baseline.value in s.runs
              && s.runs[s.runs[r].baseline.value].points.Some?
              && s.runs[s.runs[r].baseline.value].publicPoints == s.runs[s.runs[r].baseline.value].points
              && s.repos[s.subs[s.runs[r].submission].repo].Deadline() < s.now
  {
    hide Fenced, Exclusive, RunsWait, ResultsDone, Tickets, Attempts, Receipts, OncePerEvent, Snapshots, PrivateOrder;
  }

  /** A worker can present a lease exactly if it owns it; the lease names the run, the commit of the
      submission, its source, the run's own definition and its baseline. */
  lemma LeaseSays(s: Db, w: Worker, k: Key, token: Id)
    requires Inv(s)
    ensures OwnedLease(s, w, k, token, true).Some? <==> Owns(s, w, k, token)
    ensures OwnedLease(s, w, k, token, false).Some? <==> Owns(s, w, k, token) && s.tasks[k].status == Leased
    ensures Owns(s, w, k, token) ==>
              var run := s.runs[k.subject];
              && run.submission in s.subs && s.subs[run.submission].repo in s.repos
              && s.subs[run.submission].source.Some?
              && (run.baseline.Some? ==>
                    run.baseline.value in s.runs && s.runs[run.baseline.value].points.Some?)
              && OwnedLease(s, w, k, token, true) ==
                 Some(Protocol.Lease(k.subject, token, s.tasks[k].leaseUntil, s.subs[run.submission].sha, run.revision,
                                     s.subs[run.submission].source.value, BaselineOf(s, k.subject)))
              && (s.tasks[k].status == Leased ==>
                    OwnedLease(s, w, k, token, false) == OwnedLease(s, w, k, token, true))
  {
    hide Inv, Sound;
    if k in s.tasks && k.subject in s.runs {
      RunRows(s, k.subject);
    }
  }

  // ---- honest results ----

  /** The result says where it comes from, and says it truthfully. */
  predicate Sourced(s: Db, k: Key, result: RunResult)
    requires k.subject in s.runs && s.runs[k.subject].submission in s.subs
  {
    var run := s.runs[k.subject];
    && result.schemaVersion == 1 && result.run == k.subject && result.sha == s.subs[run.submission].sha
    && result.revision == run.revision && result.image == run.revision.assignment.image
    && result.resources == run.revision.assignment.resources
  }

  /** Its findings and logs are within the limits; a private run shows the student nothing. */
  predicate Limited(result: RunResult, adjusts: bool) {
    && |result.findings| <= 10000 && |result.logs| <= 128 && LogBytes(result.logs) <= 262144
    && (forall f :: f in result.findings ==> ByteLength(f.path) <= 1024 && ByteLength(f.reason) <= 256)
    && (adjusts ==> forall l :: l in result.logs ==> !l.studentVisible)
  }

  /** Its score fits its status: completed and invalidated results have one and no findings, all
      others have none, and only failed integrity has findings. Only a baseline can be invalidated,
      and departing from it needs a reason. */
  predicate Scored(result: RunResult, maximum: int, baseline: Option<int>) {
    if result.status == Completed || result.status == Invalidated then
      && result.findings == [] && result.score.Some?
      && (var c := result.score.value;
          && c.schemaVersion == 1 && 0 <= c.points <= maximum && ByteLength(c.reason) <= 2048
          && (c.invalidated <==> result.status == Invalidated)
          && (c.invalidated ==> baseline.Some?)
          && (c.invalidated || (baseline.Some? && c.points != baseline.value) ==> !Blank(c.reason)))
    else
      result.score.None? && (result.findings != [] ==> result.status == IntegrityFailed)
  }

  /** The baseline's points as the rows have them. */
  function PinnedPoints(s: Db, r: Id): Option<int>
    requires r in s.runs
  {
    if s.runs[r].baseline.Some? && s.runs[r].baseline.value in s.runs then s.runs[s.runs[r].baseline.value].points
       else None
  }

  /** The worker's own lease, truthfully reported within all limits. */
  predicate Honest(s: Db, w: Worker, k: Key, result: RunResult) {
    && Owns(s, w, k, result.token) && s.runs[k.subject].submission in s.subs
    && Sourced(s, k, result) && Limited(result, s.runs[k.subject].baseline.Some?)
    && Scored(result, s.runs[k.subject].revision.assignment.maxPoints, PinnedPoints(s, k.subject))
  }

  function Points(result: RunResult): Option<int> {
    if result.status == Completed && result.score.Some? then Some(result.score.value.points) else None
  }

  lemma ValidIff(result: RunResult, lease: Protocol.Lease)
    requires Sound(lease.revision)
    ensures ValidateResult(result, lease) ==
            if && result.schemaVersion == 1 && result.run == lease.run && result.sha == lease.sha
               && result.token == lease.token && result.revision == lease.revision
               && result.image == lease.revision.assignment.image
               && result.resources == lease.revision.assignment.resources
               && Limited(result, lease.baseline.Some?)
               && Scored(result, lease.revision.assignment.maxPoints,
                         if lease.baseline.Some? then Some(lease.baseline.value.points) else None)
            then Some(Points(result)) else None
  {
    hide Sound;
  }

  /** In every reachable state the first phase refuses exactly the results that are not honest, or
      come after another one; it acknowledges the stored one, and carries the points of a new one
      into the second phase. */
  lemma ExaminedIff(s: Db, w: Worker, k: Key, result: RunResult)
    requires Inv(s)
    ensures var a := Grading.Examine(s, w, k, result);
            && (a == Replayed <==> Honest(s, w, k, result) && s.runs[k.subject].result == Some(result))
            && (a.Continue? <==> Honest(s, w, k, result) && s.runs[k.subject].result.None?)
            && (a.Continue? ==>
                  a.ticket == Ticket(k, w.id, result, Points(result),
                                     if s.runs[k.subject].baseline.Some? then PinnedPoints(s, k.subject)
                                        else Points(result)))
  {
    hide Inv, Sound, OwnedLease, ValidateResult, Limited, Scored;
    LeaseSays(s, w, k, result.token);
    if Owns(s, w, k, result.token) {
      ValidIff(result, OwnedLease(s, w, k, result.token, true).value);
    }
  }

  /** Nothing is accepted for another commit, definition, run or token than the lease's. */
  lemma ForgedRefused(s: Db, w: Worker, k: Key, result: RunResult)
    requires Inv(s) && k in s.tasks && k.subject in s.runs
    requires || s.tasks[k].token != Some(result.token) || s.tasks[k].owner != w.id
             || result.run != k.subject || result.revision != s.runs[k.subject].revision
             || (s.runs[k.subject].submission in s.subs && result.sha != s.subs[s.runs[k.subject].submission].sha)
    ensures Grading.Examine(s, w, k, result) == Refused && Examined(s, w, k, result) == s
  {
    hide Inv, Sound, Limited, Scored, Grading.Examine;
    ExaminedIff(s, w, k, result);
  }

  // ---- what is stored ----

  /** The run row once its result is accepted. */
  function Reported(s: Db, r: Id, result: RunResult): Database.Run
    requires r in s.runs
  {
    s.runs[r].(status := RunStatus.Finished(result.status), points := Points(result),
               publicPoints := if s.runs[r].baseline.Some? then PinnedPoints(s, r) else Points(result),
               report := Some(result), result := Some(result))
  }

  /** The run is reported, its task done and its publication queued; an invalidated score asks for
      review. */
  ghost predicate Stores(s: Db, k: Key, result: RunResult, s': Db)
    requires k in s.tasks && k.subject in s.runs && s.runs[k.subject].submission in s.subs
  {
    var p := s.subs[s.runs[k.subject].submission].repo;
    && s'.runs == s.runs[k.subject := Reported(s, k.subject, result)]
    && s'.tasks == s.tasks[k := s.tasks[k].(status := TaskStatus.Done)]
                          [Key(Publish, k.subject) := Task(30, Pending, 0, s.now, "", None, 0)]
    && s'.repos == (if result.status == Invalidated && p in s.repos then s.repos[p := s.repos[p].(needsReview := true)]
                    else s.repos)
    && s'.subs == s.subs && s'.events == s.events
  }

  lemma Unpublished(s: Db, k: Key)
    requires Inv(s) && k in s.tasks && k.kind == Grade && k.subject in s.runs && s.runs[k.subject].result.None?
    ensures s.tasks[k].status != TaskStatus.Done && Key(Publish, k.subject) !in s.tasks && k == Key(Grade, k.subject)
  {
    hide Fenced, Exclusive, Scores, Baselines, Tickets, Closure, PrivateRuns, Attempts, Receipts, OncePerEvent;
    hide Snapshots;
  }

  /** An honest result of a run that has none is accepted by the second phase and stored. */
  lemma HonestStored(s: Db, w: Worker, k: Key, result: RunResult)
    requires Inv(s) && Honest(s, w, k, result) && s.runs[k.subject].result.None?
    ensures Grading.Examine(s, w, k, result).Continue?
    ensures var t := Grading.Examine(s, w, k, result).ticket;
            var s1 := Examined(s, w, k, result);
            && t in s1.tickets && s1 == s.(tickets := s1.tickets)
            && Decide(s1, t) == Accepted && Stores(s, k, result, Grading.Commit(s1, t))
  {
    hide Inv, Sound, Limited, Scored, Grading.Examine;
    ExaminedIff(s, w, k, result);
    Unpublished(s, k);
  }

  /** The ticket's result is stored if the worker still holds the lease, and else nothing happens. */
  ghost predicate WritesIfHeld(s: Db, t: Ticket, s': Db)
    requires t.result.run in s.runs
  {
    if && t.key in s.tasks && s.tasks[t.key].token == Some(t.result.token) && s.tasks[t.key].owner == t.worker
       && s.tasks[t.key].status == Leased && s.now < s.tasks[t.key].leaseUntil
    then
      && s'.runs == s.runs[t.result.run := s.runs[t.result.run].(
           status := RunStatus.Finished(t.result.status), points := t.points,
           publicPoints := t.publicPoints, report := Some(t.result), result := Some(t.result))]
      && s'.tasks == s.tasks[t.key := s.tasks[t.key].(status := TaskStatus.Done)]
                            [Key(Publish, t.result.run) := Task(30, Pending, 0, s.now, "", None, 0)]
    else s' == s
  }

  /** Whatever has happened since the first phase, the second one writes if and only if the token,
      the owner and the live lease are still there; then it writes what the first phase found. */
  lemma CommittedIff(s: Db, t: Ticket)
    requires Inv(s) && t in s.tickets
    ensures t.result.run in s.runs && t.key == Key(Grade, t.result.run)
    ensures WritesIfHeld(s, t, Grading.Commit(s, t))
  {
    hide *;
    Open(s);
    TicketRun(s, t);
    ResultDoneAt(s, t.result.run);
    CommitIs(s, t);
  }

  lemma CommitIs(s: Db, t: Ticket)
    requires t.result.run in s.runs && t.key == Key(Grade, t.result.run)
    requires t.key in s.tasks && s.tasks[t.key].status != TaskStatus.Done ==> Key(Publish, t.result.run) !in s.tasks
    ensures WritesIfHeld(s, t, Grading.Commit(s, t))
  {
  }

  lemma TicketRun(s: Db, t: Ticket)
    requires Tickets(s) && t in s.tickets
    ensures t.result.run in s.runs && t.key == Key(Grade, t.result.run)
  {
    hide ScoresAllowed;
  }
}
