/** The store as its clients use it: tables updated in place, one method per transaction.

    Each method is tied to the step function of the same name, so the run theorems about those
    steps are theorems about these methods. */
module Store {
  import opened Wrappers
  import opened Text
  import Protocol
  import opened Database
  import opened Queue
  import opened Submissions
  import opened Grading
  import opened Lifecycle
  import opened Invariant
  import opened Queries

  class GradingStore {
    var now: int
    var tasks: map<Key, Task>
    var runs: map<Id, Database.Run>
    var subs: map<Id, Submission>
    var events: map<Id, Event>
    var repos: map<Id, Database.Repo>
    ghost var issued: set<Id>
    ghost var grants: set<Grant>
    ghost var tickets: set<Ticket>
    ghost var processed: set<Grant>

    ghost function View(): Db
      reads this
    {
      Db(now, tasks, runs, subs, events, repos, issued, grants, tickets, processed)
    }

    /** The rows without their history, as queries read them. */
    function Rows(): Db
      reads this
    {
      Db(now, tasks, runs, subs, events, repos, {}, {}, {}, {})
    }

    constructor ()
      ensures View() == EMPTY
    {
      now, tasks, runs, subs, events, repos := 0, map[], map[], map[], map[], map[];
      issued, grants, tickets, processed := {}, {}, {}, {};
    }

    // ---- the queue ----

    method Enqueue(k: Key, priority: int)
      modifies this`tasks
      ensures View() == Queue.Enqueue(old(View()), k, priority)
    {
      if k !in tasks {
        tasks := tasks[k := Task(priority, Pending, 0, now, "", None, 0)];
      }
    }

    /** Hands out a best ready task of the wanted kinds, if there is one. */
    method Lease(kinds: set<Kind>, locked: set<Key>, owner: string, token: Id) returns (g: Option<Grant>)
      modifies this`tasks, this`issued, this`grants
      ensures g.None? ==> Candidates(old(View()), kinds, locked) == {} && View() == old(View())
      ensures g.Some? <==>
              exists k :: k in old(tasks) && k.kind in kinds && k !in locked && old(tasks)[k].attempts < 8
                          && (|| (old(tasks)[k].status == Pending && old(tasks)[k].availableAt <= now)
                              || (old(tasks)[k].status == Leased && old(tasks)[k].leaseUntil < now))
      ensures g.Some? ==> FirstOf(old(View()), Candidates(old(View()), kinds, locked), g.value.key)
      ensures g.Some? ==> View() == Grantee(old(View()), g.value.key, owner, token) && g.value in grants
      ensures g.Some? ==> g.value == Grant(g.value.key, token, owner, old(tasks)[g.value.key].attempts + 1)
    {
      var candidates := set k | k in tasks && k.kind in kinds && k !in locked && Ready(tasks[k], now);
      assert candidates == Candidates(View(), kinds, locked);
      if candidates == {} {
        assert forall k :: k in tasks && k.kind in kinds && k !in locked && Ready(tasks[k], now) ==> k in candidates;
        return None;
      }
      var k := BestTask(tasks, candidates);
      tasks := tasks[k := LeaseRow(tasks[k], owner, token, now)];
      issued := issued + {token};
      grants := grants + {Grant(k, token, owner, tasks[k].attempts)};
      return Some(Grant(k, token, owner, tasks[k].attempts));
    }

    method Heartbeat(k: Key, token: Id, owner: string) returns (ok: bool)
      modifies this`tasks
      ensures View() == Queue.Heartbeat(old(View()), k, token, owner)
      ensures ok <==> Holds(old(View()), k, token) && old(tasks)[k].owner == owner
    {
      ok := Holds(Rows(), k, token) && tasks[k].owner == owner;
      if ok {
        tasks := tasks[k := tasks[k].(leaseUntil := now + LEASE_SECONDS)];
      }
    }

    method Finish(g: Grant) returns (ok: bool)
      modifies this`tasks
      ensures View() == Queue.Finish(old(View()), g)
      ensures ok <==> Holds(old(View()), g.key, g.token)
    {
      ok := Holds(Rows(), g.key, g.token);
      if ok {
        tasks := tasks[g.key := tasks[g.key].(status := Done)];
      }
    }

    method Fail(g: Grant)
      modifies this`tasks
      ensures View() == Queue.Fail(old(View()), g)
    {
      hide Backoff;
      if Holds(Rows(), g.key, g.token) {
        var t := tasks[g.key];
        var delay := Backoff(if g.attempts < 0 then 0 else g.attempts);
        var status := if t.attempts >= MAX_ATTEMPTS then Failed else Pending;
        tasks := tasks[g.key := t.(status := status, availableAt := now + delay)];
      }
    }

    method ExpireExhausted()
      modifies this`tasks
      ensures View() == Queue.ExpireExhausted(old(View()))
    {
      var before := tasks;
      var todo := tasks.Keys;
      while todo != {}
        invariant todo <= before.Keys && tasks.Keys == before.Keys
        invariant forall k :: k in before ==>
                    tasks[k] == if k !in todo && Exhausted(before[k], now) then before[k].(status := Failed)
                      else before[k]
        decreases |todo|
      {
        var k :| k in todo;
        assert k in before.Keys;
        if Exhausted(tasks[k], now) {
          tasks := tasks[k := tasks[k].(status := Failed)];
        }
        todo := todo - {k};
      }
      assert tasks == Queue.ExpireExhausted(old(View())).tasks;
    }

    method FlagReview(p: Id)
      modifies this`repos
      ensures View() == Queue.FlagReview(old(View()), p)
    {
      if p in repos {
        repos := repos[p := repos[p].(needsReview := true)];
      }
    }

    method FailPermanently(g: Grant)
      modifies this`tasks, this`repos
      ensures View() == Queue.FailPermanently(old(View()), g)
    {
      if Holds(Rows(), g.key, g.token) {
        tasks := tasks[g.key := tasks[g.key].(status := Failed)];
      }
      if g.key.kind == Snapshot && g.key.subject in subs {
        FlagReview(subs[g.key.subject].repo);
      }
    }

    method Retry(k: Key, reason: string) returns (ok: bool)
      modifies this`tasks
      ensures View() == if Blank(reason) then old(View()) else Queue.Retry(old(View()), k)
      ensures ok <==> !Blank(reason) && k in old(tasks) && old(tasks)[k].status == Failed && k.kind != Grade
    {
      ok := !Blank(reason) && k in tasks && tasks[k].status == Failed && k.kind != Grade;
      if ok {
        tasks := tasks[k := tasks[k].(status := Pending, attempts := 0, availableAt := now)];
      }
    }

    method Defer(g: Grant, until: int)
      modifies this`tasks
      ensures View() == Queue.Defer(old(View()), g, until)
    {
      if Holds(Rows(), g.key, g.token) {
        var t := tasks[g.key];
        var attempts := if t.attempts > 1 then t.attempts - 1 else 0;
        tasks := tasks[g.key := t.(status := Pending, availableAt := until, attempts := attempts)];
      }
    }

    method Postpone(g: Grant, until: int)
      modifies this`tasks
      ensures View() == Queue.Postpone(old(View()), g, until)
    {
      if g.key in tasks && tasks[g.key].token == Some(g.token) && tasks[g.key].status == Pending {
        if tasks[g.key].availableAt < until {
          tasks := tasks[g.key := tasks[g.key].(availableAt := until)];
        }
      }
    }

    method PollInvitation(g: Grant)
      modifies this`tasks
      ensures View() == Queue.PollInvitation(old(View()), g)
    {
      if g.key.kind == Provision && g.key in tasks && tasks[g.key].token == Some(g.token)
         && tasks[g.key].status == Done {
        tasks := tasks[g.key := tasks[g.key].(status := Pending, attempts := 0, availableAt := now + 300)];
      }
    }

    method Reset(k: Key, from: set<TaskStatus>)
      modifies this`tasks
      ensures View() == Queue.Reset(old(View()), k, from)
    {
      if k in tasks && tasks[k].status in from {
        tasks := tasks[k := tasks[k].(status := Pending, attempts := 0, availableAt := now)];
      }
    }

    // ---- receipts and closure ----

    /** Keeps the receipt and, if it is eligible and new, makes it a submission; answers with the
        submission that now stands for the commit. */
    method Receive(p: Id, sha: string, received: int, source: EventSource, event: Id, sub: Id)
      returns (answer: Option<Id>)
      requires p in repos
      modifies this`events, this`subs, this`repos, this`issued
      ensures View() == Submissions.Receive(old(View()), p, sha, received, source, event, sub)
      ensures answer == Answer(old(View()), p, sha, received, source, sub)
      ensures sub !in old(subs) ==> (answer == Some(sub) <==> subs != old(subs))
    {
      hide Latest;
      var r := repos[p];
      var eligible := Eligible(r, received, source);
      events := events[event := Event(p, sha, received, source, eligible)];
      issued := issued + {event};
      if !eligible {
        if source == Reconciliation || r.closed || (source.Webhook? && received > r.Deadline()) {
          FlagReview(p);
        }
        return None;
      }
      var latest := LatestOf(subs, p);
      if latest.Some? && subs[latest.value].sha == sha {
        return latest;
      }
      subs := subs[sub := Submission(p, event, sha, received, None)];
      issued := issued + {sub};
      assert sub in subs;
      return Some(sub);
    }

    method ReviveWork(x: Id)
      modifies this`tasks
      ensures View() == Submissions.ReviveWork(old(View()), x)
    {
      var before := tasks;
      var todo := tasks.Keys;
      while todo != {}
        invariant todo <= before.Keys && tasks.Keys == before.Keys
        invariant forall k :: k in before ==>
                    tasks[k] == if k !in todo && WorkOf(old(View()), x, k) then Revive(before[k], now) else before[k]
        decreases |todo|
      {
        var k :| k in todo;
        assert k in before.Keys;
        if (k.kind == Snapshot && k.subject == x)
           || (k.kind == Grade && k.subject in runs && runs[k.subject].submission == x) {
          tasks := tasks[k := Revive(tasks[k], now)];
        }
        todo := todo - {k};
      }
      assert tasks == Submissions.ReviveWork(old(View()), x).tasks;
    }

    /** Freezes the choice of a repository whose deadline has passed and queues its lock. */
    method Close(p: Id)
      modifies this`tasks, this`repos
      ensures View() == Submissions.Close(old(View()), p)
    {
      hide Latest, Submissions.ReviveWork, Queue.Enqueue, Queue.Reset;
      if p in repos && repos[p].Deadline() < now {
        if !repos[p].closed {
          var final := LatestOf(subs, p);
          repos := repos[p := repos[p].(closed := true, final := final)];
          if final.Some? {
            ReviveWork(final.value);
          }
        }
        Enqueue(Key(Lock, p), 100);
        Reset(Key(Lock, p), {Failed});
      }
    }

    method Extend(p: Id, deadline: int, reason: string) returns (ok: bool)
      modifies this`repos
      ensures View() == if Blank(reason) then old(View()) else Submissions.Extend(old(View()), p, deadline)
      ensures ok <==>
              && !Blank(reason) && p in old(repos) && !old(repos)[p].closed
              && deadline > old(repos)[p].Deadline() && deadline > now
    {
      ok := !Blank(reason) && p in repos && !repos[p].closed && deadline > repos[p].Deadline() && deadline > now;
      if ok {
        repos := repos[p := repos[p].(extension := Some(deadline))];
      }
    }

    method Retain(x: Id, digest: string)
      modifies this`subs
      ensures View() == Submissions.Retain(old(View()), x, digest)
    {
      if x in subs && subs[x].source.None? {
        subs := subs[x := subs[x].(source := Some(digest))];
      }
    }

    method CancelObsolete(e: Id, newest: map<Id, Option<Id>>)
      requires newest.Keys == repos.Keys && forall p :: p in repos ==> newest[p] == Latest(subs, p)
      modifies this`tasks
      ensures View() == Submissions.CancelObsolete(old(View()), e)
    {
      hide Obsolete, Unneeded, Latest, InEnrollment;
      ghost var s := View();
      var rows := Rows();
      var before := tasks;
      var todo := tasks.Keys;
      while todo != {}
        invariant todo <= before.Keys && tasks.Keys == before.Keys
        invariant forall k :: k in before ==>
                    tasks[k] == if k !in todo && Obsolete(s, e, k) then before[k].(status := Cancelled) else before[k]
        decreases |todo|
      {
        var k :| k in todo;
        assert k in before.Keys;
        UnneededIs(s, rows, newest, e, k);
        if Unneeded(rows, newest, e, k) {
          tasks := tasks[k := tasks[k].(status := Cancelled)];
        }
        todo := todo - {k};
      }
      assert tasks == Submissions.CancelObsolete(s, e).tasks;
    }

    method QueueFetches(picks: set<Id>)
      modifies this`tasks
      ensures View() == Submissions.QueueFetches(old(View()), picks)
    {
      var before := tasks;
      var todo := picks;
      while todo != {}
        invariant todo <= picks
        invariant forall k :: k in tasks <==> k in before || (k.kind == Snapshot && k.subject in picks - todo)
        invariant forall k :: k in before ==> tasks[k] == before[k]
        invariant forall k :: k in tasks && k !in before ==>
                    tasks[k] == Task(if IsFinal(old(View()), k.subject) then 100 else 20, Pending, 0, now, "", None, 0)
        decreases |todo|
      {
        var x :| x in todo;
        Enqueue(Key(Snapshot, x), if IsFinal(Rows(), x) then 100 else 20);
        todo := todo - {x};
      }
      assert tasks == Submissions.QueueFetches(old(View()), picks).tasks;
    }

    /** Drops fetches nobody needs any more and fills the free slots of the enrollment. */
    method ScheduleSnapshots(p: Id) returns (ghost picks: set<Id>)
      requires p in repos
      modifies this`tasks
      ensures FillsSlots(old(View()), p, picks)
      ensures View() == Submissions.ScheduleSnapshots(old(View()), p, picks)
    {
      hide Latest, Submissions.CancelObsolete, Submissions.QueueFetches, IsFinal;
      var e := repos[p].enrollment;
      var newest := LatestOfAll(subs, repos.Keys);
      CancelObsolete(e, newest);
      ghost var s1 := View();
      var active := |ActiveFetches(Rows(), e)|;
      assert ActiveFetches(Rows(), e) == ActiveFetches(s1, e);
      var waiting := set x | x in subs && InEnrollment(Rows(), x, e) && subs[x].source.None?
                             && Key(Snapshot, x) !in tasks
                             && (repos[subs[x].repo].final == Some(x)
                                 || (!repos[subs[x].repo].closed && newest[subs[x].repo] == Some(x)));
      assert waiting == Waiting(s1, e);
      var chosen := MostUrgentOf(Rows(), waiting, MAX_ACTIVE_FETCHES - active);
      SameUrgency(Rows(), s1, chosen, waiting);
      picks := chosen;
      QueueFetches(chosen);
    }

    /** Records a receipt and, if it became a submission, schedules its fetch. */
    method Record(p: Id, sha: string, received: int, source: EventSource, event: Id, sub: Id)
      returns (ok: bool, answer: Option<Id>, ghost picks: set<Id>)
      requires sub !in subs
      modifies this`events, this`subs, this`repos, this`issued, this`tasks
      ensures View() == Submissions.Record(old(View()), p, sha, received, source, event, sub, picks)
      ensures ok <==> Recordable(old(View()), p, sha, source)
      ensures answer == if ok then Answer(old(View()), p, sha, received, source, sub) else None
      ensures ok && subs != old(subs) ==>
                FillsSlots(Submissions.Receive(old(View()), p, sha, received, source, event, sub), p, picks)
    {
      hide Latest, Submissions.Receive, Submissions.ScheduleSnapshots, FillsSlots, Answer;
      ok, answer, picks := false, None, {};
      if p !in repos || !ValidHex(sha, 40) {
        return;
      }
      if source.Webhook? && exists e :: e in events && events[e].repo == p && events[e].source == source {
        return;
      }
      ok := true;
      answer := Receive(p, sha, received, source, event, sub);
      StillThere(old(View()), p, sha, received, source, event, sub);
      if answer == Some(sub) {
        picks := ScheduleSnapshots(p);
      }
    }

    method Request(p: Id, enrollment: Id, assignment: Id, revision: Protocol.Revision) returns (ok: bool)
      modifies this`repos, this`tasks, this`issued
      ensures View() == RequestRepo(old(View()), p, enrollment, assignment, revision)
      ensures ok <==>
              old(forall q :: q in repos ==> repos[q].enrollment != enrollment || repos[q].assignment != assignment)
                      && revision.assignment.opensAt <= now <= revision.assignment.deadline
    {
      ok := !(exists q :: q in repos && repos[q].enrollment == enrollment && repos[q].assignment == assignment)
            && revision.assignment.opensAt <= now <= revision.assignment.deadline;
      if ok {
        repos := repos[p := Repo(enrollment, assignment, revision, revision, false, None, None, false)];
        issued := issued + {p};
        Enqueue(Key(Provision, p), 10);
      }
    }

    /** An instructor's choice among the recorded receipts of a closed repository. */
    method SelectSubmission(event: Id, reason: string, id: Id) returns (chosen: Option<Id>)
      requires OncePerEvent(subs)
      modifies this`subs, this`repos, this`tasks, this`issued
      ensures View() == if Blank(reason) then old(View()) else Submissions.Select(old(View()), event, id)
      ensures chosen.Some? <==>
              !Blank(reason) && event in events && old(events[event].repo in repos && repos[events[event].repo].closed)
      ensures chosen.None? ==> View() == old(View())
      ensures chosen.Some? ==>
                && chosen.value in subs && subs[chosen.value].event == event
                && events[event].repo in repos && repos[events[event].repo].final == chosen
    {
      if Blank(reason) || event !in events || events[event].repo !in repos || !repos[events[event].repo].closed {
        return None;
      }
      var e := events[event];
      var made := set x | x in subs && subs[x].event == event;
      var x := id;
      if made != {} {
        x :| x in made;
        assert MadeFrom(View(), event, x) && MadeFrom(View(), event, Made(View(), event));
        assert SameEvent(subs[x], subs[Made(View(), event)]);
      } else {
        assert forall y :: y in subs && subs[y].event == event ==> y in made;
        subs := subs[id := Submission(e.repo, event, e.sha, e.receivedAt, None)];
        issued := issued + {id};
      }
      repos := repos[e.repo := repos[e.repo].(final := Some(x), needsReview := false)];
      Enqueue(Key(Snapshot, x), 100);
      return Some(x);
    }

    // ---- grading ----

    /** Hands a worker a best grade task that suits it, unless it or the student is busy. */
    method LeaseGrade(w: Worker, requested: set<string>, locked: set<Key>, token: Id) returns (g: Option<Grant>)
      modifies this`tasks, this`runs, this`issued, this`grants
      ensures g.None? ==>
                && View() == old(View())
                && (WorkerBusy(old(View()), w.id) || GradeCandidates(old(View()), w, requested, locked) == {})
      ensures g.Some? ==>
                FirstOf(old(View()), GradeCandidates(old(View()), w, requested, locked), g.value.key)
                && !WorkerBusy(old(View()), w.id)
      ensures g.Some? ==> View() == Grading.LeaseGrade(old(View()), w, g.value.key, token) && g.value in grants
      ensures g.Some? ==> g.value == Grant(g.value.key, token, w.id, old(tasks)[g.value.key].attempts + 1)
    {
      hide Suits, Ready;
      var rows := Rows();
      SameCandidates(rows, View(), w, requested, locked);
      if WorkerBusy(rows, w.id) {
        return None;
      }
      var candidates := GradeCandidates(rows, w, requested, locked);
      if candidates == {} {
        return None;
      }
      var k := BestTask(tasks, candidates);
      tasks := tasks[k := LeaseRow(tasks[k], w.id, token, now)];
      runs := runs[k.subject := runs[k.subject].(status := Running)];
      issued := issued + {token};
      grants := grants + {Grant(k, token, w.id, tasks[k].attempts)};
      return Some(Grant(k, token, w.id, tasks[k].attempts));
    }

    /** The lease the worker presents, if it is its own, live or already done, and still complete. */
    method OwnedLease(w: Worker, k: Key, token: Id, allowDone: bool) returns (lease: Option<Protocol.Lease>)
      ensures lease == Grading.OwnedLease(View(), w, k, token, allowDone)
    {
      hide Protocol.Sound;
      if k !in tasks || k.kind != Grade || k.subject !in runs {
        return None;
      }
      var task, run := tasks[k], runs[k.subject];
      if run.submission !in subs || subs[run.submission].repo !in repos {
        return None;
      }
      var sub, repo := subs[run.submission], repos[subs[run.submission].repo];
      if task.token != Some(token) || task.owner != w.id {
        return None;
      }
      if !(task.status == Leased && task.leaseUntil > now) && !(allowDone && task.status == Done) {
        return None;
      }
      if (run.baseline.Some? && now <= repo.Deadline()) || sub.source.None? {
        return None;
      }
      if !Protocol.Sound(run.revision)
         || run.revision.assignment.executionProfile !in w.profiles || !run.revision.assignment.resources.Fits(w.caps)
      {
        return None;
      }
      var baseline := None;
      if run.baseline.Some? {
        if run.baseline.value !in runs {
          return None;
        }
        var public := runs[run.baseline.value];
        if public.publicPoints.None? && public.points.None? {
          return None;
        }
        var points := if public.publicPoints.Some? then public.publicPoints.value else public.points.value;
        baseline := Some(Protocol.PublicBaseline(run.baseline.value, points, repo.Deadline()));
      }
      return Some(Protocol.Lease(k.subject, token, task.leaseUntil, sub.sha, run.revision, sub.source.value, baseline));
    }

    /** First phase of acceptance; what it carries into the second is remembered as a ticket. */
    method Examine(w: Worker, k: Key, result: Protocol.RunResult) returns (a: Acceptance)
      modifies this`tickets
      ensures a == Grading.Examine(old(View()), w, k, result)
      ensures View() == Examined(old(View()), w, k, result)
    {
      hide Protocol.ValidateResult, Grading.OwnedLease;
      var lease := OwnedLease(w, k, result.token, true);
      if lease.None? {
        return Refused;
      }
      var points := Protocol.ValidateResult(result, lease.value);
      if points.None? || result.run !in runs {
        return Refused;
      }
      var stored := runs[result.run].result;
      if stored.Some? {
        return if stored.value == result then Replayed else Refused;
      }
      var public := if lease.value.baseline.Some? then Some(lease.value.baseline.value.points) else points.value;
      var ticket := Ticket(k, w.id, result, points.value, public);
      tickets := tickets + {ticket};
      return Continue(ticket);
    }

    /** Second phase of acceptance, under the row locks. */
    method Commit(t: Ticket) returns (outcome: Outcome)
      modifies this`tasks, this`runs, this`repos
      ensures outcome == Decide(old(View()), t)
      ensures View() == Grading.Commit(old(View()), t)
    {
      if t.key !in tasks || t.result.run !in runs {
        return Conflict;
      }
      var task := tasks[t.key];
      if task.token != Some(t.result.token) || task.owner != t.worker {
        return Conflict;
      }
      if task.status == Done {
        return if runs[t.result.run].result == Some(t.result) then AlreadyAccepted else Conflict;
      }
      if task.status != Leased || task.leaseUntil <= now {
        return Conflict;
      }
      var x := runs[t.result.run].submission;
      runs := runs[t.result.run := WithResult(runs[t.result.run], t)];
      tasks := tasks[t.key := task.(status := Done)];
      Enqueue(Key(Publish, t.result.run), 30);
      if t.result.status == Protocol.Invalidated && x in subs {
        FlagReview(subs[x].repo);
      }
      return Accepted;
    }

    /** Whether a new run would only record that nobody waits for it. */
    method IsSuperseded(x: Id, regrade: bool) returns (superseded: bool)
      requires x in subs && subs[x].repo in repos
      ensures superseded == RunSuperseded(View(), x, regrade)
    {
      hide Latest;
      var r := repos[subs[x].repo];
      if regrade || (r.closed && r.final == Some(x)) {
        return false;
      }
      var newest := LatestOf(subs, subs[x].repo);
      var feedback := FeedbackRuns(Rows(), subs[x].repo);
      assert feedback == FeedbackRuns(View(), subs[x].repo);
      return r.closed || newest != Some(x) || |feedback| >= MAX_FEEDBACK_RUNS;
    }

    /** Cancels pending public grading of the repository's other submissions. */
    method CancelDisplaced(x: Id)
      requires x in subs
      modifies this`tasks
      ensures View() == old(View()).(tasks := Grading.CancelDisplaced(old(View()), x))
    {
      hide Displaced;
      var before := tasks;
      var todo := tasks.Keys;
      while todo != {}
        invariant todo <= before.Keys && tasks.Keys == before.Keys
        invariant forall k :: k in before ==>
                    tasks[k] == if k !in todo && Displaced(old(View()), x, k) then before[k].(status := Cancelled)
                      else before[k]
        decreases |todo|
      {
        var k :| k in todo;
        assert k in before.Keys;
        DisplacedIs(old(View()), Rows(), x, k);
        if Displaced(Rows(), x, k) {
          tasks := tasks[k := tasks[k].(status := Cancelled)];
        }
        todo := todo - {k};
      }
      assert tasks == Grading.CancelDisplaced(old(View()), x);
    }

    /** Runs whose task was cancelled wait for nothing. */
    method SupersedeCancelled()
      modifies this`runs
      ensures View() == old(View()).(runs := Grading.SupersedeCancelled(old(runs), tasks))
    {
      var before := runs;
      var todo := runs.Keys;
      while todo != {}
        invariant todo <= before.Keys && runs.Keys == before.Keys
        invariant forall r :: r in before ==>
                    runs[r] == if r in todo then before[r] else Grading.SupersedeCancelled(before, tasks)[r]
        decreases |todo|
      {
        var r :| r in todo;
        assert r in before.Keys;
        if runs[r].status == Queued && Key(Grade, r) in tasks && tasks[Key(Grade, r)].status == Cancelled {
          runs := runs[r := runs[r].(status := Superseded)];
        }
        todo := todo - {r};
      }
      assert runs == Grading.SupersedeCancelled(before, tasks);
    }

    /** Queues a public run; it displaces pending feedback of older submissions. */
    method QueueRun(x: Id, id: Id, run: Database.Run, priority: int)
      requires x in subs
      modifies this`runs, this`tasks, this`issued
      ensures View() == Grading.QueueRun(old(View()), x, id, run, priority)
    {
      hide Grading.SupersedeCancelled, Grading.CancelDisplaced, Queue.Enqueue;
      runs := runs[id := run];
      issued := issued + {id};
      CancelDisplaced(x);
      SupersedeCancelled();
      Enqueue(Key(Grade, id), priority);
    }

    method EnqueueRun(x: Id, regrade: bool, id: Id)
      modifies this`runs, this`tasks, this`issued
      ensures View() == Grading.EnqueueRun(old(View()), x, regrade, id)
    {
      hide MaxAttempt, RunSuperseded, Grading.QueueRun;
      if x !in subs || subs[x].source.None? || subs[x].repo !in repos {
        return;
      }
      if !regrade && exists r :: r in runs && runs[r].submission == x && runs[r].baseline.None? {
        return;
      }
      var r := repos[subs[x].repo];
      var last := LastAttempt(runs, x);
      var superseded := IsSuperseded(x, regrade);
      if superseded {
        runs := runs[id := NewRun(x, r.gradingRevision, last + 1, Superseded, None)];
        issued := issued + {id};
      } else {
        var priority := if r.closed && r.final == Some(x) then 100 else 0;
        QueueRun(x, id, NewRun(x, r.gradingRevision, last + 1, Queued, None), priority);
      }
    }

    /** The run a fetch ends with. */
    method EndSnapshot(g: Grant, id: Id)
      modifies this`runs, this`tasks, this`issued, this`processed
      ensures View() == Grading.EnqueueRun(old(View()), g.key.subject, false, id).(processed := old(processed) + {g})
    {
      hide Grading.EnqueueRun;
      EnqueueRun(g.key.subject, false, id);
      processed := processed + {g};
    }

    /** The insert that the trigger guards. */
    method InsertPrivate(x: Id, revision: Protocol.Revision, attempt: nat, b: Id, id: Id) returns (ok: bool)
      modifies this`runs, this`tasks, this`issued
      ensures View() == Grading.InsertPrivate(old(View()), x, revision, attempt, b, id)
      ensures ok <==> BaselineAdmitted(old(View()), x, b)
    {
      ok := BaselineAdmitted(Rows(), x, b);
      if ok {
        runs := runs[id := NewRun(x, revision, attempt, Queued, Some(b))];
        issued := issued + {id};
        Enqueue(Key(Grade, id), 100);
      }
    }

    /** One repository of `enqueue_private`, after its closure. */
    method SchedulePrivate(p: Id, id: Id) returns (refused: bool)
      requires DistinctAttempts(runs)
      modifies this`runs, this`tasks, this`issued
      ensures View() == Grading.SchedulePrivate(old(View()), p, id)
      ensures refused <==> old(Commandless(View(), p))
    {
      hide MaxAttempt, Grading.InsertPrivate;
      refused := false;
      if p !in repos || repos[p].Deadline() >= now || repos[p].final.None? {
        return;
      }
      var x := repos[p].final.value;
      var b := LastPublic(runs, x);
      if b.None? || runs[b.value].status != RunStatus.Finished(Protocol.Completed) || runs[b.value].points.None? {
        OnlyBaseline(View(), p, b);
        return;
      }
      OnlyBaseline(View(), p, b);
      if !repos[p].gradingRevision.HasPrivateCommand() {
        assert Baseline(View(), p, b.value);
        return true;
      }
      if exists r :: r in runs && runs[r].baseline == b && runs[r].revision == repos[p].gradingRevision {
        return;
      }
      assert PrivateReady(View(), p, b.value) && ReadyBaseline(View(), p) == b.value;
      var last := LastAttempt(runs, x);
      var _ := InsertPrivate(x, repos[p].gradingRevision, last + 1, b.value, id);
    }

    /** Another attempt of a private run that failed last. */
    method RetryPrivate(failed: Id, reason: string, id: Id)
      modifies this`runs, this`tasks, this`issued
      ensures View() == if Blank(reason) then old(View()) else Grading.RetryPrivate(old(View()), failed, id)
    {
      hide Grading.InsertPrivate;
      if Blank(reason) || failed !in runs {
        return;
      }
      var run := runs[failed];
      if (forall q :: q in runs && runs[q].submission == run.submission ==> runs[q].attempt <= run.attempt)
         && run.baseline.Some? && RetryableStatus(run.status)
      {
        var _ := InsertPrivate(run.submission, run.revision, run.attempt + 1, run.baseline.value, id);
      }
    }

    method SyncFailed()
      modifies this`runs
      ensures View() == Grading.SyncFailed(old(View()))
    {
      ghost var synced := Grading.SyncFailed(View()).runs;
      var before := runs;
      var todo := runs.Keys;
      while todo != {}
        invariant todo <= before.Keys && runs.Keys == before.Keys
        invariant forall r :: r in before ==> runs[r] == if r in todo then before[r] else synced[r]
        decreases |todo|
      {
        var r :| r in todo;
        assert r in before.Keys;
        if runs[r].status in {Queued, Running} && Key(Grade, r) in tasks
           && tasks[Key(Grade, r)].status == TaskStatus.Failed {
          runs := runs[r := runs[r].(status := RunStatus.Finished(Protocol.InfrastructureFailed))];
        }
        todo := todo - {r};
      }
      assert runs == synced;
    }
  }

  /** The submission that stands for a receipt's commit: none if it is not eligible, the newest one
      if it has that commit, else a new one. */
  ghost function Answer(s: Db, p: Id, sha: string, received: int, source: EventSource, sub: Id): Option<Id>
    requires p in s.repos
  {
    if !Eligible(s.repos[p], received, source) then None
    else if RepeatsLatest(s, p, sha) then Latest(s.subs, p) else Some(sub)
  }

  ghost predicate Baseline(s: Db, p: Id, b: Id) {
    && p in s.repos && s.repos[p].Deadline() < s.now && s.repos[p].final.Some?
    && IsLastPublic(s.runs, s.repos[p].final.value, b)
    && s.runs[b].status == RunStatus.Finished(Protocol.Completed) && s.runs[b].points.Some?
  }

  /** A repository that could be graded privately if its exercise had a command for it. */
  ghost predicate Commandless(s: Db, p: Id) {
    p in s.repos && !s.repos[p].gradingRevision.HasPrivateCommand() && exists b :: Baseline(s, p, b)
  }

  /** Attempts number the runs of a submission; every reachable state satisfies this. */
  ghost predicate DistinctAttempts(runs: map<Id, Database.Run>) {
    forall q, r :: q in runs && r in runs && SameAttempt(runs[q], runs[r]) ==> q == r
  }

  lemma OnlyBaseline(s: Db, p: Id, b: Option<Id>)
    requires DistinctAttempts(s.runs) && p in s.repos && s.repos[p].final.Some?
    requires b.Some? ==> IsLastPublic(s.runs, s.repos[p].final.value, b.value)
    requires b.None? ==> forall c :: !IsLastPublic(s.runs, s.repos[p].final.value, c)
    ensures forall c: Id :: Baseline(s, p, c) || PrivateReady(s, p, c) ==> b == Some(c)
  {
    forall c: Id | Baseline(s, p, c) || PrivateReady(s, p, c)
      ensures b == Some(c)
    {
      assert IsLastPublic(s.runs, s.repos[p].final.value, c);
    }
  }

  /** Queries do not depend on the history fields. */
  lemma SameCandidates(rows: Db, s: Db, w: Worker, requested: set<string>, locked: set<Key>)
    requires rows == s.(issued := {}, grants := {}, tickets := {}, processed := {})
    ensures WorkerBusy(rows, w.id) == WorkerBusy(s, w.id)
    ensures GradeCandidates(rows, w, requested, locked) == GradeCandidates(s, w, requested, locked)
  {
    hide Suits, Ready;
    assert forall e :: EnrollmentBusy(rows, e) == EnrollmentBusy(s, e) by {
      assert forall r, e :: RunInEnrollment(rows, r, e) == RunInEnrollment(s, r, e);
    }
  }

  /** Cancelling other tasks leaves the test for this one alone. */
  lemma DisplacedIs(s: Db, rows: Db, x: Id, k: Key)
    requires x in s.subs && rows.subs == s.subs && rows.runs == s.runs
    requires (k in rows.tasks <==> k in s.tasks) && (k in s.tasks ==> rows.tasks[k] == s.tasks[k])
    ensures Displaced(rows, x, k) <==> Displaced(s, x, k)
  {
  }

  /** A pending fetch of the enrollment for neither a final nor a newest submission. */
  predicate Unneeded(s: Db, newest: map<Id, Option<Id>>, e: Id, k: Key)
    requires newest.Keys == s.repos.Keys
  {
    && k in s.tasks && k.kind == Snapshot && s.tasks[k].status == Pending && InEnrollment(s, k.subject, e)
    && s.repos[s.subs[k.subject].repo].final != Some(k.subject) && newest[s.subs[k.subject].repo] != Some(k.subject)
  }

  lemma UnneededIs(s: Db, rows: Db, newest: map<Id, Option<Id>>, e: Id, k: Key)
    requires rows.tasks == s.tasks && rows.subs == s.subs && rows.repos == s.repos
    requires newest.Keys == s.repos.Keys && forall p :: p in s.repos ==> newest[p] == Latest(s.subs, p)
    ensures Unneeded(rows, newest, e, k) <==> Obsolete(s, e, k)
  {
    hide Latest;
  }

  lemma SameUrgency(s: Db, s1: Db, chosen: set<Id>, waiting: set<Id>)
    requires s.subs == s1.subs && s.repos == s1.repos && chosen <= waiting <= s.subs.Keys
    requires forall x, y :: x in chosen && y in waiting - chosen ==> FetchedBefore(s, x, y)
    ensures forall x, y :: x in chosen && y in waiting - chosen ==> FetchedBefore(s1, x, y)
  {
    forall x, y | x in chosen && y in waiting - chosen
      ensures FetchedBefore(s1, x, y)
    {
      assert FetchedBefore(s, x, y);
    }
  }

  lemma StillThere(s: Db, p: Id, sha: string, received: int, source: EventSource, event: Id, sub: Id)
    requires p in s.repos
    ensures p in Submissions.Receive(s, p, sha, received, source, event, sub).repos
  {
    hide Eligible, RepeatsLatest;
  }
}
