/** Functions that run several transactions: each is a run of the state machine. */
module Drivers {
  import opened Wrappers
  import opened Text
  import Protocol
  import opened Database
  import opened Queue
  import opened Submissions
  import opened Grading
  import opened Lifecycle
  import opened Invariant
  import opened Preservation
  import opened ControlSteps
  import opened Theorems
  import opened Frames
  import opened Store
  import opened Acceptance

  lemma AlsoStep(s: Db, ops: seq<Op>, op: Op)
    requires Legal(s, ops) && Inv(Exec(s, ops)) && Enabled(Exec(s, ops), op)
    ensures Legal(s, ops + [op]) && Exec(s, ops + [op]) == Apply(Exec(s, ops), op) && Inv(Apply(Exec(s, ops), op))
  {
    hide Inv, Kept, Extends, Enabled, Apply, Legal, Exec;
    OneMoreStep(s, ops, op);
    Step(Exec(s, ops), op);
    KeptInv(Exec(s, ops), Apply(Exec(s, ops), op));
  }

  lemma CloseIssues(s: Db, p: Id)
    ensures Enabled(s, Op.Close(p)) && Apply(s, Op.Close(p)) == Submissions.Close(s, p)
            && Submissions.Close(s, p).issued == s.issued
  {
    hide Submissions.Close;
    CloseFrame(s, p);
  }

  lemma ScheduleIssues(s: Db, p: Id, id: Id)
    requires Fresh(s, id)
    ensures Enabled(s, Op.SchedulePrivate(p, id))
            && Apply(s, Op.SchedulePrivate(p, id)) == Grading.SchedulePrivate(s, p, id)
    ensures Grading.SchedulePrivate(s, p, id).issued <= s.issued + {id}
  {
    hide Grading.SchedulePrivate, Grading.RetryPrivate;
    PrivateFrames(s, p, 0, id);
  }

  lemma AttemptsDistinct(s: Db)
    requires Attempts(s)
    ensures DistinctAttempts(s.runs)
  {
  }

  /** One round of private grading per repository: close, then schedule. */
  function Rounds(repositories: seq<Id>, ids: seq<Id>): seq<Op>
    requires |ids| == |repositories|
  {
    if repositories == [] then []
    else
      var n := |repositories| - 1;
      Rounds(repositories[..n], ids[..n]) + [Op.Close(repositories[n]), Op.SchedulePrivate(repositories[n], ids[n])]
  }

  lemma OneMoreRound(repositories: seq<Id>, ids: seq<Id>, i: nat)
    requires i < |ids| == |repositories|
    ensures Rounds(repositories[..i + 1], ids[..i + 1]) ==
            Rounds(repositories[..i], ids[..i]) + [Op.Close(repositories[i])]
            + [Op.SchedulePrivate(repositories[i], ids[i])]
  {
    assert repositories[..i + 1][..i] == repositories[..i] && ids[..i + 1][..i] == ids[..i];
  }

  /** Private grading of the repositories of an exercise: every one is closed and scheduled in turn,
      up to the first that lacks a private command. */
  method EnqueuePrivate(store: GradingStore, repositories: seq<Id>, reason: string, ids: seq<Id>)
    returns (ok: bool, ghost ops: seq<Op>)
    requires Inv(store.View()) && |ids| == |repositories|
    requires forall i :: 0 <= i < |ids| ==> ids[i] !in store.issued
    requires forall i, j :: 0 <= i < j < |ids| ==> ids[i] != ids[j]
    modifies store`tasks, store`repos, store`runs, store`issued
    ensures Legal(old(store.View()), ops) && store.View() == Exec(old(store.View()), ops)
    ensures Inv(store.View())
    ensures ok ==> !Blank(reason) && repositories != [] && ops == Rounds(repositories, ids)
    ensures !ok ==>
              || ((Blank(reason) || repositories == []) && ops == [])
              || exists n: nat :: n < |ids| && ops == Rounds(repositories[..n + 1], ids[..n + 1])
                                  && Commandless(store.View(), repositories[n])
  {
    hide Inv, Kept, Extends, Enabled, Apply, Legal, Exec, Submissions.Close, Grading.SchedulePrivate, Attempts;
    hide Commandless, Rounds;
    ghost var s := store.View();
    ok, ops := false, [];
    NoSteps(s);
    if Blank(reason) || repositories == [] {
      return;
    }
    NoRounds();
    assert repositories[..0] == [] && ids[..0] == [];
    for i := 0 to |repositories|
      invariant Legal(s, ops) && store.View() == Exec(s, ops) && Inv(store.View())
      invariant ops == Rounds(repositories[..i], ids[..i])
      invariant forall j :: i <= j < |ids| ==> ids[j] !in store.issued
    {
      var p := repositories[i];
      OneMoreRound(repositories, ids, i);
      CloseIssues(store.View(), p);
      AlsoStep(s, ops, Op.Close(p));
      store.Close(p);
      ops := ops + [Op.Close(p)];
      ghost var before := store.View();
      ScheduleIssues(before, p, ids[i]);
      AlsoStep(s, ops, Op.SchedulePrivate(p, ids[i]));
      Distinct(before);
      StillCommandless(before, p, ids[i]);
      var refused := store.SchedulePrivate(p, ids[i]);
      ops := ops + [Op.SchedulePrivate(p, ids[i])];
      if refused {
        return;
      }
    }
    assert repositories[..|repositories|] == repositories && ids[..|repositories|] == ids;
    ok := true;
  }

  lemma NoRounds()
    ensures Rounds([], []) == []
  {
  }

  lemma Distinct(s: Db)
    requires Inv(s)
    ensures DistinctAttempts(s.runs)
  {
    hide Inv, Attempts;
    Open(s);
    AttemptsDistinct(s);
  }

  /** Without a command nothing is scheduled. */
  lemma StillCommandless(s: Db, p: Id, id: Id)
    requires DistinctAttempts(s.runs)
    ensures Commandless(s, p) ==> Grading.SchedulePrivate(s, p, id) == s
  {
  }

  /** Both phases of acceptance by one caller, nothing in between. */
  method Accept(store: GradingStore, w: Worker, k: Key, result: Protocol.RunResult)
    returns (accepted: bool, ghost ops: seq<Op>)
    requires Inv(store.View())
    modifies store`tickets, store`tasks, store`runs, store`repos
    ensures Legal(old(store.View()), ops) && store.View() == Exec(old(store.View()), ops) && Inv(store.View())
    ensures accepted <==>
            Honest(old(store.View()), w, k, result) && old(store.runs)[k.subject].result in {None, Some(result)}
    ensures accepted && old(store.runs)[k.subject].result.None? ==> Stores(old(store.View()), k, result, store.View())
    ensures !accepted || old(store.runs)[k.subject].result.Some? ==> store.View() == old(store.View())
  {
    hide Inv, Kept, Extends, Enabled, Apply, Legal, Exec, Grading.Examine, Examined, Grading.Commit, Decide;
    hide Honest, Stores;
    ghost var s := store.View();
    NoSteps(s);
    ExamineStep(s, w, k, result);
    AlsoStep(s, [], Op.Examine(w, k, result));
    ops := [] + [Op.Examine(w, k, result)];
    var a := store.Examine(w, k, result);
    ExaminedIff(s, w, k, result);
    ExamineAnswers(s, w, k, result);
    HonestRun(s, w, k, result);
    match a
    case Refused =>
      accepted := false;
    case Replayed =>
      accepted := true;
    case Continue(ticket) =>
      ghost var s1 := store.View();
      HonestStored(s, w, k, result);
      CommitStep(s1, ticket);
      AlsoStep(s, ops, Op.Commit(ticket));
      ops := ops + [Op.Commit(ticket)];
      var outcome := store.Commit(ticket);
      accepted := outcome != Conflict;
  }

  lemma ExamineStep(s: Db, w: Worker, k: Key, result: Protocol.RunResult)
    ensures Enabled(s, Op.Examine(w, k, result)) && Apply(s, Op.Examine(w, k, result)) == Examined(s, w, k, result)
  {
    hide Examined;
  }

  lemma ExamineAnswers(s: Db, w: Worker, k: Key, result: Protocol.RunResult)
    ensures var a := Grading.Examine(s, w, k, result);
            && (a.Continue? ==> a.ticket in Examined(s, w, k, result).tickets)
            && (!a.Continue? ==> Examined(s, w, k, result) == s)
  {
    hide OwnedLease, Protocol.ValidateResult;
  }

  lemma CommitStep(s: Db, t: Ticket)
    requires t in s.tickets
    ensures Enabled(s, Op.Commit(t)) && Apply(s, Op.Commit(t)) == Grading.Commit(s, t)
  {
    hide Grading.Commit;
  }

  lemma HonestRun(s: Db, w: Worker, k: Key, result: Protocol.RunResult)
    ensures Honest(s, w, k, result) ==> k in s.tasks && k.subject in s.runs && s.runs[k.subject].submission in s.subs
  {
  }

  // ---- choosing a submission ----

  lemma SelectIssues(s: Db, event: Id, id: Id)
    requires Fresh(s, id)
    ensures Enabled(s, Op.Select(event, id)) && Apply(s, Op.Select(event, id)) == Submissions.Select(s, event, id)
    ensures Submissions.Select(s, event, id).issued <= s.issued + {id}
  {
    hide MadeFrom;
  }

  /** Whatever was chosen is to be fetched. */
  lemma FetchFollows(s: Db, event: Id, id: Id)
    requires event in s.events && s.events[event].repo in s.repos && s.repos[s.events[event].repo].closed
    ensures var s' := Submissions.Select(s, event, id); var p := s.events[event].repo;
            && p in s'.repos && s'.repos[p].final.Some?
            && (var k := Key(Kind.Snapshot, s'.repos[p].final.value);
                && k in s'.tasks
                && s'.tasks[k] == if k in s.tasks then s.tasks[k] else Task(100, Pending, 0, s.now, "", None, 0))
  {
  }

  lemma EnqueueIssues(s: Db, x: Id, regrade: bool, id: Id)
    requires Fresh(s, id)
    ensures Enabled(s, Op.EnqueueRun(x, regrade, id))
            && Apply(s, Op.EnqueueRun(x, regrade, id)) == Grading.EnqueueRun(s, x, regrade, id)
  {
    hide Grading.EnqueueRun;
  }

  /** A regrade is never superseded: the run is there and its task with it. */
  lemma RegradeQueued(s: Db, x: Id, id: Id)
    requires CanEnqueue(s, x) && Fresh(s, id) && References(s)
    ensures var s' := Grading.EnqueueRun(s, x, true, id);
            && s'.subs == s.subs && s'.repos == s.repos
            && id in s'.runs && s'.runs[id].submission == x && s'.runs[id].status == Queued
            && s'.runs[id].revision == s.repos[s.subs[x].repo].gradingRevision && Key(Grade, id) in s'.tasks
  {
    hide MaxAttempt, Displaced, RunSuperseded;
    assert !RunSuperseded(s, x, true) by {
      UpholdsRegrade(s, x);
    }
  }

  lemma UpholdsRegrade(s: Db, x: Id)
    requires CanEnqueue(s, x)
    ensures !RunSuperseded(s, x, true)
  {
  }

  /** An instructor's choice, and a new run of it if its source is there. */
  method SelectSubmission(store: GradingStore, event: Id, reason: string, id: Id, run: Id)
    returns (chosen: Option<Id>, ghost ops: seq<Op>)
    requires Inv(store.View()) && id !in store.issued && run !in store.issued && id != run
    modifies store`subs, store`repos, store`tasks, store`runs, store`issued
    ensures Legal(old(store.View()), ops) && store.View() == Exec(old(store.View()), ops) && Inv(store.View())
    ensures chosen.None? ==> store.View() == old(store.View())
    ensures chosen.Some? ==>
              && event in store.events && store.events[event].repo in store.repos
              && store.repos[store.events[event].repo].final == chosen && chosen.value in store.subs
              && store.subs[chosen.value].event == event && Key(Kind.Snapshot, chosen.value) in store.tasks
              && (store.subs[chosen.value].source.Some? ==>
                    && run in store.runs && store.runs[run].submission == chosen.value
                    && store.runs[run].status == Queued && Key(Grade, run) in store.tasks)
  {
    hide Inv, Kept, Extends, Enabled, Apply, Legal, Exec, Submissions.Select, Grading.EnqueueRun;
    ghost var s := store.View();
    ops := [];
    NoSteps(s);
    SelectIssues(s, event, id);
    if event in s.events && s.events[event].repo in s.repos && s.repos[s.events[event].repo].closed {
      FetchFollows(s, event, id);
    }
    Open(s);
    chosen := store.SelectSubmission(event, reason, id);
    if chosen.None? {
      return;
    }
    AlsoStep(s, ops, Op.Select(event, id));
    ops := ops + [Op.Select(event, id)];
    if store.subs[chosen.value].source.Some? {
      ghost var s1 := store.View();
      EnqueueIssues(s1, chosen.value, true, run);
      AlsoStep(s, ops, Op.EnqueueRun(chosen.value, true, run));
      Open(s1);
      RegradeQueued(s1, chosen.value, run);
      OtherKindKept(s1, chosen.value, true, run, Key(Kind.Snapshot, chosen.value));
      store.EnqueueRun(chosen.value, true, run);
      ops := ops + [Op.EnqueueRun(chosen.value, true, run)];
    }
  }

  // ---- the snapshot worker ----

  /** A retained source of the same commit of the same repository. */
  predicate Reusable(subs: map<Id, Submission>, x: Id, y: Id)
    requires x in subs
  {
    y in subs && subs[y].repo == subs[x].repo && subs[y].sha == subs[x].sha && subs[y].source.Some?
  }

  /** A source for `x` can be had, and `source` is one: a retained one if there is any. */
  ghost predicate Sourced(subs: map<Id, Submission>, x: Id, fetched: Option<string>, source: Option<string>)
    requires x in subs
  {
    && source.Some?
    && ((exists y :: Reusable(subs, x, y)) ==> exists y :: Reusable(subs, x, y) && subs[y].source == source)
    && ((forall y :: !Reusable(subs, x, y)) ==> source == fetched)
  }

  ghost predicate Obtainable(subs: map<Id, Submission>, x: Id, fetched: Option<string>) {
    x in subs && (fetched.Some? || exists y :: Reusable(subs, x, y))
  }

  /** `... AND sha=$2 AND source_digest IS NOT NULL LIMIT 1`, or else what was fetched */
  method SourceFor(subs: map<Id, Submission>, x: Id, fetched: Option<string>) returns (digest: Option<string>)
    requires x in subs
    ensures digest.Some? <==> Obtainable(subs, x, fetched)
    ensures digest.Some? ==> Sourced(subs, x, fetched, if subs[x].source.Some? then subs[x].source else digest)
  {
    var retained := set y | y in subs && Reusable(subs, x, y);
    assert forall y :: Reusable(subs, x, y) ==> y in retained;
    assert Reusable(subs, x, x) <==> subs[x].source.Some?;
    if retained == {} {
      return fetched;
    }
    var y :| y in retained;
    return subs[y].source;
  }

  lemma RetainStep(s: Db, x: Id, digest: string)
    requires x in s.subs && References(s)
    ensures var s' := Submissions.Retain(s, x, digest);
            && Enabled(s, Op.Retain(x, digest)) && Apply(s, Op.Retain(x, digest)) == s'
            && CanEnqueue(s', x) && s'.grants == s.grants && s'.issued == s.issued && s'.tasks == s.tasks
            && s'.now == s.now
            && s'.subs[x].source == if s.subs[x].source.Some? then s.subs[x].source else Some(digest)
  {
  }

  lemma OtherKindKept(s: Db, x: Id, regrade: bool, id: Id, k: Key)
    requires k.kind != Grade && k in s.tasks
    ensures var s' := Grading.EnqueueRun(s, x, regrade, id); k in s'.tasks && s'.tasks[k] == s.tasks[k]
  {
    hide MaxAttempt, RunSuperseded, SupersedeCancelled, InRepo, HasPublicRun;
  }

  lemma HasRunAfter(s: Db, x: Id, id: Id)
    requires CanEnqueue(s, x)
    ensures HasPublicRun(Grading.EnqueueRun(s, x, false, id).runs, x)
  {
    hide MaxAttempt, RunSuperseded, CancelDisplaced;
    var s' := Grading.EnqueueRun(s, x, false, id);
    if !HasPublicRun(s.runs, x) {
      assert id in s'.runs && s'.runs[id].submission == x && s'.runs[id].baseline.None?;
    }
  }

  lemma EndStep(s: Db, g: Grant, id: Id)
    requires Fresh(s, id) && ControlGrant(s, g) && g.key.kind == Kind.Snapshot && CanEnqueue(s, g.key.subject)
             && g.key in s.tasks
    ensures Enabled(s, Op.EndSnapshot(g, id))
    ensures var s' := Grading.EnqueueRun(s, g.key.subject, false, id).(processed := s.processed + {g});
            && Apply(s, Op.EndSnapshot(g, id)) == s' && ControlGrant(s', g) && g in s'.processed
            && s'.subs == s.subs && s'.now == s.now && HasPublicRun(s'.runs, g.key.subject)
            && g.key in s'.tasks && s'.tasks[g.key] == s.tasks[g.key]
  {
    hide CanEnqueue, Grading.EnqueueRun, HasPublicRun;
    EnqueueRunHistory(s, g.key.subject, id);
    Frames.EnqueueRunFrame(s, g.key.subject, false, id);
    OtherKindKept(s, g.key.subject, false, id, g.key);
    HasRunAfter(s, g.key.subject, id);
  }

  lemma EnqueueRunHistory(s: Db, x: Id, id: Id)
    ensures var s' := Grading.EnqueueRun(s, x, false, id); s'.grants == s.grants && s'.now == s.now
  {
    hide MaxAttempt, HasPublicRun, RunSuperseded, CancelDisplaced, SupersedeCancelled, CanEnqueue;
  }

  lemma NotObtainable(subs: map<Id, Submission>, x: Id, fetched: Option<string>)
    requires x !in subs
    ensures !Obtainable(subs, x, fetched)
  {
  }

  lemma GrantTask(s: Db, g: Grant)
    requires Inv(s) && g in s.grants
    ensures References(s) && g.key in s.tasks
  {
    hide Inv, References;
    Open(s);
  }

  lemma FinishStep(s: Db, g: Grant)
    requires ControlGrant(s, g) && g in s.processed
    ensures Enabled(s, Op.Finish(g)) && Apply(s, Op.Finish(g)) == Queue.Finish(s, g)
  {
    hide Queue.Finish;
  }

  /** The work of a fetch task: a retained source of the same commit is used again, else the fetched
      one is kept; then the run is queued and the task finished. `fetched` is what the service and
      the retention limit leave of the source. */
  method Snapshot(store: GradingStore, g: Grant, fetched: Option<string>, id: Id) returns (ok: bool, ghost ops: seq<Op>)
    requires Inv(store.View()) && g in store.grants && g.key.kind == Kind.Snapshot && id !in store.issued
    modifies store`subs, store`tasks, store`runs, store`issued, store`processed
    ensures Legal(old(store.View()), ops) && store.View() == Exec(old(store.View()), ops) && Inv(store.View())
    ensures !ok ==> store.View() == old(store.View())
    ensures ok <==> Obtainable(old(store.subs), g.key.subject, fetched)
    ensures ok ==>
              && g.key.subject in store.subs && HasPublicRun(store.runs, g.key.subject)
              && Sourced(old(store.subs), g.key.subject, fetched, store.subs[g.key.subject].source)
              && (Holds(old(store.View()), g.key, g.token) ==>
                    g.key in store.tasks && store.tasks[g.key].status == Done)
  {
    hide Inv, Kept, Extends, Enabled, Apply, Legal, Exec, Grading.EnqueueRun, HasPublicRun, Submissions.Retain;
    hide CanEnqueue;
    hide Sourced, Obtainable, References;
    ghost var s := store.View();
    ok, ops := false, [];
    NoSteps(s);
    GrantTask(s, g);
    var x := g.key.subject;
    if x !in store.subs {
      NotObtainable(store.subs, x, fetched);
      return;
    }
    var digest := SourceFor(store.subs, x, fetched);
    if digest.None? {
      return;
    }
    ok := true;
    RetainStep(s, x, digest.value);
    AlsoStep(s, ops, Op.Retain(x, digest.value));
    store.Retain(x, digest.value);
    ops := ops + [Op.Retain(x, digest.value)];
    ghost var s1 := store.View();
    EndStep(s1, g, id);
    AlsoStep(s, ops, Op.EndSnapshot(g, id));
    store.EndSnapshot(g, id);
    ops := ops + [Op.EndSnapshot(g, id)];
    FinishStep(store.View(), g);
    AlsoStep(s, ops, Op.Finish(g));
    var _ := store.Finish(g);
    ops := ops + [Op.Finish(g)];
  }
}
