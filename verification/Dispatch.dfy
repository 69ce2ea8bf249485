/** What leasing must answer: no task that can be worked on is withheld, and none is lost. */
module Dispatch {
  import opened Wrappers
  import opened Database
  import opened Queue
  import opened Grading
  import opened Lifecycle
  import opened Theorems

  // ---- control tasks ----

  lemma {:induction false} FirstExists(s: Db, some: set<Key>) returns (k: Key)
    requires some != {} && some <= s.tasks.Keys
    ensures FirstOf(s, some, k)
  {
    var z :| z in some;
    var rest := some - {z};
    assert some == rest + {z};
    if rest == {} {
      k := z;
    } else {
      var w := FirstExists(s, rest);
      k := if s.tasks[z].priority > s.tasks[w].priority
              || (s.tasks[z].priority == s.tasks[w].priority && s.tasks[z].availableAt <= s.tasks[w].availableAt)
           then z else w;
    }
  }

  /** A lease call gets a task whenever there is one: pending and available, or leased by somebody
      whose lease ran out, with fewer than eight attempts. What it gets is such a task itself, and
      comes before `k` by priority and availability. */
  lemma NothingWithheld(s: Db, kinds: set<Kind>, locked: set<Key>, k: Key, owner: string, token: Id) returns (j: Key)
    requires Grade !in kinds && Fresh(s, token)
    requires k in s.tasks && k.kind in kinds && k !in locked && s.tasks[k].attempts < 8
    requires || (s.tasks[k].status == Pending && s.tasks[k].availableAt <= s.now)
             || (s.tasks[k].status == Leased && s.tasks[k].leaseUntil < s.now)
    ensures Enabled(s, Op.LeaseControl(kinds, locked, j, owner, token))
    ensures j in s.tasks
            && (|| s.tasks[j].priority > s.tasks[k].priority
                || (s.tasks[j].priority == s.tasks[k].priority && s.tasks[j].availableAt <= s.tasks[k].availableAt))
  {
    assert k in Candidates(s, kinds, locked);
    j := FirstExists(s, Candidates(s, kinds, locked));
  }

  /** What a lease call hands out, and to whom. */
  lemma HandedOut(s: Db, kinds: set<Kind>, locked: set<Key>, k: Key, owner: string, token: Id)
    requires Enabled(s, Op.LeaseControl(kinds, locked, k, owner, token))
    ensures k in s.tasks && k.kind in kinds && k !in locked && s.tasks[k].attempts < 8
    ensures || (s.tasks[k].status == Pending && s.tasks[k].availableAt <= s.now)
            || (s.tasks[k].status == Leased && s.tasks[k].leaseUntil < s.now)
    ensures var s' := Apply(s, Op.LeaseControl(kinds, locked, k, owner, token));
            && s'.tasks == s.tasks[k := s'.tasks[k]]
            && s'.tasks[k] == Task(s.tasks[k].priority, Leased, s.tasks[k].attempts + 1, s.tasks[k].availableAt, owner,
                                   Some(token), s.now + 120)
            && Grant(k, token, owner, s.tasks[k].attempts + 1) in s'.grants && token in s'.issued
  {
  }

  lemma {:induction false} AboveAll(ids: set<Id>) returns (n: Id)
    ensures forall i :: i in ids ==> i < n
  {
    if ids == {} {
      n := 0;
    } else {
      var i :| i in ids;
      var m := AboveAll(ids - {i});
      n := if i < m then m else i + 1;
      assert forall j :: j in ids ==> j == i || j in ids - {i};
    }
  }

  predicate Polls(op: Op, kinds: set<Kind>, locked: set<Key>, owner: string) {
    op.LeaseControl? && op.kinds == kinds && op.locked == locked && op.owner == owner
  }

  lemma OneFewer(s: Db, kinds: set<Kind>, locked: set<Key>, k: Key, owner: string, token: Id)
    requires k in Candidates(s, kinds, locked)
    ensures Candidates(Grantee(s, k, owner, token), kinds, locked) == Candidates(s, kinds, locked) - {k}
  {
  }

  /** Polling long enough gets every task that can be worked on. */
  lemma {:induction false} Reached(s: Db, kinds: set<Kind>, locked: set<Key>, k: Key, owner: string)
    returns (ops: seq<Op>, token: Id)
    requires Grade !in kinds && k in s.tasks && k.kind in kinds && k !in locked && s.tasks[k].attempts < 8
    requires || (s.tasks[k].status == Pending && s.tasks[k].availableAt <= s.now)
             || (s.tasks[k].status == Leased && s.tasks[k].leaseUntil < s.now)
    ensures Legal(s, ops) && forall op :: op in ops ==> Polls(op, kinds, locked, owner)
    ensures var s' := Exec(s, ops);
            && k in s'.tasks
            && s'.tasks[k] == Task(s.tasks[k].priority, Leased, s.tasks[k].attempts + 1, s.tasks[k].availableAt, owner,
                                   Some(token), s.now + 120)
    ensures Exec(s, ops).now == s.now
    decreases |Candidates(s, kinds, locked)|
  {
    hide Enabled, Apply, Legal, Exec, Ready;
    token := AboveAll(s.issued);
    var j := NothingWithheld(s, kinds, locked, k, owner, token);
    var op := Op.LeaseControl(kinds, locked, j, owner, token);
    HandedOut(s, kinds, locked, j, owner, token);
    PollIs(s, op);
    var s1 := Apply(s, op);
    var rest: seq<Op> := [];
    if j == k {
      NoSteps(s1);
    } else {
      OneFewer(s, kinds, locked, j, owner, token);
      rest, token := Reached(s1, kinds, locked, k, owner);
    }
    ops := [op] + rest;
    assert ops[1..] == rest;
    Fold(s, ops);
  }

  lemma PollIs(s: Db, op: Op)
    requires op.LeaseControl? && Enabled(s, op)
    ensures op.k in Candidates(s, op.kinds, op.locked)
    ensures Apply(s, op) == Grantee(s, op.k, op.owner, op.token) && Apply(s, op).now == s.now
  {
    hide Ready;
  }

  /** No active task with attempts left is ever lost: from the moment it is available, or its lease
      has run out, polling reaches it, whoever held it before and whatever comes first. */
  lemma NeverLost(s: Db, kinds: set<Kind>, locked: set<Key>, k: Key, owner: string, n: nat)
    returns (ops: seq<Op>, token: Id)
    requires Grade !in kinds && k in s.tasks && k.kind in kinds && k !in locked && s.tasks[k].attempts < 8
    requires s.tasks[k].status == Pending ==> s.tasks[k].availableAt <= s.now + n
    requires s.tasks[k].status == Leased ==> s.tasks[k].leaseUntil < s.now + n
    requires s.tasks[k].status in {Pending, Leased}
    ensures Legal(s, ops) && ops != [] && ops[0] == Op.Tick(n)
    ensures forall op :: op in ops[1..] ==> Polls(op, kinds, locked, owner)
    ensures Holds(Exec(s, ops), k, token) && Exec(s, ops).tasks[k].owner == owner
    ensures Exec(s, ops).tasks[k].attempts == s.tasks[k].attempts + 1
  {
    hide Legal, Exec, Enabled, Apply;
    TickIs(s, n);
    var rest;
    rest, token := Reached(Apply(s, Op.Tick(n)), kinds, locked, k, owner);
    ops := [Op.Tick(n)] + rest;
    assert ops[1..] == rest;
    Fold(s, ops);
  }

  lemma TickIs(s: Db, n: nat)
    ensures Enabled(s, Op.Tick(n)) && Apply(s, Op.Tick(n)) == s.(now := s.now + n)
  {
  }

  // ---- grading ----

  /** A worker that holds no live grade lease gets a grade task whenever there is one for it: it
      suits the worker's profiles and resources, and its student is not being graded elsewhere. */
  lemma GradingNotWithheld(s: Db, w: Worker, requested: set<string>, locked: set<Key>, k: Key, token: Id)
    returns (j: Key)
    requires Fresh(s, token) && k in s.tasks && k.kind == Grade && k !in locked && s.tasks[k].attempts < 8
    requires || (s.tasks[k].status == Pending && s.tasks[k].availableAt <= s.now)
             || (s.tasks[k].status == Leased && s.tasks[k].leaseUntil < s.now)
    requires k.subject in s.runs && s.runs[k.subject].submission in s.subs
             && s.subs[s.runs[k.subject].submission].repo in s.repos
    requires var a := s.runs[k.subject].revision.assignment;
             && a.executionProfile in w.profiles && a.executionProfile in requested && a.resources.cpu <= w.caps.cpu
             && a.resources.memoryGib <= w.caps.memoryGib && a.resources.storageGib <= w.caps.storageGib
    requires forall i :: i in s.tasks && i.kind == Grade && s.tasks[i].status == Leased && s.tasks[i].owner == w.id ==>
               s.tasks[i].leaseUntil <= s.now
    requires var e := s.repos[s.subs[s.runs[k.subject].submission].repo].enrollment;
             forall i :: i in s.tasks && i.kind == Grade && s.tasks[i].status == Leased && i.subject in s.runs
                         && InEnrollment(s, s.runs[i.subject].submission, e) ==>
               s.tasks[i].leaseUntil <= s.now
    ensures Enabled(s, Op.LeaseGrade(w, requested, locked, j, token))
    ensures var s' := Apply(s, Op.LeaseGrade(w, requested, locked, j, token));
            && j in s.tasks && j.subject in s.runs
            && (|| s.tasks[j].priority > s.tasks[k].priority
                || (s.tasks[j].priority == s.tasks[k].priority && s.tasks[j].availableAt <= s.tasks[k].availableAt))
            && s'.tasks == s.tasks[j := s'.tasks[j]]
            && s'.tasks[j] == Task(s.tasks[j].priority, Leased, s.tasks[j].attempts + 1, s.tasks[j].availableAt, w.id,
                                   Some(token), s.now + 120)
            && s'.runs == s.runs[j.subject := s.runs[j.subject].(status := Running)]
  {
    assert k in GradeCandidates(s, w, requested, locked);
    j := FirstExists(s, GradeCandidates(s, w, requested, locked));
  }

  /** What a worker is handed: only what suits it, and nothing while it or the student is busy. */
  lemma HandedToGrade(s: Db, w: Worker, requested: set<string>, locked: set<Key>, k: Key, token: Id, i: Key)
    requires Enabled(s, Op.LeaseGrade(w, requested, locked, k, token))
    requires Apply(s, Op.LeaseGrade(w, requested, locked, k, token)) != s
    ensures k in s.tasks && k.kind == Grade && k !in locked && s.tasks[k].attempts < 8 && k.subject in s.runs
    ensures || (s.tasks[k].status == Pending && s.tasks[k].availableAt <= s.now)
            || (s.tasks[k].status == Leased && s.tasks[k].leaseUntil < s.now)
    ensures var a := s.runs[k.subject].revision.assignment;
            && a.executionProfile in w.profiles && a.executionProfile in requested && a.resources.cpu <= w.caps.cpu
            && a.resources.memoryGib <= w.caps.memoryGib && a.resources.storageGib <= w.caps.storageGib
    ensures i in s.tasks && i.kind == Grade && s.tasks[i].status == Leased && s.tasks[i].leaseUntil > s.now ==>
              && s.tasks[i].owner != w.id
              && (i.subject in s.runs ==>
                    forall e :: InEnrollment(s, s.runs[i.subject].submission, e) ==>
                      !InEnrollment(s, s.runs[k.subject].submission, e))
  {
  }

  // ---- the holder's calls, the operator's and the poll ----

  /** Only the holder of a live lease moves it: renewed by 120 seconds, done, deferred or failed. */
  lemma HolderMoves(s: Db, g: Grant, k: Key)
    requires k in s.tasks
    ensures var t := s.tasks[k];
            var mine := k == g.key && t.token == Some(g.token) && t.status == Leased && s.now < t.leaseUntil;
            && Queue.Heartbeat(s, g.key, g.token, g.owner).tasks[k] ==
               (if mine && t.owner == g.owner then t.(leaseUntil := s.now + 120) else t)
            && Queue.Finish(s, g).tasks[k] == (if mine then t.(status := Done) else t)
            && Queue.FailPermanently(s, g).tasks[k] == (if mine then t.(status := Failed) else t)
            && (Queue.Fail(s, g).tasks[k] != t ==> mine)
    ensures var t := s.tasks[k];
            forall until: int :: Queue.Defer(s, g, until).tasks[k] ==
              if k == g.key && t.token == Some(g.token) && t.status == Leased && s.now < t.leaseUntil
              then t.(status := Pending, availableAt := until, attempts := if t.attempts > 1 then t.attempts - 1 else 0)
              else t
  {
  }

  /** A rate limit pushes a task of this token that waits again back, never forward. */
  lemma PushedBack(s: Db, g: Grant, until: int, k: Key)
    requires k in s.tasks
    ensures var t, t' := s.tasks[k], Queue.Postpone(s, g, until).tasks[k];
            && t' == t.(availableAt := t'.availableAt) && t'.availableAt >= t.availableAt
            && (t'.availableAt > t.availableAt <==>
                  k == g.key && t.token == Some(g.token) && t.status == Pending && until > t.availableAt)
            && (t'.availableAt > t.availableAt ==> t'.availableAt == until)
  {
  }

  /** What an operator or an open invitation starts over has all eight attempts again: a failed
      control task at once, a finished provisioning five minutes later. */
  lemma StartedOver(s: Db, g: Grant, k: Key)
    requires k in s.tasks
    ensures var t := s.tasks[k];
            && Queue.Retry(s, k).tasks[k] ==
               (if t.status == Failed && k.kind != Grade then t.(status := Pending, attempts := 0, availableAt := s.now)
                else t)
            && Queue.PollInvitation(s, g).tasks[k] ==
               (if k == g.key && k.kind == Provision && t.token == Some(g.token) && t.status == Done
                then t.(status := Pending, attempts := 0, availableAt := s.now + 300) else t)
  {
  }

  /** Provisioning and locking a repository again. */
  lemma Repeated(s: Db, p: Id)
    ensures var k, s' := Key(Provision, p), Reset(Queue.Enqueue(s, Key(Provision, p), 10), Key(Provision, p), {Failed});
            && Enabled(s, Op.Reprovision(p)) && Apply(s, Op.Reprovision(p)) == s' && k in s'.tasks
            && s'.tasks[k] == (if k !in s.tasks then Task(10, Pending, 0, s.now, "", None, 0)
                               else if s.tasks[k].status == Failed then
                                 s.tasks[k].(status := Pending, attempts := 0, availableAt := s.now)
                               else s.tasks[k])
    ensures var k, s' := Key(Lock, p), Reset(s, Key(Lock, p), {Done, Failed});
            && Enabled(s, Op.Relock(p)) && Apply(s, Op.Relock(p)) == s' && (k in s'.tasks <==> k in s.tasks)
            && (k in s.tasks ==>
                  s'.tasks[k] == if s.tasks[k].status in {Done, Failed} then
                                   s.tasks[k].(status := Pending, attempts := 0, availableAt := s.now)
                                 else s.tasks[k])
  {
    assert Apply(s, Op.Reprovision(p)) == Reset(Queue.Enqueue(s, Key(Provision, p), 10), Key(Provision, p),
                                                {Failed}) by {
      hide Reset, Queue.Enqueue;
    }
    assert Apply(s, Op.Relock(p)) == Reset(s, Key(Lock, p), {Done, Failed}) by {
      hide Reset;
    }
    hide Apply;
  }
}
