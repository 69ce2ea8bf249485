/** The retry budget of a task over whole runs. */
module Budget {
  import opened Database
  import opened Queue
  import opened Lifecycle
  import opened Invariant
  import opened Preservation
  import opened ControlSteps
  import opened Fate
  import opened Theorems

  ghost function LeaseCount(s: Db, ops: seq<Op>, k: Key): int
    requires Legal(s, ops)
    decreases |ops|
  {
    if ops == [] then 0 else Leases(s, ops[0], k) + LeaseCount(Apply(s, ops[0]), ops[1..], k)
  }

  ghost function DeferCount(s: Db, ops: seq<Op>, k: Key): int
    requires Legal(s, ops)
    decreases |ops|
  {
    if ops == [] then 0 else Defers(s, ops[0], k) + DeferCount(Apply(s, ops[0]), ops[1..], k)
  }

  /** No call of the run resets task `k` itself. */
  ghost predicate NoReset(s: Db, ops: seq<Op>, k: Key)
    requires Legal(s, ops)
    decreases |ops|
  {
    ops == [] || ((k in s.tasks ==> !Resets(s, ops[0], k, s.tasks[k])) && NoReset(Apply(s, ops[0]), ops[1..], k))
  }

  /** Attempts are exactly the leases minus the deferrals, so between its own resets a task is
      leased at most eight times net of deferrals, whatever happens to other tasks. */
  lemma {:induction false} BudgetConserved(s: Db, ops: seq<Op>, k: Key)
    requires Inv(s) && Legal(s, ops) && NoReset(s, ops, k) && k in s.tasks
    ensures var s' := Exec(s, ops);
            && k in s'.tasks
            && s'.tasks[k].attempts == s.tasks[k].attempts + LeaseCount(s, ops, k) - DeferCount(s, ops, k)
    ensures LeaseCount(s, ops, k) <= MAX_ATTEMPTS - s.tasks[k].attempts + DeferCount(s, ops, k)
    decreases |ops|
  {
    hide Inv, Kept, Extends, Enabled, Apply, Legal, Resets, Leases, Defers, Fenced;
    if ops == [] {
      Open(s);
      FencedRow(s, k);
    } else {
      Unfold(s, ops);
      var s1 := Apply(s, ops[0]);
      Step(s, ops[0]);
      KeptInv(s, s1);
      FateOfAll(s, ops[0]);
      assert RowFate(s, ops[0], k, s.tasks[k], s1.tasks[k]);
      BudgetConserved(s1, ops[1..], k);
    }
  }

  lemma BudgetAt(s: Db, g: Grant)
    requires Inv(s)
    ensures forall k :: k in s.tasks ==>
              0 <= s.tasks[k].attempts <= 8 && (s.tasks[k].status == Leased ==> 1 <= s.tasks[k].attempts)
    ensures g in s.grants && Holds(s, g.key, g.token) ==>
              s.tasks[g.key].attempts == g.attempts && s.tasks[g.key].owner == g.owner
  {
    hide References, Exclusive, RunsFollowTasks, Scores, Baselines, Tickets, Closure, PrivateRuns, Attempts;
    hide Receipts, OncePerEvent, Snapshots;
  }

  /** In every reachable state every row is within the budget, and the record a holder presents
      agrees with the row. */
  lemma WithinBudget(ops: seq<Op>, g: Grant, k: Key)
    requires Legal(EMPTY, ops) && k in Exec(EMPTY, ops).tasks
    ensures var t := Exec(EMPTY, ops).tasks[k]; 0 <= t.attempts <= 8 && (t.status == Leased ==> 1 <= t.attempts)
    ensures var s := Exec(EMPTY, ops);
            g in s.grants && Holds(s, g.key, g.token) ==>
              s.tasks[g.key].attempts == g.attempts && s.tasks[g.key].owner == g.owner
  {
    hide Inv, Legal, Exec;
    Reachable(ops);
    BudgetAt(Exec(EMPTY, ops), g);
  }

  lemma BackoffBounds(a: nat)
    ensures 30 <= Backoff(a) <= 7680
    ensures a <= 8 ==> Backoff(a) == 30 * PowerOfTwo(a)
  {
    assert PowerOfTwo(8) == 2 * PowerOfTwo(7) == 4 * PowerOfTwo(6) == 8 * PowerOfTwo(5) == 16 * PowerOfTwo(4) == 256;
    if a <= 8 {
      PowerMonotone(a, 8);
    }
  }

  lemma {:induction false} PowerMonotone(a: nat, b: nat)
    requires a <= b
    ensures PowerOfTwo(a) <= PowerOfTwo(b)
  {
    if a < b {
      PowerMonotone(a, b - 1);
    }
  }

  /** A holder's failure: exactly 30·2^attempts seconds of delay, well inside 32 bits, and the end
      of the task exactly when the eighth attempt was spent. */
  lemma FailureDelay(s: Db, g: Grant)
    requires Inv(s) && g in s.grants && Holds(s, g.key, g.token)
    ensures var t, t' := s.tasks[g.key], Queue.Fail(s, g).tasks[g.key];
            && 1 <= t.attempts <= 8
            && t'.availableAt == s.now + 30 * PowerOfTwo(t.attempts) && 60 <= 30 * PowerOfTwo(t.attempts) <= 7680
            && (t'.status == TaskStatus.Failed <==> t.attempts == 8) && (t'.status == Pending <==> t.attempts < 8)
  {
    hide Inv, PowerOfTwo;
    BudgetAt(s, g);
    BackoffBounds(g.attempts);
    FirstDelay(g.attempts);
  }

  lemma FirstDelay(a: nat)
    requires a >= 1
    ensures PowerOfTwo(a) >= 2
  {
    assert PowerOfTwo(1) == 2;
    PowerMonotone(1, a);
  }

  /** Waiting for the source budget costs nothing: leasing and deferring restores the attempts. */
  lemma LeaseThenDefer(s: Db, k: Key, owner: string, token: Id, until: int)
    requires Inv(s) && k in s.tasks && Ready(s.tasks[k], s.now)
    ensures var s1 := Grantee(s, k, owner, token);
            var s2 := Queue.Defer(s1, Grant(k, token, owner, s1.tasks[k].attempts), until);
            && Holds(s1, k, token)
            && s2.tasks[k].attempts == s.tasks[k].attempts && s2.tasks[k].status == Pending
            && s2.tasks[k].availableAt == until
  {
    hide Inv, Fenced;
    Open(s);
    FencedRow(s, k);
  }
}
