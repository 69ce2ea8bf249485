/** The ordered queries of the store, as loops over rows. */
module Queries {
  import opened Wrappers
  import opened Database
  import opened Submissions

  predicate Preferred(t: Task, u: Task) {
    u.priority < t.priority || (u.priority == t.priority && t.availableAt <= u.availableAt)
  }

  /** `ORDER BY priority DESC, available_at LIMIT 1` */
  method BestTask(tasks: map<Key, Task>, candidates: set<Key>) returns (k: Key)
    requires candidates != {} && candidates <= tasks.Keys
    ensures k in candidates && forall c :: c in candidates ==> Preferred(tasks[k], tasks[c])
  {
    k :| k in candidates;
    var todo := candidates - {k};
    while todo != {}
      invariant todo <= candidates && k in candidates
      invariant forall c :: c in candidates && c !in todo ==> Preferred(tasks[k], tasks[c])
      decreases |todo|
    {
      var c :| c in todo;
      if !Preferred(tasks[k], tasks[c]) {
        k := c;
      }
      todo := todo - {c};
    }
  }

  /** `ORDER BY received_at DESC, id DESC LIMIT 1` over one repository. */
  method LatestOf(subs: map<Id, Submission>, p: Id) returns (r: Option<Id>)
    ensures r == Latest(subs, p)
  {
    hide Latest;
    r := None;
    var todo := subs.Keys;
    while todo != {}
      invariant todo <= subs.Keys
      invariant r.None? ==> forall x :: x in subs && x !in todo ==> subs[x].repo != p
      invariant r.Some? ==> r.value in subs && r.value !in todo && subs[r.value].repo == p
      invariant r.Some? ==>
                  forall x :: x in subs && x !in todo && subs[x].repo == p && x != r.value ==> Newer(subs, r.value, x)
      decreases |todo|
    {
      var x :| x in todo;
      if subs[x].repo == p && (r.None? || Newer(subs, x, r.value)) {
        r := Some(x);
      }
      todo := todo - {x};
    }
    if r.Some? {
      LatestIs(subs, p, r.value);
    }
  }

  method LatestOfAll(subs: map<Id, Submission>, ps: set<Id>) returns (newest: map<Id, Option<Id>>)
    ensures newest.Keys == ps && forall p :: p in ps ==> newest[p] == Latest(subs, p)
  {
    hide Latest;
    newest := map[];
    var todo := ps;
    while todo != {}
      invariant todo <= ps && newest.Keys == ps - todo && forall p :: p in newest ==> newest[p] == Latest(subs, p)
      decreases |todo|
    {
      var p :| p in todo;
      var r := LatestOf(subs, p);
      newest, todo := newest[p := r], todo - {p};
    }
  }

  lemma MaxAttemptIs(runs: map<Id, Database.Run>, x: Id, n: nat)
    requires forall q :: q in runs && runs[q].submission == x ==> runs[q].attempt <= n
    requires n > 0 ==> exists q :: q in runs && runs[q].submission == x && runs[q].attempt == n
    ensures MaxAttempt(runs, x) == n
  {
    hide MaxAttempt;
  }

  /** `SELECT max(attempt)` */
  method LastAttempt(runs: map<Id, Database.Run>, x: Id) returns (n: nat)
    ensures n == MaxAttempt(runs, x)
  {
    hide MaxAttempt;
    n := 0;
    var todo := runs.Keys;
    while todo != {}
      invariant todo <= runs.Keys
      invariant forall q :: q in runs && q !in todo && runs[q].submission == x ==> runs[q].attempt <= n
      invariant n > 0 ==> exists q :: q in runs && q !in todo && runs[q].submission == x && runs[q].attempt == n
      decreases |todo|
    {
      var q :| q in todo;
      if runs[q].submission == x && runs[q].attempt > n {
        n := runs[q].attempt;
      }
      todo := todo - {q};
    }
    MaxAttemptIs(runs, x, n);
  }

  /** `WHERE public_run_id IS NULL ORDER BY attempt DESC LIMIT 1` */
  method LastPublic(runs: map<Id, Database.Run>, x: Id) returns (r: Option<Id>)
    ensures r.Some? ==> IsLastPublic(runs, x, r.value)
    ensures r.None? ==> forall b :: !IsLastPublic(runs, x, b)
  {
    r := None;
    var todo := runs.Keys;
    while todo != {}
      invariant todo <= runs.Keys
      invariant r.None? ==> forall q :: q in runs && q !in todo ==> runs[q].submission != x || runs[q].baseline.Some?
      invariant r.Some? ==> r.value in runs && runs[r.value].submission == x && runs[r.value].baseline.None?
      invariant r.Some? ==>
                  forall q :: q in runs && q !in todo && runs[q].submission == x && runs[q].baseline.None? ==>
                           runs[q].attempt <= runs[r.value].attempt
      decreases |todo|
    {
      var q :| q in todo;
      if runs[q].submission == x && runs[q].baseline.None? && (r.None? || runs[q].attempt > runs[r.value].attempt) {
        r := Some(q);
      }
      todo := todo - {q};
    }
  }

  /** One most urgent submission: final ones first, then the newest. */
  method MostUrgent(s: Db, waiting: set<Id>) returns (x: Id)
    requires waiting != {} && waiting <= s.subs.Keys
    ensures x in waiting && forall y :: y in waiting ==> FetchedBefore(s, x, y)
  {
    x :| x in waiting;
    var todo := waiting;
    while todo != {}
      invariant todo <= waiting && x in waiting
      invariant forall y :: y in waiting && y !in todo ==> FetchedBefore(s, x, y)
      decreases |todo|
    {
      var y :| y in todo;
      if !FetchedBefore(s, x, y) {
        x := y;
      }
      todo := todo - {y};
    }
  }

  /** `ORDER BY final DESC, received_at DESC LIMIT slots` */
  method MostUrgentOf(s: Db, waiting: set<Id>, slots: int) returns (picks: set<Id>)
    requires waiting <= s.subs.Keys
    ensures picks <= waiting && (slots <= 0 ==> picks == {})
    ensures slots > 0 ==> |picks| == if |waiting| < slots then |waiting| else slots
    ensures forall x, y :: x in picks && y in waiting - picks ==> FetchedBefore(s, x, y)
  {
    hide IsFinal;
    picks := {};
    var rest := waiting;
    while |picks| < slots && rest != {}
      invariant picks + rest == waiting && picks !! rest
      invariant |picks| <= (if slots > 0 then slots else 0)
      invariant forall x, y :: x in picks && y in rest ==> FetchedBefore(s, x, y)
      decreases |rest|
    {
      var x := MostUrgent(s, rest);
      picks, rest := picks + {x}, rest - {x};
    }
    assert waiting - picks == rest;
    assert |waiting| == |picks| + |rest|;
  }
}
